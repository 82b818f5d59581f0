/** The terminal service itself: an object that rewrites the shared stores step by step, each
    method equal to the lifecycle function of the same step. */
module TerminalServices {
  import opened Entities
  import opened Lifecycle
  import opened Markers
  import opened Paging
  import opened Rows
  import opened Targets
  import opened Text
  import Frame

  /** The registry and observation stores that the services of all targets share, with the record
      of every backend call and the clock. */
  class World {
    var bindings: seq<Row<Binding>>
    var observations: seq<Row<Observation>>
    var log: seq<Call>
    var time: nat
    var minted: nat

    constructor ()
      ensures Now() == State([], [], [], 0, 0)
    {
      bindings, observations, log, time, minted := [], [], [], 0, 0;
    }

    function Now(): State
      reads this
    {
      State(bindings, observations, log, time, minted)
    }

    method Record(env: Env, call: Call)
      modifies this`log, this`time
      ensures Now() == Tick(env, old(Now()), call)
    {
      time := time + env.delay(|log|);
      log := log + [call];
    }

    method Pause(ms: nat)
      modifies this`time
      ensures Now() == Sleep(old(Now()), ms)
    {
      time := time + ms;
    }
  }

  lemma SlotUpdate(rows: seq<Row<Observation>>, h: string, o: Observation)
    ensures var slotted := WithSlot(rows, h, BLANK);
            var index := Position(slotted, h);
            index < |slotted| && slotted[index := Row(h, o)] == Put(slotted, h, o)
  {
    var slotted := WithSlot(rows, h, BLANK);
    if Lookup(rows, h).None? { LookupPush(rows, h, BLANK, h); }
    PositionLooksUp(slotted, h);
    PutIsUpdate(slotted, h, o);
  }

  lemma SlotHolds(rows: seq<Row<Observation>>, h: string)
    ensures var slotted := WithSlot(rows, h, BLANK);
            var index := Position(slotted, h);
            index < |slotted| && slotted[index].data == (match Lookup(rows, h) case Some(o) => o case None => BLANK)
  {
    var slotted := WithSlot(rows, h, BLANK);
    if Lookup(rows, h).None? { LookupPush(rows, h, BLANK, h); }
    PositionLooksUp(slotted, h);
  }

  lemma RowUpdate(rows: seq<Row<Binding>>, h: string, b: Binding)
    requires Position(rows, h) < |rows|
    ensures rows[Position(rows, h) := Row(h, b)] == Put(rows, h, b)
  {
    PositionLooksUp(rows, h);
    PutIsUpdate(rows, h, b);
  }

  lemma QuietSincePush(samples: seq<Sample>, x: Sample)
    ensures QuietSince(samples + [x])
            == if samples != [] && samples[|samples| - 1].hash == x.hash then QuietSince(samples) else x.at
  {
    assert (samples + [x])[..|samples|] == samples;
  }

  class TerminalService {
    const env: Env
    const targetId: string
    const backend: Backend
    const world: World

    constructor (env: Env, targetId: string, backend: Backend, world: World)
      ensures this.env == env && this.targetId == targetId && this.backend == backend && this.world == world
    {
      this.env, this.targetId, this.backend, this.world := env, targetId, backend, world;
    }

    function Self(): Service { Service(env, targetId, backend) }

    // -------------------------------------------------------------- backend calls

    method EnsureAvailable() returns (r: Result<(), ErrorCode>)
      modifies world
      ensures Step(world.Now(), r) == Lifecycle.EnsureAvailable(Self(), old(world.Now()))
    {
      var available := backend.available(|world.log|);
      world.Record(env, IsAvailable);
      r := if available then Ok(()) else Err(ErrorCode.ZjctlUnavailable);
    }

    method EnsureUsable(binding: Binding) returns (r: Result<(), ErrorCode>)
      modifies world
      ensures Step(world.Now(), r) == Lifecycle.EnsureUsable(Self(), old(world.Now()), binding)
    {
      if SkipsAvailability(Self(), binding) {
        return Ok(());
      }
      r := EnsureAvailable();
    }

    method EnsureSessionReady(session: string, code: ErrorCode) returns (r: Result<(), ErrorCode>)
      modifies world
      ensures Step(world.Now(), r) == EnsureReady(Self(), old(world.Now()), session, code)
    {
      var answer := backend.ready(|world.log|, session);
      world.Record(env, SessionReady(session));
      r := Mapped(env, answer, code);
    }

    method ListTargetsInSession(session: string) returns (r: Result<seq<Target>, AdapterError>)
      modifies world
      ensures Step(world.Now(), r) == ListPanes(Self(), old(world.Now()), session)
    {
      var answer := backend.panes(|world.log|, session);
      world.Record(env, ListTargets(session));
      if answer.Err? {
        return Err(answer.error);
      }
      r := Ok(PanesToTargets(answer.value, session));
    }

    method ListOrFail(session: string, code: ErrorCode) returns (r: Result<seq<Target>, ErrorCode>)
      modifies world
      ensures Step(world.Now(), r) == ListMapped(Self(), old(world.Now()), session, code)
    {
      var listed := ListTargetsInSession(session);
      r := Mapped(env, listed, code);
    }

    method ResolveQuery(query: Query) returns (r: Result<Target, AdapterError>)
      modifies world
      ensures Step(world.Now(), r) == Resolve(Self(), old(world.Now()), query)
    {
      var answer := backend.panes(|world.log|, query.session);
      world.Record(env, ResolveSelector(query.session, query.selector));
      if answer.Err? {
        return Err(answer.error);
      }
      r := ResolveFromCandidates(query.tabName, query.selector, PanesToTargets(answer.value, query.session));
    }

    method Act(action: Action, session: string, selector: string) returns (r: Result<Snapshot, AdapterError>)
      modifies world
      ensures Step(world.Now(), r) == DoAt(Self(), old(world.Now()), action, session, selector)
    {
      r := backend.perform(|world.log|, action, session, selector);
      world.Record(env, Perform(action, session, selector));
    }

    // -------------------------------------------------------------- the stores

    method ReadBinding(h: string) returns (r: Result<Binding, ErrorCode>)
      ensures r == match Lookup(world.bindings, h) case Some(b) => Ok(b) case None => Err(HandleNotFound)
    {
      var bindings := world.bindings;
      var index := Position(bindings, h);
      PositionLooksUp(bindings, h);
      r := if index < |bindings| then Ok(bindings[index].data) else Err(HandleNotFound);
    }

    method MarkBindingStale(h: string)
      modifies world
      ensures world.Now() == MarkStale(old(world.Now()), h)
    {
      var bindings := world.bindings;
      var index := Position(bindings, h);
      PositionLooksUp(bindings, h);
      if index < |bindings| {
        var binding := bindings[index].data;
        RowUpdate(bindings, h, binding.(status := Stale, updatedAt := world.time));
        bindings := bindings[index := Row(h, binding.(status := Stale, updatedAt := world.time))];
        world.bindings := bindings;
      }
    }

    method UpdateSpawnStatus(h: string, status: Status, now: nat) returns (r: Result<Binding, ErrorCode>)
      modifies world
      ensures Step(world.Now(), r) == UpdateStatus(old(world.Now()), h, status, now)
    {
      var bindings := world.bindings;
      var index := Position(bindings, h);
      PositionLooksUp(bindings, h);
      if index == |bindings| {
        return Err(HandleNotFound);
      }
      var binding := bindings[index].data.(status := status, updatedAt := now);
      RowUpdate(bindings, h, binding);
      world.bindings := bindings[index := Row(h, binding)];
      r := Ok(binding);
    }

    method RemovePersistedHandle(h: string)
      modifies world
      ensures world.Now() == Rollback(old(world.Now()), h)
    {
      world.bindings := Without(world.bindings, h);
      world.observations := Without(world.observations, h);
    }

    /** Reads the observations, gives the handle a slot if it has none, and opens it for update. */
    method OpenObservation(h: string) returns (observations: seq<Row<Observation>>, index: nat, o: TerminalObservation)
      ensures observations == WithSlot(world.observations, h, BLANK)
      ensures index == Position(observations, h) < |observations|
      ensures fresh(o) && o.Value() == ObservationOf(world.Now(), h)
    {
      observations := WithSlot(world.observations, h, BLANK);
      index := Position(observations, h);
      SlotHolds(world.observations, h);
      o := new TerminalObservation(observations[index].data);
    }

    method RecordBaseline(h: string, snapshot: Snapshot)
      modifies world
      ensures world.Now()
              == SetObservation(old(world.Now()), h, Baseline(env, ObservationOf(old(world.Now()), h), snapshot))
    {
      var observations, index, o := OpenObservation(h);
      o.UpdateFullSnapshot(snapshot.content, env.hash(snapshot.content), snapshot.capturedAt);
      o.ResetCommandBoundary();
      SlotUpdate(world.observations, h, o.Value());
      world.observations := observations[index := Row(h, o.Value())];
    }

    // -------------------------------------------------------------- revalidation

    method ResolveAnyOf(queries: seq<Query>) returns (r: Result<Option<Target>, AdapterError>)
      modifies world
      ensures Step(world.Now(), r) == ResolveAny(Self(), old(world.Now()), queries)
      ensures world.bindings == old(world.bindings)
    {
      var i := 0;
      while i < |queries|
        invariant 0 <= i <= |queries|
        invariant world.bindings == old(world.bindings)
        invariant ResolveAny(Self(), world.Now(), queries[i..]) == ResolveAny(Self(), old(world.Now()), queries)
      {
        assert queries[i..][1..] == queries[i + 1..];
        var resolved := ResolveQuery(queries[i]);
        if resolved.Ok? {
          return Ok(Some(resolved.value));
        }
        if !IsMissing(resolved.error) {
          return Err(resolved.error);
        }
        i := i + 1;
      }
      r := Ok(None);
    }

    method ResolveInAttempts(queries: seq<Query>) returns (r: Result<Option<Target>, AdapterError>)
      modifies world
      ensures Step(world.Now(), r) == ResolveAttempts(Self(), old(world.Now()), queries, 0)
      ensures world.bindings == old(world.bindings)
    {
      var attempt := 0;
      while attempt < 3
        invariant 0 <= attempt <= 3
        invariant world.bindings == old(world.bindings)
        invariant ResolveAttempts(Self(), world.Now(), queries, attempt)
                  == ResolveAttempts(Self(), old(world.Now()), queries, 0)
      {
        r := ResolveAnyOf(queries);
        if r != Ok(None) {
          return;
        }
        if attempt < 2 {
          world.Pause(150);
        }
        attempt := attempt + 1;
      }
      r := Ok(None);
    }

    method RequeryBinding(h: string, binding: Binding) returns (r: Result<Binding, ErrorCode>)
      requires Lookup(world.bindings, h) == Some(binding)
      modifies world
      ensures Step(world.Now(), r) == Requery(Self(), old(world.Now()), h, binding)
    {
      var bindings := world.bindings;
      var index := Position(bindings, h);
      PositionLooksUp(bindings, h);
      var ready := EnsureSessionReady(binding.session, AttachFailed);
      if ready.Err? {
        return Err(ready.error);
      }
      var resolved := ResolveInAttempts(Queries(binding));
      if resolved.Err? {
        return Err(MapError(env, resolved.error, AttachFailed));
      }
      var updated := Revalidated(binding, resolved.value, world.time);
      RowUpdate(bindings, h, updated);
      world.bindings := bindings[index := Row(h, updated)];
      r := Ok(updated);
    }

    method ReconcileSpawnBinding(h: string, budget: nat) returns (r: Result<Option<Binding>, ErrorCode>)
      modifies world
      ensures Step(world.Now(), r) == Reconcile(Self(), old(world.Now()), h, Deadline(old(world.Now()), budget))
    {
      var deadline := Deadline(world.Now(), budget);
      while true
        invariant Reconcile(Self(), world.Now(), h, deadline) == Reconcile(Self(), old(world.Now()), h, deadline)
        decreases Remaining(world.time, deadline)
      {
        ghost var start := world.Now();
        var bindings := world.bindings;
        var index := Position(bindings, h);
        PositionLooksUp(bindings, h);
        if index == |bindings| {
          return Err(HandleNotFound);
        }
        var binding := bindings[index].data;
        if binding.paneId.Some? && binding.selector != "" {
          return Ok(Some(binding));
        }
        var observation := ObservationOf(world.Now(), h);
        var after := ListOrFail(binding.session, SpawnFailed);
        if after.Err? {
          return Err(after.error);
        }
        var resolved := ResolveSpawnCandidate(Hints(binding, observation), after.value);
        if resolved.Some? {
          var located := Located(binding, resolved.value, world.time);
          RowUpdate(bindings, h, located);
          world.bindings := bindings[index := Row(h, located)];
          return Ok(Some(located));
        }
        if world.time >= deadline {
          return Ok(None);
        }
        world.Pause(150);
      }
    }

    method RefreshBindingTarget(h: string) returns (r: Result<Binding, ErrorCode>)
      modifies world
      ensures Step(world.Now(), r) == Refresh(Self(), old(world.Now()), h)
    {
      var bindings := world.bindings;
      var index := Position(bindings, h);
      PositionLooksUp(bindings, h);
      if index == |bindings| {
        return Err(HandleNotFound);
      }
      var binding := bindings[index].data;
      if binding.status.Closed? {
        return Ok(binding);
      }
      if IsUnresolved(binding) {
        var found := ReconcileSpawnBinding(h, 500);
        if found.Err? {
          return Err(found.error);
        }
        return Ok(if found.value.Some? then found.value.value else binding);
      }
      r := RequeryBinding(h, binding);
    }

    // -------------------------------------------------------------- retries and waits

    /** The retry loop, whose end is never reached. */
    method TryThreeTimes(h: string, binding: Binding, code: ErrorCode, action: Action)
      returns (r: Result<Snapshot, ErrorCode>)
      modifies world
      ensures Step(world.Now(), r) == RetryFrom(Self(), old(world.Now()), h, binding, code, action, 0)
    {
      var current := binding;
      var attempt := 0;
      while attempt < 3
        invariant 0 <= attempt < 3
        invariant RetryFrom(Self(), world.Now(), h, current, code, action, attempt)
                  == RetryFrom(Self(), old(world.Now()), h, binding, code, action, 0)
      {
        var done := Act(action, current.session, current.selector);
        if done.Ok? {
          return Ok(done.value);
        }
        if !IsMissing(done.error) {
          return Err(MapError(env, done.error, code));
        }
        var refreshed := RefreshBindingTarget(h);
        if refreshed.Err? {
          return Err(refreshed.error);
        }
        current := refreshed.value;
        if !IsActive(current) {
          return Err(TargetStale);
        }
        if attempt == 2 {
          MarkBindingStale(h);
          return Err(TargetStale);
        }
        world.Pause(150);
        attempt := attempt + 1;
      }
      assert false;
    }

    method RunBindingOperationWithRetry(h: string, binding: Binding, code: ErrorCode, action: Action)
      returns (r: Result<Snapshot, ErrorCode>)
      modifies world
      ensures Step(world.Now(), r) == Retry(Self(), old(world.Now()), h, binding, code, action)
    {
      if !SkipsAvailability(Self(), binding) {
        var ready := EnsureSessionReady(binding.session, code);
        if ready.Err? {
          return Err(ready.error);
        }
      }
      r := TryThreeTimes(h, binding, code, action);
    }

    method WaitViaCapturePolling(h: string, binding: Binding, idleMs: nat, timeoutMs: nat)
      returns (r: Result<(), ErrorCode>)
      modifies world
      ensures Step(world.Now(), r)
              == Discard(Poll(Self(), old(world.Now()), h, binding, idleMs, Deadline(old(world.Now()), timeoutMs), []))
    {
      var deadline := Deadline(world.Now(), timeoutMs);
      var lastHash: Option<string> := None;
      var lastChange := world.time;
      var pollInterval := PollInterval(idleMs);
      ghost var samples: seq<Sample> := [];
      while world.time < deadline
        invariant Poll(Self(), world.Now(), h, binding, idleMs, deadline, samples)
                  == Poll(Self(), old(world.Now()), h, binding, idleMs, deadline, [])
        invariant samples == [] ==> lastHash == None
        invariant samples != [] ==> lastHash == Some(samples[|samples| - 1].hash) && lastChange == QuietSince(samples)
        decreases Remaining(world.time, deadline)
      {
        var snapshot := RunBindingOperationWithRetry(h, binding, CaptureFailed, CaptureFull);
        if snapshot.Err? {
          return Err(snapshot.error);
        }
        var hash := env.hash(snapshot.value.content);
        QuietSincePush(samples, Sample(hash, world.time));
        samples := samples + [Sample(hash, world.time)];
        if lastHash == Some(hash) {
          if world.time - lastChange >= idleMs {
            return Ok(());
          }
        } else {
          lastHash := Some(hash);
          lastChange := world.time;
        }
        world.Pause(pollInterval);
      }
      r := Err(WaitTimeout);
    }

    method AwaitIdle(h: string, binding: Binding, idleMs: nat, timeoutMs: nat) returns (r: Result<(), ErrorCode>)
      modifies world
      ensures Step(world.Now(), r) == Lifecycle.AwaitIdle(Self(), old(world.Now()), h, binding, idleMs, timeoutMs)
    {
      var first := RunBindingOperationWithRetry(h, binding, WaitFailed, WaitIdle(idleMs, timeoutMs));
      if first == Err(TargetStale) {
        r := WaitViaCapturePolling(h, binding, idleMs, timeoutMs);
      } else {
        r := if first.Ok? then Ok(()) else Err(first.error);
      }
    }

    method VerifyBindingClosed(binding: Binding) returns (r: Result<(), ErrorCode>)
      modifies world
      ensures Step(world.Now(), r)
              == VerifyClosed(Self(), old(world.Now()), binding, Deadline(old(world.Now()), CloseBudget(Self())))
    {
      var deadline := Deadline(world.Now(), CloseBudget(Self()));
      while true
        invariant VerifyClosed(Self(), world.Now(), binding, deadline)
                  == VerifyClosed(Self(), old(world.Now()), binding, deadline)
        decreases Remaining(world.time, deadline)
      {
        var targets := ListOrFail(binding.session, CloseFailed);
        if targets.Err? {
          return Err(targets.error);
        }
        if !AnyMatches(binding, targets.value) {
          return Ok(());
        }
        if world.time >= deadline {
          return Err(CloseFailed);
        }
        world.Pause(50);
      }
    }

    method AttemptShellExitClose(binding: Binding) returns (r: Result<(), ErrorCode>)
      modifies world
      ensures Step(world.Now(), r) == ExitShell(Self(), old(world.Now()), binding)
    {
      var sent := Act(SendInput("exit", true), binding.session, binding.selector);
      if sent.Err? {
        return Err(MapError(env, sent.error, CloseFailed));
      }
      r := VerifyBindingClosed(binding);
    }

    // -------------------------------------------------------------- spawn

    method ListBeforeSpawn(request: SpawnRequest) returns (r: Result<seq<Target>, ErrorCode>)
      modifies world
      ensures Step(world.Now(), r) == PanesBefore(Self(), old(world.Now()), request)
    {
      if IsRemote(Self()) {
        var listed := ListTargetsInSession(request.session);
        return Ok(if listed.Ok? then listed.value else []);
      }
      var available := EnsureAvailable();
      if available.Err? {
        return Err(available.error);
      }
      var ready := EnsureSessionReady(request.session, SpawnFailed);
      if ready.Err? {
        return Err(ready.error);
      }
      r := ListOrFail(request.session, SpawnFailed);
    }

    method LaunchSpawnPane() returns (r: Result<Option<CanonicalTarget>, ErrorCode>)
      modifies world
      ensures Step(world.Now(), r) == LaunchPane(Self(), old(world.Now()))
    {
      var answer := backend.launch(|world.log|);
      world.Record(env, LaunchSpawn);
      r := Mapped(env, answer, SpawnFailed);
    }

    method NextHandle() returns (h: string)
      modifies world`minted
      ensures h == env.handle(old(world.minted)) && world.Now() == old(world.Now()).(minted := old(world.minted) + 1)
    {
      h := env.handle(world.minted);
      world.minted := world.minted + 1;
    }

    method PersistSpawnState(h: string, binding: Binding, observation: Observation)
      modifies world
      ensures world.Now() == Register(old(world.Now()), h, binding, observation)
    {
      world.bindings := Without(world.bindings, h) + [Row(h, binding)];
      world.observations := Without(world.observations, h) + [Row(h, observation)];
    }

    method LaunchAndPersist(request: SpawnRequest) returns (r: Result<Launched, ErrorCode>)
      modifies world
      ensures Step(world.Now(), r) == LaunchAndRegister(Self(), old(world.Now()), request)
    {
      var before := ListBeforeSpawn(request);
      if before.Err? {
        return Err(before.error);
      }
      var launched := LaunchSpawnPane();
      if launched.Err? {
        return Err(launched.error);
      }
      var handle := NextHandle();
      var now := world.time;
      var binding := SpawnedBinding(Self(), request, launched.value, now);
      var observation := new TerminalObservation(BLANK);
      observation.SetSpawnHints(PaneIds(before.value), request.target, request.tabName, request.title,
                                Some(LaunchCommand(request)), now);
      PersistSpawnState(handle, binding, observation.Value());
      r := Ok(Launched(handle, binding, launched.value.None?));
    }

    method UpdateSpawnObservation(h: string, snapshot: Snapshot)
      modifies world
      ensures world.Now()
              == SetObservation(old(world.Now()), h, FirstObservation(env, ObservationOf(old(world.Now()), h), snapshot))
    {
      var observations, index, o := OpenObservation(h);
      o.UpdateFullSnapshot(snapshot.content, env.hash(snapshot.content), snapshot.capturedAt);
      o.ResetCommandBoundary();
      var found := InteractionIn(snapshot.content, o.Value());
      if found.Some? && found.value.completed {
        o.CompleteInteraction(found.value.exitCode, snapshot.capturedAt);
      }
      SlotUpdate(world.observations, h, o.Value());
      world.observations := observations[index := Row(h, o.Value())];
    }

    method StayBusy(h: string) returns (r: Result<Settled, ErrorCode>)
      modifies world
      ensures Step(world.Now(), r) == LeaveBusy(old(world.Now()), h)
    {
      var updated := UpdateSpawnStatus(h, Busy, world.time);
      if updated.Err? {
        return Err(updated.error);
      }
      r := Ok(LeftBusy(updated.value));
    }

    method TakeFirstCapture(h: string) returns (r: Result<Settled, ErrorCode>)
      modifies world
      ensures Step(world.Now(), r) == CaptureFirst(Self(), old(world.Now()), h)
    {
      var active := RefreshBindingTarget(h);
      if active.Err? {
        RemovePersistedHandle(h);
        return Err(active.error);
      }
      var snapshot := RunBindingOperationWithRetry(h, active.value, CaptureFailed, CaptureFull);
      if snapshot.Err? {
        if snapshot.error == CaptureFailed {
          r := StayBusy(h);
          return;
        }
        RemovePersistedHandle(h);
        return Err(snapshot.error);
      }
      UpdateSpawnObservation(h, snapshot.value);
      var updated := UpdateSpawnStatus(h, Ready, snapshot.value.capturedAt);
      if updated.Err? {
        return Err(updated.error);
      }
      r := Ok(Observed);
    }

    method SettleSpawn(h: string, request: SpawnRequest) returns (r: Result<Settled, ErrorCode>)
      modifies world
      ensures Step(world.Now(), r) == Settle(Self(), old(world.Now()), h, request)
    {
      var active := RefreshBindingTarget(h);
      if active.Err? {
        RemovePersistedHandle(h);
        return Err(active.error);
      }
      if request.waitReady {
        var waited := AwaitIdle(h, active.value, 1200, 30000);
        if waited.Err? {
          if waited.error == WaitTimeout {
            r := StayBusy(h);
            return;
          }
          RemovePersistedHandle(h);
          return Err(waited.error);
        }
      }
      r := TakeFirstCapture(h);
    }

    method Spawn(request: SpawnRequest) returns (r: Result<SpawnResponse, ErrorCode>)
      modifies world
      ensures Step(world.Now(), r) == Lifecycle.Spawn(Self(), old(world.Now()), request)
    {
      var launched := LaunchAndPersist(request);
      if launched.Err? {
        return Err(launched.error);
      }
      var handle := launched.value.handle;
      if launched.value.detached {
        return Ok(Describe(Self(), handle, launched.value.binding));
      }
      var settled := SettleSpawn(handle, request);
      if settled.Err? {
        return Err(settled.error);
      }
      if settled.value.LeftBusy? {
        return Ok(Describe(Self(), handle, settled.value.binding));
      }
      var ready := RefreshBindingTarget(handle);
      if ready.Err? {
        return Err(ready.error);
      }
      r := Ok(Describe(Self(), handle, ready.value));
    }

    // -------------------------------------------------------------- attach and takeover

    method ResolveUniqueLocationTarget(session: string, intent: LocationIntent, code: ErrorCode)
      returns (r: Result<Target, ErrorCode>)
      modifies world
      ensures Step(world.Now(), r) == ResolveLocation(Self(), old(world.Now()), session, intent, code)
    {
      var candidates := ListOrFail(session, code);
      if candidates.Err? {
        return Err(candidates.error);
      }
      match ResolveUnique(intent, candidates.value)
      case Ok(target) => r := Ok(target);
      case Err(NotFound) => r := Err(TargetNotFound);
      case Err(Ambiguous) => r := Err(SelectorNotUnique);
    }

    method RegisterAttached(h: string, binding: Binding)
      requires world.minted > 0
      modifies world
      ensures world.Now() == AttachRegister(Self(), old(world.Now()).(minted := old(world.minted) - 1), h, binding)
    {
      world.bindings := world.bindings + [Row(h, binding)];
      world.observations := Without(world.observations, h) + [Row(h, BLANK)];
    }

    method EstablishBaseline(h: string, snapshot: Snapshot)
      modifies world
      ensures world.Now() == AttachBaseline(Self(), old(world.Now()), h, snapshot)
    {
      RecordBaseline(h, snapshot);
      var bindings := world.bindings;
      var index := Position(bindings, h);
      PositionLooksUp(bindings, h);
      if index < |bindings| {
        var attached := bindings[index].data.(status := Ready, updatedAt := snapshot.capturedAt);
        RowUpdate(bindings, h, attached);
        world.bindings := bindings[index := Row(h, attached)];
      }
    }

    method AttachResolvedTarget(target: Target, alias: Option<string>) returns (r: Result<AttachResponse, ErrorCode>)
      modifies world
      ensures Step(world.Now(), r) == AttachTo(Self(), old(world.Now()), target, alias)
    {
      var handle := NextHandle();
      var binding := AttachedBinding(Self(), target, alias, world.time);
      RegisterAttached(handle, binding);
      var captured := Act(CaptureFull, target.session, target.selector);
      if captured.Err? {
        return Ok(AttachResponse(handle, targetId, false, target.selector));
      }
      EstablishBaseline(handle, captured.value);
      r := Ok(AttachResponse(handle, targetId, true, target.selector));
    }

    method Takeover(session: string, intent: LocationIntent, alias: Option<string>)
      returns (r: Result<AttachResponse, ErrorCode>)
      modifies world
      ensures Step(world.Now(), r) == Lifecycle.Attach(Self(), old(world.Now()), session, intent, alias)
    {
      var available := EnsureAvailable();
      if available.Err? {
        return Err(available.error);
      }
      var found := ResolveUniqueLocationTarget(session, intent, AttachFailed);
      if found.Err? {
        return Err(found.error);
      }
      r := AttachResolvedTarget(found.value, alias);
    }

    method Attach(session: string, tabName: Option<string>, selector: string, alias: Option<string>)
      returns (r: Result<AttachResponse, ErrorCode>)
      modifies world
      ensures Step(world.Now(), r)
              == Lifecycle.Attach(Self(), old(world.Now()), session, AttachIntent(tabName, selector), alias)
    {
      var trimmed := Trim(selector);
      var intent := LocationIntent(tabName, if trimmed != "" then Some(trimmed) else None, None, None);
      r := Takeover(session, intent, alias);
    }

    // -------------------------------------------------------------- capture

    method RefreshAndReread(h: string) returns (r: Result<Binding, ErrorCode>)
      modifies world
      ensures Step(world.Now(), r) == RefreshAndSync(Self(), old(world.Now()), h)
    {
      var active := RefreshBindingTarget(h);
      if active.Err? {
        return Err(active.error);
      }
      var binding := ReadBinding(h);
      if binding.Err? {
        return Err(binding.error);
      }
      r := Ok(Synced(binding.value, active.value));
    }

    method SelectText(mode: CaptureMode, content: string, o: Observation, found: Option<Interaction>)
      returns (text: string)
      ensures text == Selected(mode, content, o, found)
    {
      match mode
      case Full => text := content;
      case Delta => text := SuffixAfterBaseline(content, o.lastContent);
      case Current =>
        if found.Some? {
          return found.value.body;
        }
        var heavy := Frame.IsRepaintHeavy(content);
        if heavy {
          text := Frame.NormalizeCurrentFrame(content);
        } else {
          text := SuffixAfterBaseline(content, o.boundaryContent);
        }
    }

    method AnswerCapture(request: CaptureRequest, extent: Extent, snapshot: Snapshot, before: Observation,
                         after: Observation) returns (answer: CaptureResponse)
      ensures answer == CaptureAnswer(request, extent, snapshot, before, after)
    {
      var found := InteractionIn(snapshot.content, before);
      var text := SelectText(request.mode, snapshot.content, before, found);
      if request.normalizeAnsi {
        text := Frame.StripAnsiSequences(text);
      }
      var completed := if after.interactionId.Some? then Some(after.interactionCompletedAt.Some?) else None;
      answer := CaptureResponse(Cut(text, extent), snapshot.capturedAt, snapshot.truncated,
                                BasisOf(request.mode, found), after.interactionId, completed,
                                after.interactionExitCode);
    }

    method ObserveCapture(h: string, snapshot: Snapshot) returns (before: Observation, after: Observation)
      modifies world
      ensures before == ObservationOf(old(world.Now()), h) && after == AfterCapture(env, before, snapshot)
      ensures world.Now() == SetObservation(old(world.Now()), h, after)
    {
      var observations, index, o := OpenObservation(h);
      before := o.Value();
      var found := InteractionIn(snapshot.content, before);
      o.UpdateFullSnapshot(snapshot.content, env.hash(snapshot.content), snapshot.capturedAt);
      if found.Some? && found.value.completed {
        o.CompleteInteraction(found.value.exitCode, snapshot.capturedAt);
      }
      after := o.Value();
      SlotUpdate(world.observations, h, after);
      world.observations := observations[index := Row(h, after)];
    }

    method CaptureBinding(request: CaptureRequest, extent: Extent, binding: Binding)
      returns (r: Result<CaptureResponse, ErrorCode>)
      requires Lookup(world.bindings, request.handle).Some?
      modifies world
      ensures Step(world.Now(), r) == CaptureActive(Self(), old(world.Now()), request, extent, binding)
    {
      var bindings := world.bindings;
      var index := Position(bindings, request.handle);
      PositionLooksUp(bindings, request.handle);
      var captured := RunBindingOperationWithRetry(request.handle, binding, CaptureFailed, CaptureFull);
      if captured.Err? {
        return Err(captured.error);
      }
      var before, after := ObserveCapture(request.handle, captured.value);
      var answer := AnswerCapture(request, extent, captured.value, before, after);
      RowUpdate(bindings, request.handle, CapturedBinding(binding, captured.value));
      bindings := bindings[index := Row(request.handle, CapturedBinding(binding, captured.value))];
      world.bindings := bindings;
      r := Ok(answer);
    }

    method Capture(request: CaptureRequest) returns (r: Result<CaptureResponse, ErrorCode>)
      modifies world
      ensures Step(world.Now(), r) == Lifecycle.Capture(Self(), old(world.Now()), request)
    {
      var stored := ReadBinding(request.handle);
      if stored.Err? {
        return Err(stored.error);
      }
      var usable := EnsureUsable(stored.value);
      if usable.Err? {
        return Err(usable.error);
      }
      var extent := CaptureExtent(request);
      if extent.Err? {
        return Err(extent.error);
      }
      var synced := RefreshAndReread(request.handle);
      if synced.Err? {
        return Err(synced.error);
      }
      if !IsActive(synced.value) {
        return Err(TargetStale);
      }
      r := CaptureBinding(request, extent.value, synced.value);
    }

    // -------------------------------------------------------------- send

    method PrepareAttachedSendBoundary(h: string, binding: Binding) returns (r: Result<(), ErrorCode>)
      modifies world
      ensures Step(world.Now(), r) == PrepareBoundary(Self(), old(world.Now()), h, binding)
    {
      var snapshot := Act(CaptureFull, binding.session, binding.selector);
      if snapshot.Err? {
        if IsMissing(snapshot.error) {
          MarkBindingStale(h);
          return Err(TargetStale);
        }
        return Err(MapError(env, snapshot.error, CaptureFailed));
      }
      RecordBaseline(h, snapshot.value);
      r := Ok(());
    }

    method TypeAs(request: SendRequest, binding: Binding, payload: Payload, id: Option<string>, validated: bool,
                  clears: bool) returns (typed: Payload)
      ensures typed == Typed(env, binding, request, payload, id, validated, clears)
    {
      var text := payload.text;
      if id.Some? {
        text := Wrapped(env, binding, request.text, id.value, validated);
      }
      if clears {
        text := [21 as char] + text;
      }
      typed := Payload(text, payload.submit);
    }

    method DecidePayload(request: SendRequest, binding: Binding, mode: SendMode, clears: bool)
      returns (r: Result<SendPlan, ErrorCode>)
      modifies world`minted
      ensures Step(world.Now(), r) == PlanPayload(Self(), old(world.Now()), request, binding, mode, clears)
    {
      var payload := BuildPayload(env, request, mode);
      if payload.Err? {
        return Err(payload.error);
      }
      var validated := ObservationOf(world.Now(), request.handle).wrapperHash == Some(env.wrapperHash);
      var interactionId: Option<string> := None;
      if WantsInteraction(binding, request, mode) {
        interactionId := Some(env.interaction(world.minted));
        world.minted := world.minted + 1;
      }
      var typed := TypeAs(request, binding, payload.value, interactionId, validated, clears);
      r := Ok(SendPlan(binding, mode, clears, typed, interactionId));
    }

    method PrepareSend(request: SendRequest) returns (r: Result<SendPlan, ErrorCode>)
      modifies world
      ensures Step(world.Now(), r) == PlanSend(Self(), old(world.Now()), request)
    {
      var binding := RefreshBindingTarget(request.handle);
      if binding.Err? {
        return Err(binding.error);
      }
      var mode := ResolveSendMode(request);
      if mode.Err? {
        return Err(mode.error);
      }
      var clears := ClearsInput(binding.value, request, mode.value);
      if clears {
        var prepared := PrepareAttachedSendBoundary(request.handle, binding.value);
        if prepared.Err? {
          return Err(prepared.error);
        }
      }
      r := DecidePayload(request, binding.value, mode.value, clears);
    }

    method TypeInlineLine(request: SendRequest, plan: SendPlan, id: string) returns (r: Result<bool, ErrorCode>)
      modifies world
      ensures Step(world.Now(), r) == TypeInline(Self(), old(world.Now()), request, plan, id)
    {
      var sent := RunBindingOperationWithRetry(request.handle, plan.binding, SendFailed,
                                               SendInput(InlineFish(request.text, id), plan.payload.submit));
      if sent.Err? {
        return Err(sent.error);
      }
      r := Ok(true);
    }

    method FallBackToInline(request: SendRequest, plan: SendPlan, id: string) returns (r: Result<bool, ErrorCode>)
      modifies world
      ensures Step(world.Now(), r) == Fallback(Self(), old(world.Now()), request, plan, id)
    {
      var snapshot := RunBindingOperationWithRetry(request.handle, plan.binding, CaptureFailed, CaptureFull);
      if snapshot.Err? || !LacksFishWrapper(snapshot.value) {
        return Ok(false);
      }
      r := TypeInlineLine(request, plan, id);
    }

    method DeliverPayload(request: SendRequest, plan: SendPlan) returns (r: Result<bool, ErrorCode>)
      modifies world
      ensures Step(world.Now(), r) == Deliver(Self(), old(world.Now()), request, plan)
    {
      var sent := RunBindingOperationWithRetry(request.handle, plan.binding, SendFailed,
                                               SendInput(plan.payload.text, plan.payload.submit));
      if sent.Err? {
        return Err(sent.error);
      }
      if plan.interactionId.None? || !RunsFish(plan.binding) {
        return Ok(false);
      }
      world.Pause(75);
      r := FallBackToInline(request, plan, plan.interactionId.value);
    }

    method ObserveSend(o: TerminalObservation, request: SendRequest, plan: SendPlan, fellBack: bool)
      modifies o
      ensures o.Value() == AfterSend(env, old(o.Value()), request, plan, fellBack, world.time)
    {
      if RunsFish(plan.binding) && request.keys == [] && request.text != "" {
        if fellBack {
          o.ClearWrapperHash();
        } else {
          o.RememberWrapperHash(env.wrapperHash);
        }
      }
      if plan.interactionId.Some? {
        o.StartInteraction(plan.interactionId.value, world.time);
      }
      if ResetsBoundary(request, plan) {
        o.ResetCommandBoundary();
      }
    }

    method DeliverAndRecord(request: SendRequest, plan: SendPlan) returns (r: Result<string, ErrorCode>)
      modifies world
      ensures Step(world.Now(), r) == DeliverPlanned(Self(), old(world.Now()), request, plan)
    {
      var observations, index, o := OpenObservation(request.handle);
      ghost var rows := world.observations;
      var fellBack := DeliverPayload(request, plan);
      if fellBack.Err? {
        return Err(fellBack.error);
      }
      ObserveSend(o, request, plan, fellBack.value);
      SlotUpdate(rows, request.handle, o.Value());
      world.observations := observations[index := Row(request.handle, o.Value())];
      r := Ok(request.handle);
    }

    method SendByHandle(request: SendRequest) returns (r: Result<string, ErrorCode>)
      modifies world
      ensures Step(world.Now(), r) == SendToHandle(Self(), old(world.Now()), request)
    {
      var plan := PrepareSend(request);
      if plan.Err? {
        return Err(plan.error);
      }
      if !IsActive(plan.value.binding) {
        return Err(TargetStale);
      }
      r := DeliverAndRecord(request, plan.value);
    }

    method SendByLocation(request: SendRequest, session: string) returns (r: Result<string, ErrorCode>)
      modifies world
      ensures Step(world.Now(), r) == SendToLocation(Self(), old(world.Now()), request, session)
    {
      var target := ResolveUniqueLocationTarget(session, LocationIntent(request.tabName, request.selector, None, None),
                                                SendFailed);
      if target.Err? {
        return Err(target.error);
      }
      var mode := ResolveSendMode(request);
      if mode.Err? {
        return Err(mode.error);
      }
      var payload := BuildPayload(env, request, mode.value);
      if payload.Err? {
        return Err(payload.error);
      }
      var sent := Act(SendInput(payload.value.text, payload.value.submit), target.value.session, target.value.selector);
      if sent.Err? {
        return Err(MapError(env, sent.error, SendFailed));
      }
      r := Ok("");
    }

    method Send(request: SendRequest) returns (r: Result<string, ErrorCode>)
      modifies world
      ensures Step(world.Now(), r) == Lifecycle.Send(Self(), old(world.Now()), request)
    {
      var available := EnsureAvailable();
      if available.Err? {
        return Err(available.error);
      }
      if Trim(request.handle) != "" {
        if request.session.Some? || request.tabName.Some? || request.selector.Some? {
          return Err(InvalidArgument);
        }
        r := SendByHandle(request);
      } else if request.session.None? {
        r := Err(InvalidArgument);
      } else {
        r := SendByLocation(request, request.session.value);
      }
    }

    // -------------------------------------------------------------- replace

    method ReplaceIn(h: string, command: string, interrupt: bool, binding: Binding)
      returns (r: Result<Option<string>, ErrorCode>)
      modifies world
      ensures Step(world.Now(), r) == ReplaceActive(Self(), old(world.Now()), h, command, interrupt, binding)
    {
      if interrupt {
        var interrupted := RunBindingOperationWithRetry(h, binding, SendFailed, SendInput(INTERRUPT, false));
        if interrupted.Err? {
          return Err(interrupted.error);
        }
      }
      var sent := Send(ReplaceLine(h, command));
      if sent.Err? {
        return Err(sent.error);
      }
      r := Ok(ObservationOf(world.Now(), h).interactionId);
    }

    method Replace(h: string, command: string, interrupt: bool) returns (r: Result<Option<string>, ErrorCode>)
      modifies world
      ensures Step(world.Now(), r) == ReplaceCommand(Self(), old(world.Now()), h, command, interrupt)
    {
      var available := EnsureAvailable();
      if available.Err? {
        return Err(available.error);
      }
      var binding := RefreshBindingTarget(h);
      if binding.Err? {
        return Err(binding.error);
      }
      if !IsActive(binding.value) {
        return Err(TargetStale);
      }
      if !SupportsMarkers(binding.value) {
        return Err(InvalidArgument);
      }
      r := ReplaceIn(h, command, interrupt, binding.value);
    }

    // -------------------------------------------------------------- wait

    method RecordWait(h: string, waited: Result<(), ErrorCode>)
      modifies world
      ensures world.Now() == MarkWaited(old(world.Now()), h, waited)
    {
      var bindings := world.bindings;
      var index := Position(bindings, h);
      PositionLooksUp(bindings, h);
      if index < |bindings| && (waited.Ok? || waited.error == WaitTimeout) {
        var status := if waited.Ok? then Ready else Busy;
        var binding := bindings[index].data.(status := status, updatedAt := world.time);
        RowUpdate(bindings, h, binding);
        world.bindings := bindings[index := Row(h, binding)];
      }
    }

    method FinishWait(h: string, busy: Binding) returns (r: Result<WaitResponse, ErrorCode>)
      modifies world
      ensures Step(world.Now(), r) == WaitSnapshot(Self(), old(world.Now()), h, busy)
    {
      var observedAt := world.time;
      var snapshot := RunBindingOperationWithRetry(h, busy, CaptureFailed, CaptureFull);
      if snapshot.Err? {
        return Err(snapshot.error);
      }
      var before, _ := ObserveCapture(h, snapshot.value);
      r := Ok(WaitAnswer(snapshot.value, before, observedAt));
    }

    method WaitOn(h: string, busy: Binding, idleMs: nat, timeoutMs: nat) returns (r: Result<WaitResponse, ErrorCode>)
      modifies world
      ensures Step(world.Now(), r) == WaitActive(Self(), old(world.Now()), h, busy, idleMs, timeoutMs)
    {
      var waited := AwaitIdle(h, busy, idleMs, timeoutMs);
      RecordWait(h, waited);
      if waited.Err? {
        return Err(waited.error);
      }
      r := FinishWait(h, busy);
    }

    method Wait(h: string, idleMs: nat, timeoutMs: nat) returns (r: Result<WaitResponse, ErrorCode>)
      modifies world
      ensures Step(world.Now(), r) == Lifecycle.Wait(Self(), old(world.Now()), h, idleMs, timeoutMs)
    {
      var stored := ReadBinding(h);
      if stored.Err? {
        return Err(stored.error);
      }
      var usable := EnsureUsable(stored.value);
      if usable.Err? {
        return Err(usable.error);
      }
      var synced := RefreshAndReread(h);
      if synced.Err? {
        return Err(synced.error);
      }
      if !IsActive(synced.value) {
        return Err(TargetStale);
      }
      var busy := synced.value.(status := Busy);
      var bindings := world.bindings;
      var index := Position(bindings, h);
      PositionLooksUp(bindings, h);
      RowUpdate(bindings, h, busy);
      world.bindings := bindings[index := Row(h, busy)];
      r := WaitOn(h, busy, idleMs, timeoutMs);
    }

    // -------------------------------------------------------------- close

    method CloseThenVerify(h: string, binding: Binding, force: bool) returns (r: Result<(), ErrorCode>)
      modifies world
      ensures Step(world.Now(), r) == CloseAndVerify(Self(), old(world.Now()), h, binding, force)
    {
      var closed := RunBindingOperationWithRetry(h, binding, CloseFailed, ClosePane(force));
      if closed.Err? {
        return Err(closed.error);
      }
      r := VerifyBindingClosed(binding);
    }

    method ClosePaneOf(h: string, binding: Binding, force: bool) returns (r: Result<(), ErrorCode>)
      modifies world
      ensures Step(world.Now(), r) == CloseActive(Self(), old(world.Now()), h, binding, force)
    {
      var closed := CloseThenVerify(h, binding, force);
      if closed.Ok? {
        return Ok(());
      }
      if MayExitShell(Self(), binding, force) {
        r := AttemptShellExitClose(binding);
      } else {
        r := Err(closed.error);
      }
    }

    method CloseRefreshed(h: string, force: bool) returns (r: Result<(), ErrorCode>)
      modifies world
      ensures Step(world.Now(), r) == CloseSynced(Self(), old(world.Now()), h, force)
    {
      var synced := RefreshAndReread(h);
      if synced.Err? {
        return Err(synced.error);
      }
      var binding := synced.value;
      if binding.status.Closed? {
        return Ok(());
      }
      if !IsActive(binding) {
        return Err(TargetStale);
      }
      var bindings := world.bindings;
      var index := Position(bindings, h);
      PositionLooksUp(bindings, h);
      var closed := ClosePaneOf(h, binding, force);
      if closed.Err? {
        return Err(closed.error);
      }
      RowUpdate(bindings, h, binding.(status := Closed, updatedAt := world.time));
      bindings := bindings[index := Row(h, binding.(status := Closed, updatedAt := world.time))];
      world.bindings := bindings;
      world.observations := Without(world.observations, h);
      r := Ok(());
    }

    method Close(h: string, force: bool) returns (r: Result<(), ErrorCode>)
      modifies world
      ensures Step(world.Now(), r) == Lifecycle.Close(Self(), old(world.Now()), h, force)
    {
      var available := EnsureAvailable();
      if available.Err? {
        return Err(available.error);
      }
      r := CloseRefreshed(h, force);
    }

    // -------------------------------------------------------------- all handles of a target

    method RevalidateBindings(rows: seq<Row<Binding>>) returns (r: Result<(), ErrorCode>)
      modifies world
      ensures Step(world.Now(), r) == RevalidateRows(Self(), old(world.Now()), rows)
    {
      var i := 0;
      while i < |rows|
        invariant 0 <= i <= |rows|
        invariant RevalidateRows(Self(), world.Now(), rows[i..]) == RevalidateRows(Self(), old(world.Now()), rows)
      {
        assert rows[i..][1..] == rows[i + 1..];
        var row := rows[i];
        if Owns(Self(), row.data) {
          var refreshed := RefreshBindingTarget(row.handle);
          if refreshed.Err? && !SkipsAvailability(Self(), row.data) {
            return Err(refreshed.error);
          }
        }
        i := i + 1;
      }
      r := Ok(());
    }

    method RevalidateAll() returns (r: Result<(), ErrorCode>)
      modifies world
      ensures Step(world.Now(), r) == Lifecycle.RevalidateAll(Self(), old(world.Now()))
    {
      if !IsRemote(Self()) {
        var available := EnsureAvailable();
        if available.Err? {
          return Ok(());
        }
      }
      r := RevalidateBindings(world.bindings);
    }

    method List(session: Option<string>) returns (r: Result<seq<Row<Binding>>, ErrorCode>)
      modifies world
      ensures Step(world.Now(), r) == ListHandles(Self(), old(world.Now()), session)
    {
      var revalidated := RevalidateAll();
      if revalidated.Err? {
        return Err(revalidated.error);
      }
      var svc := Self();
      r := Ok(Filter((row: Row<Binding>) => Listed(svc, session, row.data), world.bindings));
    }

    method Cleanup(request: CleanupRequest) returns (r: Result<seq<string>, ErrorCode>)
      modifies world
      ensures Step(world.Now(), r) == Lifecycle.Cleanup(Self(), old(world.Now()), request)
    {
      var removed := RemovedKeys(Self(), request, world.time, world.bindings);
      if !request.dryRun && removed != [] {
        world.bindings := Keep(world.bindings, removed);
        world.observations := Keep(world.observations, removed);
      }
      r := Ok(removed);
    }
  }
}
