/** The handle lifecycle as functions of the two persisted stores and of what the backend answers:
    revalidation, retries, and every operation of the terminal service. */
module Lifecycle {
  import opened Entities
  import opened Markers
  import opened Paging
  import opened Rows
  import opened Targets
  import opened Text
  import Frame

  // ---------------------------------------------------------------- the world an operation runs in

  datatype Readiness = BinaryMissing | NotReady | VersionMismatch

  /** What the daemon takes from outside: fresh names, how long a call takes, and the tables and
      encoders it looks things up in. */
  datatype Env = Env(
    handle: nat -> string,
    interaction: nat -> string,
    delay: nat -> nat,
    hash: string -> string,
    readiness: string -> Option<Readiness>,
    keySequence: string -> Option<string>,
    fishPayload: (bool, string, string) -> string,
    wrapperHash: string)

  datatype Action =
    | CaptureFull
    | SendInput(text: string, submit: bool)
    | WaitIdle(idleMs: nat, timeoutMs: nat)
    | ClosePane(force: bool)

  /** A call on the backend adapter. */
  datatype Call =
    | IsAvailable
    | SessionReady(session: string)
    | ListTargets(session: string)
    | LaunchSpawn
    | ResolveSelector(session: string, selector: string)
    | Perform(action: Action, session: string, selector: string)

  type CanonicalTarget = t: Target | Canonical(t)
    witness Target("id:", Some(""), "", None, None, None, false)

  /** The backend's answers: the n-th call of the run may be answered in any way. */
  datatype Backend = Backend(
    available: nat -> bool,
    ready: (nat, string) -> Result<(), AdapterError>,
    panes: (nat, string) -> Result<seq<Pane>, AdapterError>,
    launch: nat -> Result<Option<CanonicalTarget>, AdapterError>,
    perform: (nat, Action, string, string) -> Result<Snapshot, AdapterError>)

  /** The terminal service of one target. */
  datatype Service = Service(env: Env, targetId: string, backend: Backend)

  /** The two stores, every backend call made so far, the clock, and how many names were minted. */
  datatype State = State(
    bindings: seq<Row<Binding>>,
    observations: seq<Row<Observation>>,
    log: seq<Call>,
    time: nat,
    minted: nat)

  datatype Step<+T, +E> = Step(state: State, result: Result<T, E>) {
    predicate IsFailure() { result.Err? }

    function PropagateFailure<U>(): Step<U, E>
      requires IsFailure()
    {
      Step(state, Err(result.error))
    }

    function Extract(): (State, T)
      requires !IsFailure()
    {
      (state, result.value)
    }
  }

  type Outcome<+T> = Step<T, ErrorCode>

  function Fail<T>(s: State, code: ErrorCode): Outcome<T> { Step(s, Err(code)) }

  function Done<T>(s: State, value: T): Outcome<T> { Step(s, Ok(value)) }

  function Discard<T>(step: Outcome<T>): Outcome<()> {
    Step(step.state, if step.result.Ok? then Ok(()) else Err(step.result.error))
  }

  // ---------------------------------------------------------------- single calls

  function Tick(env: Env, s: State, call: Call): State {
    s.(log := s.log + [call], time := s.time + env.delay(|s.log|))
  }

  function Sleep(s: State, ms: nat): State { s.(time := s.time + ms) }

  function Deadline(s: State, ms: nat): nat { s.time + ms }

  /** `map_adapter_error`. */
  function MapError(env: Env, error: AdapterError, code: ErrorCode): ErrorCode {
    match error
    case ZjctlUnavailable => ErrorCode.ZjctlUnavailable
    case ParseError(_) => InvalidArgument
    case AmbiguousTarget(_) => SelectorNotUnique
    case Timeout => WaitTimeout
    case Unimplemented => code
    case CommandFailed(message) =>
      if HasText(message, "multiple panes") then SelectorNotUnique
      else if HasText(message, "no pane matched") then TargetNotFound
      else
        match env.readiness(message)
        case Some(BinaryMissing) => ErrorCode.ZjctlUnavailable
        case Some(NotReady) => PluginNotReady
        case Some(VersionMismatch) => ProtocolVersionMismatch
        case None => code
  }

  predicate IsMissing(error: AdapterError) {
    error.CommandFailed?
    && (HasText(error.message, "no pane matched") || HasText(error.message, "no panes match selector"))
  }

  function Mapped<T>(env: Env, r: Result<T, AdapterError>, code: ErrorCode): Result<T, ErrorCode> {
    match r
    case Ok(value) => Ok(value)
    case Err(error) => Err(MapError(env, error, code))
  }

  predicate IsRemote(svc: Service) { "ssh:" <= svc.targetId }

  predicate SkipsAvailability(svc: Service, b: Binding) { IsRemote(svc) && IsUnresolved(b) }

  function EnsureAvailable(svc: Service, s: State): Outcome<()> {
    Step(Tick(svc.env, s, IsAvailable),
         if svc.backend.available(|s.log|) then Ok(()) else Err(ErrorCode.ZjctlUnavailable))
  }

  /** The availability check, but for a remote spawn whose pane is not known yet. */
  function EnsureUsable(svc: Service, s: State, b: Binding): Outcome<()> {
    if SkipsAvailability(svc, b) then Done(s, ()) else EnsureAvailable(svc, s)
  }

  function EnsureReady(svc: Service, s: State, session: string, code: ErrorCode): Outcome<()> {
    Step(Tick(svc.env, s, SessionReady(session)), Mapped(svc.env, svc.backend.ready(|s.log|, session), code))
  }

  function ListPanes(svc: Service, s: State, session: string): Step<seq<Target>, AdapterError> {
    Step(Tick(svc.env, s, ListTargets(session)),
         match svc.backend.panes(|s.log|, session)
         case Ok(panes) => Ok(PanesToTargets(panes, session))
         case Err(error) => Err(error))
  }

  function ListMapped(svc: Service, s: State, session: string, code: ErrorCode): Outcome<seq<Target>> {
    var listed := ListPanes(svc, s, session);
    Step(listed.state, Mapped(svc.env, listed.result, code))
  }

  datatype Query = Query(session: string, tabName: Option<string>, selector: string)

  function Resolve(svc: Service, s: State, q: Query): Step<Target, AdapterError> {
    Step(Tick(svc.env, s, ResolveSelector(q.session, q.selector)),
         match svc.backend.panes(|s.log|, q.session)
         case Ok(panes) => ResolveFromCandidates(q.tabName, q.selector, PanesToTargets(panes, q.session))
         case Err(error) => Err(error))
  }

  function DoAt(svc: Service, s: State, action: Action, session: string, selector: string)
    : Step<Snapshot, AdapterError>
  {
    Step(Tick(svc.env, s, Perform(action, session, selector)), svc.backend.perform(|s.log|, action, session, selector))
  }

  function Do(svc: Service, s: State, action: Action, b: Binding): Step<Snapshot, AdapterError> {
    DoAt(svc, s, action, b.session, b.selector)
  }

  // ---------------------------------------------------------------- writing the stores

  function SetBinding(s: State, h: string, b: Binding): State { s.(bindings := Put(s.bindings, h, b)) }

  function ObservationOf(s: State, h: string): Observation {
    match Lookup(s.observations, h)
    case Some(o) => o
    case None => BLANK
  }

  function SetObservation(s: State, h: string, o: Observation): State {
    s.(observations := Put(WithSlot(s.observations, h, BLANK), h, o))
  }

  function MarkStale(s: State, h: string): State {
    match Lookup(s.bindings, h)
    case Some(b) => SetBinding(s, h, b.(status := Stale, updatedAt := s.time))
    case None => s
  }

  // ---------------------------------------------------------------- revalidation

  /** `build_revalidation_requests`. */
  function Queries(b: Binding): seq<Query> {
    var byPane := if b.paneId.Some? then [Query(b.session, None, "id:" + b.paneId.value)] else [];
    if b.paneId.Some? && "id:" + b.paneId.value == b.selector then byPane
    else byPane + [Query(b.session, b.tabName, b.selector)]
  }

  /** The first query that resolves, if any; a missing pane moves on to the next one. */
  function ResolveAny(svc: Service, s: State, queries: seq<Query>): (r: Step<Option<Target>, AdapterError>)
    ensures r.state.time >= s.time
    decreases |queries|
  {
    if queries == [] then Step(s, Ok(None))
    else
      match Resolve(svc, s, queries[0])
      case Step(s1, Ok(target)) => Step(s1, Ok(Some(target)))
      case Step(s1, Err(error)) =>
        if IsMissing(error) then ResolveAny(svc, s1, queries[1..]) else Step(s1, Err(error))
  }

  function ResolveAttempts(svc: Service, s: State, queries: seq<Query>, attempt: nat)
    : (r: Step<Option<Target>, AdapterError>)
    ensures r.state.time >= s.time
    decreases 3 - attempt
  {
    if attempt >= 3 then Step(s, Ok(None))
    else
      match ResolveAny(svc, s, queries)
      case Step(s1, Ok(None)) =>
        ResolveAttempts(svc, if attempt < 2 then Sleep(s1, 150) else s1, queries, attempt + 1)
      case step => step
  }

  function Located(b: Binding, t: Target, now: nat): Binding {
    b.(selector := t.selector, paneId := t.paneId, tabName := t.tabName, status := Ready, updatedAt := now)
  }

  function Revalidated(b: Binding, found: Option<Target>, now: nat): Binding {
    match found
    case Some(t) => Located(b, t, now)
    case None => b.(status := Stale, updatedAt := now)
  }

  function Or<T>(a: Option<T>, b: Option<T>): Option<T> { if a.Some? then a else b }

  function Hints(b: Binding, o: Observation): SpawnHints {
    SpawnHints(o.spawn.beforeIds, Or(o.spawn.tabName, b.tabName), Or(o.spawn.title, b.alias),
               Or(o.spawn.command, b.launchCommand))
  }

  function Remaining(now: nat, deadline: nat): nat { if now < deadline then deadline - now else 0 }

  /** `reconcile_spawn_binding`: looks for the pane of a spawn until the deadline has passed. */
  function Reconcile(svc: Service, s: State, h: string, deadline: nat): (r: Outcome<Option<Binding>>)
    ensures r.state.time >= s.time
    decreases Remaining(s.time, deadline)
  {
    match Lookup(s.bindings, h)
    case None => Fail(s, HandleNotFound)
    case Some(b) =>
      if b.paneId.Some? && b.selector != "" then Done(s, Some(b))
      else
        match ListMapped(svc, s, b.session, SpawnFailed)
        case Step(s1, Err(code)) => Fail(s1, code)
        case Step(s1, Ok(after)) =>
          match ResolveSpawnCandidate(Hints(b, ObservationOf(s, h)), after)
          case Some(t) => Done(SetBinding(s1, h, Located(b, t, s1.time)), Some(Located(b, t, s1.time)))
          case None =>
            if s1.time >= deadline then Done(s1, None) else Reconcile(svc, Sleep(s1, 150), h, deadline)
  }

  /** Revalidation of a binding that names a pane: up to three rounds of its queries. */
  function Requery(svc: Service, s: State, h: string, b: Binding): (r: Outcome<Binding>)
    ensures r.state.time >= s.time
  {
    match EnsureReady(svc, s, b.session, AttachFailed)
    case Step(s1, Err(code)) => Fail(s1, code)
    case Step(s1, Ok(_)) =>
      match ResolveAttempts(svc, s1, Queries(b), 0)
      case Step(s2, Err(error)) => Fail(s2, MapError(svc.env, error, AttachFailed))
      case Step(s2, Ok(found)) =>
        Done(SetBinding(s2, h, Revalidated(b, found, s2.time)), Revalidated(b, found, s2.time))
  }

  /** `refresh_binding_target`. */
  function Refresh(svc: Service, s: State, h: string): (r: Outcome<Binding>)
    ensures r.state.time >= s.time
  {
    match Lookup(s.bindings, h)
    case None => Fail(s, HandleNotFound)
    case Some(b) =>
      if b.status.Closed? then Done(s, b)
      else if IsUnresolved(b) then
        match Reconcile(svc, s, h, Deadline(s, 500))
        case Step(s1, Err(code)) => Fail(s1, code)
        case Step(s1, Ok(Some(found))) => Done(s1, found)
        case Step(s1, Ok(None)) => Done(s1, b)
      else Requery(svc, s, h, b)
  }

  // ---------------------------------------------------------------- operations with retry

  function RetryFrom(svc: Service, s: State, h: string, b: Binding, code: ErrorCode, action: Action, attempt: nat)
    : (r: Outcome<Snapshot>)
    requires attempt < 3
    ensures r.state.time >= s.time
    decreases 3 - attempt
  {
    match Do(svc, s, action, b)
    case Step(s1, Ok(snapshot)) => Done(s1, snapshot)
    case Step(s1, Err(error)) =>
      if !IsMissing(error) then Fail(s1, MapError(svc.env, error, code))
      else
        match Refresh(svc, s1, h)
        case Step(s2, Err(c)) => Fail(s2, c)
        case Step(s2, Ok(current)) =>
          if !IsActive(current) then Fail(s2, TargetStale)
          else if attempt < 2 then RetryFrom(svc, Sleep(s2, 150), h, current, code, action, attempt + 1)
          else Fail(MarkStale(s2, h), TargetStale)
  }

  /** `run_binding_operation_with_retry`. */
  function Retry(svc: Service, s: State, h: string, b: Binding, code: ErrorCode, action: Action)
    : (r: Outcome<Snapshot>)
    ensures r.state.time >= s.time
  {
    if SkipsAvailability(svc, b) then RetryFrom(svc, s, h, b, code, action, 0)
    else
      match EnsureReady(svc, s, b.session, code)
      case Step(s1, Err(c)) => Fail(s1, c)
      case Step(s1, Ok(_)) => RetryFrom(svc, s1, h, b, code, action, 0)
  }

  // ---------------------------------------------------------------- waiting for an idle pane

  /** A capture seen while polling: its hash and when it was seen. */
  datatype Sample = Sample(hash: string, at: nat)

  /** When the last run of equal hashes began. */
  function QuietSince(samples: seq<Sample>): nat
    requires samples != []
  {
    var n := |samples| - 1;
    if n > 0 && samples[n - 1].hash == samples[n].hash then QuietSince(samples[..n]) else samples[n].at
  }

  predicate IsQuiet(samples: seq<Sample>, now: nat, idleMs: nat) {
    var n := |samples|;
    n > 1 && samples[n - 2].hash == samples[n - 1].hash && now - QuietSince(samples) >= idleMs
  }

  function PollInterval(idleMs: nat): nat {
    if idleMs < 50 then 50 else if idleMs > 250 then 250 else idleMs
  }

  /** `wait_via_capture_polling`, from a moment when the given samples have been seen. */
  function Poll(svc: Service, s: State, h: string, b: Binding, idleMs: nat, deadline: nat, samples: seq<Sample>)
    : Outcome<seq<Sample>>
    decreases Remaining(s.time, deadline)
  {
    if s.time >= deadline then Fail(s, WaitTimeout)
    else
      match Retry(svc, s, h, b, CaptureFailed, CaptureFull)
      case Step(s1, Err(code)) => Fail(s1, code)
      case Step(s1, Ok(snapshot)) =>
        var seen := samples + [Sample(svc.env.hash(snapshot.content), s1.time)];
        if IsQuiet(seen, s1.time, idleMs) then Done(s1, seen)
        else Poll(svc, Sleep(s1, PollInterval(idleMs)), h, b, idleMs, deadline, seen)
  }

  /** The adapter's own wait, and polling when it lost the pane. */
  function AwaitIdle(svc: Service, s: State, h: string, b: Binding, idleMs: nat, timeoutMs: nat): Outcome<()> {
    var first := Retry(svc, s, h, b, WaitFailed, WaitIdle(idleMs, timeoutMs));
    if first.result == Err(TargetStale) then
      Discard(Poll(svc, first.state, h, b, idleMs, Deadline(first.state, timeoutMs), []))
    else Discard(first)
  }

  // ---------------------------------------------------------------- spawn

  datatype SpawnRequest = SpawnRequest(session: string, target: SpawnTarget, tabName: Option<string>,
                                       cwd: Option<string>, command: Option<string>, argv: Option<seq<string>>,
                                       title: Option<string>, waitReady: bool)

  function JoinWords(words: seq<string>): string {
    if words == [] then "" else if |words| == 1 then words[0] else words[0] + " " + JoinWords(words[1..])
  }

  function LaunchCommand(req: SpawnRequest): string {
    if req.command.Some? then req.command.value
    else if req.argv.Some? then JoinWords(req.argv.value)
    else "fish"
  }

  function ProvisionalSelector(req: SpawnRequest): string {
    if req.title.Some? then "title:" + req.title.value
    else if req.command.Some? then "command:" + req.command.value
    else if req.argv.Some? then "command:" + JoinWords(req.argv.value)
    else if req.tabName.Some? then "tab:" + req.tabName.value
    else "focused"
  }

  function SpawnedBinding(svc: Service, req: SpawnRequest, launched: Option<CanonicalTarget>, now: nat): Binding {
    Binding(svc.targetId, req.title, req.session,
            if launched.Some? then Or(launched.value.tabName, req.tabName) else req.tabName,
            if launched.Some? then launched.value.selector else ProvisionalSelector(req),
            if launched.Some? then launched.value.paneId else None,
            req.cwd, Some(LaunchCommand(req)), Spawned, Busy, now, now)
  }

  function PaneIds(targets: seq<Target>): seq<string> {
    if targets == [] then []
    else (if targets[0].paneId.Some? then [targets[0].paneId.value] else []) + PaneIds(targets[1..])
  }

  function SpawnedObservation(req: SpawnRequest, before: seq<Target>, now: nat): Observation {
    BLANK.(spawn := SpawnRecord(PaneIds(before), Some(req.target), req.tabName, req.title, Some(LaunchCommand(req)),
                                Some(now)))
  }

  /** The panes there are before the launch. */
  function PanesBefore(svc: Service, s: State, req: SpawnRequest): Outcome<seq<Target>> {
    if IsRemote(svc) then
      var listed := ListPanes(svc, s, req.session);
      Done(listed.state, if listed.result.Ok? then listed.result.value else [])
    else
      var (s1, _) :- EnsureAvailable(svc, s);
      var (s2, _) :- EnsureReady(svc, s1, req.session, SpawnFailed);
      ListMapped(svc, s2, req.session, SpawnFailed)
  }

  function LaunchPane(svc: Service, s: State): Outcome<Option<CanonicalTarget>> {
    Step(Tick(svc.env, s, LaunchSpawn), Mapped(svc.env, svc.backend.launch(|s.log|), SpawnFailed))
  }

  function Register(s: State, h: string, b: Binding, o: Observation): State {
    s.(bindings := Without(s.bindings, h) + [Row(h, b)], observations := Without(s.observations, h) + [Row(h, o)])
  }

  /** `remove_persisted_handle`. */
  function Rollback(s: State, h: string): State {
    s.(bindings := Without(s.bindings, h), observations := Without(s.observations, h))
  }

  datatype Launched = Launched(handle: string, binding: Binding, detached: bool)

  /** Launches the pane and registers its handle, `Busy`. */
  function LaunchAndRegister(svc: Service, s: State, req: SpawnRequest): Outcome<Launched> {
    var (s1, before) :- PanesBefore(svc, s, req);
    var (s2, launched) :- LaunchPane(svc, s1);
    var h := svc.env.handle(s2.minted);
    var b := SpawnedBinding(svc, req, launched, s2.time);
    Done(Register(s2.(minted := s2.minted + 1), h, b, SpawnedObservation(req, before, s2.time)),
         Launched(h, b, launched.None?))
  }

  function UpdateStatus(s: State, h: string, status: Status, now: nat): Outcome<Binding> {
    match Lookup(s.bindings, h)
    case None => Fail(s, HandleNotFound)
    case Some(b) =>
      var updated := b.(status := status, updatedAt := now);
      Done(SetBinding(s, h, updated), updated)
  }

  function InteractionIn(content: string, o: Observation): Option<Interaction> {
    match o.interactionId
    case Some(id) => ParseInteractionCapture(content, id)
    case None => None
  }

  function CompleteIf(o: Observation, found: Option<Interaction>, now: nat): Observation {
    if found.Some? && found.value.completed then o.Completed(found.value.exitCode, now) else o
  }

  /** The observation with a capture as its last snapshot and as its command boundary. */
  function Baseline(env: Env, o: Observation, snapshot: Snapshot): Observation {
    o.WithSnapshot(snapshot.content, env.hash(snapshot.content), snapshot.capturedAt).WithBoundary()
  }

  function FirstObservation(env: Env, o: Observation, snapshot: Snapshot): Observation {
    var based := Baseline(env, o, snapshot);
    CompleteIf(based, InteractionIn(snapshot.content, based), snapshot.capturedAt)
  }

  /** How a spawn stands after its wait and its first capture. */
  datatype Settled = LeftBusy(binding: Binding) | Observed

  function LeaveBusy(s: State, h: string): Outcome<Settled> {
    var (s1, b) :- UpdateStatus(s, h, Busy, s.time);
    Done(s1, LeftBusy(b))
  }

  /** `update_spawn_observation`, and the status that follows it. */
  function RecordFirst(svc: Service, s: State, h: string, snapshot: Snapshot): Outcome<Settled> {
    var s1 := SetObservation(s, h, FirstObservation(svc.env, ObservationOf(s, h), snapshot));
    var (s2, _) :- UpdateStatus(s1, h, Ready, snapshot.capturedAt);
    Done(s2, Observed)
  }

  function CaptureOnce(svc: Service, s: State, h: string, b: Binding): Outcome<Settled> {
    match Retry(svc, s, h, b, CaptureFailed, CaptureFull)
    case Step(s1, Err(code)) => if code == CaptureFailed then LeaveBusy(s1, h) else Fail(Rollback(s1, h), code)
    case Step(s1, Ok(snapshot)) => RecordFirst(svc, s1, h, snapshot)
  }

  function CaptureFirst(svc: Service, s: State, h: string): Outcome<Settled> {
    match Refresh(svc, s, h)
    case Step(s1, Err(code)) => Fail(Rollback(s1, h), code)
    case Step(s1, Ok(b)) => CaptureOnce(svc, s1, h, b)
  }

  function WaitFirst(svc: Service, s: State, h: string, b: Binding): Outcome<Settled> {
    match AwaitIdle(svc, s, h, b, 1200, 30000)
    case Step(s1, Ok(_)) => CaptureFirst(svc, s1, h)
    case Step(s1, Err(code)) => if code == WaitTimeout then LeaveBusy(s1, h) else Fail(Rollback(s1, h), code)
  }

  /** From registration to the first capture: every error takes the handle out again. */
  function Settle(svc: Service, s: State, h: string, req: SpawnRequest): Outcome<Settled> {
    match Refresh(svc, s, h)
    case Step(s1, Err(code)) => Fail(Rollback(s1, h), code)
    case Step(s1, Ok(b)) => if req.waitReady then WaitFirst(svc, s1, h, b) else CaptureFirst(svc, s1, h)
  }

  datatype SpawnResponse = SpawnResponse(handle: string, targetId: string, session: string, tabName: Option<string>,
                                         selector: string, status: Status)

  function Describe(svc: Service, h: string, b: Binding): SpawnResponse {
    SpawnResponse(h, svc.targetId, b.session, b.tabName, b.selector, b.status)
  }

  /** The revalidation that comes last, which undoes nothing when it fails. */
  function Confirm(svc: Service, s: State, h: string): Outcome<SpawnResponse> {
    match Refresh(svc, s, h)
    case Step(s1, Err(code)) => Fail(s1, code)
    case Step(s1, Ok(b)) => Done(s1, Describe(svc, h, b))
  }

  function Conclude(svc: Service, settled: Outcome<Settled>, h: string): Outcome<SpawnResponse> {
    match settled
    case Step(s1, Err(code)) => Fail(s1, code)
    case Step(s1, Ok(LeftBusy(b))) => Done(s1, Describe(svc, h, b))
    case Step(s1, Ok(Observed)) => Confirm(svc, s1, h)
  }

  function Spawn(svc: Service, s: State, req: SpawnRequest): Outcome<SpawnResponse> {
    var (s1, launched) :- LaunchAndRegister(svc, s, req);
    if launched.detached then Done(s1, Describe(svc, launched.handle, launched.binding))
    else Conclude(svc, Settle(svc, s1, launched.handle, req), launched.handle)
  }

  // ---------------------------------------------------------------- attach and takeover

  function ResolveLocation(svc: Service, s: State, session: string, intent: LocationIntent, code: ErrorCode)
    : Outcome<Target>
  {
    var (s1, candidates) :- ListMapped(svc, s, session, code);
    match ResolveUnique(intent, candidates)
    case Ok(t) => Done(s1, t)
    case Err(NotFound) => Fail(s1, TargetNotFound)
    case Err(Ambiguous) => Fail(s1, SelectorNotUnique)
  }

  function AttachedBinding(svc: Service, t: Target, alias: Option<string>, now: nat): Binding {
    Binding(svc.targetId, alias, t.session, t.tabName, t.selector, t.paneId, None, t.command, Attached, Busy, now, now)
  }

  datatype AttachResponse = AttachResponse(handle: string, targetId: string, baseline: bool, selector: string)

  function AttachRegister(svc: Service, s: State, h: string, b: Binding): State {
    s.(minted := s.minted + 1, bindings := s.bindings + [Row(h, b)],
       observations := Without(s.observations, h) + [Row(h, BLANK)])
  }

  function AttachBaseline(svc: Service, s: State, h: string, snapshot: Snapshot): State {
    var s1 := SetObservation(s, h, Baseline(svc.env, ObservationOf(s, h), snapshot));
    match Lookup(s1.bindings, h)
    case Some(b) => SetBinding(s1, h, b.(status := Ready, updatedAt := snapshot.capturedAt))
    case None => s1
  }

  /** A new handle on a pane, with the pane's contents as its baseline when they can be captured. */
  function AttachTo(svc: Service, s: State, t: Target, alias: Option<string>): Outcome<AttachResponse> {
    var h := svc.env.handle(s.minted);
    var b := AttachedBinding(svc, t, alias, s.time);
    match Do(svc, AttachRegister(svc, s, h, b), CaptureFull, b)
    case Step(s1, Err(_)) => Done(s1, AttachResponse(h, svc.targetId, false, t.selector))
    case Step(s1, Ok(snapshot)) =>
      Done(AttachBaseline(svc, s1, h, snapshot), AttachResponse(h, svc.targetId, true, t.selector))
  }

  /** A blank selector of an attach request asks for any pane. */
  function AttachIntent(tabName: Option<string>, selector: string): LocationIntent {
    LocationIntent(tabName, if Trim(selector) == "" then None else Some(Trim(selector)), None, None)
  }

  /** `attach` and `takeover`, which differ in the intents they may have. */
  function Attach(svc: Service, s: State, session: string, intent: LocationIntent, alias: Option<string>)
    : Outcome<AttachResponse>
  {
    var (s1, _) :- EnsureAvailable(svc, s);
    var (s2, t) :- ResolveLocation(svc, s1, session, intent, AttachFailed);
    AttachTo(svc, s2, t, alias)
  }

  // ---------------------------------------------------------------- capture

  datatype CaptureMode = Full | Delta | Current

  datatype CaptureRequest = CaptureRequest(handle: string, mode: CaptureMode, tailLines: Option<nat>,
                                           lineOffset: Option<nat>, lineLimit: Option<nat>, cursor: Option<string>,
                                           normalizeAnsi: bool)

  datatype Extent = Tail(count: nat) | Lines(offset: Option<nat>, limit: Option<nat>)

  /** `validate_positive_lines` and `resolve_capture_window`. */
  function CaptureExtent(req: CaptureRequest): Result<Extent, ErrorCode> {
    var forward := req.lineOffset.Some? || req.lineLimit.Some? || req.cursor.Some?;
    if req.tailLines == Some(0) || req.lineLimit == Some(0) then Err(InvalidArgument)
    else if req.tailLines.Some? && forward then Err(InvalidArgument)
    else if req.mode.Delta? && forward then Err(InvalidArgument)
    else if req.cursor.Some? && req.lineOffset.Some? then Err(InvalidArgument)
    else if req.cursor.Some? && ParseLineCursor(req.cursor.value).None? then Err(InvalidArgument)
    else if req.tailLines.Some? then Ok(Tail(req.tailLines.value))
    else Ok(Lines(if req.cursor.Some? then ParseLineCursor(req.cursor.value) else req.lineOffset, req.lineLimit))
  }

  function Selected(mode: CaptureMode, content: string, o: Observation, found: Option<Interaction>): string {
    match mode
    case Full => content
    case Delta => SuffixAfterBaseline(content, o.lastContent)
    case Current =>
      if found.Some? then found.value.body
      else if Frame.HasErasure(Frame.Tokens(content)) then Frame.Normalized(content)
      else SuffixAfterBaseline(content, o.boundaryContent)
  }

  function Cut(content: string, extent: Extent): Window {
    match extent
    case Tail(count) =>
      var (text, applied) := TailLines(content, count);
      Window(text, applied, None)
    case Lines(offset, limit) => LineWindow(content, offset, limit)
  }

  datatype Basis = LastCapture | CommandBoundary | InteractionMarker

  datatype CaptureResponse = CaptureResponse(window: Window, capturedAt: nat, truncated: bool, basis: Option<Basis>,
                                             interactionId: Option<string>, completed: Option<bool>,
                                             exitCode: Option<int>)

  function BasisOf(mode: CaptureMode, found: Option<Interaction>): Option<Basis> {
    match mode
    case Full => None
    case Delta => Some(LastCapture)
    case Current => Some(if found.Some? then InteractionMarker else CommandBoundary)
  }

  function CaptureAnswer(req: CaptureRequest, extent: Extent, snapshot: Snapshot, before: Observation, after: Observation)
    : CaptureResponse
  {
    var found := InteractionIn(snapshot.content, before);
    var text := Selected(req.mode, snapshot.content, before, found);
    CaptureResponse(Cut(if req.normalizeAnsi then Frame.Stripped(text) else text, extent),
                    snapshot.capturedAt, snapshot.truncated, BasisOf(req.mode, found), after.interactionId,
                    if after.interactionId.Some? then Some(after.interactionCompletedAt.Some?) else None,
                    after.interactionExitCode)
  }

  function AfterCapture(env: Env, o: Observation, snapshot: Snapshot): Observation {
    CompleteIf(o.WithSnapshot(snapshot.content, env.hash(snapshot.content), snapshot.capturedAt),
               InteractionIn(snapshot.content, o), snapshot.capturedAt)
  }

  /** `sync_binding_from_active`. */
  function Synced(b: Binding, active: Binding): Binding {
    b.(selector := active.selector, paneId := active.paneId, tabName := active.tabName, status := active.status,
       updatedAt := active.updatedAt)
  }

  /** Revalidates a handle and finds its row again in the vector read afterwards. */
  function RefreshAndSync(svc: Service, s: State, h: string): Outcome<Binding> {
    var (s1, active) :- Refresh(svc, s, h);
    match Lookup(s1.bindings, h)
    case None => Fail(s1, HandleNotFound)
    case Some(b) => Done(s1, Synced(b, active))
  }

  function CapturedBinding(b: Binding, snapshot: Snapshot): Binding {
    b.(status := if b.source.Spawned? && b.status.Busy? then Ready else b.status, updatedAt := snapshot.capturedAt)
  }

  /** The capture of an active handle. The bindings are written back as they were before the
      retries: what those stored is overwritten. */
  function CaptureActive(svc: Service, s: State, req: CaptureRequest, extent: Extent, b: Binding)
    : Outcome<CaptureResponse>
  {
    var (s1, snapshot) :- Retry(svc, s, req.handle, b, CaptureFailed, CaptureFull);
    var before := ObservationOf(s1, req.handle);
    var after := AfterCapture(svc.env, before, snapshot);
    Done(SetObservation(s1, req.handle, after)
           .(bindings := Put(s.bindings, req.handle, CapturedBinding(b, snapshot))),
         CaptureAnswer(req, extent, snapshot, before, after))
  }

  function Capture(svc: Service, s: State, req: CaptureRequest): Outcome<CaptureResponse> {
    match Lookup(s.bindings, req.handle)
    case None => Fail(s, HandleNotFound)
    case Some(stored) =>
      var (s1, _) :- EnsureUsable(svc, s, stored);
      match CaptureExtent(req)
      case Err(code) => Fail(s1, code)
      case Ok(extent) =>
        var (s2, b) :- RefreshAndSync(svc, s1, req.handle);
        if !IsActive(b) then Fail(s2, TargetStale) else CaptureActive(svc, s2, req, extent, b)
  }

  // ---------------------------------------------------------------- send

  datatype InputMode = RawInput | SubmitLineInput

  datatype SendMode = Raw | SubmitLine | Legacy

  datatype SendRequest = SendRequest(handle: string, session: Option<string>, tabName: Option<string>,
                                     selector: Option<string>, text: string, keys: seq<string>,
                                     inputMode: Option<InputMode>, submit: bool)

  function ResolveSendMode(req: SendRequest): Result<SendMode, ErrorCode> {
    match req.inputMode
    case Some(RawInput) => if req.submit then Err(InvalidArgument) else Ok(Raw)
    case Some(SubmitLineInput) =>
      if req.keys != [] || req.text == "" then Err(InvalidArgument) else Ok(SubmitLine)
    case None => Ok(Legacy)
  }

  function KeySequences(env: Env, keys: seq<string>): Option<string> {
    if keys == [] then Some("")
    else
      match (env.keySequence(keys[0]), KeySequences(env, keys[1..]))
      case (Some(first), Some(rest)) => Some(first + rest)
      case _ => None
  }

  datatype Payload = Payload(text: string, submit: bool)

  function BuildPayload(env: Env, req: SendRequest, mode: SendMode): Result<Payload, ErrorCode> {
    match KeySequences(env, req.keys)
    case None => Err(InvalidArgument)
    case Some(typed) =>
      var text := req.text + typed;
      if text == "" then Err(InvalidArgument)
      else
        match mode
        case Raw => Ok(Payload(text, false))
        case SubmitLine => Ok(Payload(text, true))
        case Legacy =>
          if req.submit && req.keys != [] then Ok(Payload(text + "\n", false)) else Ok(Payload(text, req.submit))
  }

  /** A command line rather than keys or raw text. */
  predicate IsLine(req: SendRequest, mode: SendMode) { !mode.Raw? && req.keys == [] && req.text != "" }

  predicate ClearsInput(b: Binding, req: SendRequest, mode: SendMode) {
    b.source.Attached? && IsLine(req, mode) && (req.submit || mode.SubmitLine?)
  }

  predicate RunsFish(b: Binding) { ShellName(b.launchCommand) == Some("fish") }

  /** `build_inline_wrapped_submit_payload` for `sh`, `bash` and `zsh`. */
  function InlinePosix(text: string, id: string): string {
    "printf '" + StartMarker(id) + "\\n'; " + text + "; __zellij_mcp_status=$?; printf '\\n" + EndMarker(id)
    + "%s\\n' \"$__zellij_mcp_status\""
  }

  function InlineFish(text: string, id: string): string {
    "printf '" + StartMarker(id) + "\\n'; begin; " + text + "; end; set __zellij_mcp_status $status; printf '\\n"
    + EndMarker(id) + "%s\\n' $__zellij_mcp_status"
  }

  function Wrapped(env: Env, b: Binding, text: string, id: string, validated: bool): string {
    if RunsFish(b) then env.fishPayload(validated, text, id) else InlinePosix(text, id)
  }

  predicate LacksFishWrapper(snapshot: Snapshot) {
    HasText(snapshot.content, "Unknown command: __zellij_mcp_run_b64")
    || HasText(snapshot.content, "command not found: __zellij_mcp_run_b64")
  }

  /** `prepare_attached_send_boundary`. */
  function PrepareBoundary(svc: Service, s: State, h: string, b: Binding): Outcome<()> {
    match Do(svc, s, CaptureFull, b)
    case Step(s1, Err(error)) =>
      if IsMissing(error) then Fail(MarkStale(s1, h), TargetStale)
      else Fail(s1, MapError(svc.env, error, CaptureFailed))
    case Step(s1, Ok(snapshot)) =>
      Done(SetObservation(s1, h, Baseline(svc.env, ObservationOf(s1, h), snapshot)), ())
  }

  /** What a send is about to do, decided before the handle is known to be active. */
  datatype SendPlan = SendPlan(binding: Binding, mode: SendMode, clears: bool, payload: Payload,
                               interactionId: Option<string>)

  /** The payload as it is typed: wrapped in markers for a known shell, after a line-clearing
      control character on an attached pane. */
  function Typed(env: Env, b: Binding, req: SendRequest, payload: Payload, id: Option<string>, validated: bool,
                 clears: bool): Payload
  {
    var text := if id.Some? then Wrapped(env, b, req.text, id.value, validated) else payload.text;
    Payload(if clears then [21 as char] + text else text, payload.submit)
  }

  predicate WantsInteraction(b: Binding, req: SendRequest, mode: SendMode) {
    IsLine(req, mode) && SupportsMarkers(b)
  }

  function PlanPayload(svc: Service, s: State, req: SendRequest, b: Binding, mode: SendMode, clears: bool)
    : Outcome<SendPlan>
  {
    match BuildPayload(svc.env, req, mode)
    case Err(code) => Fail(s, code)
    case Ok(payload) =>
      var validated := ObservationOf(s, req.handle).wrapperHash == Some(svc.env.wrapperHash);
      var wants := WantsInteraction(b, req, mode);
      var id := if wants then Some(svc.env.interaction(s.minted)) else None;
      Done(s.(minted := s.minted + if wants then 1 else 0),
           SendPlan(b, mode, clears, Typed(svc.env, b, req, payload, id, validated, clears), id))
  }

  function PlanSend(svc: Service, s: State, req: SendRequest): Outcome<SendPlan> {
    var (s1, b) :- Refresh(svc, s, req.handle);
    match ResolveSendMode(req)
    case Err(code) => Fail(s1, code)
    case Ok(mode) =>
      var clears := ClearsInput(b, req, mode);
      var (s2, _) :- if clears then PrepareBoundary(svc, s1, req.handle, b) else Done(s1, ());
      PlanPayload(svc, s2, req, b, mode, clears)
  }

  /** Types the line again, wrapped without the fish function. */
  function TypeInline(svc: Service, s: State, req: SendRequest, plan: SendPlan, id: string): Outcome<bool> {
    var (s1, _) :- Retry(svc, s, req.handle, plan.binding, SendFailed,
                         SendInput(InlineFish(req.text, id), plan.payload.submit));
    Done(s1, true)
  }

  /** Does that when a capture shows that the pane does not have the function. */
  function Fallback(svc: Service, s: State, req: SendRequest, plan: SendPlan, id: string): Outcome<bool> {
    match Retry(svc, s, req.handle, plan.binding, CaptureFailed, CaptureFull)
    case Step(s1, Err(_)) => Done(s1, false)
    case Step(s1, Ok(snapshot)) =>
      if LacksFishWrapper(snapshot) then TypeInline(svc, s1, req, plan, id) else Done(s1, false)
  }

  /** What follows a payload that was typed: the fallback, for a command line in fish. */
  function AfterTyping(svc: Service, s: State, req: SendRequest, plan: SendPlan): Outcome<bool> {
    if plan.interactionId.None? || !RunsFish(plan.binding) then Done(s, false)
    else Fallback(svc, Sleep(s, 75), req, plan, plan.interactionId.value)
  }

  /** Types the payload; true when the fallback was needed. */
  function Deliver(svc: Service, s: State, req: SendRequest, plan: SendPlan): Outcome<bool> {
    var (s1, _) :- Retry(svc, s, req.handle, plan.binding, SendFailed,
                         SendInput(plan.payload.text, plan.payload.submit));
    AfterTyping(svc, s1, req, plan)
  }

  predicate ResetsBoundary(req: SendRequest, plan: SendPlan) {
    plan.mode.SubmitLine? || (plan.mode.Legacy? && req.submit && !plan.clears)
  }

  function AfterSend(env: Env, o: Observation, req: SendRequest, plan: SendPlan, fellBack: bool, now: nat): Observation {
    var hashed :=
      if RunsFish(plan.binding) && req.keys == [] && req.text != "" then
        o.(wrapperHash := if fellBack then None else Some(env.wrapperHash))
      else o;
    var started := if plan.interactionId.Some? then hashed.WithInteraction(plan.interactionId.value, now) else hashed;
    if ResetsBoundary(req, plan) then started.WithBoundary() else started
  }

  /** The delivery, and the observation as it was read before it, written back. */
  function DeliverPlanned(svc: Service, s: State, req: SendRequest, plan: SendPlan): Outcome<string> {
    var (s1, fellBack) :- Deliver(svc, s, req, plan);
    var o := AfterSend(svc.env, ObservationOf(s, req.handle), req, plan, fellBack, s1.time);
    Done(s1.(observations := Put(WithSlot(s.observations, req.handle, BLANK), req.handle, o)), req.handle)
  }

  function SendToHandle(svc: Service, s: State, req: SendRequest): Outcome<string> {
    var (s1, plan) :- PlanSend(svc, s, req);
    if !IsActive(plan.binding) then Fail(s1, TargetStale) else DeliverPlanned(svc, s1, req, plan)
  }

  function SendToLocation(svc: Service, s: State, req: SendRequest, session: string): Outcome<string> {
    var intent := LocationIntent(req.tabName, req.selector, None, None);
    var (s1, t) :- ResolveLocation(svc, s, session, intent, SendFailed);
    match ResolveSendMode(req)
    case Err(code) => Fail(s1, code)
    case Ok(mode) =>
      match BuildPayload(svc.env, req, mode)
      case Err(code) => Fail(s1, code)
      case Ok(payload) =>
        match DoAt(svc, s1, SendInput(payload.text, payload.submit), t.session, t.selector)
        case Step(s2, Err(error)) => Fail(s2, MapError(svc.env, error, SendFailed))
        case Step(s2, Ok(_)) => Done(s2, "")
  }

  function Send(svc: Service, s: State, req: SendRequest): Outcome<string> {
    var (s1, _) :- EnsureAvailable(svc, s);
    if Trim(req.handle) != "" then
      if req.session.Some? || req.tabName.Some? || req.selector.Some? then Fail(s1, InvalidArgument)
      else SendToHandle(svc, s1, req)
    else if req.session.None? then Fail(s1, InvalidArgument)
    else SendToLocation(svc, s1, req, req.session.value)
  }

  // ---------------------------------------------------------------- replace

  function ReplaceLine(h: string, command: string): SendRequest {
    SendRequest(h, None, None, None, command, [], Some(SubmitLineInput), false)
  }

  const INTERRUPT := [3 as char]

  function ReplaceCommand(svc: Service, s: State, h: string, command: string, interrupt: bool): Outcome<Option<string>> {
    var (s1, _) :- EnsureAvailable(svc, s);
    var (s2, b) :- Refresh(svc, s1, h);
    if !IsActive(b) then Fail(s2, TargetStale)
    else if !SupportsMarkers(b) then Fail(s2, InvalidArgument)
    else ReplaceActive(svc, s2, h, command, interrupt, b)
  }

  function ReplaceActive(svc: Service, s: State, h: string, command: string, interrupt: bool, b: Binding)
    : Outcome<Option<string>>
  {
    var (s1, _) :- if interrupt then Interrupt(svc, s, h, b) else Done(s, ());
    var (s2, _) :- Send(svc, s1, ReplaceLine(h, command));
    Done(s2, ObservationOf(s2, h).interactionId)
  }

  function Interrupt(svc: Service, s: State, h: string, b: Binding): Outcome<()> {
    var (s1, _) :- Retry(svc, s, h, b, SendFailed, SendInput(INTERRUPT, false));
    Done(s1, ())
  }

  // ---------------------------------------------------------------- wait

  datatype WaitResponse = WaitResponse(observedAt: nat, byMarker: bool, interactionId: Option<string>,
                                       completed: Option<bool>, exitCode: Option<int>)

  /** The status a wait leaves: `Ready` when the pane went idle, `Busy` when time ran out. */
  function MarkWaited(s: State, h: string, r: Result<(), ErrorCode>): State {
    match (r, Lookup(s.bindings, h))
    case (Ok(_), Some(b)) => SetBinding(s, h, b.(status := Ready, updatedAt := s.time))
    case (Err(WaitTimeout), Some(b)) => SetBinding(s, h, b.(status := Busy, updatedAt := s.time))
    case _ => s
  }

  function WaitAnswer(snapshot: Snapshot, o: Observation, observedAt: nat): WaitResponse {
    match InteractionIn(snapshot.content, o)
    case None => WaitResponse(observedAt, false, None, None, None)
    case Some(found) =>
      WaitResponse(observedAt, found.completed, o.interactionId, Some(found.completed), found.exitCode)
  }

  /** The capture that ends a wait. */
  function WaitSnapshot(svc: Service, s: State, h: string, busy: Binding): Outcome<WaitResponse> {
    var (s1, snapshot) :- Retry(svc, s, h, busy, CaptureFailed, CaptureFull);
    var o := ObservationOf(s1, h);
    Done(SetObservation(s1, h, AfterCapture(svc.env, o, snapshot)), WaitAnswer(snapshot, o, s.time))
  }

  function WaitActive(svc: Service, s: State, h: string, busy: Binding, idleMs: nat, timeoutMs: nat)
    : Outcome<WaitResponse>
  {
    var waited := AwaitIdle(svc, s, h, busy, idleMs, timeoutMs);
    var s1 := MarkWaited(waited.state, h, waited.result);
    match waited.result
    case Err(code) => Fail(s1, code)
    case Ok(_) => WaitSnapshot(svc, s1, h, busy)
  }

  function WaitSynced(svc: Service, s: State, h: string, idleMs: nat, timeoutMs: nat): Outcome<WaitResponse> {
    var (s1, b) :- RefreshAndSync(svc, s, h);
    if !IsActive(b) then Fail(s1, TargetStale)
    else
      var busy := b.(status := Busy);
      WaitActive(svc, SetBinding(s1, h, busy), h, busy, idleMs, timeoutMs)
  }

  function Wait(svc: Service, s: State, h: string, idleMs: nat, timeoutMs: nat): Outcome<WaitResponse> {
    match Lookup(s.bindings, h)
    case None => Fail(s, HandleNotFound)
    case Some(stored) =>
      var (s1, _) :- EnsureUsable(svc, s, stored);
      WaitSynced(svc, s1, h, idleMs, timeoutMs)
  }

  // ---------------------------------------------------------------- close

  predicate MatchesTarget(b: Binding, t: Target) {
    (b.paneId.Some? && t.paneId == b.paneId) || DiscoverMatchesSelector(b.selector, t)
  }

  predicate AnyMatches(b: Binding, targets: seq<Target>) {
    exists t :: t in targets && MatchesTarget(b, t)
  }

  /** `verify_binding_closed`, from a moment before the deadline or after it. */
  function VerifyClosed(svc: Service, s: State, b: Binding, deadline: nat): Outcome<()>
    decreases Remaining(s.time, deadline)
  {
    match ListMapped(svc, s, b.session, CloseFailed)
    case Step(s1, Err(code)) => Fail(s1, code)
    case Step(s1, Ok(targets)) =>
      if !AnyMatches(b, targets) then Done(s1, ())
      else if s1.time >= deadline then Fail(s1, CloseFailed)
      else VerifyClosed(svc, Sleep(s1, 50), b, deadline)
  }

  function CloseBudget(svc: Service): nat { if IsRemote(svc) then 1000 else 250 }

  predicate MayExitShell(svc: Service, b: Binding, force: bool) {
    IsRemote(svc) && force && SupportsMarkers(b)
  }

  function ExitShell(svc: Service, s: State, b: Binding): Outcome<()> {
    match Do(svc, s, SendInput("exit", true), b)
    case Step(s1, Err(error)) => Fail(s1, MapError(svc.env, error, CloseFailed))
    case Step(s1, Ok(_)) => VerifyClosed(svc, s1, b, Deadline(s1, CloseBudget(svc)))
  }

  function CloseAndVerify(svc: Service, s: State, h: string, b: Binding, force: bool): Outcome<()> {
    var (s1, _) :- Retry(svc, s, h, b, CloseFailed, ClosePane(force));
    VerifyClosed(svc, s1, b, Deadline(s1, CloseBudget(svc)))
  }

  function CloseActive(svc: Service, s: State, h: string, b: Binding, force: bool): Outcome<()> {
    match CloseAndVerify(svc, s, h, b, force)
    case Step(s1, Ok(_)) => Done(s1, ())
    case Step(s1, Err(code)) => if MayExitShell(svc, b, force) then ExitShell(svc, s1, b) else Fail(s1, code)
  }

  function CloseSynced(svc: Service, s: State, h: string, force: bool): Outcome<()> {
    var (s1, b) :- RefreshAndSync(svc, s, h);
    if b.status.Closed? then Done(s1, ())
    else if !IsActive(b) then Fail(s1, TargetStale)
    else
      var (s2, _) :- CloseActive(svc, s1, h, b, force);
      Done(s2.(bindings := Put(s1.bindings, h, b.(status := Closed, updatedAt := s2.time)),
               observations := Without(s2.observations, h)),
           ())
  }

  function Close(svc: Service, s: State, h: string, force: bool): Outcome<()> {
    var (s1, _) :- EnsureAvailable(svc, s);
    CloseSynced(svc, s1, h, force)
  }

  // ---------------------------------------------------------------- all handles of a target

  predicate Owns(svc: Service, b: Binding) { b.targetId == svc.targetId }

  /** The loop of `revalidate_all` over the bindings it read at its start. */
  function RevalidateRows(svc: Service, s: State, rows: seq<Row<Binding>>): Outcome<()>
    decreases |rows|
  {
    if rows == [] then Done(s, ())
    else if !Owns(svc, rows[0].data) then RevalidateRows(svc, s, rows[1..])
    else
      match Refresh(svc, s, rows[0].handle)
      case Step(s1, Err(code)) =>
        if SkipsAvailability(svc, rows[0].data) then RevalidateRows(svc, s1, rows[1..]) else Fail(s1, code)
      case Step(s1, Ok(_)) => RevalidateRows(svc, s1, rows[1..])
  }

  function RevalidateAll(svc: Service, s: State): Outcome<()> {
    if IsRemote(svc) then RevalidateRows(svc, s, s.bindings)
    else
      match EnsureAvailable(svc, s)
      case Step(s1, Err(_)) => Done(s1, ())
      case Step(s1, Ok(_)) => RevalidateRows(svc, s1, s1.bindings)
  }

  predicate Listed(svc: Service, session: Option<string>, b: Binding) {
    Owns(svc, b) && (session.Some? ==> b.session == session.value)
  }

  function ListHandles(svc: Service, s: State, session: Option<string>): Outcome<seq<Row<Binding>>> {
    var (s1, _) :- RevalidateAll(svc, s);
    Done(s1, Filter((row: Row<Binding>) => Listed(svc, session, row.data), s1.bindings))
  }

  datatype CleanupRequest = CleanupRequest(statuses: seq<Status>, maxAgeMs: Option<nat>, dryRun: bool)

  /** `age as i64`. */
  function AsSigned64(n: nat): int {
    var low := n % 0x1_0000_0000_0000_0000;
    if low < 0x8000_0000_0000_0000 then low else low - 0x1_0000_0000_0000_0000
  }

  predicate Removable(svc: Service, req: CleanupRequest, now: nat, b: Binding) {
    && Owns(svc, b)
    && (if req.statuses == [] then b.status.Stale? || b.status.Closed? else b.status in req.statuses)
    && (req.maxAgeMs.Some? ==> b.updatedAt <= now - AsSigned64(req.maxAgeMs.value))
  }

  function RemovedKeys(svc: Service, req: CleanupRequest, now: nat, rows: seq<Row<Binding>>): seq<string> {
    if rows == [] then []
    else (if Removable(svc, req, now, rows[0].data) then [rows[0].handle] else [])
         + RemovedKeys(svc, req, now, rows[1..])
  }

  function Keep<D>(rows: seq<Row<D>>, removed: seq<string>): seq<Row<D>> {
    if rows == [] then []
    else (if rows[0].handle in removed then [] else [rows[0]]) + Keep(rows[1..], removed)
  }

  function Cleanup(svc: Service, s: State, req: CleanupRequest): Outcome<seq<string>> {
    var removed := RemovedKeys(svc, req, s.time, s.bindings);
    if req.dryRun || removed == [] then Done(s, removed)
    else Done(s.(bindings := Keep(s.bindings, removed), observations := Keep(s.observations, removed)), removed)
  }
}
