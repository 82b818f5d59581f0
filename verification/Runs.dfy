/** Whole runs: any requests, made through any targets over any backends, in any order. */
module Runs {
  import opened Entities
  import opened Keeping
  import opened Lifecycle
  import opened Operations
  import opened Rows
  import opened Spawning
  import opened Targets
  import opened Text
  import opened Upkeep

  datatype Request =
    | SpawnPane(spawn: SpawnRequest)
    | AttachPane(session: string, intent: LocationIntent, alias: Option<string>)
    | CapturePane(capture: CaptureRequest)
    | SendText(send: SendRequest)
    | ReplaceLineIn(handle: string, command: string, interrupt: bool)
    | WaitFor(handle: string, idleMs: nat, timeoutMs: nat)
    | CloseHandle(handle: string, force: bool)
    | ListAll(filter: Option<string>)
    | CleanUp(cleanup: CleanupRequest)
    | Revalidate
    | Pass(ms: nat)

  /** A request to the service of one target; its backend may answer it in any way. */
  datatype Event = Event(targetId: string, backend: Backend, request: Request)

  function Apply(svc: Service, s: State, request: Request): State {
    match request
    case SpawnPane(spawn) => Spawn(svc, s, spawn).state
    case AttachPane(session, intent, alias) => Attach(svc, s, session, intent, alias).state
    case CapturePane(capture) => Capture(svc, s, capture).state
    case SendText(send) => Send(svc, s, send).state
    case ReplaceLineIn(h, command, interrupt) => ReplaceCommand(svc, s, h, command, interrupt).state
    case WaitFor(h, idleMs, timeoutMs) => Wait(svc, s, h, idleMs, timeoutMs).state
    case CloseHandle(h, force) => Close(svc, s, h, force).state
    case ListAll(filter) => ListHandles(svc, s, filter).state
    case CleanUp(cleanup) => Cleanup(svc, s, cleanup).state
    case Revalidate => RevalidateAll(svc, s).state
    case Pass(ms) => Sleep(s, ms)
  }

  function After(env: Env, s: State, e: Event): State { Apply(Service(env, e.targetId, e.backend), s, e.request) }

  function Run(env: Env, s: State, events: seq<Event>): State
    decreases |events|
  {
    if events == [] then s else Run(env, After(env, s, events[0]), events[1..])
  }

  function Initial(): State { State([], [], [], 0, 0) }

  ghost predicate Injective(env: Env) {
    forall m: nat, n: nat :: env.handle(m) == env.handle(n) ==> m == n
  }

  // ---------------------------------------------------------------- the store invariant

  ghost predicate NamesWell(b: Binding) { PaneOk(b) && AttachedNames(b) }

  ghost predicate RowsAnchored(s: State) {
    forall h :: Lookup(s.bindings, h).Some? ==> NamesWell(Lookup(s.bindings, h).value)
  }

  ghost predicate Registered(s: State) {
    forall h :: Lookup(s.observations, h).Some? ==> Known(s, h)
  }

  /** Handles are distinct, each has at most one observation, every observation's handle is
      registered, every pane id is named by its selector, every attached binding names a pane, and
      names yet to be minted are unused. */
  ghost predicate Inv(env: Env, s: State) {
    && Distinct(Keys(s.bindings))
    && Distinct(Keys(s.observations))
    && RowsAnchored(s)
    && Registered(s)
    && NamesUnused(env, s)
  }

  lemma MovedKeepsRows(h: string, s: State, t: State)
    requires Moved(h, s, t) && RowsAnchored(s) && Registered(s)
    ensures RowsAnchored(t) && Registered(t)
  {
    forall k | Lookup(t.bindings, k).Some? ensures NamesWell(Lookup(t.bindings, k).value) {
      if k != h { OthersUntouched(h, s, t, k); } else { assert Known(s, h); }
    }
    forall k | Lookup(t.observations, k).Some? ensures Known(t, k) {
      if k != h { OthersUntouched(h, s, t, k); } else { KeptKnown(h, s, t); }
    }
  }

  lemma MovedKeepsInv(env: Env, h: string, s: State, t: State)
    requires Inv(env, s) && Moved(h, s, t)
    ensures Inv(env, t)
  {
    MovedKeepsRows(h, s, t);
    forall n: nat | n >= t.minted
      ensures Lookup(t.bindings, env.handle(n)).None? && Lookup(t.observations, env.handle(n)).None?
    {
      KnownByKeys(env.handle(n), s.bindings, t.bindings);
      if env.handle(n) != h { OthersUntouched(h, s, t, env.handle(n)); }
    }
  }

  lemma AddedSparesOthers(env: Env, h: string, s: State, t: State, k: string)
    requires Added(env, h, s, t) && k != h
    ensures Lookup(t.bindings, k) == Lookup(s.bindings, k) && Lookup(t.observations, k) == Lookup(s.observations, k)
  {
    LookupWithout(t.bindings, h, k);
    LookupWithout(t.observations, h, k);
  }

  lemma AddedKeepsRows(env: Env, h: string, s: State, t: State)
    requires Added(env, h, s, t) && RowsAnchored(s) && Registered(s)
    ensures RowsAnchored(t) && Registered(t)
  {
    forall k | Lookup(t.bindings, k).Some? ensures NamesWell(Lookup(t.bindings, k).value) {
      if k != h { AddedSparesOthers(env, h, s, t, k); }
    }
    forall k | Lookup(t.observations, k).Some? ensures Known(t, k) {
      if k != h { AddedSparesOthers(env, h, s, t, k); }
    }
  }

  lemma AddedKeepsInv(env: Env, h: string, s: State, t: State)
    requires Injective(env) && Inv(env, s) && Added(env, h, s, t)
    ensures Inv(env, t)
  {
    AddedKeepsRows(env, h, s, t);
    var m: nat :| s.minted <= m < t.minted && h == env.handle(m);
    KnownIsKey(s.bindings, h);
    DistinctPush(Keys(s.bindings), h);
    forall n: nat | n >= t.minted
      ensures Lookup(t.bindings, env.handle(n)).None? && Lookup(t.observations, env.handle(n)).None?
    {
      AddedSparesOthers(env, h, s, t, env.handle(n));
    }
  }

  lemma SteadyKeepsInv(env: Env, s: State, t: State)
    requires Inv(env, s) && forall h :: Steady(h, s, t)
    ensures Inv(env, t)
  {
    assert Steady("", s, t);
    forall h ensures Known(t, h) == Known(s, h) && (Known(t, h) ==> NamesWell(Lookup(t.bindings, h).value)) {
      assert Steady(h, s, t);
    }
  }

  lemma CleanupKeepsInv(svc: Service, s: State, req: CleanupRequest)
    requires Inv(svc.env, s)
    ensures Inv(svc.env, Cleanup(svc, s, req).state)
  {
    var t := Cleanup(svc, s, req).state;
    var removed := RemovedKeys(svc, req, s.time, s.bindings);
    KeepIsDistinct(s.bindings, removed);
    KeepIsDistinct(s.observations, removed);
    forall k
      ensures (Lookup(t.bindings, k) == Lookup(s.bindings, k) && Lookup(t.observations, k) == Lookup(s.observations, k))
              || (Lookup(t.bindings, k).None? && Lookup(t.observations, k).None?)
    {
      CleanupIsExact(svc, s, req, k);
    }
  }

  lemma UpkeepKeepsInv(svc: Service, s: State, request: Request)
    requires Inv(svc.env, s) && (request.ListAll? || request.Revalidate?)
    ensures Inv(svc.env, Apply(svc, s, request))
  {
    forall h ensures Steady(h, s, Apply(svc, s, request)) { RevalidationIsSteady(svc, s, h); }
    SteadyKeepsInv(svc.env, s, Apply(svc, s, request));
  }

  /** The handle a request is about, if it is about one. */
  function Subject(request: Request): Option<string> {
    match request
    case CapturePane(capture) => Some(capture.handle)
    case SendText(send) => Some(send.handle)
    case ReplaceLineIn(h, _, _) => Some(h)
    case WaitFor(h, _, _) => Some(h)
    case CloseHandle(h, _) => Some(h)
    case _ => None
  }

  lemma SubjectMoves(svc: Service, s: State, request: Request)
    requires Subject(request).Some?
    ensures Moved(Subject(request).value, s, Apply(svc, s, request))
  {
    match request
    case CapturePane(capture) => CaptureKeeps(svc, s, capture);
    case SendText(send) => SendMoves(svc, s, send);
    case ReplaceLineIn(h, command, interrupt) => ReplaceKeeps(svc, s, h, command, interrupt);
    case WaitFor(h, idleMs, timeoutMs) => WaitKeeps(svc, s, h, idleMs, timeoutMs);
    case CloseHandle(h, force) => CloseMoves(svc, s, h, force);
    case _ =>
  }

  predicate MakesHandle(request: Request) { request.SpawnPane? || request.AttachPane? }

  /** Making a handle adds one, or leaves both stores as they were. */
  lemma MakingAdds(svc: Service, s: State, request: Request) returns (h: Option<string>)
    requires NamesUnused(svc.env, s) && MakesHandle(request)
    ensures h.None? ==> StoresRestored(s, Apply(svc, s, request))
    ensures h.Some? ==> Added(svc.env, h.value, s, Apply(svc, s, request))
  {
    match request
    case SpawnPane(spawn) =>
      SpawnIsAllOrNothing(svc, s, spawn);
      var r := Spawn(svc, s, spawn);
      h := if r.result.Ok? then Some(r.result.value.handle)
           else if LastRevalidationFails(svc, s, spawn) then Some(LaunchAndRegister(svc, s, spawn).result.value.handle)
           else None;
    case AttachPane(session, intent, alias) =>
      AttachAdds(svc, s, session, intent, alias);
      var r := Attach(svc, s, session, intent, alias);
      h := if r.result.Ok? then Some(r.result.value.handle) else None;
    case _ =>
      h := None;
  }

  lemma RestoredKeepsInv(env: Env, s: State, t: State)
    requires Inv(env, s) && StoresRestored(s, t)
    ensures Inv(env, t)
  {
    assert forall h :: Known(t, h) == Known(s, h);
  }

  lemma EventKeepsInv(env: Env, s: State, e: Event)
    requires Injective(env) && Inv(env, s)
    ensures Inv(env, After(env, s, e))
  {
    var svc, t := Service(env, e.targetId, e.backend), After(env, s, e);
    if Subject(e.request).Some? {
      SubjectMoves(svc, s, e.request);
      MovedKeepsInv(env, Subject(e.request).value, s, t);
    } else if MakesHandle(e.request) {
      var h := MakingAdds(svc, s, e.request);
      if h.Some? { AddedKeepsInv(env, h.value, s, t); } else { RestoredKeepsInv(env, s, t); }
    } else if e.request.CleanUp? {
      CleanupKeepsInv(svc, s, e.request.cleanup);
    } else if e.request.Pass? {
      RestoredKeepsInv(env, s, t);
    } else {
      UpkeepKeepsInv(svc, s, e.request);
    }
  }

  /** The store invariant holds in every reachable state, whatever the backends do. */
  lemma {:induction false} RunKeepsInv(env: Env, s: State, events: seq<Event>)
    requires Injective(env) && Inv(env, s)
    ensures Inv(env, Run(env, s, events))
    decreases |events|
  {
    if events != [] {
      EventKeepsInv(env, s, events[0]);
      RunKeepsInv(env, After(env, s, events[0]), events[1..]);
    }
  }

  lemma InitialInv(env: Env)
    ensures Inv(env, Initial())
  {
  }

  // ---------------------------------------------------------------- what becomes of a handle

  /** Over time a binding evolves until it is gone. */
  ghost predicate Follows(b: Option<Binding>, c: Option<Binding>) {
    b.Some? && c.Some? ==> Evolves(b.value, c.value)
  }

  /** A name minted already. */
  ghost predicate Issued(env: Env, s: State, h: string) {
    exists n: nat :: n < s.minted && h == env.handle(n)
  }

  lemma AddedIsNew(env: Env, h: string, s: State, t: State, k: string)
    requires Injective(env) && Added(env, h, s, t) && Issued(env, s, k)
    ensures k != h
  {
  }

  lemma CleanupFollows(svc: Service, s: State, req: CleanupRequest, h: string)
    requires Distinct(Keys(s.bindings))
    ensures var t := Cleanup(svc, s, req).state;
            Lookup(t.bindings, h) == Lookup(s.bindings, h)
            || (Lookup(t.bindings, h).None? && RemovableAt(svc, req, s.time, s.bindings, h))
  {
    CleanupIsExact(svc, s, req, h);
  }

  lemma MovedFollows(k: string, s: State, t: State, h: string)
    requires Moved(k, s, t)
    ensures Follows(Lookup(s.bindings, h), Lookup(t.bindings, h)) && Known(t, h) == Known(s, h)
  {
    KnownByKeys(h, s.bindings, t.bindings);
    if h != k { OthersUntouched(k, s, t, h); }
  }

  /** What an event may do to a handle: nothing makes it again, and only a cleanup that matches it
      removes it. */
  ghost predicate HandleSteps(svc: Service, s: State, request: Request, t: State, h: string) {
    && Follows(Lookup(s.bindings, h), Lookup(t.bindings, h))
    && (Known(t, h) ==> Known(s, h))
    && (Known(s, h) && !Known(t, h)
        ==> request.CleanUp? && RemovableAt(svc, request.cleanup, s.time, s.bindings, h))
  }

  lemma MakingSteps(svc: Service, s: State, request: Request, h: string)
    requires Injective(svc.env) && Inv(svc.env, s) && Issued(svc.env, s, h) && MakesHandle(request)
    ensures HandleSteps(svc, s, request, Apply(svc, s, request), h)
  {
    var made := MakingAdds(svc, s, request);
    if made.Some? {
      AddedIsNew(svc.env, made.value, s, Apply(svc, s, request), h);
      AddedSparesOthers(svc.env, made.value, s, Apply(svc, s, request), h);
    }
  }

  lemma SubjectSteps(svc: Service, s: State, request: Request, h: string)
    requires Subject(request).Some?
    ensures HandleSteps(svc, s, request, Apply(svc, s, request), h)
  {
    SubjectMoves(svc, s, request);
    MovedFollows(Subject(request).value, s, Apply(svc, s, request), h);
  }

  lemma UpkeepSteps(svc: Service, s: State, request: Request, h: string)
    requires Inv(svc.env, s) && Subject(request).None? && !MakesHandle(request)
    ensures HandleSteps(svc, s, request, Apply(svc, s, request), h)
  {
    if request.CleanUp? {
      CleanupFollows(svc, s, request.cleanup, h);
    } else if !request.Pass? {
      RevalidationIsSteady(svc, s, h);
    }
  }

  /** An issued handle evolves, and only a cleanup that matches it removes it; once gone it does
      not come back. */
  lemma EventFollows(env: Env, s: State, e: Event, h: string)
    requires Injective(env) && Inv(env, s) && Issued(env, s, h)
    ensures HandleSteps(Service(env, e.targetId, e.backend), s, e.request, After(env, s, e), h)
  {
    var svc := Service(env, e.targetId, e.backend);
    if Subject(e.request).Some? {
      SubjectSteps(svc, s, e.request, h);
    } else if MakesHandle(e.request) {
      MakingSteps(svc, s, e.request, h);
    } else {
      UpkeepSteps(svc, s, e.request, h);
    }
  }

  /** An event of one target leaves a binding of another target exactly as it is, unless the handle
      was addressed by name. */
  lemma EventSparesForeign(env: Env, s: State, e: Event, h: string)
    requires Injective(env) && Inv(env, s) && Issued(env, s, h) && Known(s, h)
    requires Lookup(s.bindings, h).value.targetId != e.targetId && Subject(e.request) != Some(h)
    ensures Lookup(After(env, s, e).bindings, h) == Lookup(s.bindings, h)
  {
    var svc, t := Service(env, e.targetId, e.backend), After(env, s, e);
    if Subject(e.request).Some? {
      SubjectMoves(svc, s, e.request);
      OthersUntouched(Subject(e.request).value, s, t, h);
    } else if MakesHandle(e.request) {
      var made := MakingAdds(svc, s, e.request);
      if made.Some? {
        AddedIsNew(env, made.value, s, t, h);
        AddedSparesOthers(env, made.value, s, t, h);
      }
    } else if e.request.CleanUp? {
      CleanupFollows(svc, s, e.request.cleanup, h);
    } else if !e.request.Pass? {
      RevalidationSparesForeign(svc, s, h);
    }
  }

  lemma EventIssues(env: Env, s: State, e: Event, h: string)
    requires Inv(env, s) && Issued(env, s, h)
    ensures Issued(env, After(env, s, e), h)
  {
    EventIsLater(env, s, e);
    var n: nat :| n < s.minted && h == env.handle(n);
    assert n < After(env, s, e).minted;
  }

  lemma EventIsLater(env: Env, s: State, e: Event)
    requires Inv(env, s)
    ensures Later(s, After(env, s, e))
  {
    var svc := Service(env, e.targetId, e.backend);
    if Subject(e.request).Some? {
      SubjectMoves(svc, s, e.request);
    } else if MakesHandle(e.request) {
      var made := MakingAdds(svc, s, e.request);
    } else if !e.request.Pass? && !e.request.CleanUp? {
      RevalidationIsSteady(svc, s, "");
    }
  }

  lemma {:induction false} GoneStaysGone(env: Env, s: State, events: seq<Event>, h: string)
    requires Injective(env) && Inv(env, s) && Issued(env, s, h) && !Known(s, h)
    ensures !Known(Run(env, s, events), h)
    decreases |events|
  {
    if events != [] {
      EventKeepsInv(env, s, events[0]);
      EventFollows(env, s, events[0], h);
      EventIssues(env, s, events[0], h);
      GoneStaysGone(env, After(env, s, events[0]), events[1..], h);
    }
  }

  /** Pane identity over whole runs: a handle keeps its origin, and the pane it once named, through
      stale and back, for as long as it is registered. */
  lemma {:induction false} HandleFollows(env: Env, s: State, events: seq<Event>, h: string)
    requires Injective(env) && Inv(env, s) && Issued(env, s, h)
    ensures Follows(Lookup(s.bindings, h), Lookup(Run(env, s, events).bindings, h))
    decreases |events|
  {
    if events != [] {
      var t := After(env, s, events[0]);
      EventKeepsInv(env, s, events[0]);
      EventFollows(env, s, events[0], h);
      EventIssues(env, s, events[0], h);
      HandleFollows(env, t, events[1..], h);
      if Known(s, h) && !Known(t, h) { GoneStaysGone(env, t, events[1..], h); }
    }
  }

  /** Every registered handle carries a name that was minted, in every state of a run. */
  lemma {:induction false} KnownAreIssued(env: Env, s: State, events: seq<Event>, h: string)
    requires Injective(env) && Inv(env, s) && (Known(s, h) ==> Issued(env, s, h))
    ensures Known(Run(env, s, events), h) ==> Issued(env, Run(env, s, events), h)
    decreases |events|
  {
    if events != [] {
      EventKeepsInv(env, s, events[0]);
      EventKnowsIssued(env, s, events[0], h);
      KnownAreIssued(env, After(env, s, events[0]), events[1..], h);
    }
  }

  lemma EventKnowsIssued(env: Env, s: State, e: Event, h: string)
    requires Inv(env, s) && (Known(s, h) ==> Issued(env, s, h))
    ensures Known(After(env, s, e), h) ==> Issued(env, After(env, s, e), h)
  {
    var svc, t := Service(env, e.targetId, e.backend), After(env, s, e);
    if Known(s, h) {
      EventIssues(env, s, e, h);
    } else if Subject(e.request).Some? {
      SubjectMoves(svc, s, e.request);
      KnownByKeys(h, s.bindings, t.bindings);
    } else if MakesHandle(e.request) {
      var made := MakingAdds(svc, s, e.request);
      if made.Some? {
        if h != made.value { AddedSparesOthers(env, made.value, s, t, h); }
      }
    } else if e.request.CleanUp? {
      CleanupFollows(svc, s, e.request.cleanup, h);
    } else if !e.request.Pass? {
      RevalidationIsSteady(svc, s, h);
    }
  }

  /** From an empty registry on: whenever a handle names a pane, then at every later time it names
      that pane, in canonical form, or is no longer registered. */
  lemma PaneIsForever(env: Env, before: seq<Event>, later: seq<Event>, h: string, pane: string)
    requires Injective(env)
    requires var s := Run(env, Initial(), before);
             Known(s, h) && Lookup(s.bindings, h).value.paneId == Some(pane)
    ensures var t := Run(env, Run(env, Initial(), before), later);
            Known(t, h) ==> && Lookup(t.bindings, h).value.paneId == Some(pane)
                            && Lookup(t.bindings, h).value.selector == "id:" + pane
                            && SameOrigin(Lookup(Run(env, Initial(), before).bindings, h).value,
                                          Lookup(t.bindings, h).value)
  {
    var s := Run(env, Initial(), before);
    InitialInv(env);
    RunKeepsInv(env, Initial(), before);
    KnownAreIssued(env, Initial(), before, h);
    HandleFollows(env, s, later, h);
  }

  // ---------------------------------------------------------------- closed handles

  /** A send that clears the input line of an attached pane. */
  predicate ClearsLine(req: SendRequest) {
    match ResolveSendMode(req)
    case Ok(mode) => IsLine(req, mode) && (req.submit || mode.SubmitLine?)
    case Err(_) => false
  }

  predicate ClearsLineOf(h: string, request: Request) {
    request.SendText? && request.send.handle == h && ClearsLine(request.send)
  }

  /** Nobody sends the handle a line that would clear an attached pane's input first. */
  predicate NeverCleared(events: seq<Event>, h: string) {
    events == [] || (!ClearsLineOf(h, events[0].request) && NeverCleared(events[1..], h))
  }

  lemma SubjectKeepsClosed(svc: Service, s: State, request: Request)
    requires Subject(request).Some?
    requires request.SendText? ==> !ClearsClosed(s, request.send)
    ensures var h := Subject(request).value;
            ClosedStays(Lookup(s.bindings, h), Lookup(Apply(svc, s, request).bindings, h))
  {
    match request
    case CapturePane(capture) => CaptureKeeps(svc, s, capture);
    case SendText(send) => SendMoves(svc, s, send);
    case ReplaceLineIn(h, command, interrupt) => ReplaceKeeps(svc, s, h, command, interrupt);
    case WaitFor(h, idleMs, timeoutMs) => WaitKeeps(svc, s, h, idleMs, timeoutMs);
    case CloseHandle(h, force) => CloseMoves(svc, s, h, force);
    case _ =>
  }

  ghost predicate ClosedAt(s: State, h: string, b: Binding) {
    Lookup(s.bindings, h) == Some(b) && b.status.Closed?
  }

  lemma EventKeepsClosed(env: Env, s: State, e: Event, h: string, b: Binding)
    requires Injective(env) && Inv(env, s) && Issued(env, s, h) && ClosedAt(s, h, b)
    requires b.source.Spawned? || !ClearsLineOf(h, e.request)
    ensures Known(After(env, s, e), h) ==> ClosedAt(After(env, s, e), h, b)
  {
    var svc, t := Service(env, e.targetId, e.backend), After(env, s, e);
    if Subject(e.request).Some? {
      SubjectMoves(svc, s, e.request);
      if h == Subject(e.request).value {
        SubjectKeepsClosed(svc, s, e.request);
      } else {
        OthersUntouched(Subject(e.request).value, s, t, h);
      }
    } else if MakesHandle(e.request) {
      var made := MakingAdds(svc, s, e.request);
      if made.Some? {
        AddedIsNew(env, made.value, s, t, h);
        AddedSparesOthers(env, made.value, s, t, h);
      }
    } else if e.request.CleanUp? {
      CleanupFollows(svc, s, e.request.cleanup, h);
    } else if !e.request.Pass? {
      RevalidationIsSteady(svc, s, h);
    }
  }

  /** Closed is absorbing: the binding of a closed handle is not touched until a cleanup removes
      it, in every run if it was spawned, and in every run without a line-clearing send to it if
      it was attached. */
  lemma {:induction false} ClosedIsAbsorbing(env: Env, s: State, events: seq<Event>, h: string, b: Binding)
    requires Injective(env) && Inv(env, s) && Issued(env, s, h) && ClosedAt(s, h, b)
    requires b.source.Spawned? || NeverCleared(events, h)
    ensures Known(Run(env, s, events), h) ==> ClosedAt(Run(env, s, events), h, b)
    decreases |events|
  {
    if events != [] {
      var t := After(env, s, events[0]);
      EventKeepsInv(env, s, events[0]);
      EventIssues(env, s, events[0], h);
      EventKeepsClosed(env, s, events[0], h, b);
      if Known(t, h) { ClosedIsAbsorbing(env, t, events[1..], h, b); } else { GoneStaysGone(env, t, events[1..], h); }
    }
  }
}
