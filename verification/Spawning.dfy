/** Operations that make handles: spawn is all or nothing but for its last revalidation, and attach
    adds exactly one binding. */
module Spawning {
  import opened Entities
  import opened Keeping
  import opened Lifecycle
  import opened Operations
  import opened Rows
  import opened Targets
  import opened Text

  /** No handle minted from now on is in a store. */
  ghost predicate NamesUnused(env: Env, s: State) {
    forall n: nat :: n >= s.minted ==>
      Lookup(s.bindings, env.handle(n)).None? && Lookup(s.observations, env.handle(n)).None?
  }

  /** One handle was added, with a name minted meanwhile; all else is as it was, in its order. */
  ghost predicate Added(env: Env, h: string, s: State, t: State) {
    && Later(s, t)
    && (exists n: nat :: s.minted <= n < t.minted && h == env.handle(n))
    && Keys(t.bindings) == Keys(s.bindings) + [h]
    && Without(t.bindings, h) == s.bindings
    && Without(t.observations, h) == s.observations
    && (Distinct(Keys(s.observations)) ==> Distinct(Keys(t.observations)))
    && Known(t, h)
    && PaneOk(Lookup(t.bindings, h).value)
    && AttachedNames(Lookup(t.bindings, h).value)
  }

  /** Nothing but calls and time: both stores are exactly as they were. */
  ghost predicate StoresRestored(s: State, t: State) {
    Later(s, t) && t.bindings == s.bindings && t.observations == s.observations
  }

  lemma AddedThenMoved(env: Env, h: string, s: State, t: State, u: State)
    requires Added(env, h, s, t) && Moved(h, t, u)
    ensures Added(env, h, s, u)
  {
    LaterTrans(s, t, u);
    KeptKnown(h, t, u);
    var n: nat :| s.minted <= n < t.minted && h == env.handle(n);
    assert s.minted <= n < u.minted;
  }

  lemma LaterThenAdded(env: Env, h: string, s: State, t: State, u: State)
    requires Quiet(s, t) && Added(env, h, t, u)
    ensures Added(env, h, s, u)
  {
    LaterTrans(s, t, u);
    var n: nat :| t.minted <= n < u.minted && h == env.handle(n);
    assert s.minted <= n < u.minted;
  }

  // ---------------------------------------------------------------- registration

  lemma PushedIsAdded(env: Env, h: string, s: State, t: State, b: Binding, o: Observation)
    requires h == env.handle(s.minted) && t.minted == s.minted + 1 && Later(s, t)
    requires Lookup(s.bindings, h).None? && Lookup(s.observations, h).None? && PaneOk(b) && AttachedNames(b)
    requires t.bindings == s.bindings + [Row(h, b)] && t.observations == s.observations + [Row(h, o)]
    ensures Added(env, h, s, t) && Lookup(t.bindings, h) == Some(b)
  {
    LookupPush(s.bindings, h, b, h);
    KeysPush(s.bindings, h, b);
    WithoutPush(s.bindings, h, b);
    WithoutAbsent(s.bindings, h);
    KeysPush(s.observations, h, o);
    WithoutPush(s.observations, h, o);
    WithoutAbsent(s.observations, h);
    KnownIsKey(s.observations, h);
    if Distinct(Keys(s.observations)) { DistinctPush(Keys(s.observations), h); }
  }

  lemma PanesBeforeIsQuiet(svc: Service, s: State, req: SpawnRequest)
    ensures Quiet(s, PanesBefore(svc, s, req).state)
  {
  }

  lemma SpawnedIsAnchored(svc: Service, req: SpawnRequest, launched: Option<CanonicalTarget>, now: nat)
    ensures PaneOk(SpawnedBinding(svc, req, launched, now)) && AttachedNames(SpawnedBinding(svc, req, launched, now))
  {
  }

  lemma QuietKeepsNamesUnused(env: Env, s: State, t: State)
    requires NamesUnused(env, s) && Quiet(s, t)
    ensures NamesUnused(env, t)
  {
  }

  lemma RegisterAdds(svc: Service, s: State, req: SpawnRequest, launched: Option<CanonicalTarget>, o: Observation)
    requires NamesUnused(svc.env, s)
    ensures var h := svc.env.handle(s.minted);
            var b := SpawnedBinding(svc, req, launched, s.time);
            var t := Register(s.(minted := s.minted + 1), h, b, o);
            Added(svc.env, h, s, t) && Lookup(t.bindings, h) == Some(b)
  {
    var h := svc.env.handle(s.minted);
    var b := SpawnedBinding(svc, req, launched, s.time);
    SpawnedIsAnchored(svc, req, launched, s.time);
    WithoutAbsent(s.bindings, h);
    WithoutAbsent(s.observations, h);
    PushedIsAdded(svc.env, h, s, Register(s.(minted := s.minted + 1), h, b, o), b, o);
  }

  lemma LaunchAdds(svc: Service, s: State, req: SpawnRequest)
    requires NamesUnused(svc.env, s)
    ensures var r := LaunchAndRegister(svc, s, req);
            if r.result.Err? then StoresRestored(s, r.state)
            else && Added(svc.env, r.result.value.handle, s, r.state)
                 && Lookup(r.state.bindings, r.result.value.handle) == Some(r.result.value.binding)
  {
    PanesBeforeIsQuiet(svc, s, req);
    var before := PanesBefore(svc, s, req);
    if before.result.Ok? {
      var launched := LaunchPane(svc, before.state);
      QuietTrans(s, before.state, launched.state);
      if launched.result.Ok? {
        var o := SpawnedObservation(req, before.result.value, launched.state.time);
        QuietKeepsNamesUnused(svc.env, s, launched.state);
        RegisterAdds(svc, launched.state, req, launched.result.value, o);
        LaterThenAdded(svc.env, svc.env.handle(launched.state.minted), s, launched.state,
                       LaunchAndRegister(svc, s, req).state);
      }
    }
  }

  // ---------------------------------------------------------------- from registration to the first capture

  /** An error takes the handle out of both stores; otherwise the handle is there, with the status
      that is reported. */
  ghost predicate SettledOrGone(h: string, s: State, r: Outcome<Settled>) {
    match r.result
    case Err(_) =>
      && Later(s, r.state)
      && r.state.bindings == Without(s.bindings, h) && r.state.observations == Without(s.observations, h)
    case Ok(LeftBusy(b)) => Moved(h, s, r.state) && Lookup(r.state.bindings, h) == Some(b) && b.status.Busy?
    case Ok(Observed) => Moved(h, s, r.state)
  }

  lemma SettledLater(h: string, s: State, t: State, r: Outcome<Settled>)
    requires Kept(h, s, t) && SettledOrGone(h, t, r)
    ensures SettledOrGone(h, s, r)
  {
    LaterTrans(s, t, r.state);
    if r.result.Ok? { MovedTrans(h, s, t, r.state); }
  }

  lemma RolledBack(h: string, s: State, t: State, code: ErrorCode)
    requires Kept(h, s, t)
    ensures SettledOrGone(h, s, Fail(Rollback(t, h), code))
  {
  }

  lemma StatusMoves(s: State, h: string, status: Status, now: nat)
    requires Known(s, h)
    ensures var r := UpdateStatus(s, h, status, now);
            && r.result.Ok? && Moved(h, s, r.state)
            && Lookup(r.state.bindings, h) == Some(r.result.value) && r.result.value.status == status
  {
    var b := Lookup(s.bindings, h).value;
    SetBindingIsMoved(s, h, b, b.(status := status, updatedAt := now));
  }

  lemma LeftBusySettles(s: State, h: string)
    requires Known(s, h)
    ensures SettledOrGone(h, s, LeaveBusy(s, h))
  {
    StatusMoves(s, h, Busy, s.time);
  }

  lemma RecordSettles(svc: Service, s: State, h: string, snapshot: Snapshot)
    requires Known(s, h)
    ensures SettledOrGone(h, s, RecordFirst(svc, s, h, snapshot)) && RecordFirst(svc, s, h, snapshot).result.Ok?
  {
    var o := FirstObservation(svc.env, ObservationOf(s, h), snapshot);
    SetObservationIsKept(s, h, o);
    var observed := SetObservation(s, h, o);
    StatusMoves(observed, h, Ready, snapshot.capturedAt);
    MovedTrans(h, s, observed, RecordFirst(svc, s, h, snapshot).state);
  }

  lemma CapturedSettles(svc: Service, s: State, h: string, b: Binding)
    requires Known(s, h)
    ensures SettledOrGone(h, s, CaptureOnce(svc, s, h, b))
  {
    RetryKeeps(svc, s, h, b, CaptureFailed, CaptureFull);
    var captured := Retry(svc, s, h, b, CaptureFailed, CaptureFull);
    KeptKnown(h, s, captured.state);
    match captured.result
    case Ok(snapshot) =>
      RecordSettles(svc, captured.state, h, snapshot);
      SettledLater(h, s, captured.state, RecordFirst(svc, captured.state, h, snapshot));
    case Err(code) =>
      RolledBack(h, s, captured.state, code);
      LeftBusySettles(captured.state, h);
      SettledLater(h, s, captured.state, LeaveBusy(captured.state, h));
  }

  lemma CaptureFirstSettles(svc: Service, s: State, h: string)
    requires Known(s, h)
    ensures SettledOrGone(h, s, CaptureFirst(svc, s, h))
  {
    RefreshKeeps(svc, s, h);
    var again := Refresh(svc, s, h);
    match again.result
    case Ok(b) =>
      KeptKnown(h, s, again.state);
      CapturedSettles(svc, again.state, h, b);
      SettledLater(h, s, again.state, CaptureOnce(svc, again.state, h, b));
    case Err(code) =>
      RolledBack(h, s, again.state, code);
  }

  lemma WaitSettles(svc: Service, s: State, h: string, b: Binding)
    requires Known(s, h)
    ensures SettledOrGone(h, s, WaitFirst(svc, s, h, b))
  {
    AwaitIdleKeeps(svc, s, h, b, 1200, 30000);
    var waited := AwaitIdle(svc, s, h, b, 1200, 30000);
    KeptKnown(h, s, waited.state);
    match waited.result
    case Ok(_) =>
      CaptureFirstSettles(svc, waited.state, h);
      SettledLater(h, s, waited.state, CaptureFirst(svc, waited.state, h));
    case Err(code) =>
      RolledBack(h, s, waited.state, code);
      LeftBusySettles(waited.state, h);
      SettledLater(h, s, waited.state, LeaveBusy(waited.state, h));
  }

  lemma SettleSettles(svc: Service, s: State, h: string, req: SpawnRequest)
    requires Known(s, h)
    ensures SettledOrGone(h, s, Settle(svc, s, h, req))
  {
    RefreshKeeps(svc, s, h);
    var again := Refresh(svc, s, h);
    match again.result
    case Err(code) => RolledBack(h, s, again.state, code);
    case Ok(b) =>
      KeptKnown(h, s, again.state);
      if req.waitReady {
        WaitSettles(svc, again.state, h, b);
        SettledLater(h, s, again.state, WaitFirst(svc, again.state, h, b));
      } else {
        CaptureFirstSettles(svc, again.state, h);
        SettledLater(h, s, again.state, CaptureFirst(svc, again.state, h));
      }
  }

  // ---------------------------------------------------------------- spawn

  ghost predicate LosesAtEnd(svc: Service, settled: Outcome<Settled>, h: string) {
    settled.result == Ok(Observed) && Confirm(svc, settled.state, h).result.Err?
  }

  /** The pane was launched, registered and captured, and only the last revalidation fails. */
  ghost predicate LastRevalidationFails(svc: Service, s: State, req: SpawnRequest) {
    var r := LaunchAndRegister(svc, s, req);
    r.result.Ok? && !r.result.value.detached
    && LosesAtEnd(svc, Settle(svc, r.state, r.result.value.handle, req), r.result.value.handle)
  }

  /** A success: the new handle is stored just as the response describes it. */
  ghost predicate SpawnAdded(svc: Service, s: State, t: State, response: SpawnResponse) {
    && Added(svc.env, response.handle, s, t)
    && response == Describe(svc, response.handle, Lookup(t.bindings, response.handle).value)
  }

  /** What a spawn may come to. */
  ghost predicate SpawnEnds(svc: Service, s: State, req: SpawnRequest, r: Outcome<SpawnResponse>) {
    match r.result
    case Ok(response) => SpawnAdded(svc, s, r.state, response)
    case Err(_) =>
      if LastRevalidationFails(svc, s, req)
      then Added(svc.env, LaunchAndRegister(svc, s, req).result.value.handle, s, r.state)
      else StoresRestored(s, r.state)
  }

  lemma RollbackRestores(env: Env, h: string, s: State, t: State, u: State)
    requires Added(env, h, s, t) && Later(t, u)
    requires u.bindings == Without(t.bindings, h) && u.observations == Without(t.observations, h)
    ensures StoresRestored(s, u)
  {
    LaterTrans(s, t, u);
  }

  lemma ConfirmEnds(svc: Service, s: State, t: State, h: string)
    requires Added(svc.env, h, s, t)
    ensures var r := Confirm(svc, t, h);
            Added(svc.env, h, s, r.state) && (r.result.Ok? ==> SpawnAdded(svc, s, r.state, r.result.value))
  {
    RefreshKeeps(svc, t, h);
    AddedThenMoved(svc.env, h, s, t, Refresh(svc, t, h).state);
  }

  lemma SettledEnds(svc: Service, s: State, t: State, h: string, r: Outcome<Settled>)
    requires Added(svc.env, h, s, t) && SettledOrGone(h, t, r)
    ensures r.result.Err? ==> StoresRestored(s, r.state)
    ensures r.result.Ok? ==> Added(svc.env, h, s, r.state)
  {
    if r.result.Ok? {
      AddedThenMoved(svc.env, h, s, t, r.state);
    } else {
      RollbackRestores(svc.env, h, s, t, r.state);
    }
  }

  lemma ConcludeEnds(svc: Service, s: State, t: State, settled: Outcome<Settled>, h: string)
    requires Added(svc.env, h, s, t) && SettledOrGone(h, t, settled)
    ensures var r := Conclude(svc, settled, h);
            match r.result
            case Ok(response) => SpawnAdded(svc, s, r.state, response)
            case Err(_) =>
              if LosesAtEnd(svc, settled, h) then Added(svc.env, h, s, r.state) else StoresRestored(s, r.state)
  {
    SettledEnds(svc, s, t, h, settled);
    match settled.result
    case Err(_) =>
    case Ok(LeftBusy(_)) =>
    case Ok(Observed) => ConfirmEnds(svc, s, settled.state, h);
  }

  /** Spawn is all or nothing: a success leaves exactly one new binding, whose stored status is the
      one returned; an error leaves both stores exactly as they were, unless it comes from the
      last revalidation, and then the new handle stays registered. */
  lemma SpawnIsAllOrNothing(svc: Service, s: State, req: SpawnRequest)
    requires NamesUnused(svc.env, s)
    ensures SpawnEnds(svc, s, req, Spawn(svc, s, req))
  {
    LaunchAdds(svc, s, req);
    var r := LaunchAndRegister(svc, s, req);
    if r.result.Ok? && !r.result.value.detached {
      var h := r.result.value.handle;
      SettleSettles(svc, r.state, h, req);
      ConcludeEnds(svc, s, r.state, Settle(svc, r.state, h, req), h);
    }
  }

  lemma AddedIsNotRestored(env: Env, h: string, s: State, t: State)
    requires Added(env, h, s, t)
    ensures !StoresRestored(s, t)
  {
    assert |Keys(t.bindings)| == |Keys(s.bindings)| + 1;
  }

  /** And exactly then: an error changes the stores if and only if the last revalidation failed. */
  lemma SpawnLeaksExactly(svc: Service, s: State, req: SpawnRequest)
    requires NamesUnused(svc.env, s) && Spawn(svc, s, req).result.Err?
    ensures !StoresRestored(s, Spawn(svc, s, req).state) <==> LastRevalidationFails(svc, s, req)
  {
    SpawnIsAllOrNothing(svc, s, req);
    if LastRevalidationFails(svc, s, req) {
      AddedIsNotRestored(svc.env, LaunchAndRegister(svc, s, req).result.value.handle, s, Spawn(svc, s, req).state);
    }
  }

  // ---------------------------------------------------------------- attach

  lemma LocationIsCanonical(svc: Service, s: State, session: string, intent: LocationIntent, code: ErrorCode)
    ensures var r := ResolveLocation(svc, s, session, intent, code);
            Quiet(s, r.state) && (r.result.Ok? ==> Canonical(r.result.value))
  {
    ListedAreCanonical(svc, s, session, code);
  }

  lemma AttachToAdds(svc: Service, s: State, t: Target, alias: Option<string>)
    requires NamesUnused(svc.env, s) && Canonical(t)
    ensures var r := AttachTo(svc, s, t, alias);
            r.result.Ok? && Added(svc.env, r.result.value.handle, s, r.state)
  {
    var h := svc.env.handle(s.minted);
    var b := AttachedBinding(svc, t, alias, s.time);
    WithoutAbsent(s.observations, h);
    var pushed := AttachRegister(svc, s, h, b);
    PushedIsAdded(svc.env, h, s, pushed, b, BLANK);
    var captured := Do(svc, pushed, CaptureFull, b);
    DoIsQuiet(svc, pushed, CaptureFull, b);
    QuietIsKept(h, pushed, captured.state);
    AddedThenMoved(svc.env, h, s, pushed, captured.state);
    if captured.result.Ok? {
      AttachBaselineMoves(svc, captured.state, h, b, captured.result.value);
      AddedThenMoved(svc.env, h, s, captured.state, AttachBaseline(svc, captured.state, h, captured.result.value));
    }
  }

  lemma AttachBaselineMoves(svc: Service, s: State, h: string, b: Binding, snapshot: Snapshot)
    requires Lookup(s.bindings, h) == Some(b)
    ensures Moved(h, s, AttachBaseline(svc, s, h, snapshot))
  {
    var o := Baseline(svc.env, ObservationOf(s, h), snapshot);
    SetObservationIsKept(s, h, o);
    var observed := SetObservation(s, h, o);
    SetBindingIsMoved(observed, h, b, b.(status := Ready, updatedAt := snapshot.capturedAt));
    MovedTrans(h, s, observed, AttachBaseline(svc, s, h, snapshot));
  }

  /** An attach or a takeover adds exactly one binding, or nothing when it fails. */
  lemma AttachAdds(svc: Service, s: State, session: string, intent: LocationIntent, alias: Option<string>)
    requires NamesUnused(svc.env, s)
    ensures var r := Attach(svc, s, session, intent, alias);
            if r.result.Ok? then Added(svc.env, r.result.value.handle, s, r.state) else StoresRestored(s, r.state)
  {
    var usable := EnsureAvailable(svc, s);
    if usable.result.Ok? {
      LocationIsCanonical(svc, usable.state, session, intent, AttachFailed);
      var found := ResolveLocation(svc, usable.state, session, intent, AttachFailed);
      QuietTrans(s, usable.state, found.state);
      if found.result.Ok? {
        QuietKeepsNamesUnused(svc.env, s, found.state);
        AttachToAdds(svc, found.state, found.result.value, alias);
        var r := AttachTo(svc, found.state, found.result.value, alias);
        LaterThenAdded(svc.env, r.result.value.handle, s, found.state, r.state);
      }
    }
  }

  // ---------------------------------------------------------------- whose handle it is

  lemma ConcludeMoves(svc: Service, s: State, settled: Outcome<Settled>, h: string)
    requires SettledOrGone(h, s, settled) && Conclude(svc, settled, h).result.Ok?
    ensures Moved(h, s, Conclude(svc, settled, h).state)
  {
    match settled.result
    case Err(_) =>
    case Ok(LeftBusy(_)) =>
    case Ok(Observed) =>
      RefreshKeeps(svc, settled.state, h);
      MovedTrans(h, s, settled.state, Refresh(svc, settled.state, h).state);
  }

  lemma SameStateMoves(h: string, s: State)
    ensures Moved(h, s, s)
  {
    BindingsKeptRefl(h, s.bindings);
  }

  lemma LaunchedMoves(svc: Service, s: State, req: SpawnRequest)
    requires NamesUnused(svc.env, s) && Spawn(svc, s, req).result.Ok?
    ensures var launched := LaunchAndRegister(svc, s, req);
            && launched.result.Ok?
            && Spawn(svc, s, req).result.value.handle == launched.result.value.handle
            && Moved(launched.result.value.handle, launched.state, Spawn(svc, s, req).state)
  {
    LaunchAdds(svc, s, req);
    var launched := LaunchAndRegister(svc, s, req);
    var h := launched.result.value.handle;
    if launched.result.value.detached {
      SameStateMoves(h, launched.state);
    } else {
      SettleSettles(svc, launched.state, h, req);
      ConcludeMoves(svc, launched.state, Settle(svc, launched.state, h, req), h);
    }
  }

  lemma MovedKeepsOrigin(h: string, s: State, t: State, b: Binding)
    requires Moved(h, s, t) && Lookup(s.bindings, h) == Some(b) && PaneOk(b)
    ensures Known(t, h) && SameOrigin(b, Lookup(t.bindings, h).value) && SamePane(b, Lookup(t.bindings, h).value)
  {
  }

  /** A spawned handle is persisted under the target id of the service that made it, with what the
      request asked for, and keeps the pane that was launched. */
  lemma SpawnedIsOwned(svc: Service, s: State, req: SpawnRequest)
    requires NamesUnused(svc.env, s) && Spawn(svc, s, req).result.Ok?
    ensures var h := Spawn(svc, s, req).result.value.handle;
            var b := Lookup(Spawn(svc, s, req).state.bindings, h);
            && b.Some? && b.value.targetId == svc.targetId && b.value.source.Spawned?
            && b.value.session == req.session && b.value.alias == req.title && b.value.cwd == req.cwd
            && b.value.launchCommand == Some(LaunchCommand(req))
            && SamePane(LaunchAndRegister(svc, s, req).result.value.binding, b.value)
  {
    LaunchAdds(svc, s, req);
    LaunchedMoves(svc, s, req);
    var launched := LaunchAndRegister(svc, s, req);
    MovedKeepsOrigin(launched.result.value.handle, launched.state, Spawn(svc, s, req).state,
                     launched.result.value.binding);
  }

  /** An attached handle is persisted under the target id of the service, on exactly the pane that
      was resolved: ready when its baseline was captured, busy when not. */
  lemma AttachedIsOwned(svc: Service, s: State, t: Target, alias: Option<string>)
    requires NamesUnused(svc.env, s) && Canonical(t)
    ensures var r := AttachTo(svc, s, t, alias);
            var b := Lookup(r.state.bindings, r.result.value.handle);
            && b.Some? && b.value.targetId == svc.targetId && b.value.source.Attached?
            && b.value.session == t.session && b.value.selector == t.selector && b.value.paneId == t.paneId
            && b.value.status == if r.result.value.baseline then Ready else Busy
  {
    var h := svc.env.handle(s.minted);
    var b := AttachedBinding(svc, t, alias, s.time);
    LookupPush(s.bindings, h, b, h);
    var captured := Do(svc, AttachRegister(svc, s, h, b), CaptureFull, b);
    if captured.result.Ok? {
      LookupPut(captured.state.bindings, h, b.(status := Ready, updatedAt := captured.result.value.capturedAt), h);
    }
  }
}
