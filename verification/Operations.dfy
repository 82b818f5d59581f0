/** Every operation on a handle keeps what `Keeping` says; the exception is the send that clears
    the line of an attached pane, whose exact effect on a closed handle is stated. */
module Operations {
  import opened Entities
  import opened Keeping
  import opened Lifecycle
  import opened Rows
  import opened Targets
  import opened Text

  // ---------------------------------------------------------------- vectors written back

  lemma ObservationsTrans(h: string, a: seq<Row<Observation>>, b: seq<Row<Observation>>, c: seq<Row<Observation>>)
    requires ObservationsKept(h, a, b) && ObservationsKept(h, b, c)
    ensures ObservationsKept(h, a, c)
  {
  }

  lemma DroppedIsKept(h: string, rows: seq<Row<Observation>>)
    ensures ObservationsKept(h, rows, Without(rows, h))
  {
    WithoutTwice(rows, h);
    KeysWithout(rows, h);
  }

  /** Both vectors overwritten after some calls, the handle's row changed in each. */
  lemma OverwriteIsMoved(h: string, s: State, later: State, bindings: seq<Row<Binding>>,
                         observations: seq<Row<Observation>>)
    requires Known(s, h) && Later(s, later)
    requires BindingsKept(h, s.bindings, bindings) && ObservationsKept(h, s.observations, observations)
    ensures Moved(h, s, later.(bindings := bindings, observations := observations))
  {
  }

  lemma PutBindingThenMoved(h: string, s: State, later: State, b: Binding, c: Binding,
                            observations: seq<Row<Observation>>)
    requires Lookup(s.bindings, h) == Some(b) && Evolves(b, c) && !b.status.Closed? && Later(s, later)
    requires ObservationsKept(h, s.observations, observations)
    ensures var t := later.(bindings := Put(s.bindings, h, c), observations := observations);
            && Moved(h, s, t) && ClosedStays(Lookup(s.bindings, h), Lookup(t.bindings, h))
            && Lookup(t.bindings, h) == Some(c)
            && (!c.status.Closed? ==> Kept(h, s, t))
  {
    PutIsKept(h, s.bindings, b, c);
    OverwriteIsMoved(h, s, later, Put(s.bindings, h, c), observations);
  }

  lemma PutObservationThenKept(h: string, s: State, later: State, observations: seq<Row<Observation>>)
    requires Known(s, h) && Kept(h, s, later) && ObservationsKept(h, s.observations, observations)
    ensures Kept(h, s, later.(observations := observations))
  {
  }

  lemma KeptKnown(h: string, s: State, t: State)
    requires Moved(h, s, t)
    ensures Known(t, h) == Known(s, h)
  {
    KnownByKeys(h, s.bindings, t.bindings);
  }

  // ---------------------------------------------------------------- capture

  lemma SyncKeeps(svc: Service, s: State, h: string)
    ensures Kept(h, s, RefreshAndSync(svc, s, h).state)
    ensures Stored(h, RefreshAndSync(svc, s, h))
    ensures RefreshAndSync(svc, s, h) == Refresh(svc, s, h)
  {
    RefreshKeeps(svc, s, h);
  }

  lemma CaptureActiveKeeps(svc: Service, s: State, req: CaptureRequest, extent: Extent, b: Binding)
    requires Lookup(s.bindings, req.handle) == Some(b) && IsActive(b)
    ensures Kept(req.handle, s, CaptureActive(svc, s, req, extent, b).state)
  {
    var h := req.handle;
    RetryKeeps(svc, s, h, b, CaptureFailed, CaptureFull);
    var captured := Retry(svc, s, h, b, CaptureFailed, CaptureFull);
    if captured.result.Ok? {
      var s1, snapshot := captured.state, captured.result.value;
      var after := AfterCapture(svc.env, ObservationOf(s1, h), snapshot);
      var observations := SetObservation(s1, h, after).observations;
      SlotPutIsKept(h, s1.observations, after);
      ObservationsTrans(h, s.observations, s1.observations, observations);
      PutBindingThenMoved(h, s, s1, b, CapturedBinding(b, snapshot), observations);
    }
  }

  lemma CaptureKeeps(svc: Service, s: State, req: CaptureRequest)
    ensures Kept(req.handle, s, Capture(svc, s, req).state)
  {
    var h := req.handle;
    if Known(s, h) {
      var usable := EnsureUsable(svc, s, Lookup(s.bindings, h).value);
      QuietIsKept(h, s, usable.state);
      if usable.result.Ok? && CaptureExtent(req).Ok? {
        SyncKeeps(svc, usable.state, h);
        var synced := RefreshAndSync(svc, usable.state, h);
        KeptTrans(h, s, usable.state, synced.state);
        if synced.result.Ok? && IsActive(synced.result.value) {
          CaptureActiveKeeps(svc, synced.state, req, CaptureExtent(req).value, synced.result.value);
          KeptTrans(h, s, synced.state, Capture(svc, s, req).state);
        }
      }
    }
  }

  // ---------------------------------------------------------------- send

  lemma BoundaryMoves(svc: Service, s: State, h: string, b: Binding)
    requires Lookup(s.bindings, h) == Some(b)
    ensures Moved(h, s, PrepareBoundary(svc, s, h, b).state)
    ensures !b.status.Closed? ==> Kept(h, s, PrepareBoundary(svc, s, h, b).state)
    ensures PrepareBoundary(svc, s, h, b).result.Ok?
            ==> Lookup(PrepareBoundary(svc, s, h, b).state.bindings, h) == Some(b)
  {
    var done := Do(svc, s, CaptureFull, b);
    DoIsQuiet(svc, s, CaptureFull, b);
    QuietIsKept(h, s, done.state);
    var end := PrepareBoundary(svc, s, h, b).state;
    match done.result
    case Ok(snapshot) =>
      SetObservationIsKept(done.state, h, Baseline(svc.env, ObservationOf(done.state, h), snapshot));
      QuietThenKept(h, s, done.state, end);
    case Err(error) =>
      if IsMissing(error) {
        MarkStaleKeeps(done.state, h, b);
        MovedTrans(h, s, done.state, end);
      }
  }

  /** Whether the request would clear the input line of a closed handle's pane. */
  predicate ClearsClosed(s: State, req: SendRequest) {
    match (Lookup(s.bindings, req.handle), ResolveSendMode(req))
    case (Some(b), Ok(mode)) => b.status.Closed? && ClearsInput(b, req, mode)
    case _ => false
  }

  /** The clearing part of a send, when the request asks for it. */
  function BoundaryIf(svc: Service, s: State, h: string, b: Binding, clears: bool): Outcome<()> {
    if clears then PrepareBoundary(svc, s, h, b) else Done(s, ())
  }

  lemma BoundaryIfMoves(svc: Service, s: State, h: string, b: Binding, clears: bool)
    requires Lookup(s.bindings, h) == Some(b)
    ensures Moved(h, s, BoundaryIf(svc, s, h, b, clears).state)
    ensures !(b.status.Closed? && clears) ==> Kept(h, s, BoundaryIf(svc, s, h, b, clears).state)
    ensures BoundaryIf(svc, s, h, b, clears).result.Ok?
            ==> Lookup(BoundaryIf(svc, s, h, b, clears).state.bindings, h) == Some(b)
  {
    if clears { BoundaryMoves(svc, s, h, b); } else { BindingsKeptRefl(h, s.bindings); }
  }

  ghost predicate PlanIsStored(h: string, r: Outcome<SendPlan>) {
    r.result.Ok? ==> Lookup(r.state.bindings, h) == Some(r.result.value.binding)
  }

  lemma PlanEnds(svc: Service, s: State, req: SendRequest)
    requires Refresh(svc, s, req.handle).result.Ok?
    ensures var r := Refresh(svc, s, req.handle);
            var end := PlanSend(svc, s, req);
            match ResolveSendMode(req)
            case Err(_) => end.result.Err? && end.state == r.state
            case Ok(mode) =>
              var bounded := BoundaryIf(svc, r.state, req.handle, r.result.value, ClearsInput(r.result.value, req, mode));
              && Quiet(bounded.state, end.state)
              && (end.result.Ok? ==> bounded.result.Ok? && end.result.value.binding == r.result.value)
  {
  }

  lemma PlanMoves(svc: Service, s: State, req: SendRequest)
    ensures Moved(req.handle, s, PlanSend(svc, s, req).state)
    ensures !ClearsClosed(s, req) ==> Kept(req.handle, s, PlanSend(svc, s, req).state)
    ensures PlanIsStored(req.handle, PlanSend(svc, s, req))
  {
    var h := req.handle;
    RefreshKeeps(svc, s, h);
    var again := Refresh(svc, s, h);
    if again.result.Ok? {
      PlanEnds(svc, s, req);
      var b, end := again.result.value, PlanSend(svc, s, req).state;
      match ResolveSendMode(req)
      case Err(_) =>
      case Ok(mode) =>
        var clears := ClearsInput(b, req, mode);
        BoundaryIfMoves(svc, again.state, h, b, clears);
        var bounded := BoundaryIf(svc, again.state, h, b, clears);
        QuietIsKept(h, bounded.state, end);
        MovedTrans(h, again.state, bounded.state, end);
        MovedTrans(h, s, again.state, end);
        if !ClearsClosed(s, req) {
          KeptTrans(h, again.state, bounded.state, end);
          KeptTrans(h, s, again.state, end);
        }
    }
  }

  lemma TypeInlineKeeps(svc: Service, s: State, req: SendRequest, plan: SendPlan, id: string)
    ensures Kept(req.handle, s, TypeInline(svc, s, req, plan, id).state)
  {
    RetryKeeps(svc, s, req.handle, plan.binding, SendFailed,
               SendInput(InlineFish(req.text, id), plan.payload.submit));
  }

  lemma FallbackKeeps(svc: Service, s: State, req: SendRequest, plan: SendPlan, id: string)
    ensures Kept(req.handle, s, Fallback(svc, s, req, plan, id).state)
  {
    RetryKeeps(svc, s, req.handle, plan.binding, CaptureFailed, CaptureFull);
    var captured := Retry(svc, s, req.handle, plan.binding, CaptureFailed, CaptureFull);
    if captured.result.Ok? && LacksFishWrapper(captured.result.value) {
      TypeInlineKeeps(svc, captured.state, req, plan, id);
      KeptTrans(req.handle, s, captured.state, TypeInline(svc, captured.state, req, plan, id).state);
    }
  }

  lemma AfterTypingKeeps(svc: Service, s: State, req: SendRequest, plan: SendPlan)
    ensures Kept(req.handle, s, AfterTyping(svc, s, req, plan).state)
  {
    if plan.interactionId.Some? && RunsFish(plan.binding) {
      var next := Sleep(s, 75);
      FallbackKeeps(svc, next, req, plan, plan.interactionId.value);
      QuietThenKept(req.handle, s, next, Fallback(svc, next, req, plan, plan.interactionId.value).state);
    }
  }

  lemma DeliverKeeps(svc: Service, s: State, req: SendRequest, plan: SendPlan)
    ensures Kept(req.handle, s, Deliver(svc, s, req, plan).state)
  {
    var action := SendInput(plan.payload.text, plan.payload.submit);
    RetryKeeps(svc, s, req.handle, plan.binding, SendFailed, action);
    var sent := Retry(svc, s, req.handle, plan.binding, SendFailed, action);
    if sent.result.Ok? {
      AfterTypingKeeps(svc, sent.state, req, plan);
      KeptTrans(req.handle, s, sent.state, AfterTyping(svc, sent.state, req, plan).state);
    }
  }

  lemma DeliverPlannedKeeps(svc: Service, s: State, req: SendRequest, plan: SendPlan)
    requires Lookup(s.bindings, req.handle) == Some(plan.binding)
    ensures Kept(req.handle, s, DeliverPlanned(svc, s, req, plan).state)
  {
    DeliverKeeps(svc, s, req, plan);
    var sent := Deliver(svc, s, req, plan);
    if sent.result.Ok? {
      var o := AfterSend(svc.env, ObservationOf(s, req.handle), req, plan, sent.result.value, sent.state.time);
      SlotPutIsKept(req.handle, s.observations, o);
      PutObservationThenKept(req.handle, s, sent.state,
                             Put(WithSlot(s.observations, req.handle, BLANK), req.handle, o));
    }
  }

  lemma SendToHandleMoves(svc: Service, s: State, req: SendRequest)
    ensures Moved(req.handle, s, SendToHandle(svc, s, req).state)
    ensures !ClearsClosed(s, req) ==> Kept(req.handle, s, SendToHandle(svc, s, req).state)
  {
    var h := req.handle;
    PlanMoves(svc, s, req);
    var planned := PlanSend(svc, s, req);
    if planned.result.Ok? && IsActive(planned.result.value.binding) {
      var end := SendToHandle(svc, s, req).state;
      DeliverPlannedKeeps(svc, planned.state, req, planned.result.value);
      MovedTrans(h, s, planned.state, end);
      if !ClearsClosed(s, req) { KeptTrans(h, s, planned.state, end); }
    }
  }

  lemma SendToLocationIsQuiet(svc: Service, s: State, req: SendRequest, session: string)
    ensures Quiet(s, SendToLocation(svc, s, req, session).state)
  {
    var intent := LocationIntent(req.tabName, req.selector, None, None);
    var found := ResolveLocation(svc, s, session, intent, SendFailed);
    assert Quiet(s, found.state);
    if found.result.Ok? && ResolveSendMode(req).Ok? && BuildPayload(svc.env, req, ResolveSendMode(req).value).Ok? {
      var payload := BuildPayload(svc.env, req, ResolveSendMode(req).value).value;
      var t := found.result.value;
      var sent := DoAt(svc, found.state, SendInput(payload.text, payload.submit), t.session, t.selector);
      QuietTrans(s, found.state, sent.state);
    }
  }

  /** A send keeps all but, when it clears the line of a closed attached handle, that handle's
      closed status. */
  lemma SendMoves(svc: Service, s: State, req: SendRequest)
    ensures Moved(req.handle, s, Send(svc, s, req).state)
    ensures !ClearsClosed(s, req) ==> Kept(req.handle, s, Send(svc, s, req).state)
  {
    var h := req.handle;
    var usable := EnsureAvailable(svc, s);
    QuietIsKept(h, s, usable.state);
    var end := Send(svc, s, req).state;
    if usable.result.Ok? {
      if Trim(h) != "" {
        if req.session.None? && req.tabName.None? && req.selector.None? {
          SendToHandleMoves(svc, usable.state, req);
          MovedTrans(h, s, usable.state, end);
          if !ClearsClosed(s, req) { KeptTrans(h, s, usable.state, end); }
        }
      } else if req.session.Some? {
        SendToLocationIsQuiet(svc, usable.state, req, req.session.value);
        KeptThenQuiet(h, s, usable.state, end);
      }
    }
  }

  // ---------------------------------------------------------------- replace

  lemma InterruptKeeps(svc: Service, s: State, h: string, b: Binding)
    ensures Kept(h, s, Interrupt(svc, s, h, b).state)
  {
    RetryKeeps(svc, s, h, b, SendFailed, SendInput(INTERRUPT, false));
  }

  lemma OpenClearsNothingClosed(h: string, s: State, t: State, b: Binding, req: SendRequest)
    requires Lookup(s.bindings, h) == Some(b) && !b.status.Closed? && Kept(h, s, t) && req.handle == h
    ensures !ClearsClosed(t, req)
  {
  }

  lemma ReplaceActiveKeeps(svc: Service, s: State, h: string, command: string, interrupt: bool, b: Binding)
    requires Lookup(s.bindings, h) == Some(b) && IsActive(b)
    ensures Kept(h, s, ReplaceActive(svc, s, h, command, interrupt, b).state)
  {
    var line := ReplaceLine(h, command);
    if interrupt {
      InterruptKeeps(svc, s, h, b);
      var interrupted := Interrupt(svc, s, h, b);
      if interrupted.result.Ok? {
        OpenClearsNothingClosed(h, s, interrupted.state, b, line);
        SendMoves(svc, interrupted.state, line);
        KeptTrans(h, s, interrupted.state, Send(svc, interrupted.state, line).state);
      }
    } else {
      SendMoves(svc, s, line);
    }
  }

  lemma ReplaceKeeps(svc: Service, s: State, h: string, command: string, interrupt: bool)
    ensures Kept(h, s, ReplaceCommand(svc, s, h, command, interrupt).state)
  {
    var usable := EnsureAvailable(svc, s);
    QuietIsKept(h, s, usable.state);
    if usable.result.Ok? {
      RefreshKeeps(svc, usable.state, h);
      var again := Refresh(svc, usable.state, h);
      KeptTrans(h, s, usable.state, again.state);
      if again.result.Ok? && IsActive(again.result.value) && SupportsMarkers(again.result.value) {
        ReplaceActiveKeeps(svc, again.state, h, command, interrupt, again.result.value);
        KeptTrans(h, s, again.state, ReplaceCommand(svc, s, h, command, interrupt).state);
      }
    }
  }

  // ---------------------------------------------------------------- wait

  lemma MarkWaitedKeeps(s: State, h: string, r: Result<(), ErrorCode>)
    requires Known(s, h) && !Lookup(s.bindings, h).value.status.Closed?
    ensures Kept(h, s, MarkWaited(s, h, r))
  {
    var b := Lookup(s.bindings, h).value;
    if r.Ok? {
      SetBindingIsKept(s, h, b, b.(status := Ready, updatedAt := s.time));
    } else if r.error == WaitTimeout {
      SetBindingIsKept(s, h, b, b.(status := Busy, updatedAt := s.time));
    } else {
      QuietIsKept(h, s, s);
    }
  }

  lemma SnapshotKeeps(svc: Service, s: State, h: string, b: Binding)
    requires Known(s, h)
    ensures Kept(h, s, WaitSnapshot(svc, s, h, b).state)
  {
    RetryKeeps(svc, s, h, b, CaptureFailed, CaptureFull);
    var captured := Retry(svc, s, h, b, CaptureFailed, CaptureFull);
    if captured.result.Ok? {
      var o := AfterCapture(svc.env, ObservationOf(captured.state, h), captured.result.value);
      KeptKnown(h, s, captured.state);
      SetObservationIsKept(captured.state, h, o);
      KeptTrans(h, s, captured.state, SetObservation(captured.state, h, o));
    }
  }

  lemma WaitActiveKeeps(svc: Service, s: State, h: string, busy: Binding, idleMs: nat, timeoutMs: nat)
    requires Lookup(s.bindings, h) == Some(busy) && !busy.status.Closed?
    ensures Kept(h, s, WaitActive(svc, s, h, busy, idleMs, timeoutMs).state)
  {
    AwaitIdleKeeps(svc, s, h, busy, idleMs, timeoutMs);
    var waited := AwaitIdle(svc, s, h, busy, idleMs, timeoutMs);
    MarkWaitedKeeps(waited.state, h, waited.result);
    var marked := MarkWaited(waited.state, h, waited.result);
    KeptTrans(h, s, waited.state, marked);
    if waited.result.Ok? {
      KeptKnown(h, s, marked);
      SnapshotKeeps(svc, marked, h, busy);
      KeptTrans(h, s, marked, WaitSnapshot(svc, marked, h, busy).state);
    }
  }

  lemma WaitSyncedKeeps(svc: Service, s: State, h: string, idleMs: nat, timeoutMs: nat)
    ensures Kept(h, s, WaitSynced(svc, s, h, idleMs, timeoutMs).state)
  {
    SyncKeeps(svc, s, h);
    var synced := RefreshAndSync(svc, s, h);
    if synced.result.Ok? && IsActive(synced.result.value) {
      var b := synced.result.value;
      var busy := b.(status := Busy);
      var marked := SetBinding(synced.state, h, busy);
      SetBindingIsKept(synced.state, h, b, busy);
      KeptTrans(h, s, synced.state, marked);
      WaitActiveKeeps(svc, marked, h, busy, idleMs, timeoutMs);
      KeptTrans(h, s, marked, WaitActive(svc, marked, h, busy, idleMs, timeoutMs).state);
    }
  }

  lemma WaitKeeps(svc: Service, s: State, h: string, idleMs: nat, timeoutMs: nat)
    ensures Kept(h, s, Wait(svc, s, h, idleMs, timeoutMs).state)
  {
    if Known(s, h) {
      var usable := EnsureUsable(svc, s, Lookup(s.bindings, h).value);
      QuietIsKept(h, s, usable.state);
      if usable.result.Ok? {
        WaitSyncedKeeps(svc, usable.state, h, idleMs, timeoutMs);
        KeptTrans(h, s, usable.state, Wait(svc, s, h, idleMs, timeoutMs).state);
      }
    }
  }

  // ---------------------------------------------------------------- close

  lemma {:induction false} VerifyIsQuiet(svc: Service, s: State, b: Binding, deadline: nat)
    ensures Quiet(s, VerifyClosed(svc, s, b, deadline).state)
    decreases Remaining(s.time, deadline)
  {
    var listed := ListMapped(svc, s, b.session, CloseFailed);
    if listed.result.Ok? && AnyMatches(b, listed.result.value) && listed.state.time < deadline {
      var next := Sleep(listed.state, 50);
      VerifyIsQuiet(svc, next, b, deadline);
      QuietTrans(s, next, VerifyClosed(svc, s, b, deadline).state);
    }
  }

  lemma ExitShellIsQuiet(svc: Service, s: State, b: Binding)
    ensures Quiet(s, ExitShell(svc, s, b).state)
  {
    var sent := Do(svc, s, SendInput("exit", true), b);
    DoIsQuiet(svc, s, SendInput("exit", true), b);
    if sent.result.Ok? {
      var deadline := Deadline(sent.state, CloseBudget(svc));
      VerifyIsQuiet(svc, sent.state, b, deadline);
      QuietTrans(s, sent.state, VerifyClosed(svc, sent.state, b, deadline).state);
    }
  }

  lemma CloseAndVerifyKeeps(svc: Service, s: State, h: string, b: Binding, force: bool)
    ensures Kept(h, s, CloseAndVerify(svc, s, h, b, force).state)
  {
    RetryKeeps(svc, s, h, b, CloseFailed, ClosePane(force));
    var closed := Retry(svc, s, h, b, CloseFailed, ClosePane(force));
    if closed.result.Ok? {
      var deadline := Deadline(closed.state, CloseBudget(svc));
      VerifyIsQuiet(svc, closed.state, b, deadline);
      KeptThenQuiet(h, s, closed.state, VerifyClosed(svc, closed.state, b, deadline).state);
    }
  }

  lemma CloseActiveKeeps(svc: Service, s: State, h: string, b: Binding, force: bool)
    ensures Kept(h, s, CloseActive(svc, s, h, b, force).state)
  {
    CloseAndVerifyKeeps(svc, s, h, b, force);
    var tried := CloseAndVerify(svc, s, h, b, force);
    if tried.result.Err? && MayExitShell(svc, b, force) {
      ExitShellIsQuiet(svc, tried.state, b);
      KeptThenQuiet(h, s, tried.state, ExitShell(svc, tried.state, b).state);
    }
  }

  ghost predicate MovedOrClosed(h: string, s: State, t: State) {
    Moved(h, s, t) && ClosedStays(Lookup(s.bindings, h), Lookup(t.bindings, h))
  }

  lemma KeptThenClosed(h: string, s: State, t: State, u: State)
    requires Kept(h, s, t) && MovedOrClosed(h, t, u)
    ensures MovedOrClosed(h, s, u)
  {
    MovedTrans(h, s, t, u);
  }

  lemma CloseSyncedMoves(svc: Service, s: State, h: string, force: bool)
    ensures MovedOrClosed(h, s, CloseSynced(svc, s, h, force).state)
  {
    SyncKeeps(svc, s, h);
    var synced := RefreshAndSync(svc, s, h);
    if synced.result.Ok? && IsActive(synced.result.value) {
      var b := synced.result.value;
      CloseActiveKeeps(svc, synced.state, h, b, force);
      var closed := CloseActive(svc, synced.state, h, b, force);
      if closed.result.Ok? {
        DroppedIsKept(h, closed.state.observations);
        var observations := Without(closed.state.observations, h);
        ObservationsTrans(h, synced.state.observations, closed.state.observations, observations);
        PutBindingThenMoved(h, synced.state, closed.state, b, b.(status := Closed, updatedAt := closed.state.time),
                            observations);
        KeptThenClosed(h, s, synced.state, CloseSynced(svc, s, h, force).state);
      } else {
        KeptTrans(h, s, synced.state, closed.state);
      }
    }
  }

  /** A close keeps all but the open status of its handle. */
  lemma CloseMoves(svc: Service, s: State, h: string, force: bool)
    ensures MovedOrClosed(h, s, Close(svc, s, h, force).state)
  {
    var usable := EnsureAvailable(svc, s);
    QuietIsKept(h, s, usable.state);
    if usable.result.Ok? {
      CloseSyncedMoves(svc, usable.state, h, force);
      KeptThenClosed(h, s, usable.state, Close(svc, s, h, force).state);
    }
  }
}
