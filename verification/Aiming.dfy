/** Operations act on their handle's own pane: once a handle names a pane, every action the
    operation performs, retries and fallbacks included, is addressed to that pane. */
module Aiming {
  import opened Entities
  import opened Keeping
  import opened Lifecycle
  import opened Operations
  import opened Rows
  import opened Targets
  import opened Text

  datatype Aim = Aim(session: string, selector: string)

  predicate At(aim: Aim, c: Call) { c.Perform? ==> c.session == aim.session && c.selector == aim.selector }

  /** Every action performed since an earlier state was addressed to the pane. */
  ghost predicate OnlyAt(aim: Aim, s: State, t: State) {
    s.log <= t.log && forall i :: |s.log| <= i < |t.log| ==> At(aim, t.log[i])
  }

  predicate Aims(aim: Aim, b: Binding) { b.session == aim.session && b.selector == aim.selector }

  /** The handle names the pane that is aimed at. */
  ghost predicate Anchored(aim: Aim, s: State, h: string) {
    Known(s, h) && var b := Lookup(s.bindings, h).value; b.paneId.Some? && PaneOk(b) && Aims(aim, b)
  }

  lemma OnlyAtTrans(aim: Aim, s: State, t: State, u: State)
    requires OnlyAt(aim, s, t) && OnlyAt(aim, t, u)
    ensures OnlyAt(aim, s, u)
  {
    forall i | |s.log| <= i < |u.log| ensures At(aim, u.log[i]) {
      if i < |t.log| { assert u.log[i] == t.log[i]; }
    }
  }

  lemma TickAt(aim: Aim, env: Env, s: State, c: Call)
    requires At(aim, c)
    ensures OnlyAt(aim, s, Tick(env, s, c))
  {
  }

  lemma SameLogAt(aim: Aim, s: State, t: State)
    requires t.log == s.log
    ensures OnlyAt(aim, s, t)
  {
  }

  lemma AnchorHolds(aim: Aim, h: string, s: State, t: State)
    requires Anchored(aim, s, h) && Moved(h, s, t)
    ensures Anchored(aim, t, h)
  {
  }

  // ---------------------------------------------------------------- revalidation performs nothing

  lemma {:induction false} ResolveAnyAt(aim: Aim, svc: Service, s: State, queries: seq<Query>)
    ensures OnlyAt(aim, s, ResolveAny(svc, s, queries).state)
    decreases |queries|
  {
    if queries != [] {
      TickAt(aim, svc.env, s, ResolveSelector(queries[0].session, queries[0].selector));
      var first := Resolve(svc, s, queries[0]);
      if first.result.Err? && IsMissing(first.result.error) {
        ResolveAnyAt(aim, svc, first.state, queries[1..]);
        OnlyAtTrans(aim, s, first.state, ResolveAny(svc, s, queries).state);
      }
    }
  }

  lemma {:induction false} AttemptsAt(aim: Aim, svc: Service, s: State, queries: seq<Query>, attempt: nat)
    ensures OnlyAt(aim, s, ResolveAttempts(svc, s, queries, attempt).state)
    decreases 3 - attempt
  {
    if attempt < 3 {
      ResolveAnyAt(aim, svc, s, queries);
      var round := ResolveAny(svc, s, queries);
      if round.result == Ok(None) {
        var next := if attempt < 2 then Sleep(round.state, 150) else round.state;
        AttemptsAt(aim, svc, next, queries, attempt + 1);
        OnlyAtTrans(aim, s, next, ResolveAttempts(svc, s, queries, attempt).state);
      }
    }
  }

  lemma {:induction false} ReconcileAt(aim: Aim, svc: Service, s: State, h: string, deadline: nat)
    ensures OnlyAt(aim, s, Reconcile(svc, s, h, deadline).state)
    decreases Remaining(s.time, deadline)
  {
    if Known(s, h) {
      var b := Lookup(s.bindings, h).value;
      TickAt(aim, svc.env, s, ListTargets(b.session));
      var listed := ListMapped(svc, s, b.session, SpawnFailed);
      if !(b.paneId.Some? && b.selector != "") && listed.result.Ok? && listed.state.time < deadline
         && ResolveSpawnCandidate(Hints(b, ObservationOf(s, h)), listed.result.value).None?
      {
        ReconcileAt(aim, svc, Sleep(listed.state, 150), h, deadline);
        OnlyAtTrans(aim, s, listed.state, Reconcile(svc, s, h, deadline).state);
      }
    }
  }

  lemma RequeryAt(aim: Aim, svc: Service, s: State, h: string, b: Binding)
    ensures OnlyAt(aim, s, Requery(svc, s, h, b).state)
  {
    TickAt(aim, svc.env, s, SessionReady(b.session));
    var ready := EnsureReady(svc, s, b.session, AttachFailed);
    if ready.result.Ok? {
      AttemptsAt(aim, svc, ready.state, Queries(b), 0);
      OnlyAtTrans(aim, s, ready.state, Requery(svc, s, h, b).state);
    }
  }

  lemma RefreshAt(aim: Aim, svc: Service, s: State, h: string)
    ensures OnlyAt(aim, s, Refresh(svc, s, h).state)
  {
    if Known(s, h) {
      var b := Lookup(s.bindings, h).value;
      if IsUnresolved(b) { ReconcileAt(aim, svc, s, h, Deadline(s, 500)); } else { RequeryAt(aim, svc, s, h, b); }
    }
  }

  lemma RefreshedAims(aim: Aim, svc: Service, s: State, h: string)
    requires Anchored(aim, s, h)
    ensures OnlyAt(aim, s, Refresh(svc, s, h).state) && Anchored(aim, Refresh(svc, s, h).state, h)
    ensures Refresh(svc, s, h).result.Ok? ==> Aims(aim, Refresh(svc, s, h).result.value)
  {
    RefreshAt(aim, svc, s, h);
    RefreshKeeps(svc, s, h);
    AnchorHolds(aim, h, s, Refresh(svc, s, h).state);
  }

  // ---------------------------------------------------------------- retries and waits

  lemma DoAims(aim: Aim, svc: Service, s: State, action: Action, b: Binding)
    requires Aims(aim, b)
    ensures OnlyAt(aim, s, Do(svc, s, action, b).state)
  {
    TickAt(aim, svc.env, s, Perform(action, b.session, b.selector));
  }

  lemma MarkStaleAt(aim: Aim, s: State, h: string)
    ensures OnlyAt(aim, s, MarkStale(s, h))
  {
    SameLogAt(aim, s, MarkStale(s, h));
  }

  lemma {:induction false} RetryFromAims(aim: Aim, svc: Service, s: State, h: string, b: Binding, code: ErrorCode,
                                         action: Action, attempt: nat)
    requires attempt < 3 && Anchored(aim, s, h) && Aims(aim, b)
    ensures OnlyAt(aim, s, RetryFrom(svc, s, h, b, code, action, attempt).state)
    decreases 3 - attempt
  {
    var end := RetryFrom(svc, s, h, b, code, action, attempt).state;
    DoAims(aim, svc, s, action, b);
    var done := Do(svc, s, action, b);
    if done.result.Err? && IsMissing(done.result.error) {
      RefreshedAims(aim, svc, done.state, h);
      var again := Refresh(svc, done.state, h);
      OnlyAtTrans(aim, s, done.state, again.state);
      if again.result.Ok? && IsActive(again.result.value) {
        if attempt < 2 {
          RetryFromAims(aim, svc, Sleep(again.state, 150), h, again.result.value, code, action, attempt + 1);
        } else {
          MarkStaleAt(aim, again.state, h);
        }
        OnlyAtTrans(aim, s, again.state, end);
      }
    }
  }

  lemma RetryAims(aim: Aim, svc: Service, s: State, h: string, b: Binding, code: ErrorCode, action: Action)
    requires Anchored(aim, s, h) && Aims(aim, b)
    ensures OnlyAt(aim, s, Retry(svc, s, h, b, code, action).state)
    ensures Anchored(aim, Retry(svc, s, h, b, code, action).state, h)
  {
    RetryKeeps(svc, s, h, b, code, action);
    AnchorHolds(aim, h, s, Retry(svc, s, h, b, code, action).state);
    if SkipsAvailability(svc, b) {
      RetryFromAims(aim, svc, s, h, b, code, action, 0);
    } else {
      TickAt(aim, svc.env, s, SessionReady(b.session));
      var ready := EnsureReady(svc, s, b.session, code);
      if ready.result.Ok? {
        RetryFromAims(aim, svc, ready.state, h, b, code, action, 0);
        OnlyAtTrans(aim, s, ready.state, Retry(svc, s, h, b, code, action).state);
      }
    }
  }

  lemma {:induction false} PollAims(aim: Aim, svc: Service, s: State, h: string, b: Binding, idleMs: nat, deadline: nat,
                                    samples: seq<Sample>)
    requires Anchored(aim, s, h) && Aims(aim, b)
    ensures OnlyAt(aim, s, Poll(svc, s, h, b, idleMs, deadline, samples).state)
    decreases Remaining(s.time, deadline)
  {
    if s.time < deadline {
      RetryAims(aim, svc, s, h, b, CaptureFailed, CaptureFull);
      var captured := Retry(svc, s, h, b, CaptureFailed, CaptureFull);
      if captured.result.Ok? {
        var seen := samples + [Sample(svc.env.hash(captured.result.value.content), captured.state.time)];
        if !IsQuiet(seen, captured.state.time, idleMs) {
          PollAims(aim, svc, Sleep(captured.state, PollInterval(idleMs)), h, b, idleMs, deadline, seen);
          OnlyAtTrans(aim, s, captured.state, Poll(svc, s, h, b, idleMs, deadline, samples).state);
        }
      }
    }
  }

  lemma AwaitIdleAims(aim: Aim, svc: Service, s: State, h: string, b: Binding, idleMs: nat, timeoutMs: nat)
    requires Anchored(aim, s, h) && Aims(aim, b)
    ensures OnlyAt(aim, s, AwaitIdle(svc, s, h, b, idleMs, timeoutMs).state)
  {
    RetryAims(aim, svc, s, h, b, WaitFailed, WaitIdle(idleMs, timeoutMs));
    var first := Retry(svc, s, h, b, WaitFailed, WaitIdle(idleMs, timeoutMs));
    if first.result == Err(TargetStale) {
      var deadline := Deadline(first.state, timeoutMs);
      PollAims(aim, svc, first.state, h, b, idleMs, deadline, []);
      OnlyAtTrans(aim, s, first.state, Poll(svc, first.state, h, b, idleMs, deadline, []).state);
    }
  }

  // ---------------------------------------------------------------- the operations

  lemma AvailableAt(aim: Aim, svc: Service, s: State)
    ensures OnlyAt(aim, s, EnsureAvailable(svc, s).state)
  {
    TickAt(aim, svc.env, s, IsAvailable);
  }

  lemma UsableAims(aim: Aim, svc: Service, s: State, h: string)
    requires Anchored(aim, s, h)
    ensures var t := EnsureUsable(svc, s, Lookup(s.bindings, h).value).state; OnlyAt(aim, s, t) && Anchored(aim, t, h)
  {
    AvailableAt(aim, svc, s);
    SameLogAt(aim, s, s);
  }

  lemma SyncAims(aim: Aim, svc: Service, s: State, h: string)
    requires Anchored(aim, s, h)
    ensures var r := RefreshAndSync(svc, s, h);
            && OnlyAt(aim, s, r.state) && Anchored(aim, r.state, h)
            && (r.result.Ok? ==> Aims(aim, r.result.value) && Lookup(r.state.bindings, h) == Some(r.result.value))
  {
    SyncKeeps(svc, s, h);
    RefreshedAims(aim, svc, s, h);
  }

  lemma CaptureActiveAims(aim: Aim, svc: Service, s: State, req: CaptureRequest, extent: Extent, b: Binding)
    requires Anchored(aim, s, req.handle) && Aims(aim, b)
    ensures OnlyAt(aim, s, CaptureActive(svc, s, req, extent, b).state)
  {
    RetryAims(aim, svc, s, req.handle, b, CaptureFailed, CaptureFull);
  }

  /** A capture reads its handle's pane only. */
  lemma CaptureAims(aim: Aim, svc: Service, s: State, req: CaptureRequest)
    requires Anchored(aim, s, req.handle)
    ensures OnlyAt(aim, s, Capture(svc, s, req).state)
  {
    var h := req.handle;
    UsableAims(aim, svc, s, h);
    var usable := EnsureUsable(svc, s, Lookup(s.bindings, h).value);
    if usable.result.Ok? && CaptureExtent(req).Ok? {
      SyncAims(aim, svc, usable.state, h);
      var synced := RefreshAndSync(svc, usable.state, h);
      OnlyAtTrans(aim, s, usable.state, synced.state);
      if synced.result.Ok? && IsActive(synced.result.value) {
        CaptureActiveAims(aim, svc, synced.state, req, CaptureExtent(req).value, synced.result.value);
        OnlyAtTrans(aim, s, synced.state, Capture(svc, s, req).state);
      }
    }
  }

  lemma BoundaryIfAims(aim: Aim, svc: Service, s: State, h: string, b: Binding, clears: bool)
    requires Lookup(s.bindings, h) == Some(b) && Aims(aim, b)
    ensures OnlyAt(aim, s, BoundaryIf(svc, s, h, b, clears).state)
  {
    DoAims(aim, svc, s, CaptureFull, b);
    SameLogAt(aim, s, s);
    var done := Do(svc, s, CaptureFull, b);
    MarkStaleAt(aim, done.state, h);
    OnlyAtTrans(aim, s, done.state, MarkStale(done.state, h));
  }

  lemma PlanEndLog(svc: Service, s: State, req: SendRequest)
    requires Refresh(svc, s, req.handle).result.Ok? && ResolveSendMode(req).Ok?
    ensures var r := Refresh(svc, s, req.handle);
            var clears := ClearsInput(r.result.value, req, ResolveSendMode(req).value);
            PlanSend(svc, s, req).state.log == BoundaryIf(svc, r.state, req.handle, r.result.value, clears).state.log
  {
  }

  lemma PlanAims(aim: Aim, svc: Service, s: State, req: SendRequest)
    requires Anchored(aim, s, req.handle)
    ensures OnlyAt(aim, s, PlanSend(svc, s, req).state) && Anchored(aim, PlanSend(svc, s, req).state, req.handle)
    ensures PlanSend(svc, s, req).result.Ok? ==> Aims(aim, PlanSend(svc, s, req).result.value.binding)
  {
    var h := req.handle;
    PlanMoves(svc, s, req);
    AnchorHolds(aim, h, s, PlanSend(svc, s, req).state);
    RefreshedAims(aim, svc, s, h);
    RefreshKeeps(svc, s, h);
    var again := Refresh(svc, s, h);
    if again.result.Ok? && ResolveSendMode(req).Ok? {
      var clears := ClearsInput(again.result.value, req, ResolveSendMode(req).value);
      BoundaryIfAims(aim, svc, again.state, h, again.result.value, clears);
      OnlyAtTrans(aim, s, again.state, BoundaryIf(svc, again.state, h, again.result.value, clears).state);
      PlanEndLog(svc, s, req);
    }
  }

  lemma TypeInlineAims(aim: Aim, svc: Service, s: State, req: SendRequest, plan: SendPlan, id: string)
    requires Anchored(aim, s, req.handle) && Aims(aim, plan.binding)
    ensures OnlyAt(aim, s, TypeInline(svc, s, req, plan, id).state)
  {
    RetryAims(aim, svc, s, req.handle, plan.binding, SendFailed,
              SendInput(InlineFish(req.text, id), plan.payload.submit));
  }

  lemma FallbackAims(aim: Aim, svc: Service, s: State, req: SendRequest, plan: SendPlan, id: string)
    requires Anchored(aim, s, req.handle) && Aims(aim, plan.binding)
    ensures OnlyAt(aim, s, Fallback(svc, s, req, plan, id).state)
  {
    RetryAims(aim, svc, s, req.handle, plan.binding, CaptureFailed, CaptureFull);
    var captured := Retry(svc, s, req.handle, plan.binding, CaptureFailed, CaptureFull);
    if captured.result.Ok? && LacksFishWrapper(captured.result.value) {
      TypeInlineAims(aim, svc, captured.state, req, plan, id);
      OnlyAtTrans(aim, s, captured.state, TypeInline(svc, captured.state, req, plan, id).state);
    }
  }

  lemma AfterTypingAims(aim: Aim, svc: Service, s: State, req: SendRequest, plan: SendPlan)
    requires Anchored(aim, s, req.handle) && Aims(aim, plan.binding)
    ensures OnlyAt(aim, s, AfterTyping(svc, s, req, plan).state)
  {
    if plan.interactionId.Some? && RunsFish(plan.binding) {
      FallbackAims(aim, svc, Sleep(s, 75), req, plan, plan.interactionId.value);
    }
  }

  lemma DeliverAims(aim: Aim, svc: Service, s: State, req: SendRequest, plan: SendPlan)
    requires Anchored(aim, s, req.handle) && Aims(aim, plan.binding)
    ensures OnlyAt(aim, s, Deliver(svc, s, req, plan).state)
  {
    var action := SendInput(plan.payload.text, plan.payload.submit);
    RetryAims(aim, svc, s, req.handle, plan.binding, SendFailed, action);
    var sent := Retry(svc, s, req.handle, plan.binding, SendFailed, action);
    if sent.result.Ok? {
      AfterTypingAims(aim, svc, sent.state, req, plan);
      OnlyAtTrans(aim, s, sent.state, AfterTyping(svc, sent.state, req, plan).state);
    }
  }

  lemma SendToHandleAims(aim: Aim, svc: Service, s: State, req: SendRequest)
    requires Anchored(aim, s, req.handle)
    ensures OnlyAt(aim, s, SendToHandle(svc, s, req).state)
  {
    PlanAims(aim, svc, s, req);
    var planned := PlanSend(svc, s, req);
    if planned.result.Ok? && IsActive(planned.result.value.binding) {
      DeliverAims(aim, svc, planned.state, req, planned.result.value);
      OnlyAtTrans(aim, s, planned.state, SendToHandle(svc, s, req).state);
    }
  }

  /** A send to a handle types into that handle's pane only. */
  lemma SendAims(aim: Aim, svc: Service, s: State, req: SendRequest)
    requires Anchored(aim, s, req.handle) && Trim(req.handle) != ""
    ensures OnlyAt(aim, s, Send(svc, s, req).state)
  {
    AvailableAt(aim, svc, s);
    var usable := EnsureAvailable(svc, s);
    if usable.result.Ok? && req.session.None? && req.tabName.None? && req.selector.None? {
      SendToHandleAims(aim, svc, usable.state, req);
      OnlyAtTrans(aim, s, usable.state, Send(svc, s, req).state);
    }
  }

  lemma ReplaceActiveAims(aim: Aim, svc: Service, s: State, h: string, command: string, interrupt: bool, b: Binding)
    requires Anchored(aim, s, h) && Aims(aim, b) && Trim(h) != ""
    ensures OnlyAt(aim, s, ReplaceActive(svc, s, h, command, interrupt, b).state)
  {
    var line := ReplaceLine(h, command);
    if interrupt {
      RetryAims(aim, svc, s, h, b, SendFailed, SendInput(INTERRUPT, false));
      var interrupted := Interrupt(svc, s, h, b);
      if interrupted.result.Ok? {
        SendAims(aim, svc, interrupted.state, line);
        OnlyAtTrans(aim, s, interrupted.state, Send(svc, interrupted.state, line).state);
      }
    } else {
      SendAims(aim, svc, s, line);
    }
  }

  /** And so does a replace. */
  lemma ReplaceAims(aim: Aim, svc: Service, s: State, h: string, command: string, interrupt: bool)
    requires Anchored(aim, s, h) && Trim(h) != ""
    ensures OnlyAt(aim, s, ReplaceCommand(svc, s, h, command, interrupt).state)
  {
    AvailableAt(aim, svc, s);
    var usable := EnsureAvailable(svc, s);
    if usable.result.Ok? {
      RefreshedAims(aim, svc, usable.state, h);
      var again := Refresh(svc, usable.state, h);
      OnlyAtTrans(aim, s, usable.state, again.state);
      if again.result.Ok? && IsActive(again.result.value) && SupportsMarkers(again.result.value) {
        ReplaceActiveAims(aim, svc, again.state, h, command, interrupt, again.result.value);
        OnlyAtTrans(aim, s, again.state, ReplaceCommand(svc, s, h, command, interrupt).state);
      }
    }
  }

  lemma WaitActiveAims(aim: Aim, svc: Service, s: State, h: string, busy: Binding, idleMs: nat, timeoutMs: nat)
    requires Lookup(s.bindings, h) == Some(busy) && !busy.status.Closed? && Anchored(aim, s, h)
    ensures OnlyAt(aim, s, WaitActive(svc, s, h, busy, idleMs, timeoutMs).state)
  {
    AwaitIdleAims(aim, svc, s, h, busy, idleMs, timeoutMs);
    AwaitIdleKeeps(svc, s, h, busy, idleMs, timeoutMs);
    var waited := AwaitIdle(svc, s, h, busy, idleMs, timeoutMs);
    var marked := MarkWaited(waited.state, h, waited.result);
    MarkWaitedKeeps(waited.state, h, waited.result);
    KeptTrans(h, s, waited.state, marked);
    AnchorHolds(aim, h, s, marked);
    if waited.result.Ok? {
      RetryAims(aim, svc, marked, h, busy, CaptureFailed, CaptureFull);
      OnlyAtTrans(aim, s, marked, WaitActive(svc, s, h, busy, idleMs, timeoutMs).state);
    }
  }

  lemma WaitSyncedAims(aim: Aim, svc: Service, s: State, h: string, idleMs: nat, timeoutMs: nat)
    requires Anchored(aim, s, h)
    ensures OnlyAt(aim, s, WaitSynced(svc, s, h, idleMs, timeoutMs).state)
  {
    SyncAims(aim, svc, s, h);
    var synced := RefreshAndSync(svc, s, h);
    if synced.result.Ok? && IsActive(synced.result.value) {
      var b := synced.result.value;
      var busy := b.(status := Busy);
      var marked := SetBinding(synced.state, h, busy);
      SetBindingIsKept(synced.state, h, b, busy);
      AnchorHolds(aim, h, synced.state, marked);
      WaitActiveAims(aim, svc, marked, h, busy, idleMs, timeoutMs);
      OnlyAtTrans(aim, s, marked, WaitActive(svc, marked, h, busy, idleMs, timeoutMs).state);
    }
  }

  /** A wait watches its handle's pane only. */
  lemma WaitAims(aim: Aim, svc: Service, s: State, h: string, idleMs: nat, timeoutMs: nat)
    requires Anchored(aim, s, h)
    ensures OnlyAt(aim, s, Wait(svc, s, h, idleMs, timeoutMs).state)
  {
    UsableAims(aim, svc, s, h);
    var usable := EnsureUsable(svc, s, Lookup(s.bindings, h).value);
    if usable.result.Ok? {
      WaitSyncedAims(aim, svc, usable.state, h, idleMs, timeoutMs);
      OnlyAtTrans(aim, s, usable.state, Wait(svc, s, h, idleMs, timeoutMs).state);
    }
  }

  lemma {:induction false} VerifyAt(aim: Aim, svc: Service, s: State, b: Binding, deadline: nat)
    ensures OnlyAt(aim, s, VerifyClosed(svc, s, b, deadline).state)
    decreases Remaining(s.time, deadline)
  {
    TickAt(aim, svc.env, s, ListTargets(b.session));
    var listed := ListMapped(svc, s, b.session, CloseFailed);
    if listed.result.Ok? && AnyMatches(b, listed.result.value) && listed.state.time < deadline {
      VerifyAt(aim, svc, Sleep(listed.state, 50), b, deadline);
      OnlyAtTrans(aim, s, listed.state, VerifyClosed(svc, s, b, deadline).state);
    }
  }

  lemma ExitShellAims(aim: Aim, svc: Service, s: State, b: Binding)
    requires Aims(aim, b)
    ensures OnlyAt(aim, s, ExitShell(svc, s, b).state)
  {
    DoAims(aim, svc, s, SendInput("exit", true), b);
    var sent := Do(svc, s, SendInput("exit", true), b);
    if sent.result.Ok? {
      VerifyAt(aim, svc, sent.state, b, Deadline(sent.state, CloseBudget(svc)));
      OnlyAtTrans(aim, s, sent.state, ExitShell(svc, s, b).state);
    }
  }

  lemma CloseAndVerifyAims(aim: Aim, svc: Service, s: State, h: string, b: Binding, force: bool)
    requires Anchored(aim, s, h) && Aims(aim, b)
    ensures OnlyAt(aim, s, CloseAndVerify(svc, s, h, b, force).state)
  {
    RetryAims(aim, svc, s, h, b, CloseFailed, ClosePane(force));
    var closed := Retry(svc, s, h, b, CloseFailed, ClosePane(force));
    if closed.result.Ok? {
      VerifyAt(aim, svc, closed.state, b, Deadline(closed.state, CloseBudget(svc)));
      OnlyAtTrans(aim, s, closed.state, CloseAndVerify(svc, s, h, b, force).state);
    }
  }

  lemma CloseSyncedAims(aim: Aim, svc: Service, s: State, h: string, force: bool)
    requires Anchored(aim, s, h)
    ensures OnlyAt(aim, s, CloseSynced(svc, s, h, force).state)
  {
    SyncAims(aim, svc, s, h);
    var synced := RefreshAndSync(svc, s, h);
    if synced.result.Ok? && IsActive(synced.result.value) {
      var b := synced.result.value;
      CloseAndVerifyAims(aim, svc, synced.state, h, b, force);
      var tried := CloseAndVerify(svc, synced.state, h, b, force);
      ExitShellAims(aim, svc, tried.state, b);
      OnlyAtTrans(aim, synced.state, tried.state, ExitShell(svc, tried.state, b).state);
      OnlyAtTrans(aim, s, synced.state, CloseActive(svc, synced.state, h, b, force).state);
    }
  }

  /** A close closes its handle's pane only, and types `exit` into no other. */
  lemma CloseAims(aim: Aim, svc: Service, s: State, h: string, force: bool)
    requires Anchored(aim, s, h)
    ensures OnlyAt(aim, s, Close(svc, s, h, force).state)
  {
    AvailableAt(aim, svc, s);
    var usable := EnsureAvailable(svc, s);
    if usable.result.Ok? {
      CloseSyncedAims(aim, svc, usable.state, h, force);
      OnlyAtTrans(aim, s, usable.state, Close(svc, s, h, force).state);
    }
  }
}
