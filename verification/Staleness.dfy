/** What the error TARGET_STALE says about the store, and the exact effect of a line-clearing send
    on a closed handle. */
module Staleness {
  import opened Entities
  import opened Keeping
  import opened Lifecycle
  import opened Operations
  import opened Rows
  import opened Targets
  import opened Text

  ghost predicate IsStale<T>(r: Result<T, ErrorCode>) { r.Err? && r.error == TargetStale }

  /** TARGET_STALE is only reported for a handle that is stored as stale or closed. */
  ghost predicate Truthful<T>(h: string, r: Outcome<T>) {
    IsStale(r.result) ==> Known(r.state, h) && !IsActive(Lookup(r.state.bindings, h).value)
  }

  // ---------------------------------------------------------------- revalidation never reports it

  lemma {:induction false} ReconcileIsNotStale(svc: Service, s: State, h: string, deadline: nat)
    ensures !IsStale(Reconcile(svc, s, h, deadline).result)
    decreases Remaining(s.time, deadline)
  {
    if Known(s, h) {
      var b := Lookup(s.bindings, h).value;
      var listed := ListMapped(svc, s, b.session, SpawnFailed);
      if !(b.paneId.Some? && b.selector != "") && listed.result.Ok? && listed.state.time < deadline
         && ResolveSpawnCandidate(Hints(b, ObservationOf(s, h)), listed.result.value).None?
      {
        ReconcileIsNotStale(svc, Sleep(listed.state, 150), h, deadline);
      }
    }
  }

  lemma RequeryIsNotStale(svc: Service, s: State, h: string, b: Binding)
    ensures !IsStale(Requery(svc, s, h, b).result)
  {
  }

  lemma RefreshIsNotStale(svc: Service, s: State, h: string)
    ensures !IsStale(Refresh(svc, s, h).result)
  {
    if Known(s, h) {
      var b := Lookup(s.bindings, h).value;
      if IsUnresolved(b) {
        ReconcileIsNotStale(svc, s, h, Deadline(s, 500));
      } else if !b.status.Closed? {
        RequeryIsNotStale(svc, s, h, b);
      }
    }
  }

  // ---------------------------------------------------------------- retries and waits

  lemma RefreshTells(svc: Service, s: State, h: string)
    ensures Stored(h, Refresh(svc, s, h)) && !IsStale(Refresh(svc, s, h).result)
  {
    RefreshKeeps(svc, s, h);
    RefreshIsNotStale(svc, s, h);
  }

  lemma StaleIsTold<T>(s: State, h: string, b: Binding)
    requires Lookup(s.bindings, h) == Some(b)
    ensures Truthful<T>(h, Fail(MarkStale(s, h), TargetStale))
  {
    MarkStaleKeeps(s, h, b);
  }

  lemma {:induction false} RetryFromIsTruthful(svc: Service, s: State, h: string, b: Binding, code: ErrorCode,
                                               action: Action, attempt: nat)
    requires attempt < 3 && code != TargetStale
    ensures Truthful(h, RetryFrom(svc, s, h, b, code, action, attempt))
    decreases 3 - attempt
  {
    var done := Do(svc, s, action, b);
    if done.result.Err? && IsMissing(done.result.error) {
      RefreshTells(svc, done.state, h);
      var again := Refresh(svc, done.state, h);
      if again.result.Ok? && IsActive(again.result.value) {
        if attempt < 2 {
          RetryFromIsTruthful(svc, Sleep(again.state, 150), h, again.result.value, code, action, attempt + 1);
        } else {
          StaleIsTold<Snapshot>(again.state, h, again.result.value);
        }
      }
    }
  }

  lemma RetryIsTruthful(svc: Service, s: State, h: string, b: Binding, code: ErrorCode, action: Action)
    requires code != TargetStale
    ensures Truthful(h, Retry(svc, s, h, b, code, action))
  {
    if SkipsAvailability(svc, b) {
      RetryFromIsTruthful(svc, s, h, b, code, action, 0);
    } else {
      var ready := EnsureReady(svc, s, b.session, code);
      if ready.result.Ok? { RetryFromIsTruthful(svc, ready.state, h, b, code, action, 0); }
    }
  }

  lemma {:induction false} PollIsTruthful(svc: Service, s: State, h: string, b: Binding, idleMs: nat, deadline: nat,
                                          samples: seq<Sample>)
    ensures Truthful(h, Poll(svc, s, h, b, idleMs, deadline, samples))
    decreases Remaining(s.time, deadline)
  {
    if s.time < deadline {
      RetryIsTruthful(svc, s, h, b, CaptureFailed, CaptureFull);
      var captured := Retry(svc, s, h, b, CaptureFailed, CaptureFull);
      if captured.result.Ok? {
        var seen := samples + [Sample(svc.env.hash(captured.result.value.content), captured.state.time)];
        if !IsQuiet(seen, captured.state.time, idleMs) {
          PollIsTruthful(svc, Sleep(captured.state, PollInterval(idleMs)), h, b, idleMs, deadline, seen);
        }
      }
    }
  }

  lemma AwaitIdleIsTruthful(svc: Service, s: State, h: string, b: Binding, idleMs: nat, timeoutMs: nat)
    ensures Truthful(h, AwaitIdle(svc, s, h, b, idleMs, timeoutMs))
  {
    var first := Retry(svc, s, h, b, WaitFailed, WaitIdle(idleMs, timeoutMs));
    if first.result == Err(TargetStale) {
      PollIsTruthful(svc, first.state, h, b, idleMs, Deadline(first.state, timeoutMs), []);
    }
  }

  // ---------------------------------------------------------------- the operations

  lemma SyncIsTruthful(svc: Service, s: State, h: string)
    ensures !IsStale(RefreshAndSync(svc, s, h).result)
  {
    SyncKeeps(svc, s, h);
    RefreshIsNotStale(svc, s, h);
  }

  lemma CaptureIsTruthful(svc: Service, s: State, req: CaptureRequest)
    ensures Truthful(req.handle, Capture(svc, s, req))
  {
    var h := req.handle;
    if Known(s, h) {
      var usable := EnsureUsable(svc, s, Lookup(s.bindings, h).value);
      if usable.result.Ok? && CaptureExtent(req).Ok? {
        SyncKeeps(svc, usable.state, h);
        SyncIsTruthful(svc, usable.state, h);
        var synced := RefreshAndSync(svc, usable.state, h);
        if synced.result.Ok? {
          RetryIsTruthful(svc, synced.state, h, synced.result.value, CaptureFailed, CaptureFull);
        }
      }
    }
  }

  lemma BoundaryIsTruthful(svc: Service, s: State, h: string, b: Binding)
    requires Lookup(s.bindings, h) == Some(b)
    ensures Truthful(h, PrepareBoundary(svc, s, h, b))
  {
    var done := Do(svc, s, CaptureFull, b);
    MarkStaleKeeps(done.state, h, b);
  }

  lemma PlanFailsAs(svc: Service, s: State, req: SendRequest)
    requires IsStale(PlanSend(svc, s, req).result)
    ensures var r := Refresh(svc, s, req.handle);
            IsStale(r.result)
            || (r.result.Ok?
                && PlanSend(svc, s, req).state == PrepareBoundary(svc, r.state, req.handle, r.result.value).state
                && IsStale(PrepareBoundary(svc, r.state, req.handle, r.result.value).result))
  {
  }

  lemma PlanIsTruthful(svc: Service, s: State, req: SendRequest)
    ensures Truthful(req.handle, PlanSend(svc, s, req))
  {
    RefreshKeeps(svc, s, req.handle);
    RefreshIsNotStale(svc, s, req.handle);
    var again := Refresh(svc, s, req.handle);
    if IsStale(PlanSend(svc, s, req).result) {
      PlanFailsAs(svc, s, req);
      BoundaryIsTruthful(svc, again.state, req.handle, again.result.value);
    }
  }

  lemma TypeInlineIsTruthful(svc: Service, s: State, req: SendRequest, plan: SendPlan, id: string)
    ensures Truthful(req.handle, TypeInline(svc, s, req, plan, id))
  {
    RetryIsTruthful(svc, s, req.handle, plan.binding, SendFailed,
                    SendInput(InlineFish(req.text, id), plan.payload.submit));
  }

  lemma FallbackIsTruthful(svc: Service, s: State, req: SendRequest, plan: SendPlan, id: string)
    ensures Truthful(req.handle, Fallback(svc, s, req, plan, id))
  {
    TypeInlineIsTruthful(svc, Retry(svc, s, req.handle, plan.binding, CaptureFailed, CaptureFull).state, req, plan, id);
  }

  lemma AfterTypingIsTruthful(svc: Service, s: State, req: SendRequest, plan: SendPlan)
    ensures Truthful(req.handle, AfterTyping(svc, s, req, plan))
  {
    if plan.interactionId.Some? { FallbackIsTruthful(svc, Sleep(s, 75), req, plan, plan.interactionId.value); }
  }

  lemma DeliverIsTruthful(svc: Service, s: State, req: SendRequest, plan: SendPlan)
    ensures Truthful(req.handle, Deliver(svc, s, req, plan))
  {
    var action := SendInput(plan.payload.text, plan.payload.submit);
    RetryIsTruthful(svc, s, req.handle, plan.binding, SendFailed, action);
    AfterTypingIsTruthful(svc, Retry(svc, s, req.handle, plan.binding, SendFailed, action).state, req, plan);
  }

  lemma SendToHandleIsTruthful(svc: Service, s: State, req: SendRequest)
    ensures Truthful(req.handle, SendToHandle(svc, s, req))
  {
    PlanIsTruthful(svc, s, req);
    PlanMoves(svc, s, req);
    var planned := PlanSend(svc, s, req);
    if planned.result.Ok? { DeliverIsTruthful(svc, planned.state, req, planned.result.value); }
  }

  lemma SendToLocationIsNotStale(svc: Service, s: State, req: SendRequest, session: string)
    ensures !IsStale(SendToLocation(svc, s, req, session).result)
  {
  }

  lemma SendIsTruthful(svc: Service, s: State, req: SendRequest)
    ensures Truthful(req.handle, Send(svc, s, req))
  {
    var usable := EnsureAvailable(svc, s);
    if usable.result.Ok? {
      SendToHandleIsTruthful(svc, usable.state, req);
      if req.session.Some? { SendToLocationIsNotStale(svc, usable.state, req, req.session.value); }
    }
  }

  lemma ReplaceActiveIsTruthful(svc: Service, s: State, h: string, command: string, interrupt: bool, b: Binding)
    ensures Truthful(h, ReplaceActive(svc, s, h, command, interrupt, b))
  {
    var line := ReplaceLine(h, command);
    if interrupt {
      RetryIsTruthful(svc, s, h, b, SendFailed, SendInput(INTERRUPT, false));
      var interrupted := Interrupt(svc, s, h, b);
      if interrupted.result.Ok? { SendIsTruthful(svc, interrupted.state, line); }
    } else {
      SendIsTruthful(svc, s, line);
    }
  }

  lemma ReplaceIsTruthful(svc: Service, s: State, h: string, command: string, interrupt: bool)
    ensures Truthful(h, ReplaceCommand(svc, s, h, command, interrupt))
  {
    var usable := EnsureAvailable(svc, s);
    if usable.result.Ok? {
      RefreshKeeps(svc, usable.state, h);
      RefreshIsNotStale(svc, usable.state, h);
      var again := Refresh(svc, usable.state, h);
      if again.result.Ok? {
        ReplaceActiveIsTruthful(svc, again.state, h, command, interrupt, again.result.value);
      }
    }
  }

  lemma WaitActiveIsTruthful(svc: Service, s: State, h: string, busy: Binding, idleMs: nat, timeoutMs: nat)
    ensures Truthful(h, WaitActive(svc, s, h, busy, idleMs, timeoutMs))
  {
    AwaitIdleIsTruthful(svc, s, h, busy, idleMs, timeoutMs);
    var waited := AwaitIdle(svc, s, h, busy, idleMs, timeoutMs);
    if waited.result.Ok? {
      RetryIsTruthful(svc, MarkWaited(waited.state, h, waited.result), h, busy, CaptureFailed, CaptureFull);
    }
  }

  lemma WaitIsTruthful(svc: Service, s: State, h: string, idleMs: nat, timeoutMs: nat)
    ensures Truthful(h, Wait(svc, s, h, idleMs, timeoutMs))
  {
    if Known(s, h) {
      var usable := EnsureUsable(svc, s, Lookup(s.bindings, h).value);
      if usable.result.Ok? {
        SyncKeeps(svc, usable.state, h);
        SyncIsTruthful(svc, usable.state, h);
        var synced := RefreshAndSync(svc, usable.state, h);
        if synced.result.Ok? && IsActive(synced.result.value) {
          var busy := synced.result.value.(status := Busy);
          WaitActiveIsTruthful(svc, SetBinding(synced.state, h, busy), h, busy, idleMs, timeoutMs);
        }
      }
    }
  }

  lemma {:induction false} VerifyIsNotStale(svc: Service, s: State, b: Binding, deadline: nat)
    ensures !IsStale(VerifyClosed(svc, s, b, deadline).result)
    decreases Remaining(s.time, deadline)
  {
    var listed := ListMapped(svc, s, b.session, CloseFailed);
    if listed.result.Ok? && AnyMatches(b, listed.result.value) && listed.state.time < deadline {
      VerifyIsNotStale(svc, Sleep(listed.state, 50), b, deadline);
    }
  }

  lemma ExitShellIsNotStale(svc: Service, s: State, b: Binding)
    ensures !IsStale(ExitShell(svc, s, b).result)
  {
    var sent := Do(svc, s, SendInput("exit", true), b);
    VerifyIsNotStale(svc, sent.state, b, Deadline(sent.state, CloseBudget(svc)));
  }

  lemma CloseAndVerifyIsTruthful(svc: Service, s: State, h: string, b: Binding, force: bool)
    ensures Truthful(h, CloseAndVerify(svc, s, h, b, force))
  {
    RetryIsTruthful(svc, s, h, b, CloseFailed, ClosePane(force));
    var closed := Retry(svc, s, h, b, CloseFailed, ClosePane(force));
    if closed.result.Ok? { VerifyIsNotStale(svc, closed.state, b, Deadline(closed.state, CloseBudget(svc))); }
  }

  lemma CloseActiveIsTruthful(svc: Service, s: State, h: string, b: Binding, force: bool)
    ensures Truthful(h, CloseActive(svc, s, h, b, force))
  {
    CloseAndVerifyIsTruthful(svc, s, h, b, force);
    ExitShellIsNotStale(svc, CloseAndVerify(svc, s, h, b, force).state, b);
  }

  lemma CloseIsTruthful(svc: Service, s: State, h: string, force: bool)
    ensures Truthful(h, Close(svc, s, h, force))
  {
    var usable := EnsureAvailable(svc, s);
    if usable.result.Ok? {
      SyncKeeps(svc, usable.state, h);
      SyncIsTruthful(svc, usable.state, h);
      var synced := RefreshAndSync(svc, usable.state, h);
      if synced.result.Ok? { CloseActiveIsTruthful(svc, synced.state, h, synced.result.value, force); }
    }
  }

  // ---------------------------------------------------------------- the send that reopens a closed handle

  /** What the capture before a line-clearing send does to the handle: stale when it loses the
      pane, a new baseline when it succeeds, and nothing otherwise. */
  ghost predicate BoundaryEffect(svc: Service, s: State, h: string, b: Binding, answer: Result<Snapshot, AdapterError>,
                                 t: State)
  {
    && (if answer.Err? && IsMissing(answer.error)
        then Known(t, h) && Lookup(t.bindings, h).value.status.Stale?
        else Lookup(t.bindings, h) == Some(b))
    && Lookup(t.observations, h)
       == (match answer
           case Ok(snapshot) => Some(Baseline(svc.env, ObservationOf(s, h), snapshot))
           case Err(_) => Lookup(s.observations, h))
  }

  lemma BoundaryOnClosed(svc: Service, s: State, h: string, b: Binding)
    requires Lookup(s.bindings, h) == Some(b)
    ensures BoundaryEffect(svc, s, h, b, Do(svc, s, CaptureFull, b).result, PrepareBoundary(svc, s, h, b).state)
  {
    var done := Do(svc, s, CaptureFull, b);
    MarkStaleKeeps(done.state, h, b);
    if done.result.Ok? {
      SlotPutIsKept(h, done.state.observations, Baseline(svc.env, ObservationOf(done.state, h), done.result.value));
    }
  }

  lemma ClearingPlanOnClosed(svc: Service, s: State, req: SendRequest, b: Binding)
    requires Lookup(s.bindings, req.handle) == Some(b) && b.status.Closed? && ClearsClosed(s, req)
    ensures PlanSend(svc, s, req).state.bindings == PrepareBoundary(svc, s, req.handle, b).state.bindings
    ensures PlanSend(svc, s, req).state.observations == PrepareBoundary(svc, s, req.handle, b).state.observations
    ensures PlanSend(svc, s, req).result.Ok? ==> PlanSend(svc, s, req).result.value.binding == b
  {
    PlanEnds(svc, s, req);
  }

  /** The answer to the capture that comes before the send. */
  function BoundaryAnswer(svc: Service, s: State, b: Binding): Result<Snapshot, AdapterError> {
    Do(svc, EnsureAvailable(svc, s).state, CaptureFull, b).result
  }

  /** A send that clears the line of a closed attached handle fails, and turns it stale exactly when
      the capture made for it reports the pane missing; otherwise the binding is untouched. The
      observation is rewritten, or made anew after a close deleted it, exactly when that capture
      succeeds: its snapshot is then both the last text and the boundary. */
  lemma ClearingSendOnClosed(svc: Service, s: State, req: SendRequest, b: Binding)
    requires Lookup(s.bindings, req.handle) == Some(b) && b.status.Closed? && ClearsClosed(s, req)
    requires Trim(req.handle) != "" && req.session.None? && req.tabName.None? && req.selector.None?
    requires EnsureAvailable(svc, s).result.Ok?
    ensures Send(svc, s, req).result.Err?
    ensures BoundaryEffect(svc, s, req.handle, b, BoundaryAnswer(svc, s, b), Send(svc, s, req).state)
  {
    var usable := EnsureAvailable(svc, s);
    ClearingPlanOnClosed(svc, usable.state, req, b);
    BoundaryOnClosed(svc, usable.state, req.handle, b);
  }
}
