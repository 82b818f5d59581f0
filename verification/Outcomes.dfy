/** What an operation's success means: a revalidated handle is ready exactly when its pane is
    listed, and a closed one is gone from the last listing. */
module Outcomes {
  import opened Bounds
  import opened Entities
  import opened Keeping
  import opened Lifecycle
  import opened Operations
  import opened Rows
  import opened Targets
  import opened Text

  // ---------------------------------------------------------------- revalidation

  predicate Listing(panes: seq<Pane>, id: string) { exists p :: p in panes && p.id == id }

  /** The backend shows the same panes throughout, each once. */
  ghost predicate Shows(svc: Service, session: string, panes: seq<Pane>) {
    && (forall n: nat :: svc.backend.panes(n, session) == Ok(panes))
    && (forall i, j :: 0 <= i < j < |panes| ==> panes[i].id != panes[j].id)
  }

  lemma {:induction false} FilterOnce<T>(p: T -> bool, xs: seq<T>, k: nat)
    requires k < |xs| && p(xs[k])
    requires forall i :: 0 <= i < |xs| && i != k ==> !p(xs[i])
    ensures Filter(p, xs) == [xs[k]]
  {
    if k == 0 {
      FilterNone(p, xs[1..]);
    } else {
      FilterOnce(p, xs[1..], k - 1);
    }
  }

  lemma NoPaneIsMissing(selector: string)
    ensures IsMissing(NoPaneMatched(selector))
  {
    var message := "no pane matched selector `" + selector + "`";
    assert OccursAt(message, "no pane matched", 0);
  }

  function PaneQuery(b: Binding): Query
    requires b.paneId.Some?
  {
    Query(b.session, None, "id:" + b.paneId.value)
  }

  lemma SelectorPicks(pane: Pane, session: string, id: string)
    requires EndsTight(id)
    ensures (InTab(None, PaneToTarget(pane, session))
             && MatchesSelector(Trim("id:" + id), PaneToTarget(pane, session))) <==> pane.id == id
  {
    IdSelectorIsTight(id);
    IdSelectorIsExact(id, PaneToTarget(pane, session));
  }

  /** One resolution of a pane's own selector: the pane when it is listed, missing when not. */
  lemma ResolveShown(svc: Service, s: State, b: Binding, panes: seq<Pane>)
    requires b.paneId.Some? && EndsTight(b.paneId.value) && Shows(svc, b.session, panes)
    ensures var r := Resolve(svc, s, PaneQuery(b)).result;
            if Listing(panes, b.paneId.value) then r.Ok? else r.Err? && IsMissing(r.error)
  {
    var id, q := b.paneId.value, PaneQuery(b);
    assert svc.backend.panes(|s.log|, b.session) == Ok(panes);
    var targets := PanesToTargets(panes, b.session);
    var matches := (t: Target) => InTab(None, t) && MatchesSelector(Trim(q.selector), t);
    forall i | 0 <= i < |panes| ensures matches(targets[i]) <==> panes[i].id == id {
      SelectorPicks(panes[i], b.session, id);
    }
    if Listing(panes, id) {
      var k :| 0 <= k < |panes| && panes[k].id == id;
      FilterOnce(matches, targets, k);
    } else {
      forall t | t in targets ensures !matches(t) {
        var i :| 0 <= i < |targets| && targets[i] == t;
        assert panes[i] in panes;
      }
      FilterNone(matches, targets);
      NoPaneIsMissing(Trim(q.selector));
    }
  }

  lemma ResolveAnyShown(svc: Service, s: State, b: Binding, panes: seq<Pane>)
    requires b.paneId.Some? && EndsTight(b.paneId.value) && Shows(svc, b.session, panes)
    ensures var r := ResolveAny(svc, s, [PaneQuery(b)]).result;
            r.Ok? && (r.value.Some? <==> Listing(panes, b.paneId.value))
  {
    ResolveShown(svc, s, b, panes);
    var first := Resolve(svc, s, PaneQuery(b));
    assert [PaneQuery(b)][1..] == [];
    assert ResolveAny(svc, first.state, []) == Step(first.state, Ok(None));
  }

  lemma {:induction false} AttemptsShown(svc: Service, s: State, b: Binding, panes: seq<Pane>, attempt: nat)
    requires b.paneId.Some? && EndsTight(b.paneId.value) && Shows(svc, b.session, panes) && attempt <= 3
    ensures var r := ResolveAttempts(svc, s, [PaneQuery(b)], attempt).result;
            r.Ok? && (r.value.Some? <==> attempt < 3 && Listing(panes, b.paneId.value))
    decreases 3 - attempt
  {
    if attempt < 3 {
      ResolveAnyShown(svc, s, b, panes);
      var round := ResolveAny(svc, s, [PaneQuery(b)]);
      if round.result == Ok(None) {
        AttemptsShown(svc, if attempt < 2 then Sleep(round.state, 150) else round.state, b, panes, attempt + 1);
      }
    }
  }

  /** Over a backend that shows the same panes throughout, revalidating a handle that names a pane
      makes it ready exactly when the pane is listed and stale when not, however stale or busy it
      was before. */
  lemma RevalidationIsExact(svc: Service, s: State, h: string, b: Binding, panes: seq<Pane>)
    requires Lookup(s.bindings, h) == Some(b) && !b.status.Closed?
    requires b.paneId.Some? && PaneOk(b) && Shows(svc, b.session, panes)
    requires svc.backend.ready(|s.log|, b.session).Ok?
    ensures var r := Refresh(svc, s, h);
            r.result.Ok? && Lookup(r.state.bindings, h) == Some(r.result.value)
            && r.result.value.status == if Listing(panes, b.paneId.value) then Ready else Stale
  {
    assert Queries(b) == [PaneQuery(b)];
    AttemptsShown(svc, EnsureReady(svc, s, b.session, AttachFailed).state, b, panes, 0);
    RefreshKeeps(svc, s, h);
  }

  // ---------------------------------------------------------------- wait

  ghost predicate StoredAs(s: State, h: string, status: Status) {
    Known(s, h) && Lookup(s.bindings, h).value.status == status
  }

  /** An active answer leaves a ready handle ready. */
  ghost predicate ReadyIfActive(h: string, r: Outcome<Binding>) {
    r.result.Ok? && IsActive(r.result.value) ==> StoredAs(r.state, h, Ready)
  }

  lemma {:induction false} ReconcileFindsReady(svc: Service, s: State, h: string, deadline: nat)
    requires StoredAs(s, h, Ready)
    ensures StoredAs(Reconcile(svc, s, h, deadline).state, h, Ready)
    decreases Remaining(s.time, deadline)
  {
    var b := Lookup(s.bindings, h).value;
    var listed := ListMapped(svc, s, b.session, SpawnFailed);
    if !(b.paneId.Some? && b.selector != "") && listed.result.Ok? {
      match ResolveSpawnCandidate(Hints(b, ObservationOf(s, h)), listed.result.value)
      case Some(t) => LookupPut(s.bindings, h, Located(b, t, listed.state.time), h);
      case None =>
        if listed.state.time < deadline { ReconcileFindsReady(svc, Sleep(listed.state, 150), h, deadline); }
    }
  }

  lemma RequeryFindsReady(svc: Service, s: State, h: string, b: Binding)
    requires Lookup(s.bindings, h) == Some(b) && !b.status.Closed?
    ensures ReadyIfActive(h, Requery(svc, s, h, b))
  {
    RequeryKeeps(svc, s, h, b);
  }

  lemma RefreshFindsReady(svc: Service, s: State, h: string)
    requires StoredAs(s, h, Ready)
    ensures ReadyIfActive(h, Refresh(svc, s, h))
  {
    var b := Lookup(s.bindings, h).value;
    if IsUnresolved(b) {
      ReconcileFindsReady(svc, s, h, Deadline(s, 500));
    } else {
      RequeryFindsReady(svc, s, h, b);
    }
  }

  lemma {:induction false} FailedReconcileKeeps(svc: Service, s: State, h: string, deadline: nat)
    requires Reconcile(svc, s, h, deadline).result.Err?
    ensures Reconcile(svc, s, h, deadline).state.bindings == s.bindings
    decreases Remaining(s.time, deadline)
  {
    if Known(s, h) {
      var listed := ListMapped(svc, s, Lookup(s.bindings, h).value.session, SpawnFailed);
      if listed.result.Ok? { FailedReconcileKeeps(svc, Sleep(listed.state, 150), h, deadline); }
    }
  }

  lemma {:induction false} ResolveAnyIsQuiet(svc: Service, s: State, queries: seq<Query>)
    ensures ResolveAny(svc, s, queries).state.bindings == s.bindings
    decreases |queries|
  {
    if queries != [] {
      ResolveAnyIsQuiet(svc, Resolve(svc, s, queries[0]).state, queries[1..]);
    }
  }

  lemma {:induction false} AttemptsAreQuiet(svc: Service, s: State, queries: seq<Query>, attempt: nat)
    ensures ResolveAttempts(svc, s, queries, attempt).state.bindings == s.bindings
    decreases 3 - attempt
  {
    if attempt < 3 {
      ResolveAnyIsQuiet(svc, s, queries);
      var round := ResolveAny(svc, s, queries);
      AttemptsAreQuiet(svc, if attempt < 2 then Sleep(round.state, 150) else round.state, queries, attempt + 1);
    }
  }

  /** A revalidation that fails writes no binding. */
  lemma FailedRefreshKeeps(svc: Service, s: State, h: string)
    requires Refresh(svc, s, h).result.Err?
    ensures Refresh(svc, s, h).state.bindings == s.bindings
  {
    if Known(s, h) {
      var b := Lookup(s.bindings, h).value;
      if IsUnresolved(b) {
        FailedReconcileKeeps(svc, s, h, Deadline(s, 500));
      } else {
        AttemptsAreQuiet(svc, EnsureReady(svc, s, b.session, AttachFailed).state, Queries(b), 0);
      }
    }
  }

  /** Whatever comes of it, short of TARGET_STALE, an operation with retries leaves a ready handle
      ready. */
  ghost predicate ReadyUnlessStale<T>(h: string, r: Outcome<T>) {
    r.result != Err(TargetStale) ==> StoredAs(r.state, h, Ready)
  }

  lemma {:induction false} RetryFromStaysReady(svc: Service, s: State, h: string, b: Binding, code: ErrorCode,
                                               action: Action, attempt: nat)
    requires attempt < 3 && StoredAs(s, h, Ready)
    ensures ReadyUnlessStale(h, RetryFrom(svc, s, h, b, code, action, attempt))
    decreases 3 - attempt
  {
    var done := Do(svc, s, action, b);
    if done.result.Err? && IsMissing(done.result.error) {
      RefreshFindsReady(svc, done.state, h);
      var again := Refresh(svc, done.state, h);
      if again.result.Err? {
        FailedRefreshKeeps(svc, done.state, h);
      } else if IsActive(again.result.value) && attempt < 2 {
        RetryFromStaysReady(svc, Sleep(again.state, 150), h, again.result.value, code, action, attempt + 1);
      }
    }
  }

  lemma RetryStaysReady(svc: Service, s: State, h: string, b: Binding, code: ErrorCode, action: Action)
    requires StoredAs(s, h, Ready)
    ensures ReadyUnlessStale(h, Retry(svc, s, h, b, code, action))
  {
    if SkipsAvailability(svc, b) {
      RetryFromStaysReady(svc, s, h, b, code, action, 0);
    } else {
      var ready := EnsureReady(svc, s, b.session, code);
      if ready.result.Ok? { RetryFromStaysReady(svc, ready.state, h, b, code, action, 0); }
    }
  }

  lemma WaitedIsMarked(s: State, h: string, r: Result<(), ErrorCode>)
    requires Known(s, h)
    ensures r.Ok? ==> StoredAs(MarkWaited(s, h, r), h, Ready)
    ensures r == Err(WaitTimeout) ==> StoredAs(MarkWaited(s, h, r), h, Busy)
  {
    var b := Lookup(s.bindings, h).value;
    LookupPut(s.bindings, h, b.(status := Ready, updatedAt := s.time), h);
    LookupPut(s.bindings, h, b.(status := Busy, updatedAt := s.time), h);
  }

  lemma WaitActiveMarks(svc: Service, s: State, h: string, busy: Binding, idleMs: nat, timeoutMs: nat)
    requires Lookup(s.bindings, h) == Some(busy)
    ensures var r := WaitActive(svc, s, h, busy, idleMs, timeoutMs);
            && (r.result.Ok? ==> StoredAs(r.state, h, Ready))
            && (TimedOut(r.result) ==>
                  StoredAs(r.state, h, if TimedOut(AwaitIdle(svc, s, h, busy, idleMs, timeoutMs).result)
                                       then Busy else Ready))
  {
    AwaitIdleKeeps(svc, s, h, busy, idleMs, timeoutMs);
    var waited := AwaitIdle(svc, s, h, busy, idleMs, timeoutMs);
    KeptKnown(h, s, waited.state);
    WaitedIsMarked(waited.state, h, waited.result);
    if waited.result.Ok? {
      RetryStaysReady(svc, MarkWaited(waited.state, h, waited.result), h, busy, CaptureFailed, CaptureFull);
    }
  }

  /** What the wait read of the handle, and the waiting that follows. */
  function WaitRead(svc: Service, s: State, h: string, stored: Binding): Outcome<Binding> {
    RefreshAndSync(svc, EnsureUsable(svc, s, stored).state, h)
  }

  function Waiting(svc: Service, read: State, h: string, b: Binding, idleMs: nat, timeoutMs: nat): Outcome<()> {
    var busy := b.(status := Busy);
    AwaitIdle(svc, SetBinding(read, h, busy), h, busy, idleMs, timeoutMs)
  }

  lemma WaitSyncedMarks(svc: Service, s: State, h: string, idleMs: nat, timeoutMs: nat)
    requires Known(s, h)
    ensures var r := WaitSynced(svc, s, h, idleMs, timeoutMs);
            var read := RefreshAndSync(svc, s, h);
            && (r.result.Ok? ==> StoredAs(r.state, h, Ready))
            && (TimedOut(r.result) ==>
                  if read.result.Err? then r.state.bindings == s.bindings
                  else StoredAs(r.state, h,
                                if TimedOut(Waiting(svc, read.state, h, read.result.value, idleMs, timeoutMs).result)
                                then Busy else Ready))
  {
    SyncKeeps(svc, s, h);
    RefreshKeeps(svc, s, h);
    var read := RefreshAndSync(svc, s, h);
    if read.result.Err? {
      FailedRefreshKeeps(svc, s, h);
    } else if IsActive(read.result.value) {
      var busy := read.result.value.(status := Busy);
      LookupPut(read.state.bindings, h, busy, h);
      WaitActiveMarks(svc, SetBinding(read.state, h, busy), h, busy, idleMs, timeoutMs);
    }
  }

  /** A wait that succeeds leaves the handle ready. One that ends with WAIT_TIMEOUT leaves it busy
      exactly when the waiting itself ran out of time, or when reading the handle did and the handle
      was stored busy before; when only the capture that ends the wait timed out, it is ready. */
  lemma WaitMarksTruly(svc: Service, s: State, h: string, stored: Binding, idleMs: nat, timeoutMs: nat)
    requires Lookup(s.bindings, h) == Some(stored)
    ensures var r := Wait(svc, s, h, idleMs, timeoutMs);
            var read := WaitRead(svc, s, h, stored);
            && (r.result.Ok? ==> StoredAs(r.state, h, Ready))
            && (TimedOut(r.result) ==>
                  (StoredAs(r.state, h, Busy)
                   <==> if read.result.Err? then stored.status.Busy?
                        else TimedOut(Waiting(svc, read.state, h, read.result.value, idleMs, timeoutMs).result)))
            && (TimedOut(r.result) && read.result.Ok? && !StoredAs(r.state, h, Busy) ==> StoredAs(r.state, h, Ready))
  {
    var usable := EnsureUsable(svc, s, stored);
    if usable.result.Ok? { WaitSyncedMarks(svc, usable.state, h, idleMs, timeoutMs); }
  }

  lemma InTimeReads(svc: Service, s: State, h: string)
    requires AnswersInTime(svc.backend) && Known(s, h)
    ensures !TimedOut(RefreshAndSync(svc, s, h).result)
  {
    InTimeNeverTimesOut(svc, s);
    RefreshTimesOut(svc, s, h);
    InTimeNeverTimesOut(svc, Refresh(svc, s, h).state);
    RefreshKeeps(svc, s, h);
  }

  lemma InTimeCaptures(svc: Service, s: State, h: string, b: Binding)
    requires AnswersInTime(svc.backend)
    ensures !TimedOut(WaitSnapshot(svc, s, h, b).result)
  {
    RetryTimesOut(svc, s, h, b, CaptureFailed, CaptureFull);
    InTimeNeverTimesOut(svc, Retry(svc, s, h, b, CaptureFailed, CaptureFull).state);
  }

  /** So over a backend that reports no timeouts of its own, a wait that ends with WAIT_TIMEOUT
      always leaves the handle busy. */
  lemma TimedOutWaitIsBusy(svc: Service, s: State, h: string, idleMs: nat, timeoutMs: nat)
    requires AnswersInTime(svc.backend) && Known(s, h) && TimedOut(Wait(svc, s, h, idleMs, timeoutMs).result)
    ensures StoredAs(Wait(svc, s, h, idleMs, timeoutMs).state, h, Busy)
  {
    var stored := Lookup(s.bindings, h).value;
    WaitMarksTruly(svc, s, h, stored, idleMs, timeoutMs);
    var usable := EnsureUsable(svc, s, stored);
    InTimeReads(svc, usable.state, h);
    var read := WaitRead(svc, s, h, stored);
    var waited := Waiting(svc, read.state, h, read.result.value, idleMs, timeoutMs);
    InTimeCaptures(svc, MarkWaited(waited.state, h, waited.result), h, read.result.value.(status := Busy));
  }

  // ---------------------------------------------------------------- capture

  /** The pane the store names for a handle. */
  function StoredPane(s: State, h: string): Option<string> {
    match Lookup(s.bindings, h)
    case Some(b) => b.paneId
    case None => None
  }

  lemma CapturedKeepsRead(svc: Service, s: State, req: CaptureRequest, extent: Extent, b: Binding)
    requires Lookup(s.bindings, req.handle) == Some(b) && CaptureActive(svc, s, req, extent, b).result.Ok?
    ensures StoredPane(CaptureActive(svc, s, req, extent, b).state, req.handle) == b.paneId
  {
    var captured := Retry(svc, s, req.handle, b, CaptureFailed, CaptureFull);
    LookupPut(s.bindings, req.handle, CapturedBinding(b, captured.result.value), req.handle);
  }

  /** A capture that succeeds stores the pane it had read before its retries. It loses what they
      stored exactly when the handle named no pane then and the retries found one: as attached bindings
      name a pane, for a spawn whose pane was not known yet, and for no other handle. */
  lemma CaptureForgetsExactly(svc: Service, s: State, req: CaptureRequest, extent: Extent, b: Binding)
    requires Lookup(s.bindings, req.handle) == Some(b) && IsActive(b) && PaneOk(b)
    requires CaptureActive(svc, s, req, extent, b).result.Ok?
    ensures var h := req.handle;
            var kept := StoredPane(CaptureActive(svc, s, req, extent, b).state, h);
            var found := StoredPane(Retry(svc, s, h, b, CaptureFailed, CaptureFull).state, h);
            && kept == b.paneId
            && (kept != found <==> b.paneId.None? && found.Some?)
            && (kept != found && AttachedNames(b) ==> IsUnresolved(b))
  {
    RetryKeeps(svc, s, req.handle, b, CaptureFailed, CaptureFull);
    CapturedKeepsRead(svc, s, req, extent, b);
  }

  // ---------------------------------------------------------------- close

  /** The last call was a listing of the session that shows nothing of the binding's pane. */
  ghost predicate SeenGone(svc: Service, s: State, b: Binding) {
    var n := |s.log| - 1;
    && n >= 0
    && s.log[n] == ListTargets(b.session)
    && svc.backend.panes(n, b.session).Ok?
    && !AnyMatches(b, PanesToTargets(svc.backend.panes(n, b.session).value, b.session))
  }

  lemma {:induction false} VerifySeesGone(svc: Service, s: State, b: Binding, deadline: nat)
    requires VerifyClosed(svc, s, b, deadline).result.Ok?
    ensures SeenGone(svc, VerifyClosed(svc, s, b, deadline).state, b)
    decreases Remaining(s.time, deadline)
  {
    var listed := ListMapped(svc, s, b.session, CloseFailed);
    if AnyMatches(b, listed.result.value) {
      VerifySeesGone(svc, Sleep(listed.state, 50), b, deadline);
    }
  }

  lemma ExitSeesGone(svc: Service, s: State, b: Binding)
    requires ExitShell(svc, s, b).result.Ok?
    ensures SeenGone(svc, ExitShell(svc, s, b).state, b)
  {
    var sent := Do(svc, s, SendInput("exit", true), b);
    VerifySeesGone(svc, sent.state, b, Deadline(sent.state, CloseBudget(svc)));
  }

  lemma CloseVerifiedSeesGone(svc: Service, s: State, h: string, b: Binding, force: bool)
    requires CloseAndVerify(svc, s, h, b, force).result.Ok?
    ensures SeenGone(svc, CloseAndVerify(svc, s, h, b, force).state, b)
  {
    var closed := Retry(svc, s, h, b, CloseFailed, ClosePane(force));
    VerifySeesGone(svc, closed.state, b, Deadline(closed.state, CloseBudget(svc)));
  }

  lemma CloseActiveSeesGone(svc: Service, s: State, h: string, b: Binding, force: bool)
    requires CloseActive(svc, s, h, b, force).result.Ok?
    ensures SeenGone(svc, CloseActive(svc, s, h, b, force).state, b)
  {
    var tried := CloseAndVerify(svc, s, h, b, force);
    if tried.result.Ok? { CloseVerifiedSeesGone(svc, s, h, b, force); } else { ExitSeesGone(svc, tried.state, b); }
  }

  lemma ClosedIsWritten(svc: Service, s: State, later: State, h: string, b: Binding)
    requires Lookup(s.bindings, h) == Some(b) && SeenGone(svc, later, b)
    ensures var t := later.(bindings := Put(s.bindings, h, b.(status := Closed, updatedAt := later.time)),
                            observations := Without(later.observations, h));
            && Known(t, h) && Lookup(t.bindings, h).value.status.Closed?
            && Lookup(t.observations, h).None? && SeenGone(svc, t, b)
  {
    LookupPut(s.bindings, h, b.(status := Closed, updatedAt := later.time), h);
    LookupWithout(later.observations, h, h);
  }

  lemma CloseSyncedIsTrue(svc: Service, s: State, h: string, force: bool)
    requires CloseSynced(svc, s, h, force).result.Ok?
    ensures var t := CloseSynced(svc, s, h, force).state;
            var b := RefreshAndSync(svc, s, h).result.value;
            && Known(t, h) && Lookup(t.bindings, h).value.status.Closed?
            && (!b.status.Closed? ==> Lookup(t.observations, h).None? && SeenGone(svc, t, b))
  {
    SyncKeeps(svc, s, h);
    var synced := RefreshAndSync(svc, s, h);
    var b := synced.result.value;
    if !b.status.Closed? {
      CloseActiveSeesGone(svc, synced.state, h, b, force);
      ClosedIsWritten(svc, synced.state, CloseActive(svc, synced.state, h, b, force).state, h, b);
    }
  }

  /** A close that succeeds leaves the handle closed; unless it was closed already, its observation
      is gone, and the last thing the backend was asked was a listing without the pane. */
  lemma CloseIsTrue(svc: Service, s: State, h: string, force: bool)
    requires Close(svc, s, h, force).result.Ok?
    ensures var t := Close(svc, s, h, force).state;
            var b := RefreshAndSync(svc, EnsureAvailable(svc, s).state, h).result.value;
            && Known(t, h) && Lookup(t.bindings, h).value.status.Closed?
            && (!b.status.Closed? ==> Lookup(t.observations, h).None? && SeenGone(svc, t, b))
  {
    CloseSyncedIsTrue(svc, EnsureAvailable(svc, s).state, h, force);
  }
}
