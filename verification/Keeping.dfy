/** What an operation on one handle keeps: every other row, the origin of its own binding, the pane
    it names, and a closed status. */
module Keeping {
  import opened Entities
  import opened Lifecycle
  import opened Rows
  import opened Targets
  import opened Text

  // ---------------------------------------------------------------- the relations

  ghost predicate Known(s: State, h: string) { Lookup(s.bindings, h).Some? }

  /** The calls made and the names minted so far are never taken back. */
  ghost predicate Later(s: State, t: State) { s.log <= t.log && s.time <= t.time && s.minted <= t.minted }

  /** Time and calls only: the stores stand still. */
  ghost predicate Quiet(s: State, t: State) {
    Later(s, t) && t.bindings == s.bindings && t.observations == s.observations
  }

  /** A binding with a pane id names that pane, and no other, in its selector. */
  ghost predicate PaneOk(b: Binding) {
    b.paneId.Some? ==> b.selector == "id:" + b.paneId.value && EndsTight(b.paneId.value)
  }

  ghost predicate SameOrigin(b: Binding, c: Binding) {
    && c.targetId == b.targetId
    && c.alias == b.alias
    && c.session == b.session
    && c.cwd == b.cwd
    && c.launchCommand == b.launchCommand
    && c.source == b.source
    && c.createdAt == b.createdAt
  }

  /** An attached binding names the pane it was attached to. */
  ghost predicate AttachedNames(b: Binding) { b.source.Attached? ==> b.paneId.Some? }

  ghost predicate SamePane(b: Binding, c: Binding) {
    b.paneId.Some? ==> c.paneId == b.paneId && c.selector == b.selector
  }

  /** What may become of a binding: its origin stays, a pane id once known stays, and one found
      later names its pane. */
  ghost predicate Evolves(b: Binding, c: Binding) {
    SameOrigin(b, c) && (b.paneId.Some? ==> c.paneId.Some?) && (PaneOk(b) ==> PaneOk(c) && SamePane(b, c))
  }

  ghost predicate EvolvesAt(b: Option<Binding>, c: Option<Binding>) {
    match b
    case None => c.None?
    case Some(x) => c.Some? && Evolves(x, c.value)
  }

  ghost predicate ClosedStays(b: Option<Binding>, c: Option<Binding>) {
    b.Some? && b.value.status.Closed? ==> c == b
  }

  ghost predicate OpenStays(b: Option<Binding>, c: Option<Binding>) {
    b.Some? && c.Some? && !b.value.status.Closed? ==> !c.value.status.Closed?
  }

  ghost predicate BindingsKept(h: string, a: seq<Row<Binding>>, b: seq<Row<Binding>>) {
    Keys(b) == Keys(a) && Without(b, h) == Without(a, h) && EvolvesAt(Lookup(a, h), Lookup(b, h))
  }

  ghost predicate ObservationsKept(h: string, a: seq<Row<Observation>>, b: seq<Row<Observation>>) {
    Without(b, h) == Without(a, h) && (Distinct(Keys(a)) ==> Distinct(Keys(b)))
  }

  /** What every operation on a handle keeps. */
  ghost predicate Moved(h: string, s: State, t: State) {
    && Later(s, t)
    && BindingsKept(h, s.bindings, t.bindings)
    && ObservationsKept(h, s.observations, t.observations)
    && (!Known(s, h) ==> t.observations == s.observations)
  }

  /** And what all but a line-clearing send and a close keep: a closed binding is not touched,
      and none becomes closed. */
  ghost predicate Kept(h: string, s: State, t: State) {
    && Moved(h, s, t)
    && ClosedStays(Lookup(s.bindings, h), Lookup(t.bindings, h))
    && OpenStays(Lookup(s.bindings, h), Lookup(t.bindings, h))
  }

  // ---------------------------------------------------------------- their laws

  lemma LaterTrans(s: State, t: State, u: State)
    requires Later(s, t) && Later(t, u)
    ensures Later(s, u)
  {
  }

  lemma EvolvesTrans(b: Option<Binding>, c: Option<Binding>, d: Option<Binding>)
    requires EvolvesAt(b, c) && EvolvesAt(c, d)
    ensures EvolvesAt(b, d)
  {
  }

  lemma KnownByKeys(h: string, a: seq<Row<Binding>>, b: seq<Row<Binding>>)
    requires Keys(a) == Keys(b)
    ensures Lookup(a, h).Some? == Lookup(b, h).Some?
  {
    KnownIsKey(a, h);
    KnownIsKey(b, h);
  }

  lemma MovedTrans(h: string, s: State, t: State, u: State)
    requires Moved(h, s, t) && Moved(h, t, u)
    ensures Moved(h, s, u)
  {
    LaterTrans(s, t, u);
    EvolvesTrans(Lookup(s.bindings, h), Lookup(t.bindings, h), Lookup(u.bindings, h));
  }

  lemma KeptTrans(h: string, s: State, t: State, u: State)
    requires Kept(h, s, t) && Kept(h, t, u)
    ensures Kept(h, s, u)
  {
    MovedTrans(h, s, t, u);
  }

  lemma QuietIsKept(h: string, s: State, t: State)
    requires Quiet(s, t)
    ensures Kept(h, s, t)
  {
  }

  lemma QuietTrans(s: State, t: State, u: State)
    requires Quiet(s, t) && Quiet(t, u)
    ensures Quiet(s, u)
  {
  }

  lemma KeptThenQuiet(h: string, s: State, t: State, u: State)
    requires Kept(h, s, t) && Quiet(t, u)
    ensures Kept(h, s, u)
  {
    QuietIsKept(h, t, u);
    KeptTrans(h, s, t, u);
  }

  lemma QuietThenKept(h: string, s: State, t: State, u: State)
    requires Quiet(s, t) && Kept(h, t, u)
    ensures Kept(h, s, u)
  {
    QuietIsKept(h, s, t);
    KeptTrans(h, s, t, u);
  }

  /** An operation on one handle leaves the rows of every other as they were. */
  lemma OthersUntouched(h: string, s: State, t: State, k: string)
    requires Moved(h, s, t) && k != h
    ensures Lookup(t.bindings, k) == Lookup(s.bindings, k)
    ensures Lookup(t.observations, k) == Lookup(s.observations, k)
  {
    LookupWithout(s.bindings, h, k);
    LookupWithout(t.bindings, h, k);
    LookupWithout(s.observations, h, k);
    LookupWithout(t.observations, h, k);
  }

  // ---------------------------------------------------------------- single writes

  lemma PutIsKept(h: string, rows: seq<Row<Binding>>, b: Binding, c: Binding)
    requires Lookup(rows, h) == Some(b) && Evolves(b, c)
    ensures BindingsKept(h, rows, Put(rows, h, c)) && Lookup(Put(rows, h, c), h) == Some(c)
  {
    KeysPut(rows, h, c);
    WithoutPut(rows, h, c);
    LookupPut(rows, h, c, h);
  }

  lemma SetBindingIsMoved(s: State, h: string, b: Binding, c: Binding)
    requires Lookup(s.bindings, h) == Some(b) && Evolves(b, c)
    ensures Moved(h, s, SetBinding(s, h, c))
    ensures Lookup(SetBinding(s, h, c).bindings, h) == Some(c)
  {
    PutIsKept(h, s.bindings, b, c);
  }

  lemma SetBindingIsKept(s: State, h: string, b: Binding, c: Binding)
    requires Lookup(s.bindings, h) == Some(b) && Evolves(b, c) && !b.status.Closed? && !c.status.Closed?
    ensures Kept(h, s, SetBinding(s, h, c))
    ensures Lookup(SetBinding(s, h, c).bindings, h) == Some(c)
  {
    SetBindingIsMoved(s, h, b, c);
  }

  lemma SlotIsKept(h: string, rows: seq<Row<Observation>>)
    ensures ObservationsKept(h, rows, WithSlot(rows, h, BLANK))
    ensures Lookup(WithSlot(rows, h, BLANK), h).Some?
  {
    if Lookup(rows, h).None? {
      WithoutPush(rows, h, BLANK);
      KeysPush(rows, h, BLANK);
      LookupPush(rows, h, BLANK, h);
      KnownIsKey(rows, h);
      if Distinct(Keys(rows)) { DistinctPush(Keys(rows), h); }
    }
  }

  lemma SlotPutIsKept(h: string, rows: seq<Row<Observation>>, o: Observation)
    ensures ObservationsKept(h, rows, Put(WithSlot(rows, h, BLANK), h, o))
    ensures Lookup(Put(WithSlot(rows, h, BLANK), h, o), h) == Some(o)
  {
    SlotIsKept(h, rows);
    var slotted := WithSlot(rows, h, BLANK);
    WithoutPut(slotted, h, o);
    KeysPut(slotted, h, o);
    LookupPut(slotted, h, o, h);
  }

  lemma BindingsKeptRefl(h: string, rows: seq<Row<Binding>>)
    ensures BindingsKept(h, rows, rows)
  {
  }

  lemma SetObservationIsKept(s: State, h: string, o: Observation)
    requires Known(s, h)
    ensures Kept(h, s, SetObservation(s, h, o))
    ensures ObservationOf(SetObservation(s, h, o), h) == o
  {
    BindingsKeptRefl(h, s.bindings);
    SlotPutIsKept(h, s.observations, o);
  }

  // ---------------------------------------------------------------- revalidation

  /** A pane found for a binding: in canonical form, and the binding's own pane if it has one. */
  ghost predicate Fits(b: Binding, t: Target) {
    Canonical(t) && (PaneOk(b) && b.paneId.Some? ==> t.paneId == b.paneId && t.selector == b.selector)
  }

  ghost predicate AsksFor(b: Binding, q: Query) {
    PaneOk(b) && b.paneId.Some? ==> q.selector == b.selector
  }

  lemma FitIsEvolution(b: Binding, t: Target, now: nat)
    requires Fits(b, t)
    ensures Evolves(b, Located(b, t, now))
  {
  }

  lemma ResolvedFits(svc: Service, s: State, b: Binding, q: Query)
    requires AsksFor(b, q)
    ensures Quiet(s, Resolve(svc, s, q).state)
    ensures Resolve(svc, s, q).result.Ok? ==> Fits(b, Resolve(svc, s, q).result.value)
  {
    var r := Resolve(svc, s, q).result;
    if r.Ok? && PaneOk(b) && b.paneId.Some? {
      IdSelectorIsTight(b.paneId.value);
      IdSelectorIsExact(b.paneId.value, r.value);
    }
  }

  ghost predicate AllAskFor(b: Binding, queries: seq<Query>) {
    queries == [] || (AsksFor(b, queries[0]) && AllAskFor(b, queries[1..]))
  }

  ghost predicate FoundFits(b: Binding, r: Result<Option<Target>, AdapterError>) {
    r.Ok? && r.value.Some? ==> Fits(b, r.value.value)
  }

  lemma {:induction false} ResolveAnyFits(svc: Service, s: State, b: Binding, queries: seq<Query>)
    requires AllAskFor(b, queries)
    ensures Quiet(s, ResolveAny(svc, s, queries).state)
    ensures FoundFits(b, ResolveAny(svc, s, queries).result)
    decreases |queries|
  {
    if queries != [] {
      ResolvedFits(svc, s, b, queries[0]);
      var first := Resolve(svc, s, queries[0]);
      if first.result.Err? && IsMissing(first.result.error) {
        ResolveAnyFits(svc, first.state, b, queries[1..]);
        QuietTrans(s, first.state, ResolveAny(svc, s, queries).state);
      }
    }
  }

  lemma QueriesAskFor(b: Binding)
    ensures AllAskFor(b, Queries(b))
  {
    var own := Query(b.session, b.tabName, b.selector);
    if b.paneId.Some? {
      var byPane := Query(b.session, None, "id:" + b.paneId.value);
      if byPane.selector == b.selector {
        assert [byPane][1..] == [];
      } else {
        assert [byPane, own][1..] == [own];
        assert [own][1..] == [];
      }
    } else {
      assert Queries(b) == [own] && [own][1..] == [];
    }
  }

  lemma {:induction false} AttemptsFit(svc: Service, s: State, b: Binding, queries: seq<Query>, attempt: nat)
    requires AllAskFor(b, queries)
    ensures Quiet(s, ResolveAttempts(svc, s, queries, attempt).state)
    ensures FoundFits(b, ResolveAttempts(svc, s, queries, attempt).result)
    decreases 3 - attempt
  {
    if attempt < 3 {
      ResolveAnyFits(svc, s, b, queries);
      var round := ResolveAny(svc, s, queries);
      if round.result == Ok(None) {
        var next := if attempt < 2 then Sleep(round.state, 150) else round.state;
        AttemptsFit(svc, next, b, queries, attempt + 1);
        QuietTrans(s, round.state, next);
        QuietTrans(s, next, ResolveAttempts(svc, s, queries, attempt).state);
      }
    }
  }

  lemma ListedAreCanonical(svc: Service, s: State, session: string, code: ErrorCode)
    ensures var r := ListMapped(svc, s, session, code);
            Quiet(s, r.state) && (r.result.Ok? ==> forall t :: t in r.result.value ==> Canonical(t))
  {
  }

  /** What is returned is what is stored. */
  ghost predicate Stored(h: string, r: Outcome<Binding>) {
    r.result.Ok? ==> Lookup(r.state.bindings, h) == Some(r.result.value)
  }

  ghost predicate FoundIsStored(h: string, r: Outcome<Option<Binding>>) {
    r.result.Ok? && r.result.value.Some? ==> Lookup(r.state.bindings, h) == r.result.value
  }

  lemma ReconciledEvolves(svc: Service, s: State, h: string, b: Binding, t: Target)
    requires Lookup(s.bindings, h) == Some(b) && !(b.paneId.Some? && b.selector != "")
    requires var r := ListMapped(svc, s, b.session, SpawnFailed);
             r.result.Ok? && ResolveSpawnCandidate(Hints(b, ObservationOf(s, h)), r.result.value) == Some(t)
    ensures Evolves(b, Located(b, t, ListMapped(svc, s, b.session, SpawnFailed).state.time))
  {
    ListedAreCanonical(svc, s, b.session, SpawnFailed);
    assert PaneOk(b) ==> b.paneId.None?;
  }

  lemma {:induction false} ReconcileKeeps(svc: Service, s: State, h: string, b: Binding, deadline: nat)
    requires Lookup(s.bindings, h) == Some(b) && !b.status.Closed?
    ensures Kept(h, s, Reconcile(svc, s, h, deadline).state)
    ensures Reconcile(svc, s, h, deadline).state.observations == s.observations
    ensures FoundIsStored(h, Reconcile(svc, s, h, deadline))
    ensures Reconcile(svc, s, h, deadline).result == Ok(None)
            ==> Reconcile(svc, s, h, deadline).state.bindings == s.bindings
    decreases Remaining(s.time, deadline)
  {
    if b.paneId.Some? && b.selector != "" {
    } else {
      ListedAreCanonical(svc, s, b.session, SpawnFailed);
      var listed := ListMapped(svc, s, b.session, SpawnFailed);
      QuietIsKept(h, s, listed.state);
      if listed.result.Ok? {
        match ResolveSpawnCandidate(Hints(b, ObservationOf(s, h)), listed.result.value)
        case Some(t) =>
          ReconciledEvolves(svc, s, h, b, t);
          SetBindingIsKept(listed.state, h, b, Located(b, t, listed.state.time));
          QuietThenKept(h, s, listed.state, Reconcile(svc, s, h, deadline).state);
        case None =>
          if listed.state.time < deadline {
            var next := Sleep(listed.state, 150);
            ReconcileKeeps(svc, next, h, b, deadline);
            QuietTrans(s, listed.state, next);
            QuietThenKept(h, s, next, Reconcile(svc, s, h, deadline).state);
          }
      }
    }
  }

  lemma RevalidatedEvolves(b: Binding, found: Option<Target>, now: nat)
    requires FoundFits(b, Ok(found))
    ensures Evolves(b, Revalidated(b, found, now))
  {
    if found.Some? { FitIsEvolution(b, found.value, now); }
  }

  lemma RequeryKeeps(svc: Service, s: State, h: string, b: Binding)
    requires Lookup(s.bindings, h) == Some(b) && !b.status.Closed?
    ensures Kept(h, s, Requery(svc, s, h, b).state) && Stored(h, Requery(svc, s, h, b))
    ensures Requery(svc, s, h, b).state.observations == s.observations
  {
    var ready := EnsureReady(svc, s, b.session, AttachFailed);
    QuietIsKept(h, s, ready.state);
    if ready.result.Ok? {
      QueriesAskFor(b);
      AttemptsFit(svc, ready.state, b, Queries(b), 0);
      var tried := ResolveAttempts(svc, ready.state, Queries(b), 0);
      QuietTrans(s, ready.state, tried.state);
      QuietIsKept(h, s, tried.state);
      if tried.result.Ok? {
        RevalidatedEvolves(b, tried.result.value, tried.state.time);
        SetBindingIsKept(tried.state, h, b, Revalidated(b, tried.result.value, tried.state.time));
        KeptTrans(h, s, tried.state, Requery(svc, s, h, b).state);
      }
    }
  }

  /** Revalidating a handle keeps everything `Kept` says, its pane above all, and returns the
      binding that is stored. */
  lemma RefreshKeeps(svc: Service, s: State, h: string)
    ensures Kept(h, s, Refresh(svc, s, h).state)
    ensures Stored(h, Refresh(svc, s, h))
    ensures Refresh(svc, s, h).state.observations == s.observations
  {
    if Known(s, h) {
      var b := Lookup(s.bindings, h).value;
      if !b.status.Closed? {
        if IsUnresolved(b) {
          ReconcileKeeps(svc, s, h, b, Deadline(s, 500));
        } else {
          RequeryKeeps(svc, s, h, b);
        }
      }
    }
  }

  lemma MarkStaleKeeps(s: State, h: string, b: Binding)
    requires Lookup(s.bindings, h) == Some(b)
    ensures Moved(h, s, MarkStale(s, h))
    ensures !b.status.Closed? ==> Kept(h, s, MarkStale(s, h))
    ensures Lookup(MarkStale(s, h).bindings, h) == Some(b.(status := Stale, updatedAt := s.time))
  {
    SetBindingIsMoved(s, h, b, b.(status := Stale, updatedAt := s.time));
  }

  // ---------------------------------------------------------------- retries and waits

  lemma DoIsQuiet(svc: Service, s: State, action: Action, b: Binding)
    ensures Quiet(s, Do(svc, s, action, b).state)
  {
  }

  lemma {:induction false} RetryFromKeeps(svc: Service, s: State, h: string, b: Binding, code: ErrorCode,
                                          action: Action, attempt: nat)
    requires attempt < 3
    ensures Kept(h, s, RetryFrom(svc, s, h, b, code, action, attempt).state)
    decreases 3 - attempt
  {
    var end := RetryFrom(svc, s, h, b, code, action, attempt).state;
    var done := Do(svc, s, action, b);
    DoIsQuiet(svc, s, action, b);
    QuietIsKept(h, s, done.state);
    if done.result.Err? && IsMissing(done.result.error) {
      RefreshKeeps(svc, done.state, h);
      var again := Refresh(svc, done.state, h);
      QuietThenKept(h, s, done.state, again.state);
      if again.result.Ok? && IsActive(again.result.value) {
        if attempt < 2 {
          var next := Sleep(again.state, 150);
          RetryFromKeeps(svc, next, h, again.result.value, code, action, attempt + 1);
          QuietThenKept(h, again.state, next, end);
        } else {
          MarkStaleKeeps(again.state, h, again.result.value);
        }
        KeptTrans(h, s, again.state, end);
      }
    }
  }

  lemma RetryKeeps(svc: Service, s: State, h: string, b: Binding, code: ErrorCode, action: Action)
    ensures Kept(h, s, Retry(svc, s, h, b, code, action).state)
  {
    if SkipsAvailability(svc, b) {
      RetryFromKeeps(svc, s, h, b, code, action, 0);
    } else {
      var ready := EnsureReady(svc, s, b.session, code);
      QuietIsKept(h, s, ready.state);
      if ready.result.Ok? {
        RetryFromKeeps(svc, ready.state, h, b, code, action, 0);
        KeptTrans(h, s, ready.state, Retry(svc, s, h, b, code, action).state);
      }
    }
  }

  lemma {:induction false} PollKeeps(svc: Service, s: State, h: string, b: Binding, idleMs: nat, deadline: nat,
                                     samples: seq<Sample>)
    ensures Kept(h, s, Poll(svc, s, h, b, idleMs, deadline, samples).state)
    decreases Remaining(s.time, deadline)
  {
    var end := Poll(svc, s, h, b, idleMs, deadline, samples).state;
    if s.time < deadline {
      RetryKeeps(svc, s, h, b, CaptureFailed, CaptureFull);
      var captured := Retry(svc, s, h, b, CaptureFailed, CaptureFull);
      if captured.result.Ok? {
        var seen := samples + [Sample(svc.env.hash(captured.result.value.content), captured.state.time)];
        if !IsQuiet(seen, captured.state.time, idleMs) {
          var next := Sleep(captured.state, PollInterval(idleMs));
          PollKeeps(svc, next, h, b, idleMs, deadline, seen);
          KeptThenQuiet(h, s, captured.state, next);
          KeptTrans(h, s, next, end);
        }
      }
    }
  }

  lemma AwaitIdleKeeps(svc: Service, s: State, h: string, b: Binding, idleMs: nat, timeoutMs: nat)
    ensures Kept(h, s, AwaitIdle(svc, s, h, b, idleMs, timeoutMs).state)
  {
    RetryKeeps(svc, s, h, b, WaitFailed, WaitIdle(idleMs, timeoutMs));
    var first := Retry(svc, s, h, b, WaitFailed, WaitIdle(idleMs, timeoutMs));
    if first.result == Err(TargetStale) {
      var deadline := Deadline(first.state, timeoutMs);
      var polled := Poll(svc, first.state, h, b, idleMs, deadline, []);
      PollKeeps(svc, first.state, h, b, idleMs, deadline, []);
      KeptTrans(h, s, first.state, polled.state);
    }
  }
}
