/** How often an operation calls the backend, and what polling for an idle pane has seen. */
module Bounds {
  import opened Entities
  import opened Lifecycle
  import opened Rows
  import opened Targets
  import opened Text

  // ---------------------------------------------------------------- counting calls

  datatype Kind = Operations | Resolutions

  predicate IsOf(kind: Kind, c: Call) { if kind.Operations? then c.Perform? else c.ResolveSelector? }

  function Count(kind: Kind, log: seq<Call>): nat {
    if log == [] then 0
    else Count(kind, log[..|log| - 1]) + if IsOf(kind, log[|log| - 1]) then 1 else 0
  }

  lemma CountPush(kind: Kind, log: seq<Call>, c: Call)
    ensures Count(kind, log + [c]) == Count(kind, log) + if IsOf(kind, c) then 1 else 0
  {
    assert (log + [c])[..|log|] == log;
  }

  /** How many calls of a kind were made from one state to a later one. */
  function Made(kind: Kind, s: State, t: State): int { Count(kind, t.log) - Count(kind, s.log) }

  ghost predicate AtMost(s: State, t: State, operations: nat, resolutions: nat) {
    Made(Operations, s, t) <= operations && Made(Resolutions, s, t) <= resolutions
  }

  lemma TickCounts(env: Env, s: State, c: Call)
    ensures AtMost(s, Tick(env, s, c), if c.Perform? then 1 else 0, if c.ResolveSelector? then 1 else 0)
  {
    CountPush(Operations, s.log, c);
    CountPush(Resolutions, s.log, c);
  }

  lemma {:induction false} ResolveAnyCounts(svc: Service, s: State, queries: seq<Query>)
    ensures AtMost(s, ResolveAny(svc, s, queries).state, 0, |queries|)
    decreases |queries|
  {
    if queries != [] {
      TickCounts(svc.env, s, ResolveSelector(queries[0].session, queries[0].selector));
      var first := Resolve(svc, s, queries[0]);
      if first.result.Err? && IsMissing(first.result.error) {
        ResolveAnyCounts(svc, first.state, queries[1..]);
      }
    }
  }

  lemma {:induction false} AttemptsCount(svc: Service, s: State, queries: seq<Query>, attempt: nat)
    requires |queries| <= 2 && attempt <= 3
    ensures AtMost(s, ResolveAttempts(svc, s, queries, attempt).state, 0, 2 * (3 - attempt))
    decreases 3 - attempt
  {
    if attempt < 3 {
      ResolveAnyCounts(svc, s, queries);
      var round := ResolveAny(svc, s, queries);
      if round.result == Ok(None) {
        AttemptsCount(svc, if attempt < 2 then Sleep(round.state, 150) else round.state, queries, attempt + 1);
      }
    }
  }

  lemma {:induction false} ReconcileCounts(svc: Service, s: State, h: string, deadline: nat)
    ensures AtMost(s, Reconcile(svc, s, h, deadline).state, 0, 0)
    decreases Remaining(s.time, deadline)
  {
    if Lookup(s.bindings, h).Some? {
      var b := Lookup(s.bindings, h).value;
      TickCounts(svc.env, s, ListTargets(b.session));
      var listed := ListMapped(svc, s, b.session, SpawnFailed);
      if !(b.paneId.Some? && b.selector != "") && listed.result.Ok? && listed.state.time < deadline
         && ResolveSpawnCandidate(Hints(b, ObservationOf(s, h)), listed.result.value).None?
      {
        ReconcileCounts(svc, Sleep(listed.state, 150), h, deadline);
      }
    }
  }

  lemma RequeryCounts(svc: Service, s: State, h: string, b: Binding)
    ensures AtMost(s, Requery(svc, s, h, b).state, 0, 6)
  {
    TickCounts(svc.env, s, SessionReady(b.session));
    var ready := EnsureReady(svc, s, b.session, AttachFailed);
    if ready.result.Ok? { AttemptsCount(svc, ready.state, Queries(b), 0); }
  }

  /** A revalidation resolves a selector at most six times and operates on no pane. */
  lemma RefreshCounts(svc: Service, s: State, h: string)
    ensures AtMost(s, Refresh(svc, s, h).state, 0, 6)
  {
    if Lookup(s.bindings, h).Some? {
      var b := Lookup(s.bindings, h).value;
      if IsUnresolved(b) { ReconcileCounts(svc, s, h, Deadline(s, 500)); } else { RequeryCounts(svc, s, h, b); }
    }
  }

  lemma {:induction false} RetryFromCounts(svc: Service, s: State, h: string, b: Binding, code: ErrorCode,
                                           action: Action, attempt: nat)
    requires attempt < 3
    ensures AtMost(s, RetryFrom(svc, s, h, b, code, action, attempt).state, 3 - attempt, 6 * (3 - attempt))
    decreases 3 - attempt
  {
    TickCounts(svc.env, s, Perform(action, b.session, b.selector));
    var done := Do(svc, s, action, b);
    if done.result.Err? && IsMissing(done.result.error) {
      RefreshCounts(svc, done.state, h);
      var again := Refresh(svc, done.state, h);
      if again.result.Ok? && IsActive(again.result.value) && attempt < 2 {
        RetryFromCounts(svc, Sleep(again.state, 150), h, again.result.value, code, action, attempt + 1);
      }
    }
  }

  /** The retry loop makes at most three operation calls and eighteen selector resolutions. */
  lemma RetryIsBounded(svc: Service, s: State, h: string, b: Binding, code: ErrorCode, action: Action)
    ensures AtMost(s, Retry(svc, s, h, b, code, action).state, 3, 18)
  {
    if SkipsAvailability(svc, b) {
      RetryFromCounts(svc, s, h, b, code, action, 0);
    } else {
      TickCounts(svc.env, s, SessionReady(b.session));
      var ready := EnsureReady(svc, s, b.session, code);
      if ready.result.Ok? { RetryFromCounts(svc, ready.state, h, b, code, action, 0); }
    }
  }

  // ---------------------------------------------------------------- rounds of polling

  /** The rounds of at least 50 ms that fit before the deadline, the last one begun included. */
  function Rounds(now: nat, deadline: nat): nat { (Remaining(now, deadline) + 49) / 50 }

  lemma RoundsIsCeiling(now: nat, deadline: nat)
    ensures 50 * (Rounds(now, deadline) - 1) < Remaining(now, deadline) <= 50 * Rounds(now, deadline)
  {
  }

  lemma RoundsShrink(now: nat, later: nat, deadline: nat)
    requires now < deadline && later >= now + 50
    ensures Rounds(later, deadline) + 1 <= Rounds(now, deadline)
  {
  }

  lemma RoundsRemain(now: nat, deadline: nat)
    requires now < deadline
    ensures Rounds(now, deadline) >= 1
  {
  }

  lemma IntervalIsLong(idleMs: nat)
    ensures 50 <= PollInterval(idleMs) <= 250
  {
  }

  /** How often `Poll` goes round its loop, the round that fails or succeeds included. */
  function PollRounds(svc: Service, s: State, h: string, b: Binding, idleMs: nat, deadline: nat, samples: seq<Sample>)
    : nat
    decreases Remaining(s.time, deadline)
  {
    if s.time >= deadline then 0
    else
      match Retry(svc, s, h, b, CaptureFailed, CaptureFull)
      case Step(_, Err(_)) => 1
      case Step(s1, Ok(snapshot)) =>
        var seen := samples + [Sample(svc.env.hash(snapshot.content), s1.time)];
        if IsQuiet(seen, s1.time, idleMs) then 1
        else 1 + PollRounds(svc, Sleep(s1, PollInterval(idleMs)), h, b, idleMs, deadline, seen)
  }

  /** Polling goes round at most ceil(timeout / 50) times, however it ends: each round sleeps at
      least 50 ms. */
  lemma {:induction false} PollRoundsAreBounded(svc: Service, s: State, h: string, b: Binding, idleMs: nat,
                                                deadline: nat, samples: seq<Sample>)
    ensures PollRounds(svc, s, h, b, idleMs, deadline, samples) <= Rounds(s.time, deadline)
    decreases Remaining(s.time, deadline)
  {
    if s.time < deadline {
      RoundsRemain(s.time, deadline);
      var captured := Retry(svc, s, h, b, CaptureFailed, CaptureFull);
      if captured.result.Ok? {
        var seen := samples + [Sample(svc.env.hash(captured.result.value.content), captured.state.time)];
        if !IsQuiet(seen, captured.state.time, idleMs) {
          var next := Sleep(captured.state, PollInterval(idleMs));
          IntervalIsLong(idleMs);
          PollRoundsAreBounded(svc, next, h, b, idleMs, deadline, seen);
          RoundsShrink(s.time, next.time, deadline);
        }
      }
    }
  }

  /** Each round makes at most three operation calls, and on success each has taken one sample. */
  lemma {:induction false} PollRoundsCount(svc: Service, s: State, h: string, b: Binding, idleMs: nat, deadline: nat,
                                           samples: seq<Sample>)
    ensures var r := Poll(svc, s, h, b, idleMs, deadline, samples);
            var rounds := PollRounds(svc, s, h, b, idleMs, deadline, samples);
            && Made(Operations, s, r.state) <= 3 * rounds
            && (r.result.Ok? ==> |r.result.value| == |samples| + rounds)
    decreases Remaining(s.time, deadline)
  {
    if s.time < deadline {
      RetryIsBounded(svc, s, h, b, CaptureFailed, CaptureFull);
      var captured := Retry(svc, s, h, b, CaptureFailed, CaptureFull);
      if captured.result.Ok? {
        var seen := samples + [Sample(svc.env.hash(captured.result.value.content), captured.state.time)];
        if !IsQuiet(seen, captured.state.time, idleMs) {
          PollRoundsCount(svc, Sleep(captured.state, PollInterval(idleMs)), h, b, idleMs, deadline, seen);
        }
      }
    }
  }

  /** Polling ends within the rounds that fit before its deadline, whether it succeeds, fails or
      runs out of time, with at most three operation calls in each; a success has taken one sample
      in each. */
  lemma PollIsBounded(svc: Service, s: State, h: string, b: Binding, idleMs: nat, deadline: nat, samples: seq<Sample>)
    ensures var r := Poll(svc, s, h, b, idleMs, deadline, samples);
            var rounds := PollRounds(svc, s, h, b, idleMs, deadline, samples);
            && rounds <= Rounds(s.time, deadline)
            && Made(Operations, s, r.state) <= 3 * rounds
            && (r.result.Ok? ==> |r.result.value| == |samples| + rounds)
  {
    PollRoundsAreBounded(svc, s, h, b, idleMs, deadline, samples);
    PollRoundsCount(svc, s, h, b, idleMs, deadline, samples);
  }

  // ---------------------------------------------------------------- what polling proves

  /** All samples from the k-th on hashed alike. */
  ghost predicate AlikeFrom(samples: seq<Sample>, k: nat) {
    forall i :: k <= i < |samples| ==> samples[i].hash == samples[k].hash
  }

  /** Where the last run of equal hashes begins. */
  lemma {:induction false} QuietSinceBegins(samples: seq<Sample>) returns (k: nat)
    requires samples != []
    ensures k < |samples| && AlikeFrom(samples, k) && samples[k].at == QuietSince(samples)
    ensures |samples| > 1 && samples[|samples| - 2].hash == samples[|samples| - 1].hash ==> k < |samples| - 1
    decreases |samples|
  {
    var n := |samples| - 1;
    if n > 0 && samples[n - 1].hash == samples[n].hash {
      k := QuietSinceBegins(samples[..n]);
      assert samples[..n][n - 1].hash == samples[..n][k].hash;
      forall i | k <= i < |samples| ensures samples[i].hash == samples[k].hash {
        if i < n { assert samples[..n][i] == samples[i]; }
      }
    } else {
      k := n;
    }
  }

  lemma {:induction false} PollEndsQuiet(svc: Service, s: State, h: string, b: Binding, idleMs: nat, deadline: nat,
                                         samples: seq<Sample>)
    ensures var r := Poll(svc, s, h, b, idleMs, deadline, samples);
            r.result.Ok? ==> IsQuiet(r.result.value, r.state.time, idleMs)
    decreases Remaining(s.time, deadline)
  {
    if s.time < deadline {
      var captured := Retry(svc, s, h, b, CaptureFailed, CaptureFull);
      if captured.result.Ok? {
        var seen := samples + [Sample(svc.env.hash(captured.result.value.content), captured.state.time)];
        if !IsQuiet(seen, captured.state.time, idleMs) {
          PollEndsQuiet(svc, Sleep(captured.state, PollInterval(idleMs)), h, b, idleMs, deadline, seen);
        }
      }
    }
  }

  /** Success means that, from some sample taken at least `idleMs` ago on, and there are at least
      two, every sample hashed alike. */
  lemma IdleIsSound(svc: Service, s: State, h: string, b: Binding, idleMs: nat, deadline: nat) returns (k: nat)
    requires Poll(svc, s, h, b, idleMs, deadline, []).result.Ok?
    ensures var seen := Poll(svc, s, h, b, idleMs, deadline, []).result.value;
            && k < |seen| - 1
            && AlikeFrom(seen, k)
            && Poll(svc, s, h, b, idleMs, deadline, []).state.time - seen[k].at >= idleMs
  {
    PollEndsQuiet(svc, s, h, b, idleMs, deadline, []);
    k := QuietSinceBegins(Poll(svc, s, h, b, idleMs, deadline, []).result.value);
  }

  /** The state ends with a call for an action that the backend answered with the snapshot. */
  ghost predicate JustAnswered(svc: Service, s: State, action: Action, snapshot: Snapshot) {
    var n := |s.log| - 1;
    && n >= 0
    && s.log[n].Perform?
    && s.log[n].action == action
    && svc.backend.perform(n, action, s.log[n].session, s.log[n].selector) == Ok(snapshot)
  }

  /** A retried operation succeeds with the answer to its last call. */
  lemma {:induction false} RetryFromAnswers(svc: Service, s: State, h: string, b: Binding, code: ErrorCode,
                                            action: Action, attempt: nat)
    requires attempt < 3
    requires RetryFrom(svc, s, h, b, code, action, attempt).result.Ok?
    ensures var r := RetryFrom(svc, s, h, b, code, action, attempt); JustAnswered(svc, r.state, action, r.result.value)
    decreases 3 - attempt
  {
    var done := Do(svc, s, action, b);
    if done.result.Err? {
      var again := Refresh(svc, done.state, h);
      RetryFromAnswers(svc, Sleep(again.state, 150), h, again.result.value, code, action, attempt + 1);
    }
  }

  lemma RetryAnswers(svc: Service, s: State, h: string, b: Binding, code: ErrorCode, action: Action)
    requires Retry(svc, s, h, b, code, action).result.Ok?
    ensures var r := Retry(svc, s, h, b, code, action); JustAnswered(svc, r.state, action, r.result.value)
  {
    if SkipsAvailability(svc, b) {
      RetryFromAnswers(svc, s, h, b, code, action, 0);
    } else {
      RetryFromAnswers(svc, EnsureReady(svc, s, b.session, code).state, h, b, code, action, 0);
    }
  }

  /** The sample is what the backend answered to the call that ends the state. */
  ghost predicate IsLastAnswer(svc: Service, s: State, sample: Sample) {
    exists snapshot: Snapshot :: JustAnswered(svc, s, CaptureFull, snapshot)
                                 && sample == Sample(svc.env.hash(snapshot.content), s.time)
  }

  ghost predicate EndsSampled(svc: Service, s: State, samples: seq<Sample>) {
    |samples| > 0 && IsLastAnswer(svc, s, samples[|samples| - 1])
  }

  lemma NewSampleIsLastAnswer(svc: Service, s: State, samples: seq<Sample>, snapshot: Snapshot)
    requires JustAnswered(svc, s, CaptureFull, snapshot)
    ensures EndsSampled(svc, s, samples + [Sample(svc.env.hash(snapshot.content), s.time)])
  {
  }

  /** Polling reports success at the moment of its last sample, and that is the backend's last
      answer. */
  lemma {:induction false} PollEndsSampled(svc: Service, s: State, h: string, b: Binding, idleMs: nat, deadline: nat,
                                           samples: seq<Sample>)
    requires Poll(svc, s, h, b, idleMs, deadline, samples).result.Ok?
    ensures var r := Poll(svc, s, h, b, idleMs, deadline, samples); EndsSampled(svc, r.state, r.result.value)
    decreases Remaining(s.time, deadline)
  {
    var captured := Retry(svc, s, h, b, CaptureFailed, CaptureFull);
    var seen := samples + [Sample(svc.env.hash(captured.result.value.content), captured.state.time)];
    if IsQuiet(seen, captured.state.time, idleMs) {
      RetryAnswers(svc, s, h, b, CaptureFailed, CaptureFull);
      NewSampleIsLastAnswer(svc, captured.state, samples, captured.result.value);
    } else {
      PollEndsSampled(svc, Sleep(captured.state, PollInterval(idleMs)), h, b, idleMs, deadline, seen);
    }
  }

  // ---------------------------------------------------------------- what WAIT_TIMEOUT means

  ghost predicate TimedOut<T>(r: Result<T, ErrorCode>) { r.Err? && r.error == WaitTimeout }

  predicate IsTimeout<T>(answer: Result<T, AdapterError>) { answer.Err? && answer.error.Timeout? }

  /** Whether the backend answered the n-th call with a timeout of its own. */
  predicate AnswersTimeout(backend: Backend, n: nat, call: Call) {
    match call
    case IsAvailable => false
    case SessionReady(session) => IsTimeout(backend.ready(n, session))
    case ListTargets(session) => IsTimeout(backend.panes(n, session))
    case LaunchSpawn => IsTimeout(backend.launch(n))
    case ResolveSelector(session, _) => IsTimeout(backend.panes(n, session))
    case Perform(action, session, selector) => IsTimeout(backend.perform(n, action, session, selector))
  }

  /** The last call that was made was answered so. */
  predicate LastTimedOut(svc: Service, s: State) {
    s.log != [] && AnswersTimeout(svc.backend, |s.log| - 1, s.log[|s.log| - 1])
  }

  lemma TickTimesOut(svc: Service, s: State, call: Call)
    ensures LastTimedOut(svc, Tick(svc.env, s, call)) == AnswersTimeout(svc.backend, |s.log|, call)
  {
  }

  lemma SameLogTimesOut(svc: Service, s: State, t: State)
    requires t.log == s.log
    ensures LastTimedOut(svc, t) == LastTimedOut(svc, s)
  {
  }

  lemma MappedTimesOut(env: Env, error: AdapterError, code: ErrorCode)
    requires code != WaitTimeout
    ensures MapError(env, error, code) == WaitTimeout <==> error.Timeout?
  {
  }

  lemma ReadyTimesOut(svc: Service, s: State, session: string, code: ErrorCode)
    requires code != WaitTimeout
    ensures var r := EnsureReady(svc, s, session, code); TimedOut(r.result) == LastTimedOut(svc, r.state)
  {
    TickTimesOut(svc, s, SessionReady(session));
    var answer := svc.backend.ready(|s.log|, session);
    if answer.Err? { MappedTimesOut(svc.env, answer.error, code); }
  }

  lemma ListTimesOut(svc: Service, s: State, session: string, code: ErrorCode)
    requires code != WaitTimeout
    ensures var r := ListMapped(svc, s, session, code); TimedOut(r.result) == LastTimedOut(svc, r.state)
  {
    TickTimesOut(svc, s, ListTargets(session));
    var answer := svc.backend.panes(|s.log|, session);
    if answer.Err? { MappedTimesOut(svc.env, answer.error, code); }
  }

  lemma ResolveTimesOut(svc: Service, s: State, q: Query)
    ensures var r := Resolve(svc, s, q); IsTimeout(r.result) == LastTimedOut(svc, r.state)
  {
    TickTimesOut(svc, s, ResolveSelector(q.session, q.selector));
  }

  lemma DoTimesOut(svc: Service, s: State, action: Action, b: Binding)
    ensures var r := Do(svc, s, action, b); IsTimeout(r.result) == LastTimedOut(svc, r.state)
  {
    TickTimesOut(svc, s, Perform(action, b.session, b.selector));
  }

  lemma {:induction false} ReconcileTimesOut(svc: Service, s: State, h: string, deadline: nat)
    requires !LastTimedOut(svc, s)
    ensures var r := Reconcile(svc, s, h, deadline); TimedOut(r.result) == LastTimedOut(svc, r.state)
    decreases Remaining(s.time, deadline)
  {
    if Lookup(s.bindings, h).Some? {
      var b := Lookup(s.bindings, h).value;
      ListTimesOut(svc, s, b.session, SpawnFailed);
      var listed := ListMapped(svc, s, b.session, SpawnFailed);
      if !(b.paneId.Some? && b.selector != "") && listed.result.Ok? {
        match ResolveSpawnCandidate(Hints(b, ObservationOf(s, h)), listed.result.value)
        case Some(t) => SameLogTimesOut(svc, listed.state, Reconcile(svc, s, h, deadline).state);
        case None =>
          if listed.state.time < deadline {
            var next := Sleep(listed.state, 150);
            SameLogTimesOut(svc, listed.state, next);
            ReconcileTimesOut(svc, next, h, deadline);
          }
      }
    }
  }

  lemma {:induction false} ResolveAnyTimesOut(svc: Service, s: State, queries: seq<Query>)
    requires !LastTimedOut(svc, s)
    ensures var r := ResolveAny(svc, s, queries); IsTimeout(r.result) == LastTimedOut(svc, r.state)
    decreases |queries|
  {
    if queries != [] {
      ResolveTimesOut(svc, s, queries[0]);
      var first := Resolve(svc, s, queries[0]);
      if first.result.Err? && IsMissing(first.result.error) { ResolveAnyTimesOut(svc, first.state, queries[1..]); }
    }
  }

  lemma {:induction false} AttemptsTimeOut(svc: Service, s: State, queries: seq<Query>, attempt: nat)
    requires !LastTimedOut(svc, s)
    ensures var r := ResolveAttempts(svc, s, queries, attempt); IsTimeout(r.result) == LastTimedOut(svc, r.state)
    decreases 3 - attempt
  {
    if attempt < 3 {
      ResolveAnyTimesOut(svc, s, queries);
      var round := ResolveAny(svc, s, queries);
      if round.result == Ok(None) {
        var next := if attempt < 2 then Sleep(round.state, 150) else round.state;
        SameLogTimesOut(svc, round.state, next);
        AttemptsTimeOut(svc, next, queries, attempt + 1);
      }
    }
  }

  lemma RequeryTimesOut(svc: Service, s: State, h: string, b: Binding)
    ensures var r := Requery(svc, s, h, b); TimedOut(r.result) == LastTimedOut(svc, r.state)
  {
    ReadyTimesOut(svc, s, b.session, AttachFailed);
    var ready := EnsureReady(svc, s, b.session, AttachFailed);
    if ready.result.Ok? {
      AttemptsTimeOut(svc, ready.state, Queries(b), 0);
      var tried := ResolveAttempts(svc, ready.state, Queries(b), 0);
      if tried.result.Err? {
        MappedTimesOut(svc.env, tried.result.error, AttachFailed);
      } else {
        SameLogTimesOut(svc, tried.state, Requery(svc, s, h, b).state);
      }
    }
  }

  lemma RefreshTimesOut(svc: Service, s: State, h: string)
    requires !LastTimedOut(svc, s)
    ensures var r := Refresh(svc, s, h); TimedOut(r.result) == LastTimedOut(svc, r.state)
  {
    if Lookup(s.bindings, h).Some? {
      var b := Lookup(s.bindings, h).value;
      if IsUnresolved(b) { ReconcileTimesOut(svc, s, h, Deadline(s, 500)); } else { RequeryTimesOut(svc, s, h, b); }
    }
  }

  lemma MarkStaleTimesOut(svc: Service, s: State, h: string)
    ensures LastTimedOut(svc, MarkStale(s, h)) == LastTimedOut(svc, s)
  {
    SameLogTimesOut(svc, s, MarkStale(s, h));
  }

  lemma {:induction false} RetryFromTimesOut(svc: Service, s: State, h: string, b: Binding, code: ErrorCode,
                                             action: Action, attempt: nat)
    requires attempt < 3 && code != WaitTimeout
    ensures var r := RetryFrom(svc, s, h, b, code, action, attempt); TimedOut(r.result) == LastTimedOut(svc, r.state)
    decreases 3 - attempt
  {
    DoTimesOut(svc, s, action, b);
    var done := Do(svc, s, action, b);
    if done.result.Err? {
      MappedTimesOut(svc.env, done.result.error, code);
      if IsMissing(done.result.error) {
        RefreshTimesOut(svc, done.state, h);
        var again := Refresh(svc, done.state, h);
        if again.result.Ok? && IsActive(again.result.value) {
          if attempt < 2 {
            RetryFromTimesOut(svc, Sleep(again.state, 150), h, again.result.value, code, action, attempt + 1);
          } else {
            MarkStaleTimesOut(svc, again.state, h);
          }
        }
      }
    }
  }

  /** A retried operation reports WAIT_TIMEOUT exactly when its last call was answered with a
      timeout. */
  lemma RetryTimesOut(svc: Service, s: State, h: string, b: Binding, code: ErrorCode, action: Action)
    requires code != WaitTimeout
    ensures var r := Retry(svc, s, h, b, code, action); TimedOut(r.result) == LastTimedOut(svc, r.state)
  {
    if SkipsAvailability(svc, b) {
      RetryFromTimesOut(svc, s, h, b, code, action, 0);
    } else {
      ReadyTimesOut(svc, s, b.session, code);
      var ready := EnsureReady(svc, s, b.session, code);
      if ready.result.Ok? { RetryFromTimesOut(svc, ready.state, h, b, code, action, 0); }
    }
  }

  /** Polling that ends before its deadline reports WAIT_TIMEOUT exactly when its last call was
      answered with a timeout. So WAIT_TIMEOUT means that the deadline has passed, but for that
      answer. */
  lemma {:induction false} TimeoutIsExact(svc: Service, s: State, h: string, b: Binding, idleMs: nat, deadline: nat,
                                          samples: seq<Sample>)
    ensures var r := Poll(svc, s, h, b, idleMs, deadline, samples);
            r.state.time < deadline ==> (TimedOut(r.result) <==> LastTimedOut(svc, r.state))
    decreases Remaining(s.time, deadline)
  {
    if s.time < deadline {
      RetryTimesOut(svc, s, h, b, CaptureFailed, CaptureFull);
      var captured := Retry(svc, s, h, b, CaptureFailed, CaptureFull);
      if captured.result.Ok? {
        var seen := samples + [Sample(svc.env.hash(captured.result.value.content), captured.state.time)];
        if !IsQuiet(seen, captured.state.time, idleMs) {
          TimeoutIsExact(svc, Sleep(captured.state, PollInterval(idleMs)), h, b, idleMs, deadline, seen);
        }
      }
    }
  }

  /** A backend that never reports a timeout of its own. */
  ghost predicate AnswersInTime(backend: Backend) {
    && (forall n: nat, a, session, selector :: backend.perform(n, a, session, selector) != Err(AdapterError.Timeout))
    && (forall n: nat, session :: backend.ready(n, session) != Err(AdapterError.Timeout))
    && (forall n: nat, session :: backend.panes(n, session) != Err(AdapterError.Timeout))
    && (forall n: nat :: backend.launch(n) != Err(AdapterError.Timeout))
  }

  lemma InTimeNeverTimesOut(svc: Service, s: State)
    requires AnswersInTime(svc.backend)
    ensures !LastTimedOut(svc, s)
  {
  }

  /** Over a backend that reports no timeouts itself, WAIT_TIMEOUT means the deadline has passed. */
  lemma TimeoutIsReal(svc: Service, s: State, h: string, b: Binding, idleMs: nat, deadline: nat, samples: seq<Sample>)
    requires AnswersInTime(svc.backend)
    ensures var r := Poll(svc, s, h, b, idleMs, deadline, samples);
            TimedOut(r.result) ==> r.state.time >= deadline
  {
    TimeoutIsExact(svc, s, h, b, idleMs, deadline, samples);
    InTimeNeverTimesOut(svc, Poll(svc, s, h, b, idleMs, deadline, samples).state);
  }

  /** A first capture that the backend calls timed out ends the polling with WAIT_TIMEOUT, and
      before the deadline whenever the two calls took less than the time there was. */
  lemma TimeoutMayBeEarly(svc: Service, s: State, h: string, b: Binding, idleMs: nat, deadline: nat,
                          samples: seq<Sample>)
    requires s.time < deadline
    requires EnsureReady(svc, s, b.session, CaptureFailed).result.Ok? && !SkipsAvailability(svc, b)
    requires Do(svc, EnsureReady(svc, s, b.session, CaptureFailed).state, CaptureFull, b).result
             == Err(AdapterError.Timeout)
    ensures var r := Poll(svc, s, h, b, idleMs, deadline, samples);
            var taken := svc.env.delay(|s.log|) + svc.env.delay(|s.log| + 1);
            && TimedOut(r.result)
            && r.state.time == s.time + taken
            && (r.state.time < deadline <==> taken < Remaining(s.time, deadline))
  {
  }
}
