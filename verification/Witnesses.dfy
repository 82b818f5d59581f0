/** Runs that show where guarantees end: a spawn that fails and yet leaves its handle behind, a send
    that reopens a closed handle, a capture that forgets a pane so that one handle acts on two, and
    polling that times out early. */
module Witnesses {
  import opened Bounds
  import opened Entities
  import opened Keeping
  import opened Lifecycle
  import opened Operations
  import opened Outcomes
  import opened Rows
  import opened Runs
  import opened Spawning
  import opened Staleness
  import opened Targets
  import opened Text

  const PANE := Pane("terminal:1", None, None, None, true)

  const SHOWN := Snapshot("", 0, false)

  function AnEnv(): Env {
    Env((n: nat) => "zh_" + Decimal(n), (n: nat) => "zi_" + Decimal(n), (n: nat) => 0, (content: string) => content,
        (message: string) => None, (key: string) => None, (validated: bool, text: string, id: string) => text, "")
  }

  // ---------------------------------------------------------------- the spawn that leaks

  function ASpawn(): SpawnRequest { SpawnRequest("s", NewTab, None, None, None, None, None, false) }

  /** A backend that shows one pane and answers all, until its session is no longer ready. */
  ghost predicate ReadyUntil(svc: Service, limit: nat) {
    && (forall n: nat, session ::
          svc.backend.ready(n, session) == if n < limit then Ok(()) else Err(AdapterError.ZjctlUnavailable))
    && (forall n: nat, session :: svc.backend.panes(n, session) == Ok([PANE]))
    && (forall n: nat :: svc.backend.launch(n) == Ok(Some(PaneToTarget(PANE, "s"))))
    && (forall n: nat, a, session, selector :: svc.backend.perform(n, a, session, selector) == Ok(SHOWN))
  }

  ghost predicate NamesPane(b: Binding) {
    b.session == "s" && b.paneId == Some(PANE.id) && b.selector == "id:" + PANE.id && !b.status.Closed?
  }

  ghost predicate HandleNamesPane(s: State, h: string) {
    Known(s, h) && NamesPane(Lookup(s.bindings, h).value)
  }

  lemma OnePaneResolves(svc: Service, s: State, limit: nat, q: Query)
    requires ReadyUntil(svc, limit) && q == Query("s", None, "id:" + PANE.id)
    ensures Resolve(svc, s, q).result == Ok(PaneToTarget(PANE, "s"))
  {
    var t := PaneToTarget(PANE, "s");
    IdSelectorIsTight(PANE.id);
    IdSelectorIsExact(PANE.id, t);
    var matches := (x: Target) => InTab(None, x) && MatchesSelector(q.selector, x);
    assert svc.backend.panes(|s.log|, "s") == Ok([PANE]);
    assert PanesToTargets([PANE], "s") == [t];
    assert Filter(matches, [t]) == [t] + Filter(matches, [t][1..]);
  }

  lemma RefreshFinds(svc: Service, s: State, limit: nat, h: string)
    requires ReadyUntil(svc, limit) && HandleNamesPane(s, h) && |s.log| < limit
    ensures var r := Refresh(svc, s, h); r.result.Ok? && |r.state.log| == |s.log| + 2 && HandleNamesPane(r.state, h)
    ensures Stored(h, Refresh(svc, s, h))
  {
    var b := Lookup(s.bindings, h).value;
    var ready := EnsureReady(svc, s, "s", AttachFailed);
    var q := Query("s", None, "id:" + PANE.id);
    assert Queries(b) == [q];
    OnePaneResolves(svc, ready.state, limit, q);
    RefreshKeeps(svc, s, h);
    var found := Resolve(svc, ready.state, q);
    assert ResolveAny(svc, ready.state, [q]) == Step(found.state, Ok(Some(found.result.value)));
    assert ResolveAttempts(svc, ready.state, [q], 0) == ResolveAny(svc, ready.state, [q]);
  }

  lemma RefreshLoses(svc: Service, s: State, limit: nat, h: string)
    requires ReadyUntil(svc, limit) && HandleNamesPane(s, h) && |s.log| >= limit
    ensures Confirm(svc, s, h).result.Err?
  {
  }

  lemma LaunchNamesPane(svc: Service, limit: nat)
    requires ReadyUntil(svc, limit) && svc.targetId == "ssh:x"
    ensures var r := LaunchAndRegister(svc, Initial(), ASpawn());
            && r.result.Ok? && !r.result.value.detached
            && |r.state.log| == 2 && HandleNamesPane(r.state, r.result.value.handle)
  {
  }

  lemma RecordNamesPane(svc: Service, s: State, h: string)
    requires HandleNamesPane(s, h)
    ensures var r := RecordFirst(svc, s, h, SHOWN);
            r.result == Ok(Observed) && r.state.log == s.log && HandleNamesPane(r.state, h)
  {
    var b := Lookup(s.bindings, h).value;
    LookupPut(s.bindings, h, b.(status := Ready, updatedAt := 0), h);
  }

  lemma CaptureOnceSucceeds(svc: Service, s: State, limit: nat, h: string, b: Binding)
    requires ReadyUntil(svc, limit) && HandleNamesPane(s, h) && NamesPane(b) && |s.log| < limit
    ensures var r := CaptureOnce(svc, s, h, b);
            r.result == Ok(Observed) && |r.state.log| == |s.log| + 2 && HandleNamesPane(r.state, h)
  {
    var ready := EnsureReady(svc, s, "s", CaptureFailed);
    var done := Do(svc, ready.state, CaptureFull, b);
    assert Retry(svc, s, h, b, CaptureFailed, CaptureFull) == Step(done.state, Ok(SHOWN));
    RecordNamesPane(svc, done.state, h);
  }

  /** Over any backend that stops being ready at the ninth call, the spawn fails at its last step. */
  lemma SpawnLeaks(svc: Service)
    requires ReadyUntil(svc, 8) && svc.targetId == "ssh:x"
    ensures LastRevalidationFails(svc, Initial(), ASpawn())
  {
    LaunchNamesPane(svc, 8);
    var r := LaunchAndRegister(svc, Initial(), ASpawn());
    var h := r.result.value.handle;
    RefreshFinds(svc, r.state, 8, h);
    var first := Refresh(svc, r.state, h);
    RefreshFinds(svc, first.state, 8, h);
    var second := Refresh(svc, first.state, h);
    CaptureOnceSucceeds(svc, second.state, 8, h, second.result.value);
    RefreshLoses(svc, CaptureOnce(svc, second.state, h, second.result.value).state, 8, h);
  }

  function LosingBackend(): Backend {
    Backend((n: nat) => true,
            (n: nat, session: string) => if n < 8 then Ok(()) else Err(AdapterError.ZjctlUnavailable),
            (n: nat, session: string) => Ok([PANE]),
            (n: nat) => Ok(Some(PaneToTarget(PANE, "s"))),
            (n: nat, a: Action, session: string, selector: string) => Ok(SHOWN))
  }

  lemma ConcreteLeak() returns (svc: Service)
    ensures Spawn(svc, Initial(), ASpawn()).result.Err?
    ensures !StoresRestored(Initial(), Spawn(svc, Initial(), ASpawn()).state)
  {
    svc := Service(AnEnv(), "ssh:x", LosingBackend());
    SpawnLeaks(svc);
    SpawnIsAllOrNothing(svc, Initial(), ASpawn());
    SpawnLeaksExactly(svc, Initial(), ASpawn());
  }

  // ---------------------------------------------------------------- the handle that reopens

  const CLOSED := Binding("local", None, "s", None, "id:terminal:1", Some("terminal:1"), None, None, Attached, Closed,
                          0, 0)

  const CLEARING := SendRequest("h", None, None, None, "ls", [], None, true)

  function NoPaneBackend(): Backend {
    Backend((n: nat) => true, (n: nat, session: string) => Ok(()), (n: nat, session: string) => Ok([]),
            (n: nat) => Ok(None),
            (n: nat, a: Action, session: string, selector: string) => Err(CommandFailed("no pane matched")))
  }

  /** A closed attached handle, gone from the backend, is stale after a line is sent to it. */
  lemma ConcreteReopening()
    ensures var s := State([Row("h", CLOSED)], [], [], 0, 0);
            var t := Send(Service(AnEnv(), "local", NoPaneBackend()), s, CLEARING).state;
            && Lookup(s.bindings, "h").value.status.Closed?
            && Known(t, "h") && Lookup(t.bindings, "h").value.status.Stale?
  {
    var s := State([Row("h", CLOSED)], [], [], 0, 0);
    var svc := Service(AnEnv(), "local", NoPaneBackend());
    TrimTight("h");
    assert OccursAt("no pane matched", "no pane matched", 0);
    ClearingSendOnClosed(svc, s, CLEARING, CLOSED);
  }

  // ---------------------------------------------------------------- the pane that is forgotten

  /** A spawn on a remote target whose pane is not known yet. */
  const UNRESOLVED := Binding("ssh:x", None, "s", None, "focused", None, None, None, Spawned, Busy, 0, 0)

  const PENDING := State([Row("h", UNRESOLVED)], [], [], 0, 0)

  const WHOLE := CaptureRequest("h", Full, None, None, None, None, false)

  predicate PaneMissing(answer: Result<Snapshot, AdapterError>) { answer.Err? && IsMissing(answer.error) }

  /** A slow backend whose pane is listed from the third call on, and lost to any earlier action. */
  ghost predicate ShowsLate(svc: Service) {
    && svc.targetId == "ssh:x"
    && (forall n: nat :: svc.env.delay(n) >= 500)
    && (forall n: nat, session :: svc.backend.panes(n, session) == Ok(if n < 2 then [] else [PANE]))
    && (forall n: nat, a, session, selector ::
          if n < 2 then PaneMissing(svc.backend.perform(n, a, session, selector))
          else svc.backend.perform(n, a, session, selector) == Ok(SHOWN))
  }

  ghost predicate StillUnresolved(s: State) {
    Lookup(s.bindings, "h") == Some(UNRESOLVED) && s.observations == []
  }

  lemma NothingFound(svc: Service, s: State)
    requires ShowsLate(svc) && StillUnresolved(s) && |s.log| < 2
    ensures var r := Refresh(svc, s, "h");
            r.result == Ok(UNRESOLVED) && StillUnresolved(r.state) && |r.state.log| == |s.log| + 1
  {
    var listed := ListMapped(svc, s, "s", SpawnFailed);
    assert svc.backend.panes(|s.log|, "s") == Ok([]);
    assert listed.result == Ok([]);
    assert svc.env.delay(|s.log|) >= 500;
    assert Reconcile(svc, s, "h", Deadline(s, 500)) == Step(listed.state, Ok(None));
  }

  lemma OneCandidate(hints: SpawnHints, t: Target)
    requires hints == SpawnHints([], None, None, None) && IsTerminal(t)
    ensures ResolveSpawnCandidate(hints, [t]) == Some(t)
  {
    var isNew := (x: Target) => IsNewTerminal(hints.beforeIds, x);
    var inTab := (x: Target) => InTab(hints.tabName, x);
    assert [t][1..] == [];
    assert Filter(isNew, [t]) == [t] + Filter(isNew, []);
    assert Filter(inTab, [t]) == [t] + Filter(inTab, []);
  }

  lemma PaneFound(svc: Service, s: State)
    requires ShowsLate(svc) && StillUnresolved(s) && |s.log| >= 2
    ensures var r := Refresh(svc, s, "h");
            && r.result.Ok? && r.result.value.status.Ready? && |r.state.log| == |s.log| + 1
            && StoredPane(r.state, "h") == Some(PANE.id)
            && r.state.observations == [] && r.result.value.selector == "id:" + PANE.id
            && r.result.value.session == "s"
  {
    var listed := ListMapped(svc, s, "s", SpawnFailed);
    var t := PaneToTarget(PANE, "s");
    assert svc.backend.panes(|s.log|, "s") == Ok([PANE]);
    assert PanesToTargets([PANE], "s") == [t];
    OneCandidate(Hints(UNRESOLVED, ObservationOf(s, "h")), t);
    LookupPut(s.bindings, "h", Located(UNRESOLVED, t, listed.state.time), "h");
  }

  /** The last call was an action on the pane. */
  ghost predicate LastActedAt(s: State, pane: Pane) {
    s.log != [] && s.log[|s.log| - 1] == Perform(CaptureFull, "s", "id:" + pane.id)
  }

  lemma RetryFinds(svc: Service, s: State)
    requires ShowsLate(svc) && StillUnresolved(s) && |s.log| == 1
    ensures var r := Retry(svc, s, "h", UNRESOLVED, CaptureFailed, CaptureFull);
            && r.result == Ok(SHOWN) && StoredPane(r.state, "h") == Some(PANE.id)
            && r.state.observations == [] && LastActedAt(r.state, PANE)
  {
    var done := Do(svc, s, CaptureFull, UNRESOLVED);
    PaneFound(svc, done.state);
    var again := Refresh(svc, done.state, "h");
    var next := Sleep(again.state, 150);
    var last := Do(svc, next, CaptureFull, again.result.value);
    assert RetryFrom(svc, next, "h", again.result.value, CaptureFailed, CaptureFull, 1) == Step(last.state, Ok(SHOWN));
  }

  /** Over any such backend a capture succeeds, its retries find the pane and store it, and in the
      end the store does not name it. */
  lemma CaptureForgets(svc: Service)
    requires ShowsLate(svc)
    ensures Capture(svc, PENDING, WHOLE).result.Ok? && StoredPane(Capture(svc, PENDING, WHOLE).state, "h") == None
    ensures var read := RefreshAndSync(svc, PENDING, "h");
            && read.result == Ok(UNRESOLVED)
            && StoredPane(Retry(svc, read.state, "h", UNRESOLVED, CaptureFailed, CaptureFull).state, "h")
               == Some(PANE.id)
  {
    NothingFound(svc, PENDING);
    var read := RefreshAndSync(svc, PENDING, "h");
    RetryFinds(svc, read.state);
    CapturedKeepsRead(svc, read.state, WHOLE, Lines(None, None), UNRESOLVED);
  }

  function LateBackend(): Backend {
    Backend((n: nat) => true,
            (n: nat, session: string) => Ok(()),
            (n: nat, session: string) => Ok(if n < 2 then [] else [PANE]),
            (n: nat) => Ok(None),
            (n: nat, a: Action, session: string, selector: string) =>
              if n < 2 then Err(CommandFailed("no pane matched")) else Ok(SHOWN))
  }

  /** A capture of a remote spawn whose pane turns up during its retries, and is forgotten. */
  lemma ConcreteForgetting() returns (svc: Service)
    ensures Capture(svc, PENDING, WHOLE).result.Ok? && StoredPane(Capture(svc, PENDING, WHOLE).state, "h") == None
    ensures var read := RefreshAndSync(svc, PENDING, "h");
            && read.result == Ok(UNRESOLVED)
            && StoredPane(Retry(svc, read.state, "h", UNRESOLVED, CaptureFailed, CaptureFull).state, "h")
               == Some(PANE.id)
  {
    svc := Service(AnEnv().(delay := (n: nat) => 1000), "ssh:x", LateBackend());
    assert OccursAt("no pane matched", "no pane matched", 0);
    CaptureForgets(svc);
  }

  // ---------------------------------------------------------------- the handle that acts on two panes

  const OTHER := Pane("terminal:2", None, None, None, true)

  /** A backend that shows one pane, another one, and answers all. */
  ghost predicate ShowsOther(svc: Service) {
    && svc.targetId == "ssh:x"
    && (forall n: nat, session :: svc.backend.ready(n, session) == Ok(()))
    && (forall n: nat, session :: svc.backend.panes(n, session) == Ok([OTHER]))
    && (forall n: nat, a, session, selector :: svc.backend.perform(n, a, session, selector) == Ok(SHOWN))
  }

  /** The state that a forgetful capture leaves. */
  ghost predicate Forgotten(s: State) {
    && s.bindings == [Row("h", UNRESOLVED.(status := Ready))]
    && Lookup(s.observations, "h").Some? && Lookup(s.observations, "h").value.spawn == BLANK.spawn
  }

  lemma CaptureLeaves(svc: Service, s: State)
    requires StillUnresolved(s) && s.bindings == PENDING.bindings
    requires var r := Retry(svc, s, "h", UNRESOLVED, CaptureFailed, CaptureFull);
             r.result == Ok(SHOWN) && r.state.observations == [] && LastActedAt(r.state, PANE)
    ensures var t := CaptureActive(svc, s, WHOLE, Lines(None, None), UNRESOLVED).state;
            Forgotten(t) && LastActedAt(t, PANE)
  {
    assert WithSlot([], "h", BLANK) == [Row("h", BLANK)];
  }

  lemma OtherFound(svc: Service, s: State)
    requires ShowsOther(svc) && Forgotten(s)
    ensures var r := RefreshAndSync(svc, s, "h");
            && r.result.Ok? && r.result.value.status.Ready? && r.result.value.session == "s"
            && r.result.value.paneId == Some(OTHER.id) && r.result.value.selector == "id:" + OTHER.id
            && Known(r.state, "h")
  {
    var listed := ListMapped(svc, s, "s", SpawnFailed);
    var b := Lookup(s.bindings, "h").value;
    var t := PaneToTarget(OTHER, "s");
    assert svc.backend.panes(|s.log|, "s") == Ok([OTHER]);
    assert PanesToTargets([OTHER], "s") == [t];
    OneCandidate(Hints(b, ObservationOf(s, "h")), t);
    LookupPut(s.bindings, "h", Located(b, t, listed.state.time), "h");
  }

  lemma OtherCaptured(svc: Service, s: State, b: Binding)
    requires ShowsOther(svc) && Lookup(s.bindings, "h") == Some(b)
    requires b.session == "s" && b.paneId == Some(OTHER.id) && b.selector == "id:" + OTHER.id
    ensures var r := CaptureActive(svc, s, WHOLE, Lines(None, None), b);
            r.result.Ok? && StoredPane(r.state, "h") == Some(OTHER.id) && LastActedAt(r.state, OTHER)
  {
    var ready := EnsureReady(svc, s, "s", CaptureFailed);
    var done := Do(svc, ready.state, CaptureFull, b);
    assert Retry(svc, s, "h", b, CaptureFailed, CaptureFull) == Step(done.state, Ok(SHOWN));
    CapturedKeepsRead(svc, s, WHOLE, Lines(None, None), b);
  }

  lemma FirstCapture(svc: Service)
    requires ShowsLate(svc)
    ensures var s := Capture(svc, PENDING, WHOLE).state; Forgotten(s) && LastActedAt(s, PANE)
  {
    NothingFound(svc, PENDING);
    var read := RefreshAndSync(svc, PENDING, "h");
    RetryFinds(svc, read.state);
    CaptureLeaves(svc, read.state);
  }

  lemma SecondCapture(svc: Service, s: State)
    requires ShowsOther(svc) && Forgotten(s)
    ensures var r := Capture(svc, s, WHOLE);
            r.result.Ok? && LastActedAt(r.state, OTHER) && StoredPane(r.state, "h") == Some(OTHER.id)
  {
    OtherFound(svc, s);
    SyncKeeps(svc, s, "h");
    var again := RefreshAndSync(svc, s, "h");
    OtherCaptured(svc, again.state, again.result.value);
  }

  /** What forgetting comes to: one handle reads two panes. The capture that forgets has read the
      first; when the backend then shows another pane only, the next capture reads that one and
      the store names it. */
  lemma OneHandleTwoPanes(svc: Service, next: Service)
    requires ShowsLate(svc) && ShowsOther(next)
    ensures var s := Capture(svc, PENDING, WHOLE).state;
            var r := Capture(next, s, WHOLE);
            && LastActedAt(s, PANE)
            && r.result.Ok? && LastActedAt(r.state, OTHER) && StoredPane(r.state, "h") == Some(OTHER.id)
  {
    FirstCapture(svc);
    SecondCapture(next, Capture(svc, PENDING, WHOLE).state);
  }

  function OtherBackend(): Backend {
    Backend((n: nat) => true, (n: nat, session: string) => Ok(()), (n: nat, session: string) => Ok([OTHER]),
            (n: nat) => Ok(None),
            (n: nat, a: Action, session: string, selector: string) => Ok(SHOWN))
  }

  lemma ConcreteTwoPanes() returns (svc: Service, next: Service)
    ensures var s := Capture(svc, PENDING, WHOLE).state;
            var r := Capture(next, s, WHOLE);
            && next.env == svc.env && next.targetId == svc.targetId
            && LastActedAt(s, PANE)
            && r.result.Ok? && LastActedAt(r.state, OTHER) && StoredPane(r.state, "h") == Some(OTHER.id)
  {
    svc := Service(AnEnv().(delay := (n: nat) => 1000), "ssh:x", LateBackend());
    next := svc.(backend := OtherBackend());
    assert OccursAt("no pane matched", "no pane matched", 0);
    OneHandleTwoPanes(svc, next);
  }

  // ---------------------------------------------------------------- the timeout that comes early

  const ATTACHED := CLOSED.(status := Ready)

  function TimingOutBackend(): Backend {
    Backend((n: nat) => true, (n: nat, session: string) => Ok(()), (n: nat, session: string) => Ok([PANE]),
            (n: nat) => Ok(None),
            (n: nat, a: Action, session: string, selector: string) => Err(AdapterError.Timeout))
  }

  /** Polling with a whole second to go reports WAIT_TIMEOUT at once, because a capture was called
      timed out. */
  lemma ConcreteEarlyTimeout()
    ensures var svc := Service(AnEnv(), "local", TimingOutBackend());
            var s := State([Row("h", ATTACHED)], [], [], 0, 0);
            var r := Poll(svc, s, "h", ATTACHED, 50, 1000, []);
            TimedOut(r.result) && r.state.time < 1000 && LastTimedOut(svc, r.state)
  {
    var svc := Service(AnEnv(), "local", TimingOutBackend());
    var s := State([Row("h", ATTACHED)], [], [], 0, 0);
    TimeoutMayBeEarly(svc, s, "h", ATTACHED, 50, 1000, []);
    TimeoutIsExact(svc, s, "h", ATTACHED, 50, 1000, []);
  }
}
