/** Pane listings and every choice made over them: selectors, attach by location, and finding
    the pane a spawn created. */
module Targets {
  import opened Text

  datatype Result<+T, +E> = Ok(value: T) | Err(error: E) {
    predicate IsFailure() { Err? }

    function PropagateFailure<U>(): Result<U, E>
      requires IsFailure()
    {
      Err(error)
    }

    function Extract(): T
      requires !IsFailure()
    {
      value
    }
  }

  datatype AdapterError =
    | Unimplemented
    | ZjctlUnavailable
    | CommandFailed(message: string)
    | ParseError(message: string)
    | AmbiguousTarget(message: string)
    | Timeout

  /** A pane id never ends in white space: the plugin prints `terminal:N` or `plugin:N`. */
  type PaneName = s: string | s == "" || !IsSpace(s[|s| - 1])

  /** A pane as the backend lists it. */
  datatype Pane = Pane(id: PaneName, tabName: Option<string>, title: Option<string>, command: Option<string>,
                       focused: bool)

  datatype Target = Target(selector: string, paneId: Option<string>, session: string, tabName: Option<string>,
                           title: Option<string>, command: Option<string>, focused: bool)

  /** The canonical form: the selector is the pane id behind `id:`. */
  predicate Canonical(t: Target) {
    && t.paneId.Some?
    && t.selector == "id:" + t.paneId.value
    && (t.paneId.value == "" || !IsSpace(t.paneId.value[|t.paneId.value| - 1]))
  }

  function PaneToTarget(pane: Pane, session: string): (t: Target)
    ensures Canonical(t) && t.session == session
  {
    Target("id:" + pane.id, Some(pane.id), session, pane.tabName, pane.title, pane.command, pane.focused)
  }

  function PanesToTargets(panes: seq<Pane>, session: string): (ts: seq<Target>)
    ensures |ts| == |panes|
    ensures forall i :: 0 <= i < |ts| ==> ts[i] == PaneToTarget(panes[i], session)
  {
    seq(|panes|, i requires 0 <= i < |panes| => PaneToTarget(panes[i], session))
  }

  predicate HasText(s: string, p: string) { Find(s, p).Some? }

  predicate HasTextIn(s: Option<string>, p: string) { s.Some? && HasText(s.value, p) }

  // ---------------------------------------------------------------- selectors

  /** The adapter's `matches_selector`. */
  predicate MatchesSelector(selector: string, t: Target) {
    if selector == "focused" || selector == "focused:true" then t.focused
    else if selector == "unfocused" || selector == "focused:false" then !t.focused
    else selector == t.selector || MatchesByPrefix(selector, t)
  }

  predicate MatchesByPrefix(selector: string, t: Target) {
    if "id:" <= selector then t.paneId == Some(selector[3..])
    else if "terminal:" <= selector || "plugin:" <= selector then t.paneId == Some(selector)
    else if "title:" <= selector then HasTextIn(t.title, selector[6..])
    else if "command:" <= selector then HasTextIn(t.command, selector[8..])
    else if "tab:" <= selector then HasTextIn(t.tabName, selector[4..])
    else false
  }

  /** The service's `discover_matches_selector`, which tries the target's own selector first. */
  predicate DiscoverMatchesSelector(selector: string, t: Target) {
    if selector == t.selector then true
    else if selector == "focused" || selector == "focused:true" then t.focused
    else if selector == "unfocused" || selector == "focused:false" then !t.focused
    else MatchesByPrefix(selector, t)
  }

  /** The adapter and the service read every selector alike on canonical targets. */
  lemma SelectorsAgree(selector: string, t: Target)
    requires Canonical(t)
    ensures MatchesSelector(selector, t) == DiscoverMatchesSelector(selector, t)
  {
    assert t.selector[0] == 'i';
  }

  /** An `id:` selector picks exactly the pane with that id. */
  lemma IdSelectorIsExact(id: string, t: Target)
    requires Canonical(t)
    ensures MatchesSelector("id:" + id, t) <==> t.paneId == Some(id)
  {
    var selector := "id:" + id;
    assert selector[3..] == id && selector[0] == 'i';
    assert t.selector[3..] == t.paneId.value;
  }

  lemma IdSelectorIsTight(id: string)
    requires id == "" || !IsSpace(id[|id| - 1])
    ensures Trim("id:" + id) == "id:" + id
  {
    TrimTight("id:" + id);
  }

  // ---------------------------------------------------------------- filtering

  function Filter<T>(p: T -> bool, xs: seq<T>): (ys: seq<T>)
    ensures forall y :: y in ys ==> y in xs && p(y)
  {
    if xs == [] then []
    else if p(xs[0]) then [xs[0]] + Filter(p, xs[1..])
    else Filter(p, xs[1..])
  }

  lemma {:induction false} FilterCounts<T>(p: T -> bool, xs: seq<T>, x: T)
    ensures multiset(Filter(p, xs))[x] == if p(x) then multiset(xs)[x] else 0
  {
    if xs != [] {
      assert xs == [xs[0]] + xs[1..];
      FilterCounts(p, xs[1..], x);
    }
  }

  lemma {:induction false} FilterKeeps<T>(p: T -> bool, xs: seq<T>, x: T)
    requires x in xs && p(x)
    ensures x in Filter(p, xs)
  {
    if xs[0] != x {
      assert xs == [xs[0]] + xs[1..];
      FilterKeeps(p, xs[1..], x);
    }
  }

  lemma {:induction false} FilterNone<T>(p: T -> bool, xs: seq<T>)
    requires forall x :: x in xs ==> !p(x)
    ensures Filter(p, xs) == []
  {
    if xs != [] {
      assert xs[0] in xs;
      FilterNone(p, xs[1..]);
    }
  }

  /** The same elements in any order. */
  ghost predicate Permuted<T>(a: seq<T>, b: seq<T>) { multiset(a) == multiset(b) }

  lemma FilterPermutes<T(!new)>(p: T -> bool, a: seq<T>, b: seq<T>)
    requires Permuted(a, b)
    ensures Permuted(Filter(p, a), Filter(p, b))
  {
    var fa, fb := multiset(Filter(p, a)), multiset(Filter(p, b));
    forall x ensures fa[x] == fb[x] {
      FilterCounts(p, a, x);
      FilterCounts(p, b, x);
      assert multiset(a)[x] == multiset(b)[x];
    }
    assert fa == fb;
  }

  lemma PermutedSingle<T>(a: seq<T>, b: seq<T>)
    requires Permuted(a, b)
    ensures |a| == |b|
    ensures |a| == 1 ==> a == b
  {
    assert |multiset(a)| == |a| && |multiset(b)| == |b|;
    if |a| == 1 {
      assert b[0] in multiset(b);
      assert a == [a[0]] && multiset(a) == multiset{a[0]};
    }
  }

  // ---------------------------------------------------------------- resolving a selector

  function NoPaneMatched(selector: string): AdapterError {
    CommandFailed("no pane matched selector `" + selector + "`")
  }

  function MultiplePanes(selector: string): AdapterError {
    CommandFailed("selector `" + selector + "` matched multiple panes")
  }

  predicate InTab(tabName: Option<string>, t: Target) {
    tabName.None? || t.tabName == tabName
  }

  function ResolveFromCandidates(tabName: Option<string>, rawSelector: string, candidates: seq<Target>)
    : (r: Result<Target, AdapterError>)
    ensures r.Ok? ==> r.value in candidates && InTab(tabName, r.value) && MatchesSelector(Trim(rawSelector), r.value)
  {
    var selector := Trim(rawSelector);
    var filtered := Filter((t: Target) => InTab(tabName, t) && MatchesSelector(selector, t), candidates);
    if |filtered| == 0 then Err(NoPaneMatched(selector))
    else if |filtered| == 1 then Ok(filtered[0])
    else Err(MultiplePanes(selector))
  }

  lemma ResolveIgnoresOrder(tabName: Option<string>, selector: string, a: seq<Target>, b: seq<Target>)
    requires Permuted(a, b)
    ensures ResolveFromCandidates(tabName, selector, a) == ResolveFromCandidates(tabName, selector, b)
  {
    var s := Trim(selector);
    var p := (t: Target) => InTab(tabName, t) && MatchesSelector(s, t);
    FilterPermutes(p, a, b);
    PermutedSingle(Filter(p, a), Filter(p, b));
  }

  // ---------------------------------------------------------------- attach by location

  datatype LocationIntent = LocationIntent(tabName: Option<string>, selector: Option<string>,
                                           commandContains: Option<string>, focused: Option<bool>)

  predicate MatchesIntent(intent: LocationIntent, t: Target) {
    && InTab(intent.tabName, t)
    && (intent.focused.Some? ==> t.focused == intent.focused.value)
    && (intent.selector.Some? ==> DiscoverMatchesSelector(intent.selector.value, t))
    && (intent.commandContains.Some? ==> HasTextIn(t.command, intent.commandContains.value))
  }

  predicate IsTerminal(t: Target) {
    t.paneId.Some? && "terminal:" <= t.paneId.value
  }

  datatype LocationError = NotFound | Ambiguous

  function ResolveUnique(intent: LocationIntent, candidates: seq<Target>): (r: Result<Target, LocationError>)
    ensures r.Ok? ==> r.value in candidates && MatchesIntent(intent, r.value)
  {
    var matches := Filter((t: Target) => MatchesIntent(intent, t), candidates);
    var terminals := Filter(IsTerminal, matches);
    if intent.selector.None? && |matches| > 1 && |terminals| == 1 then Ok(terminals[0])
    else if |matches| == 0 then Err(NotFound)
    else if |matches| == 1 then Ok(matches[0])
    else Err(Ambiguous)
  }

  lemma ResolveUniqueIgnoresOrder(intent: LocationIntent, a: seq<Target>, b: seq<Target>)
    requires Permuted(a, b)
    ensures ResolveUnique(intent, a) == ResolveUnique(intent, b)
  {
    var p := (t: Target) => MatchesIntent(intent, t);
    FilterPermutes(p, a, b);
    PermutedSingle(Filter(p, a), Filter(p, b));
    FilterPermutes(IsTerminal, Filter(p, a), Filter(p, b));
    PermutedSingle(Filter(IsTerminal, Filter(p, a)), Filter(IsTerminal, Filter(p, b)));
  }

  // ---------------------------------------------------------------- the pane a spawn created

  predicate IsNewTerminal(beforeIds: seq<string>, t: Target) {
    IsTerminal(t) && t.paneId.value !in beforeIds
  }

  predicate HasTitle(title: string, t: Target) { t.title == Some(title) }

  predicate HasCommand(command: string, t: Target) { t.command == Some(command) }

  /** What the registry remembers of a spawn whose pane is not known yet. */
  datatype SpawnHints = SpawnHints(beforeIds: seq<string>, tabName: Option<string>, title: Option<string>,
                                   command: Option<string>)

  function SpawnCandidates(hints: SpawnHints, after: seq<Target>): seq<Target> {
    Filter((t: Target) => InTab(hints.tabName, t), Filter((t: Target) => IsNewTerminal(hints.beforeIds, t), after))
  }

  function TitleMatches(title: Option<string>, candidates: seq<Target>): seq<Target> {
    if title.None? then [] else Filter((t: Target) => HasTitle(title.value, t), candidates)
  }

  function CommandMatches(command: Option<string>, candidates: seq<Target>): seq<Target> {
    if command.None? then [] else Filter((t: Target) => HasCommand(command.value, t), candidates)
  }

  /** The service's `resolve_spawn_candidate`. */
  function ResolveSpawnCandidate(hints: SpawnHints, after: seq<Target>): (r: Option<Target>)
    ensures r.Some? ==> r.value in after && IsNewTerminal(hints.beforeIds, r.value) && InTab(hints.tabName, r.value)
  {
    var candidates := SpawnCandidates(hints, after);
    var byTitle := TitleMatches(hints.title, candidates);
    var byCommand := CommandMatches(hints.command, candidates);
    if |byTitle| == 1 then Some(byTitle[0])
    else if |byCommand| == 1 then Some(byCommand[0])
    else if |candidates| == 1 then Some(candidates[0])
    else None
  }

  lemma MatchesPermute(title: Option<string>, command: Option<string>, a: seq<Target>, b: seq<Target>)
    requires Permuted(a, b)
    ensures Permuted(TitleMatches(title, a), TitleMatches(title, b))
    ensures Permuted(CommandMatches(command, a), CommandMatches(command, b))
  {
    if title.Some? { FilterPermutes((t: Target) => HasTitle(title.value, t), a, b); }
    if command.Some? { FilterPermutes((t: Target) => HasCommand(command.value, t), a, b); }
  }

  lemma ResolveSpawnCandidateIgnoresOrder(hints: SpawnHints, a: seq<Target>, b: seq<Target>)
    requires Permuted(a, b)
    ensures ResolveSpawnCandidate(hints, a) == ResolveSpawnCandidate(hints, b)
  {
    var isNew := (t: Target) => IsNewTerminal(hints.beforeIds, t);
    FilterPermutes(isNew, a, b);
    FilterPermutes((t: Target) => InTab(hints.tabName, t), Filter(isNew, a), Filter(isNew, b));
    var ca, cb := SpawnCandidates(hints, a), SpawnCandidates(hints, b);
    MatchesPermute(hints.title, hints.command, ca, cb);
    PermutedSingle(ca, cb);
    PermutedSingle(TitleMatches(hints.title, ca), TitleMatches(hints.title, cb));
    PermutedSingle(CommandMatches(hints.command, ca), CommandMatches(hints.command, cb));
  }

  /** The new terminals, narrowed to the requested tab when that leaves any. */
  function NarrowToTab(tabName: Option<string>, candidates: seq<Target>): seq<Target> {
    var inTab := Filter((t: Target) => InTab(tabName, t), candidates);
    if inTab != [] then inTab else candidates
  }

  /** The adapter's `resolve_spawned_target`. */
  function ResolveSpawnedTarget(hints: SpawnHints, after: seq<Target>, summary: string)
    : (r: Result<Target, AdapterError>)
    ensures r.Ok? ==> r.value in after && IsNewTerminal(hints.beforeIds, r.value)
  {
    var created := Filter((t: Target) => IsNewTerminal(hints.beforeIds, t), after);
    var candidates := NarrowToTab(hints.tabName, created);
    var byTitle := TitleMatches(hints.title, candidates);
    var byCommand := CommandMatches(Some(summary), candidates);
    if |byTitle| == 1 then Ok(byTitle[0])
    else if |byTitle| > 1 then
      Err(CommandFailed("spawned pane title `" + hints.title.value + "` matched multiple panes"))
    else if |byCommand| == 1 then Ok(byCommand[0])
    else if |byCommand| > 1 then Err(CommandFailed("spawn command matched multiple candidate panes"))
    else if |candidates| == 1 then Ok(candidates[0])
    else if |candidates| == 0 then Err(CommandFailed("no spawned pane could be resolved after creating a new tab"))
    else Err(CommandFailed("spawn matched multiple candidate panes"))
  }

  lemma ResolveSpawnedIgnoresOrder(hints: SpawnHints, a: seq<Target>, b: seq<Target>, summary: string)
    requires Permuted(a, b)
    ensures ResolveSpawnedTarget(hints, a, summary) == ResolveSpawnedTarget(hints, b, summary)
  {
    var isNew := (t: Target) => IsNewTerminal(hints.beforeIds, t);
    FilterPermutes(isNew, a, b);
    var fa, fb := Filter(isNew, a), Filter(isNew, b);
    var inTab := (t: Target) => InTab(hints.tabName, t);
    FilterPermutes(inTab, fa, fb);
    PermutedSingle(Filter(inTab, fa), Filter(inTab, fb));
    var ca, cb := NarrowToTab(hints.tabName, fa), NarrowToTab(hints.tabName, fb);
    assert Permuted(ca, cb);
    MatchesPermute(hints.title, Some(summary), ca, cb);
    PermutedSingle(ca, cb);
    PermutedSingle(TitleMatches(hints.title, ca), TitleMatches(hints.title, cb));
    PermutedSingle(CommandMatches(Some(summary), ca), CommandMatches(Some(summary), cb));
  }

  // ---------------------------------------------------------------- the output of `zellij run`

  /** `parse_spawn_output`: the pane id that was printed, in canonical form. */
  function ParseSpawnOutput(output: string, session: string, tabName: Option<string>, title: Option<string>)
    : Result<Target, AdapterError>
  {
    var raw := Trim(output);
    if raw == "" then Err(ParseError("selector output was empty"))
    else
      var stripped := if "id:" <= raw then raw[3..] else raw;
      var paneId := Replace(Replace(stripped, "terminal_", "terminal:"), "plugin_", "plugin:");
      Ok(Target("id:" + paneId, Some(paneId), session, tabName, title, None, false))
  }

  predicate EndsTight(s: string) { s == "" || !IsSpace(s[|s| - 1]) }

  lemma {:induction false} ReplaceEndsTight(s: string, from: string, to: string)
    requires from != "" && to != ""
    requires EndsTight(s) && EndsTight(to)
    ensures EndsTight(Replace(s, from, to))
    decreases |s|
  {
    if s != "" {
      var rest := if from <= s then s[|from|..] else s[1..];
      ReplaceEndsTight(rest, from, to);
      var head := if from <= s then to else [s[0]];
      assert Replace(s, from, to) == head + Replace(rest, from, to);
      if rest == "" { assert Replace(rest, from, to) == ""; } else { ReplaceNonEmpty(rest, from, to); }
    }
  }

  lemma ReplaceNonEmpty(s: string, from: string, to: string)
    requires from != "" && to != "" && s != ""
    ensures Replace(s, from, to) != ""
  {
  }

  lemma ParsedIsCanonical(output: string, session: string, tabName: Option<string>, title: Option<string>)
    requires ParseSpawnOutput(output, session, tabName, title).Ok?
    ensures Canonical(ParseSpawnOutput(output, session, tabName, title).value)
  {
    TrimIsTight(output);
    var raw := Trim(output);
    var stripped := if "id:" <= raw then raw[3..] else raw;
    assert EndsTight(stripped);
    ReplaceEndsTight(stripped, "terminal_", "terminal:");
    ReplaceEndsTight(Replace(stripped, "terminal_", "terminal:"), "plugin_", "plugin:");
  }

  function FindPane(targets: seq<Target>, paneId: string): (r: Option<Target>)
    ensures r.Some? ==> r.value in targets && r.value.paneId == Some(paneId)
    ensures r.None? ==> forall t :: t in targets ==> t.paneId != Some(paneId)
  {
    if targets == [] then None
    else if targets[0].paneId == Some(paneId) then Some(targets[0])
    else FindPane(targets[1..], paneId)
  }

  /** `resolve_spawned_target_from_run_output`. */
  function ResolveFromRunOutput(hints: SpawnHints, after: seq<Target>, stdout: string, summary: string, session: string)
    : Result<Target, AdapterError>
  {
    match ParseSpawnOutput(stdout, session, hints.tabName, hints.title)
    case Err(_) => ResolveSpawnedTarget(hints, after, summary)
    case Ok(parsed) =>
      match FindPane(after, parsed.paneId.value)
      case Some(t) => Ok(t)
      case None => Ok(parsed)
  }

  ghost predicate UniquePanes(targets: seq<Target>) {
    forall s, t :: s in targets && t in targets && s.paneId == t.paneId ==> s == t
  }

  lemma RunOutputIgnoresOrder(hints: SpawnHints, a: seq<Target>, b: seq<Target>, stdout: string, summary: string,
                              session: string)
    requires Permuted(a, b) && UniquePanes(a)
    ensures ResolveFromRunOutput(hints, a, stdout, summary, session)
            == ResolveFromRunOutput(hints, b, stdout, summary, session)
  {
    ResolveSpawnedIgnoresOrder(hints, a, b, summary);
    assert forall t :: t in a <==> t in multiset(a);
    assert forall t :: t in b <==> t in multiset(b);
  }

  /** A printed pane id always wins over the before/after comparison, whether or not it is listed. */
  lemma PrintedPaneWins(hints: SpawnHints, after: seq<Target>, stdout: string, summary: string, session: string)
    requires Trim(stdout) != ""
    ensures var parsed := ParseSpawnOutput(stdout, session, hints.tabName, hints.title).value;
            var r := ResolveFromRunOutput(hints, after, stdout, summary, session);
            && r.Ok? && r.value.paneId == parsed.paneId
            && (r.value in after || r.value == parsed)
  {
  }

  // ---------------------------------------------------------------- planning a spawn

  datatype SpawnTarget = NewTab | ExistingTab

  datatype SpawnPlanRequest = SpawnPlanRequest(spawnTarget: SpawnTarget, tabName: Option<string>, cwd: Option<string>,
                                               command: Option<string>, argv: Option<seq<string>>)

  datatype PreparedSpawn =
    | Reuse(target: Target)
    | Launch(actionArgs: Option<seq<string>>, command: seq<string>, commandViaAction: bool)
    | AmbiguousReuse(tabName: string, reusable: seq<Target>)

  function ShellName(command: Option<string>): Option<string> {
    if command.None? || Trim(command.value) == "" then None
    else Some(Lower(AfterLastSlash(FirstWord(Trim(command.value)))))
  }

  predicate IsShell(name: Option<string>) {
    name == Some("sh") || name == Some("bash") || name == Some("zsh") || name == Some("fish")
  }

  /** `resolve_spawn_command`; `split` stands for the shell-words library. */
  function ResolveSpawnCommand(request: SpawnPlanRequest, split: string -> Option<seq<string>>)
    : Result<seq<string>, AdapterError>
  {
    match (request.command, request.argv)
    case (Some(_), Some(_)) => Err(ParseError("spawn requires either `command` or `argv`, not both"))
    case (None, None) => Ok(["fish"])
    case (Some(command), None) =>
      if Trim(command) == "" then Err(ParseError("spawn `command` must not be blank"))
      else (match split(command)
            case None => Err(ParseError("invalid spawn command"))
            case Some(words) =>
              if words == [] then Err(ParseError("spawn `command` must produce at least one argv element"))
              else Ok(words))
    case (None, Some(argv)) =>
      if argv == [] then Err(ParseError("spawn `argv` must contain at least one element"))
      else if Trim(argv[0]) == "" then Err(ParseError("spawn `argv[0]` must not be blank"))
      else Ok(argv)
  }

  predicate IsDefaultFish(request: SpawnPlanRequest, command: seq<string>) {
    request.command.None? && request.argv.None? && command == ["fish"]
  }

  function NewTabArgs(request: SpawnPlanRequest): seq<string> {
    ["new-tab"]
    + (if request.tabName.Some? then ["--name", request.tabName.value] else [])
    + (if request.cwd.Some? then ["--cwd", request.cwd.value] else [])
  }

  predicate IsReusableShell(t: Target) { IsTerminal(t) && IsShell(ShellName(t.command)) }

  /** A pane the request may take over: a shell, or the only terminal of the tab when it runs
      nothing and the default shell was asked for. */
  predicate IsReusable(request: SpawnPlanRequest, command: seq<string>, terminals: nat, t: Target) {
    IsReusableShell(t)
    || (IsDefaultFish(request, command) && terminals == 1 && IsTerminal(t) && t.command.None?)
  }

  function TabTargets(tabName: string, existing: seq<Target>): seq<Target> {
    Filter((t: Target) => t.tabName == Some(tabName), existing)
  }

  function ReusableTargets(request: SpawnPlanRequest, command: seq<string>, tab: seq<Target>): seq<Target> {
    var terminals := |Filter(IsTerminal, tab)|;
    Filter((t: Target) => IsReusable(request, command, terminals, t), tab)
  }

  function PrepareSpawn(request: SpawnPlanRequest, existing: seq<Target>, split: string -> Option<seq<string>>)
    : Result<PreparedSpawn, AdapterError>
  {
    match ResolveSpawnCommand(request, split)
    case Err(e) => Err(e)
    case Ok(command) =>
      if request.spawnTarget.NewTab? then
        Ok(Launch(Some(NewTabArgs(request)), command, IsDefaultFish(request, command)))
      else if request.tabName.None? then
        Ok(Launch(None, command, false))
      else
        var tab := TabTargets(request.tabName.value, existing);
        var reusable := ReusableTargets(request, command, tab);
        if tab == [] then
          var viaAction := !IsDefaultFish(request, command);
          Ok(Launch(Some(NewTabArgs(request) + if viaAction then ["--"] + command else []), command, viaAction))
        else if |reusable| == 1 then Ok(Reuse(reusable[0]))
        else if |reusable| > 1 then Ok(AmbiguousReuse(request.tabName.value, reusable))
        else Ok(Launch(Some(["go-to-tab-name", request.tabName.value]), command, false))
  }

  /** The same plan, but for the order in which an ambiguous one lists the choices. */
  ghost predicate SamePlan(a: Result<PreparedSpawn, AdapterError>, b: Result<PreparedSpawn, AdapterError>) {
    a == b
    || (a.Ok? && b.Ok? && a.value.AmbiguousReuse? && b.value.AmbiguousReuse?
        && a.value.tabName == b.value.tabName && Permuted(a.value.reusable, b.value.reusable))
  }

  lemma PrepareSpawnIgnoresOrder(request: SpawnPlanRequest, a: seq<Target>, b: seq<Target>,
                                 split: string -> Option<seq<string>>)
    requires Permuted(a, b)
    ensures SamePlan(PrepareSpawn(request, a, split), PrepareSpawn(request, b, split))
  {
    if request.tabName.Some? && ResolveSpawnCommand(request, split).Ok? {
      var command, tabName := ResolveSpawnCommand(request, split).value, request.tabName.value;
      FilterPermutes((t: Target) => t.tabName == Some(tabName), a, b);
      var ta, tb := TabTargets(tabName, a), TabTargets(tabName, b);
      PermutedSingle(ta, tb);
      FilterPermutes(IsTerminal, ta, tb);
      PermutedSingle(Filter(IsTerminal, ta), Filter(IsTerminal, tb));
      var terminals := |Filter(IsTerminal, ta)|;
      FilterPermutes((t: Target) => IsReusable(request, command, terminals, t), ta, tb);
      PermutedSingle(ReusableTargets(request, command, ta), ReusableTargets(request, command, tb));
    }
  }

  /** How many terminals the named tab has, as the plan counts them. */
  function TerminalsIn(tabName: string, existing: seq<Target>): nat {
    |Filter(IsTerminal, TabTargets(tabName, existing))|
  }

  lemma ReusableIsOffered(request: SpawnPlanRequest, command: seq<string>, tabName: string, existing: seq<Target>,
                          s: Target)
    requires s in existing && s.tabName == Some(tabName)
    requires IsReusable(request, command, TerminalsIn(tabName, existing), s)
    ensures s in ReusableTargets(request, command, TabTargets(tabName, existing))
  {
    FilterKeeps((t: Target) => t.tabName == Some(tabName), existing, s);
    var tab := TabTargets(tabName, existing);
    var terminals := |Filter(IsTerminal, tab)|;
    FilterKeeps((t: Target) => IsReusable(request, command, terminals, t), tab, s);
  }

  /** A plan reuses a pane only when it is the one reusable terminal of the named tab. */
  lemma ReuseIsUnique(request: SpawnPlanRequest, existing: seq<Target>, split: string -> Option<seq<string>>, t: Target)
    requires PrepareSpawn(request, existing, split) == Ok(Reuse(t))
    ensures request.spawnTarget.ExistingTab? && request.tabName.Some? && t.tabName == request.tabName
    ensures t in existing && IsTerminal(t) && ResolveSpawnCommand(request, split).Ok?
    ensures var command := ResolveSpawnCommand(request, split).value;
            var terminals := TerminalsIn(request.tabName.value, existing);
            && IsReusable(request, command, terminals, t)
            && forall s :: s in existing && s.tabName == request.tabName && IsReusable(request, command, terminals, s)
                           ==> s == t
  {
    var command, tabName := ResolveSpawnCommand(request, split).value, request.tabName.value;
    var tab := TabTargets(tabName, existing);
    var reusable := ReusableTargets(request, command, tab);
    assert reusable[0] in reusable;
    forall s | s in existing && s.tabName == request.tabName
               && IsReusable(request, command, TerminalsIn(tabName, existing), s)
      ensures s == t
    {
      ReusableIsOffered(request, command, tabName, existing, s);
    }
  }
}
