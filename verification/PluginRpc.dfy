/** The plugin's request handlers: the focused pane, pane listings, selector resolution and
    delivery, none of which may depend on the iteration order of the pane map. */
module PluginRpc {
  import opened Text
  import opened Targets
  import opened Plugin
  import opened Selector

  // ---------------------------------------------------------------- iterating over the map

  /** `order` lists every key once: one of the orders in which a hash map may iterate. */
  ghost predicate Iterates(panes: map<string, PaneEntry>, order: seq<string>) {
    multiset(order) == multiset(panes.Keys)
  }

  function Values(panes: map<string, PaneEntry>, order: seq<string>): seq<PaneEntry> {
    if order == [] then []
    else (if order[0] in panes then [panes[order[0]]] else []) + Values(panes, order[1..])
  }

  lemma {:induction false} ValuesCount(panes: map<string, PaneEntry>, order: seq<string>, v: PaneEntry)
    requires KeyedById(panes)
    ensures multiset(Values(panes, order))[v]
            == if v.IdString() in panes && panes[v.IdString()] == v then multiset(order)[v.IdString()] else 0
  {
    if order != [] {
      ValuesCount(panes, order[1..], v);
      assert order == [order[0]] + order[1..];
    }
  }

  lemma ValuesPermuted(panes: map<string, PaneEntry>, a: seq<string>, b: seq<string>)
    requires KeyedById(panes) && Iterates(panes, a) && Iterates(panes, b)
    ensures Permuted(Values(panes, a), Values(panes, b))
  {
    var va, vb := multiset(Values(panes, a)), multiset(Values(panes, b));
    forall v ensures va[v] == vb[v] {
      ValuesCount(panes, a, v);
      ValuesCount(panes, b, v);
    }
    assert va == vb;
  }

  lemma ValueIsListed(panes: map<string, PaneEntry>, order: seq<string>, v: PaneEntry)
    requires KeyedById(panes) && Iterates(panes, order)
    ensures v in Values(panes, order) <==> v.IdString() in panes && panes[v.IdString()] == v
    ensures multiset(Values(panes, order))[v] <= 1
  {
    ValuesCount(panes, order, v);
    assert v in Values(panes, order) <==> v in multiset(Values(panes, order));
  }

  lemma ValuesAreUnique(panes: map<string, PaneEntry>, order: seq<string>)
    requires KeyedById(panes) && Iterates(panes, order)
    ensures UniqueIds(Values(panes, order))
  {
    forall p, q | p in Values(panes, order) && q in Values(panes, order) && p.IdString() == q.IdString()
      ensures p == q
    {
      ValueIsListed(panes, order, p);
      ValueIsListed(panes, order, q);
    }
  }

  // ---------------------------------------------------------------- sorting

  datatype SortKey = ById | ByKind | ByTab | ByTabAndKind

  /** `a` comes strictly before `b` in `sort_by_key`. */
  predicate Before(key: SortKey, a: PaneEntry, b: PaneEntry) {
    match key
    case ById => a.numericId < b.numericId
    case ByKind => KindBefore(a, b)
    case ByTab => a.tabIndex < b.tabIndex || (a.tabIndex == b.tabIndex && a.numericId < b.numericId)
    case ByTabAndKind => a.tabIndex < b.tabIndex || (a.tabIndex == b.tabIndex && KindBefore(a, b))
  }

  predicate KindBefore(a: PaneEntry, b: PaneEntry) {
    (!a.isPlugin && b.isPlugin) || (a.isPlugin == b.isPlugin && a.numericId < b.numericId)
  }

  function Insert(key: SortKey, e: PaneEntry, sorted: seq<PaneEntry>): seq<PaneEntry> {
    if sorted == [] || !Before(key, sorted[0], e) then [e] + sorted
    else [sorted[0]] + Insert(key, e, sorted[1..])
  }

  /** `sort_by_key`, which is stable. */
  function SortBy(key: SortKey, es: seq<PaneEntry>): seq<PaneEntry> {
    if es == [] then [] else Insert(key, es[0], SortBy(key, es[1..]))
  }

  ghost predicate IsSorted(key: SortKey, es: seq<PaneEntry>) {
    es == [] || (IsSorted(key, es[1..]) && forall e :: e in es[1..] ==> !Before(key, e, es[0]))
  }

  lemma NotBeforeChains(key: SortKey, a: PaneEntry, b: PaneEntry, c: PaneEntry)
    requires !Before(key, a, b) && !Before(key, b, c)
    ensures !Before(key, a, c)
  {
  }

  lemma {:induction false} InsertKeeps(key: SortKey, e: PaneEntry, sorted: seq<PaneEntry>)
    ensures multiset(Insert(key, e, sorted)) == multiset{e} + multiset(sorted)
    ensures forall x :: x in Insert(key, e, sorted) ==> x == e || x in sorted
    decreases |sorted|
  {
    if sorted != [] && Before(key, sorted[0], e) {
      InsertKeeps(key, e, sorted[1..]);
      assert sorted == [sorted[0]] + sorted[1..];
    }
  }

  lemma {:induction false} InsertSorts(key: SortKey, e: PaneEntry, sorted: seq<PaneEntry>)
    requires IsSorted(key, sorted)
    ensures IsSorted(key, Insert(key, e, sorted))
    decreases |sorted|
  {
    if sorted == [] {
    } else if Before(key, sorted[0], e) {
      InsertSorts(key, e, sorted[1..]);
      InsertKeeps(key, e, sorted[1..]);
      assert Insert(key, e, sorted)[1..] == Insert(key, e, sorted[1..]);
    } else {
      assert Insert(key, e, sorted)[1..] == sorted;
      forall x | x in sorted ensures !Before(key, x, e) {
        if x != sorted[0] {
          assert x in sorted[1..];
          NotBeforeChains(key, x, sorted[0], e);
        }
      }
    }
  }

  lemma {:induction false} SortBySorts(key: SortKey, es: seq<PaneEntry>)
    ensures IsSorted(key, SortBy(key, es))
    ensures multiset(SortBy(key, es)) == multiset(es)
  {
    if es != [] {
      SortBySorts(key, es[1..]);
      InsertSorts(key, es[0], SortBy(key, es[1..]));
      InsertKeeps(key, es[0], SortBy(key, es[1..]));
      TailOf(es);
    }
  }

  lemma SortByMembers(key: SortKey, es: seq<PaneEntry>)
    ensures forall x :: x in SortBy(key, es) <==> x in es
  {
    SortBySorts(key, es);
    assert forall x :: x in SortBy(key, es) <==> x in multiset(SortBy(key, es));
  }

  /** No two different panes tie under the key. */
  ghost predicate KeyDecides(key: SortKey, es: seq<PaneEntry>) {
    forall p, q :: p in es && q in es && !Before(key, p, q) && !Before(key, q, p) ==> p == q
  }

  lemma HeadIsLeast(key: SortKey, es: seq<PaneEntry>)
    requires IsSorted(key, es) && es != []
    ensures forall x :: x in es ==> !Before(key, x, es[0])
  {
    assert es == [es[0]] + es[1..];
  }

  lemma SortedHeadsAgree(key: SortKey, a: seq<PaneEntry>, b: seq<PaneEntry>)
    requires IsSorted(key, a) && IsSorted(key, b) && multiset(a) == multiset(b)
    requires KeyDecides(key, a) && a != [] && b != []
    ensures a[0] == b[0]
  {
    HeadIsLeast(key, a);
    HeadIsLeast(key, b);
    assert a[0] in multiset(a) && a[0] in multiset(b) && a[0] in b;
    assert b[0] in multiset(b) && b[0] in multiset(a) && b[0] in a;
  }

  lemma TailOf(a: seq<PaneEntry>)
    requires a != []
    ensures a == [a[0]] + a[1..]
    ensures multiset(a[1..]) == multiset(a) - multiset{a[0]}
  {
    assert a == [a[0]] + a[1..];
  }

  lemma {:induction false} SortedIsUnique(key: SortKey, a: seq<PaneEntry>, b: seq<PaneEntry>)
    requires IsSorted(key, a) && IsSorted(key, b) && multiset(a) == multiset(b)
    requires KeyDecides(key, a)
    ensures a == b
    decreases |a|
  {
    assert |multiset(a)| == |a| && |multiset(b)| == |b|;
    if a != [] {
      SortedHeadsAgree(key, a, b);
      TailOf(a);
      TailOf(b);
      SortedIsUnique(key, a[1..], b[1..]);
    }
  }

  lemma SortIgnoresOrder(key: SortKey, a: seq<PaneEntry>, b: seq<PaneEntry>)
    requires Permuted(a, b) && KeyDecides(key, a)
    ensures SortBy(key, a) == SortBy(key, b)
  {
    SortBySorts(key, a);
    SortBySorts(key, b);
    SortByMembers(key, a);
    SortedIsUnique(key, SortBy(key, a), SortBy(key, b));
  }

  // ---------------------------------------------------------------- the focused pane

  function FirstOf(es: seq<PaneEntry>): Option<PaneEntry> {
    if es == [] then None else Some(es[0])
  }

  function ActiveTab(tabs: seq<TabEntry>): Option<nat> {
    if tabs == [] then None else if tabs[0].active then Some(tabs[0].index) else ActiveTab(tabs[1..])
  }

  predicate IsFocusedIn(tab: Option<nat>, terminalsOnly: bool, p: PaneEntry) {
    p.focused && !p.suppressed && (terminalsOnly ==> !p.isPlugin) && (tab.Some? ==> p.tabIndex == tab.value)
  }

  function FocusedIn(values: seq<PaneEntry>, tab: Option<nat>, terminalsOnly: bool): seq<PaneEntry> {
    Filter((p: PaneEntry) => IsFocusedIn(tab, terminalsOnly, p), values)
  }

  function ClientPanes(values: seq<PaneEntry>, client: PaneId): seq<PaneEntry> {
    Filter((p: PaneEntry) => p.Id() == client && !p.suppressed, values)
  }

  /** The pane the current client is in when it can be shown; otherwise a focused pane, terminals
      first, of the active tab when there is one. */
  function FocusedPane(values: seq<PaneEntry>, tabs: seq<TabEntry>, client: Option<PaneId>): Option<PaneEntry> {
    var ofClient := if client.Some? then ClientPanes(values, client.value) else [];
    var tab := ActiveTab(tabs);
    var terminals := SortBy(if tab.Some? then ById else ByTab, FocusedIn(values, tab, true));
    var any := SortBy(if tab.Some? then ByKind else ByTabAndKind, FocusedIn(values, tab, false));
    if ofClient != [] then Some(ofClient[0])
    else if terminals != [] then Some(terminals[0])
    else FirstOf(any)
  }

  lemma FocusedKeysDecide(values: seq<PaneEntry>, tab: Option<nat>)
    requires UniqueIds(values)
    ensures KeyDecides(if tab.Some? then ById else ByTab, FocusedIn(values, tab, true))
    ensures KeyDecides(if tab.Some? then ByKind else ByTabAndKind, FocusedIn(values, tab, false))
  {
    forall p, q | p in values && q in values && p.Id() == q.Id() ensures p == q { IdStringIsInjective(p, q); }
  }

  lemma FocusedInIgnoresOrder(values: seq<PaneEntry>, other: seq<PaneEntry>, tab: Option<nat>)
    requires UniqueIds(values) && Permuted(values, other)
    ensures var k1 := if tab.Some? then ById else ByTab;
            SortBy(k1, FocusedIn(values, tab, true)) == SortBy(k1, FocusedIn(other, tab, true))
    ensures var k2 := if tab.Some? then ByKind else ByTabAndKind;
            SortBy(k2, FocusedIn(values, tab, false)) == SortBy(k2, FocusedIn(other, tab, false))
  {
    FocusedKeysDecide(values, tab);
    FilterPermutes((p: PaneEntry) => IsFocusedIn(tab, true, p), values, other);
    FilterPermutes((p: PaneEntry) => IsFocusedIn(tab, false, p), values, other);
    SortIgnoresOrder(if tab.Some? then ById else ByTab, FocusedIn(values, tab, true), FocusedIn(other, tab, true));
    SortIgnoresOrder(if tab.Some? then ByKind else ByTabAndKind, FocusedIn(values, tab, false),
                     FocusedIn(other, tab, false));
  }

  lemma ClientPanesIgnoreOrder(values: seq<PaneEntry>, other: seq<PaneEntry>, client: PaneId)
    requires UniqueIds(values) && Permuted(values, other)
    ensures FirstOf(ClientPanes(values, client)) == FirstOf(ClientPanes(other, client))
  {
    FilterPermutes((p: PaneEntry) => p.Id() == client && !p.suppressed, values, other);
    var a, b := ClientPanes(values, client), ClientPanes(other, client);
    PermutedSingle(a, b);
    if a != [] {
      assert a[0] in multiset(a) && b[0] in multiset(b);
      assert a[0] in values && b[0] in multiset(a) && b[0] in a && b[0] in values;
      IdStringIsInjective(a[0], b[0]);
    }
  }

  /** The focused pane is the same for every iteration order of the map. */
  lemma FocusedPaneIgnoresOrder(panes: map<string, PaneEntry>, a: seq<string>, b: seq<string>, tabs: seq<TabEntry>,
                                client: Option<PaneId>)
    requires KeyedById(panes) && Iterates(panes, a) && Iterates(panes, b)
    ensures FocusedPane(Values(panes, a), tabs, client) == FocusedPane(Values(panes, b), tabs, client)
  {
    var va, vb := Values(panes, a), Values(panes, b);
    ValuesPermuted(panes, a, b);
    ValuesAreUnique(panes, a);
    FocusedInIgnoresOrder(va, vb, ActiveTab(tabs));
    if client.Some? { ClientPanesIgnoreOrder(va, vb, client.value); }
  }

  lemma FirstSortedIsShown(key: SortKey, values: seq<PaneEntry>, tab: Option<nat>, terminalsOnly: bool)
    ensures var sorted := SortBy(key, FocusedIn(values, tab, terminalsOnly));
            sorted != [] ==> sorted[0] in values && !sorted[0].suppressed
  {
    SortByMembers(key, FocusedIn(values, tab, terminalsOnly));
  }

  lemma FocusedPaneIsAPane(values: seq<PaneEntry>, tabs: seq<TabEntry>, client: Option<PaneId>)
    ensures var r := FocusedPane(values, tabs, client); r.Some? ==> r.value in values && !r.value.suppressed
  {
    var tab := ActiveTab(tabs);
    FirstSortedIsShown(if tab.Some? then ById else ByTab, values, tab, true);
    FirstSortedIsShown(if tab.Some? then ByKind else ByTabAndKind, values, tab, false);
  }

  /** The focused pane is in the map and is never suppressed. */
  lemma FocusedPaneIsShown(panes: map<string, PaneEntry>, order: seq<string>, tabs: seq<TabEntry>, client: Option<PaneId>)
    requires KeyedById(panes) && Iterates(panes, order)
    requires FocusedPane(Values(panes, order), tabs, client).Some?
    ensures var p := FocusedPane(Values(panes, order), tabs, client).value;
            !p.suppressed && p.IdString() in panes && panes[p.IdString()] == p
  {
    FocusedPaneIsAPane(Values(panes, order), tabs, client);
    ValueIsListed(panes, order, FocusedPane(Values(panes, order), tabs, client).value);
  }

  // ---------------------------------------------------------------- listing

  datatype ListItem = ListItem(id: string, title: string, command: Option<string>, tabIndex: nat, tabName: string,
                               focused: bool, floating: bool, suppressed: bool)

  function ItemOf(p: PaneEntry, focusedId: Option<string>): ListItem {
    ListItem(p.IdString(), p.title, p.command, p.tabIndex, p.tabName, focusedId == Some(p.IdString()), p.floating,
             p.suppressed)
  }

  function ListPanes(values: seq<PaneEntry>, focusedId: Option<string>): (items: seq<ListItem>)
    ensures |items| == |values|
    ensures forall i :: 0 <= i < |items| ==> items[i] == ItemOf(values[i], focusedId)
  {
    seq(|values|, i requires 0 <= i < |values| => ItemOf(values[i], focusedId))
  }

  lemma {:induction false} ValuesAreDistinct(panes: map<string, PaneEntry>, order: seq<string>, i: nat, j: nat)
    requires KeyedById(panes) && Iterates(panes, order)
    requires i < j < |Values(panes, order)|
    ensures Values(panes, order)[i].IdString() != Values(panes, order)[j].IdString()
  {
    var values := Values(panes, order);
    if values[i].IdString() == values[j].IdString() {
      ValuesAreUnique(panes, order);
      assert values[i] in values && values[j] in values;
      ValueIsListed(panes, order, values[i]);
      TwiceListed(values, i, j);
      assert false;
    }
  }

  lemma TwiceListed(values: seq<PaneEntry>, i: nat, j: nat)
    requires i < j < |values| && values[i] == values[j]
    ensures multiset(values)[values[i]] >= 2
  {
    assert values == values[..j] + values[j..];
    assert values[..j][i] == values[i] && values[j..][0] == values[j];
    assert values[i] in multiset(values[..j]) && values[j] in multiset(values[j..]);
  }

  /** A listing marks at most one pane focused, and it is the focused pane. */
  lemma OnePaneIsFocused(panes: map<string, PaneEntry>, order: seq<string>, focusedId: Option<string>, i: nat, j: nat)
    requires KeyedById(panes) && Iterates(panes, order)
    requires i < |Values(panes, order)| && j < |Values(panes, order)|
    ensures var items := ListPanes(Values(panes, order), focusedId);
            items[i].focused && items[j].focused ==> i == j && focusedId == Some(items[i].id)
  {
    if i < j { ValuesAreDistinct(panes, order, i, j); }
    if j < i { ValuesAreDistinct(panes, order, j, i); }
  }

  // ---------------------------------------------------------------- resolving and sending

  predicate PatternMatches(pattern: StringPattern, text: string, regex: (string, string) -> bool) {
    match pattern
    case Substring(value) => HasText(Lower(text), Lower(value))
    case Regex(source) => regex(source, text)
  }

  predicate CommandMatchesPattern(pattern: StringPattern, p: PaneEntry, regex: (string, string) -> bool) {
    p.command.Some? && PatternMatches(pattern, p.command.value, regex)
  }

  function ResolveSelector(values: seq<PaneEntry>, tabs: seq<TabEntry>, client: Option<PaneId>, selector: PaneSelector,
                           regex: (string, string) -> bool): seq<PaneEntry>
  {
    match selector
    case Focused =>
      (match FocusedPane(values, tabs, client) case Some(p) => [p] case None => [])
    case Id(paneType, id) =>
      Filter((p: PaneEntry) => p.numericId == id && p.isPlugin == paneType.PluginPane?, values)
    case Title(pattern) =>
      Filter((p: PaneEntry) => PatternMatches(pattern, p.title, regex), values)
    case Command(pattern) =>
      Filter((p: PaneEntry) => CommandMatchesPattern(pattern, p, regex), values)
    case TabIndex(tab, index) =>
      var sorted := SortBy(ByKind, Filter((p: PaneEntry) => p.tabIndex == tab, values));
      if index < |sorted| then [sorted[index]] else []
  }

  lemma TabPanesIgnoreOrder(values: seq<PaneEntry>, other: seq<PaneEntry>, tab: nat)
    requires UniqueIds(values) && Permuted(values, other)
    ensures SortBy(ByKind, Filter((p: PaneEntry) => p.tabIndex == tab, values))
            == SortBy(ByKind, Filter((p: PaneEntry) => p.tabIndex == tab, other))
  {
    var inTab := (p: PaneEntry) => p.tabIndex == tab;
    forall p, q | p in values && q in values && p.Id() == q.Id() ensures p == q { IdStringIsInjective(p, q); }
    FilterPermutes(inTab, values, other);
    SortIgnoresOrder(ByKind, Filter(inTab, values), Filter(inTab, other));
  }

  lemma FilteredIgnoresOrder(va: seq<PaneEntry>, vb: seq<PaneEntry>, tabs: seq<TabEntry>, client: Option<PaneId>,
                             selector: PaneSelector, regex: (string, string) -> bool)
    requires Permuted(va, vb) && !selector.Focused? && !selector.TabIndex?
    ensures Permuted(ResolveSelector(va, tabs, client, selector, regex),
                     ResolveSelector(vb, tabs, client, selector, regex))
  {
    match selector
    case Id(paneType, id) =>
      FilterPermutes((p: PaneEntry) => p.numericId == id && p.isPlugin == paneType.PluginPane?, va, vb);
    case Title(pattern) => FilterPermutes((p: PaneEntry) => PatternMatches(pattern, p.title, regex), va, vb);
    case Command(pattern) => FilterPermutes((p: PaneEntry) => CommandMatchesPattern(pattern, p, regex), va, vb);
  }

  datatype RpcErrorCode = InvalidParams | NoMatch | AmbiguousMatch

  function Ids(panes: seq<PaneEntry>): seq<PaneId> {
    if panes == [] then [] else [panes[0].Id()] + Ids(panes[1..])
  }

  /** `handle_pane_send`: the panes the text is written to. */
  function HandlePaneSend(values: seq<PaneEntry>, tabs: seq<TabEntry>, client: Option<PaneId>, selectorText: string,
                          all: bool, validRegex: string -> bool, regex: (string, string) -> bool)
    : Result<seq<PaneId>, RpcErrorCode>
  {
    match ParseSelector(selectorText, validRegex)
    case Err(_) => Err(InvalidParams)
    case Ok(selector) =>
      var panes := ResolveSelector(values, tabs, client, selector, regex);
      if panes == [] then Err(NoMatch)
      else if |panes| > 1 && !all then Err(AmbiguousMatch)
      else Ok(Ids(panes))
  }

  /** An id selector resolves to the one pane with that id, or to nothing when it is gone. */
  lemma IdResolvesExactly(panes: map<string, PaneEntry>, order: seq<string>, tabs: seq<TabEntry>, client: Option<PaneId>,
                          p: PaneEntry, regex: (string, string) -> bool)
    requires KeyedById(panes) && Iterates(panes, order)
    ensures ResolveSelector(Values(panes, order), tabs, client, Id(PaneTypeOf(p), p.numericId), regex)
            == if p.IdString() in panes then [panes[p.IdString()]] else []
  {
    var values := Values(panes, order);
    var hasId := (q: PaneEntry) => q.numericId == p.numericId && q.isPlugin == PaneTypeOf(p).PluginPane?;
    forall q | q in values
      ensures hasId(q) <==> q.IdString() == p.IdString()
      ensures q.IdString() in panes && q == panes[q.IdString()]
    {
      IdStringIsInjective(p, q);
      ValueIsListed(panes, order, q);
    }
    if p.IdString() in panes {
      var q := panes[p.IdString()];
      ValueIsListed(panes, order, q);
      FilterCounts(hasId, values, q);
      ValuesCount(panes, order, q);
      assert p.IdString() in multiset(panes.Keys);
      AllOne(Filter(hasId, values), q);
    } else {
      FilterNone(hasId, values);
    }
  }

  function PaneWithId(paneType: PaneType, id: u32): PaneEntry {
    PaneEntry(id, paneType.PluginPane?, "", None, 0, "", false, false, false)
  }

  lemma IdFindsOne(panes: map<string, PaneEntry>, a: seq<string>, b: seq<string>, tabs: seq<TabEntry>,
                   client: Option<PaneId>, paneType: PaneType, id: u32, regex: (string, string) -> bool)
    requires KeyedById(panes) && Iterates(panes, a) && Iterates(panes, b)
    ensures var ra := ResolveSelector(Values(panes, a), tabs, client, Id(paneType, id), regex);
            ra == ResolveSelector(Values(panes, b), tabs, client, Id(paneType, id), regex) && |ra| <= 1
  {
    var p := PaneWithId(paneType, id);
    IdResolvesExactly(panes, a, tabs, client, p, regex);
    IdResolvesExactly(panes, b, tabs, client, p, regex);
  }

  lemma FocusedFindsOne(panes: map<string, PaneEntry>, a: seq<string>, b: seq<string>, tabs: seq<TabEntry>,
                        client: Option<PaneId>, regex: (string, string) -> bool)
    requires KeyedById(panes) && Iterates(panes, a) && Iterates(panes, b)
    ensures var ra := ResolveSelector(Values(panes, a), tabs, client, Focused, regex);
            ra == ResolveSelector(Values(panes, b), tabs, client, Focused, regex) && |ra| <= 1
  {
    FocusedPaneIgnoresOrder(panes, a, b, tabs, client);
  }

  lemma TabFindsOne(panes: map<string, PaneEntry>, a: seq<string>, b: seq<string>, tabs: seq<TabEntry>,
                    client: Option<PaneId>, tab: nat, index: nat, regex: (string, string) -> bool)
    requires KeyedById(panes) && Iterates(panes, a) && Iterates(panes, b)
    ensures var ra := ResolveSelector(Values(panes, a), tabs, client, TabIndex(tab, index), regex);
            ra == ResolveSelector(Values(panes, b), tabs, client, TabIndex(tab, index), regex) && |ra| <= 1
  {
    ValuesPermuted(panes, a, b);
    ValuesAreUnique(panes, a);
    TabPanesIgnoreOrder(Values(panes, a), Values(panes, b), tab);
  }

  predicate IsPattern(selector: PaneSelector) { selector.Title? || selector.Command? }

  /** Every selector finds the same panes in every iteration order of the map, and every selector
      but the two pattern ones finds at most one. */
  lemma ResolveSelectorIgnoresOrder(panes: map<string, PaneEntry>, a: seq<string>, b: seq<string>, tabs: seq<TabEntry>,
                                    client: Option<PaneId>, selector: PaneSelector, regex: (string, string) -> bool)
    requires KeyedById(panes) && Iterates(panes, a) && Iterates(panes, b)
    ensures var ra := ResolveSelector(Values(panes, a), tabs, client, selector, regex);
            var rb := ResolveSelector(Values(panes, b), tabs, client, selector, regex);
            Permuted(ra, rb) && (!IsPattern(selector) ==> ra == rb && |ra| <= 1)
  {
    match selector
    case Focused => FocusedFindsOne(panes, a, b, tabs, client, regex);
    case Id(paneType, id) => IdFindsOne(panes, a, b, tabs, client, paneType, id, regex);
    case TabIndex(tab, index) => TabFindsOne(panes, a, b, tabs, client, tab, index, regex);
    case _ =>
      ValuesPermuted(panes, a, b);
      FilteredIgnoresOrder(Values(panes, a), Values(panes, b), tabs, client, selector, regex);
  }

  lemma AllOne(es: seq<PaneEntry>, q: PaneEntry)
    requires forall e :: e in es ==> e == q
    requires multiset(es)[q] == 1
    ensures es == [q]
  {
    assert q in multiset(es);
    if |es| > 1 {
      assert es[0] in es && es[1] in es;
      TwiceListed(es, 0, 1);
      assert false;
    }
  }

  lemma SendById(panes: map<string, PaneEntry>, order: seq<string>, tabs: seq<TabEntry>, client: Option<PaneId>,
                 p: PaneEntry, text: string, all: bool, validRegex: string -> bool, regex: (string, string) -> bool)
    requires KeyedById(panes) && Iterates(panes, order)
    requires ParseSelector(text, validRegex) == Ok(Id(PaneTypeOf(p), p.numericId))
    ensures HandlePaneSend(Values(panes, order), tabs, client, text, all, validRegex, regex)
            == if p.IdString() in panes then Ok([p.Id()]) else Err(NoMatch)
  {
    IdResolvesExactly(panes, order, tabs, client, p, regex);
    if p.IdString() in panes {
      var q := panes[p.IdString()];
      IdStringIsInjective(p, q);
      assert q.IdString() == p.IdString();
      assert [q][1..] == [] && Ids([q]) == [q.Id()];
    }
  }

  /** From a pane to its id string, to the listed target, to the stored selector, and back: text sent
      to the selector reaches exactly that pane, and after the pane is gone it reaches none. */
  lemma DeliveryRoundTrip(panes: map<string, PaneEntry>, order: seq<string>, tabs: seq<TabEntry>, client: Option<PaneId>,
                          p: PaneEntry, session: string, all: bool, validRegex: string -> bool,
                          regex: (string, string) -> bool)
    requires KeyedById(panes) && Iterates(panes, order)
    ensures EndsTight(p.IdString())
    ensures var listed := Pane(p.IdString(), Some(p.tabName), Some(p.title), p.command, false);
            var outcome := if p.IdString() in panes then Ok([p.Id()]) else Err(NoMatch);
            var values := Values(panes, order);
            && outcome
               == HandlePaneSend(values, tabs, client, PaneToTarget(listed, session).selector, all, validRegex, regex)
            && HandlePaneSend(values, tabs, client, p.IdString(), all, validRegex, regex) == outcome
  {
    IdStringEndsTight(p);
    IdFormParses(p, validRegex);
    ShorthandParses(p, validRegex);
    SendById(panes, order, tabs, client, p, "id:" + p.IdString(), all, validRegex, regex);
    SendById(panes, order, tabs, client, p, p.IdString(), all, validRegex, regex);
  }

  // ---------------------------------------------------------------- action pane ids

  /** `selector_to_action_pane_id`. */
  function SelectorToActionPaneId(selector: string): Option<string> {
    if "id:terminal:" <= selector then Some("terminal_" + selector[12..])
    else if "id:plugin:" <= selector then Some("plugin_" + selector[10..])
    else if "terminal:" <= selector then Some("terminal_" + selector[9..])
    else if "plugin:" <= selector then Some("plugin_" + selector[7..])
    else if "id:" <= selector && AllDigits(selector[3..]) then Some(selector[3..])
    else None
  }

  lemma {:induction false} ReplaceKeeps(s: string, from: string, to: string)
    requires from != "" && from[0] !in s
    ensures Replace(s, from, to) == s
  {
    if s != "" {
      assert s[0] in s && s == [s[0]] + s[1..];
      ReplaceKeeps(s[1..], from, to);
    }
  }

  lemma ReplaceHead(from: string, to: string, rest: string)
    requires from != "" && from[0] !in rest
    ensures Replace(from + rest, from, to) == to + rest
  {
    ReplaceKeeps(rest, from, to);
    assert (from + rest)[|from|..] == rest;
  }

  lemma UnderscoreIdParses(word: string, digits: string, session: string, tabName: Option<string>, title: Option<string>)
    requires word == "terminal" || word == "plugin"
    requires digits != "" && AllDigits(digits)
    ensures ParseSpawnOutput(word + ("_" + digits), session, tabName, title)
            == Ok(Target("id:" + (word + (":" + digits)), Some(word + (":" + digits)), session, tabName, title, None,
                            false))
  {
    var s, d := word + ("_" + digits), digits;
    assert IsDigit(d[|d| - 1]) && s[|s| - 1] == d[|d| - 1];
    TrimTight(s);
    assert s[0] == word[0];
    assert forall i :: 0 <= i < |d| ==> IsDigit(d[i]);
    assert 't' !in d && 'p' !in d;
    if word == "terminal" {
      assert s == "terminal_" + d && word + (":" + d) == "terminal:" + d;
      ReplaceHead("terminal_", "terminal:", d);
      ReplaceKeeps("terminal:" + d, "plugin_", "plugin:");
    } else {
      assert s == "plugin_" + d && word + (":" + d) == "plugin:" + d;
      ReplaceKeeps("plugin_" + d, "terminal_", "terminal:");
      ReplaceHead("plugin_", "plugin:", d);
    }
  }

  lemma ActionIdOf(word: string, digits: string)
    requires word == "terminal" || word == "plugin"
    ensures SelectorToActionPaneId("id:" + (word + (":" + digits))) == Some(word + ("_" + digits))
  {
    var s := "id:" + (word + (":" + digits));
    assert s[|word| + 4..] == digits && s[3] == word[0];
    if word == "terminal" {
      assert s == "id:terminal:" + digits && word + ("_" + digits) == "terminal_" + digits;
    } else {
      assert s == "id:plugin:" + digits && word + ("_" + digits) == "plugin_" + digits;
      assert "id:terminal:"[3] != s[3];
    }
  }

  /** A stored selector, turned into the id that zellij's actions take and printed back by
      `zellij run`, is the same selector again. */
  lemma ActionIdRoundTrip(p: PaneEntry, session: string, tabName: Option<string>, title: Option<string>)
    ensures var actionId := SelectorToActionPaneId("id:" + p.IdString());
            && actionId.Some?
            && ParseSpawnOutput(actionId.value, session, tabName, title).Ok?
            && ParseSpawnOutput(actionId.value, session, tabName, title).value.selector == "id:" + p.IdString()
  {
    var word := if p.isPlugin then "plugin" else "terminal";
    ActionIdOf(word, Decimal(p.numericId));
    UnderscoreIdParses(word, Decimal(p.numericId), session, tabName, title);
  }
}
