/** The zrpc plugin: its pane map, the focused pane, selectors, and the way from a pane to its
    id string and back. */
module Plugin {
  import opened Text
  import opened Targets

  type u32 = n: nat | n < 0x1_0000_0000

  datatype PaneId = Terminal(id: u32) | Plugin(id: u32)

  /** A pane as zellij reports it. */
  datatype PaneInfo = PaneInfo(id: u32, isPlugin: bool, title: string, terminalCommand: Option<string>,
                               isFocused: bool, isFloating: bool, isSuppressed: bool)

  datatype PaneEntry = PaneEntry(numericId: u32, isPlugin: bool, title: string, command: Option<string>,
                                 tabIndex: nat, tabName: string, focused: bool, floating: bool, suppressed: bool) {
    function IdString(): string {
      (if isPlugin then "plugin" else "terminal") + (":" + Decimal(numericId))
    }

    function Id(): PaneId {
      if isPlugin then Plugin(numericId) else Terminal(numericId)
    }
  }

  datatype TabInfo = TabInfo(position: nat, name: string, active: bool)
  datatype TabEntry = TabEntry(index: nat, name: string, active: bool)
  datatype ClientInfo = ClientInfo(clientId: nat, paneId: PaneId, isCurrentClient: bool)

  function DefaultTabName(index: nat): string { "Tab " + Decimal(index) }

  // ---------------------------------------------------------------- id strings

  /** The id string names one pane. */
  lemma IdStringIsInjective(p: PaneEntry, q: PaneEntry)
    ensures p.IdString() == q.IdString() <==> p.Id() == q.Id()
  {
    if p.IdString() == q.IdString() {
      assert p.IdString()[0] == if p.isPlugin then 'p' else 't';
      assert q.IdString()[0] == if q.isPlugin then 'p' else 't';
      var n := if p.isPlugin then 7 else 9;
      assert p.IdString()[n..] == Decimal(p.numericId) && q.IdString()[n..] == Decimal(q.numericId);
      ValueOfDecimal(p.numericId);
      ValueOfDecimal(q.numericId);
    }
  }

  lemma IdStringEndsTight(p: PaneEntry)
    ensures EndsTight(p.IdString())
  {
    var d := Decimal(p.numericId);
    assert IsDigit(d[|d| - 1]) && p.IdString()[|p.IdString()| - 1] == d[|d| - 1];
  }

  // ---------------------------------------------------------------- the pane map

  function TabNameAt(tabs: seq<TabEntry>, index: nat): string {
    if index < |tabs| then tabs[index].name else DefaultTabName(index)
  }

  function EntryOf(tabs: seq<TabEntry>, tabIndex: nat, pane: PaneInfo): PaneEntry {
    PaneEntry(pane.id, pane.isPlugin, pane.title, pane.terminalCommand, tabIndex, TabNameAt(tabs, tabIndex),
              pane.isFocused, pane.isFloating, pane.isSuppressed)
  }

  /** The entries of one tab, then of all tabs, in the order in which the manifest yields them. */
  function TabEntries(tabs: seq<TabEntry>, tabIndex: nat, panes: seq<PaneInfo>): seq<PaneEntry> {
    if panes == [] then []
    else TabEntries(tabs, tabIndex, panes[..|panes| - 1]) + [EntryOf(tabs, tabIndex, panes[|panes| - 1])]
  }

  function Entries(tabs: seq<TabEntry>, manifest: seq<(nat, seq<PaneInfo>)>): seq<PaneEntry> {
    if manifest == [] then []
    else
      var last := manifest[|manifest| - 1];
      Entries(tabs, manifest[..|manifest| - 1]) + TabEntries(tabs, last.0, last.1)
  }

  /** The map after the entries have been inserted one by one. */
  function PaneMap(entries: seq<PaneEntry>): map<string, PaneEntry> {
    if entries == [] then map[]
    else
      var last := entries[|entries| - 1];
      PaneMap(entries[..|entries| - 1])[last.IdString() := last]
  }

  lemma PaneMapGrows(entries: seq<PaneEntry>, entry: PaneEntry)
    ensures PaneMap(entries + [entry]) == PaneMap(entries)[entry.IdString() := entry]
  {
    assert (entries + [entry])[..|entries|] == entries;
  }

  lemma TabEntriesGrow(tabs: seq<TabEntry>, tabIndex: nat, infos: seq<PaneInfo>, j: nat, before: seq<PaneEntry>)
    requires j < |infos|
    ensures before + TabEntries(tabs, tabIndex, infos[..j + 1])
            == before + TabEntries(tabs, tabIndex, infos[..j]) + [EntryOf(tabs, tabIndex, infos[j])]
  {
    assert infos[..j + 1][..j] == infos[..j];
  }

  lemma EntriesGrow(tabs: seq<TabEntry>, manifest: seq<(nat, seq<PaneInfo>)>, i: nat)
    requires i < |manifest|
    ensures Entries(tabs, manifest[..i + 1])
            == Entries(tabs, manifest[..i]) + TabEntries(tabs, manifest[i].0, manifest[i].1)
  {
    assert manifest[..i + 1][..i] == manifest[..i];
  }

  ghost predicate KeyedById(panes: map<string, PaneEntry>) {
    forall k :: k in panes ==> panes[k].IdString() == k
  }

  lemma {:induction false} PaneMapIsKeyed(entries: seq<PaneEntry>)
    ensures KeyedById(PaneMap(entries))
    ensures forall k :: k in PaneMap(entries) ==> PaneMap(entries)[k] in entries
    ensures forall e :: e in entries ==> e.IdString() in PaneMap(entries)
  {
    if entries != [] {
      var front, last := entries[..|entries| - 1], entries[|entries| - 1];
      assert entries == front + [last];
      PaneMapIsKeyed(front);
    }
  }

  ghost predicate UniqueIds(entries: seq<PaneEntry>) {
    forall p, q :: p in entries && q in entries && p.IdString() == q.IdString() ==> p == q
  }

  /** When no id is reported twice, the map does not depend on the order of the manifest. */
  lemma PaneMapIgnoresOrder(a: seq<PaneEntry>, b: seq<PaneEntry>)
    requires UniqueIds(a)
    requires forall e :: e in a <==> e in b
    ensures PaneMap(a) == PaneMap(b)
  {
    PaneMapIsKeyed(a);
    PaneMapIsKeyed(b);
  }

  class PluginState {
    var panes: map<string, PaneEntry>
    var tabs: seq<TabEntry>
    var currentClientPaneId: Option<PaneId>

    constructor ()
      ensures panes == map[] && tabs == [] && currentClientPaneId == None
    {
      panes, tabs, currentClientPaneId := map[], [], None;
    }

    method UpdatePanes(manifest: seq<(nat, seq<PaneInfo>)>)
      modifies this`panes
      ensures panes == PaneMap(Entries(tabs, manifest))
    {
      panes := map[];
      ghost var done: seq<PaneEntry> := [];
      for i := 0 to |manifest|
        invariant done == Entries(tabs, manifest[..i]) && panes == PaneMap(done)
      {
        EntriesGrow(tabs, manifest, i);
        done := UpdateTabPanes(manifest[i].0, manifest[i].1, done);
      }
      assert manifest[..|manifest|] == manifest;
    }

    method UpdateTabPanes(tabIndex: nat, infos: seq<PaneInfo>, ghost before: seq<PaneEntry>)
      returns (ghost done: seq<PaneEntry>)
      requires panes == PaneMap(before)
      modifies this`panes
      ensures done == before + TabEntries(tabs, tabIndex, infos) && panes == PaneMap(done)
    {
      var tabName := if tabIndex < |tabs| then tabs[tabIndex].name else DefaultTabName(tabIndex);
      done := before;
      for j := 0 to |infos|
        invariant done == before + TabEntries(tabs, tabIndex, infos[..j]) && panes == PaneMap(done)
      {
        var pane := infos[j];
        var entry := PaneEntry(pane.id, pane.isPlugin, pane.title, pane.terminalCommand, tabIndex, tabName,
                               pane.isFocused, pane.isFloating, pane.isSuppressed);
        var key := entry.IdString();
        panes := panes[key := entry];
        PaneMapGrows(done, entry);
        TabEntriesGrow(tabs, tabIndex, infos, j, before);
        done := done + [entry];
      }
      assert infos[..|infos|] == infos;
    }

    method UpdateTabs(infos: seq<TabInfo>)
      modifies this`tabs
      ensures tabs == TabTable(infos)
    {
      var maxPosition := 0;
      for i := 0 to |infos|
        invariant maxPosition == MaxPosition(infos[..i])
      {
        assert infos[..i + 1][..i] == infos[..i];
        if infos[i].position > maxPosition {
          maxPosition := infos[i].position;
        }
      }
      assert infos[..|infos|] == infos;
      var entries: seq<Option<TabEntry>> := seq(maxPosition + 1, _ => None);
      for i := 0 to |infos|
        invariant |entries| == maxPosition + 1
        invariant forall k :: 0 <= k < |entries| ==> entries[k] == EntryAt(infos[..i], k)
      {
        assert infos[..i + 1][..i] == infos[..i];
        PositionIsBounded(infos, i);
        entries := entries[infos[i].position := Some(TabEntry(infos[i].position, infos[i].name, infos[i].active))];
      }
      assert infos[..|infos|] == infos;
      tabs := [];
      for k := 0 to |entries|
        invariant |tabs| == k
        invariant forall n :: 0 <= n < k ==> tabs[n] == TabOrDefault(EntryAt(infos, n), n)
      {
        tabs := tabs + [TabOrDefault(entries[k], k)];
      }
    }

    method UpdateClients(clients: seq<ClientInfo>)
      modifies this`currentClientPaneId
      ensures currentClientPaneId == ClientPane(clients)
    {
      if clients == [] {
        currentClientPaneId := None;
        return;
      }
      var best := 0;
      for i := 0 to |clients|
        invariant forall k :: 0 <= k < i ==> !clients[k].isCurrentClient
        invariant 0 <= best < |clients| && (if i == 0 then best == 0 else best < i)
        invariant forall k :: 0 <= k < i ==> clients[best].clientId <= clients[k].clientId
        invariant forall k :: 0 <= k < best ==> clients[best].clientId < clients[k].clientId
      {
        if clients[i].isCurrentClient {
          currentClientPaneId := Some(clients[i].paneId);
          FirstCurrent(clients, i);
          return;
        }
        if clients[i].clientId < clients[best].clientId {
          best := i;
        }
      }
      currentClientPaneId := Some(clients[best].paneId);
      FirstLeast(clients, best);
    }
  }

  // ---------------------------------------------------------------- tabs and clients

  function MaxPosition(infos: seq<TabInfo>): nat {
    if infos == [] then 0
    else
      var front := MaxPosition(infos[..|infos| - 1]);
      var last := infos[|infos| - 1].position;
      if last > front then last else front
  }

  lemma {:induction false} PositionIsBounded(infos: seq<TabInfo>, i: nat)
    requires i < |infos|
    ensures infos[i].position <= MaxPosition(infos)
  {
    if i < |infos| - 1 { PositionIsBounded(infos[..|infos| - 1], i); }
  }

  /** The last tab reported at a position. */
  function EntryAt(infos: seq<TabInfo>, index: nat): Option<TabEntry> {
    if infos == [] then None
    else
      var last := infos[|infos| - 1];
      if last.position == index then Some(TabEntry(index, last.name, last.active))
      else EntryAt(infos[..|infos| - 1], index)
  }

  function TabOrDefault(entry: Option<TabEntry>, index: nat): TabEntry {
    if entry.Some? then entry.value else TabEntry(index, DefaultTabName(index), false)
  }

  /** The tab table: position i holds the last tab reported there, or a default. */
  function TabTable(infos: seq<TabInfo>): (tabs: seq<TabEntry>)
    ensures |tabs| == MaxPosition(infos) + 1
  {
    seq(MaxPosition(infos) + 1, i requires i >= 0 => TabOrDefault(EntryAt(infos, i), i))
  }

  /** Every tab sits at its own index, so a pane's tab name is looked up under its tab index. */
  lemma {:induction false} TabsSitAtTheirIndex(infos: seq<TabInfo>, i: nat)
    requires i < |TabTable(infos)|
    ensures TabTable(infos)[i].index == i
  {
    EntrySitsAtIndex(infos, i);
  }

  lemma {:induction false} EntrySitsAtIndex(infos: seq<TabInfo>, i: nat)
    ensures EntryAt(infos, i).Some? ==> EntryAt(infos, i).value.index == i
  {
    if infos != [] { EntrySitsAtIndex(infos[..|infos| - 1], i); }
  }

  function FindCurrent(clients: seq<ClientInfo>): Option<ClientInfo> {
    if clients == [] then None else if clients[0].isCurrentClient then Some(clients[0]) else FindCurrent(clients[1..])
  }

  /** `min_by_key(client_id)`: the first of the least. */
  function LeastClient(clients: seq<ClientInfo>): ClientInfo
    requires clients != []
  {
    if |clients| == 1 then clients[0]
    else
      var rest := LeastClient(clients[1..]);
      if clients[0].clientId <= rest.clientId then clients[0] else rest
  }

  function ClientPane(clients: seq<ClientInfo>): Option<PaneId> {
    if clients == [] then None
    else if FindCurrent(clients).Some? then Some(FindCurrent(clients).value.paneId)
    else Some(LeastClient(clients).paneId)
  }

  lemma {:induction false} FirstCurrent(clients: seq<ClientInfo>, i: nat)
    requires i < |clients| && clients[i].isCurrentClient
    requires forall k :: 0 <= k < i ==> !clients[k].isCurrentClient
    ensures FindCurrent(clients) == Some(clients[i])
  {
    if i > 0 { FirstCurrent(clients[1..], i - 1); }
  }

  lemma {:induction false} NoCurrent(clients: seq<ClientInfo>)
    requires forall k :: 0 <= k < |clients| ==> !clients[k].isCurrentClient
    ensures FindCurrent(clients).None?
  {
    if clients != [] { NoCurrent(clients[1..]); }
  }

  lemma {:induction false} LeastIs(clients: seq<ClientInfo>, best: nat)
    requires best < |clients|
    requires forall k :: 0 <= k < |clients| ==> clients[best].clientId <= clients[k].clientId
    requires forall k :: 0 <= k < best ==> clients[best].clientId < clients[k].clientId
    ensures LeastClient(clients) == clients[best]
  {
    if |clients| > 1 {
      if best > 0 {
        LeastIs(clients[1..], best - 1);
      } else {
        LeastIsMember(clients[1..]);
      }
    }
  }

  lemma {:induction false} LeastIsMember(clients: seq<ClientInfo>)
    requires clients != []
    ensures LeastClient(clients) in clients
  {
    if |clients| > 1 { LeastIsMember(clients[1..]); }
  }

  lemma FirstLeast(clients: seq<ClientInfo>, best: nat)
    requires best < |clients|
    requires forall k :: 0 <= k < |clients| ==> !clients[k].isCurrentClient
    requires forall k :: 0 <= k < |clients| ==> clients[best].clientId <= clients[k].clientId
    requires forall k :: 0 <= k < best ==> clients[best].clientId < clients[k].clientId
    ensures ClientPane(clients) == Some(clients[best].paneId)
  {
    NoCurrent(clients);
    LeastIs(clients, best);
  }

  /** The current client's pane when there is one; otherwise that of the client with the least id,
      in whatever order distinct clients are reported. */
  lemma ClientPaneIsLeast(clients: seq<ClientInfo>, c: ClientInfo)
    requires c in clients
    requires forall d :: d in clients ==> !d.isCurrentClient
    requires forall d :: d in clients && d != c ==> c.clientId < d.clientId
    ensures ClientPane(clients) == Some(c.paneId)
  {
    NoCurrent(clients);
    LeastIsMember(clients);
    LeastIsLowest(clients, c);
  }

  lemma {:induction false} LeastIsLowest(clients: seq<ClientInfo>, c: ClientInfo)
    requires c in clients
    ensures LeastClient(clients).clientId <= c.clientId
  {
    if |clients| > 1 && c in clients[1..] { LeastIsLowest(clients[1..], c); }
  }
}
