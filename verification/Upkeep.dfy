/** Operations over all handles of a target: revalidation and cleanup touch the target's own
    bindings only, and cleanup removes exactly what it reports. */
module Upkeep {
  import opened Entities
  import opened Keeping
  import opened Lifecycle
  import opened Rows
  import opened Targets
  import opened Text

  // ---------------------------------------------------------------- revalidation of many handles

  /** What a revalidation of any handles keeps of one of them. */
  ghost predicate Steady(h: string, s: State, t: State) {
    && Later(s, t)
    && Keys(t.bindings) == Keys(s.bindings)
    && t.observations == s.observations
    && EvolvesAt(Lookup(s.bindings, h), Lookup(t.bindings, h))
    && ClosedStays(Lookup(s.bindings, h), Lookup(t.bindings, h))
  }

  lemma SteadyTrans(h: string, s: State, t: State, u: State)
    requires Steady(h, s, t) && Steady(h, t, u)
    ensures Steady(h, s, u)
  {
    LaterTrans(s, t, u);
    EvolvesTrans(Lookup(s.bindings, h), Lookup(t.bindings, h), Lookup(u.bindings, h));
  }

  lemma KeptIsSteady(k: string, h: string, s: State, t: State)
    requires Kept(k, s, t) && t.observations == s.observations
    ensures Steady(h, s, t)
    ensures h != k ==> Lookup(t.bindings, h) == Lookup(s.bindings, h)
  {
    if h != k { OthersUntouched(k, s, t, h); }
  }

  lemma {:induction false} RowsAreSteady(svc: Service, s: State, rows: seq<Row<Binding>>, h: string)
    ensures Steady(h, s, RevalidateRows(svc, s, rows).state)
    decreases |rows|
  {
    if rows != [] {
      if Owns(svc, rows[0].data) {
        RefreshKeeps(svc, s, rows[0].handle);
        var again := Refresh(svc, s, rows[0].handle);
        KeptIsSteady(rows[0].handle, h, s, again.state);
        RowsAreSteady(svc, again.state, rows[1..], h);
        SteadyTrans(h, s, again.state, RevalidateRows(svc, again.state, rows[1..]).state);
      } else {
        RowsAreSteady(svc, s, rows[1..], h);
      }
    }
  }

  lemma QuietIsSteady(h: string, s: State, t: State)
    requires Quiet(s, t)
    ensures Steady(h, s, t)
  {
  }

  lemma RevalidationIsSteady(svc: Service, s: State, h: string)
    ensures Steady(h, s, RevalidateAll(svc, s).state)
  {
    if IsRemote(svc) {
      RowsAreSteady(svc, s, s.bindings, h);
    } else {
      var usable := EnsureAvailable(svc, s);
      QuietIsSteady(h, s, usable.state);
      if usable.result.Ok? {
        RowsAreSteady(svc, usable.state, usable.state.bindings, h);
        SteadyTrans(h, s, usable.state, RevalidateAll(svc, s).state);
      }
    }
  }

  /** No row of the handle belongs to the target. */
  predicate AllForeign(svc: Service, rows: seq<Row<Binding>>, h: string) {
    rows == [] || ((rows[0].handle == h ==> !Owns(svc, rows[0].data)) && AllForeign(svc, rows[1..], h))
  }

  lemma {:induction false} AbsentIsForeign(svc: Service, rows: seq<Row<Binding>>, h: string)
    requires h !in Keys(rows)
    ensures AllForeign(svc, rows, h)
  {
    if rows != [] {
      assert Keys(rows)[1..] == Keys(rows[1..]);
      AbsentIsForeign(svc, rows[1..], h);
    }
  }

  lemma {:induction false} ForeignIsForeign(svc: Service, rows: seq<Row<Binding>>, h: string)
    requires Distinct(Keys(rows)) && Lookup(rows, h).Some? && !Owns(svc, Lookup(rows, h).value)
    ensures AllForeign(svc, rows, h)
  {
    assert Keys(rows)[1..] == Keys(rows[1..]);
    if rows[0].handle == h { AbsentIsForeign(svc, rows[1..], h); } else { ForeignIsForeign(svc, rows[1..], h); }
  }

  lemma {:induction false} RowsSpareForeign(svc: Service, s: State, rows: seq<Row<Binding>>, h: string)
    requires AllForeign(svc, rows, h)
    ensures Lookup(RevalidateRows(svc, s, rows).state.bindings, h) == Lookup(s.bindings, h)
    decreases |rows|
  {
    if rows != [] {
      if Owns(svc, rows[0].data) {
        RefreshKeeps(svc, s, rows[0].handle);
        var again := Refresh(svc, s, rows[0].handle);
        KeptIsSteady(rows[0].handle, h, s, again.state);
        RowsSpareForeign(svc, again.state, rows[1..], h);
      } else {
        RowsSpareForeign(svc, s, rows[1..], h);
      }
    }
  }

  /** Revalidating, and so listing, leaves the binding of another target as it is. */
  lemma RevalidationSparesForeign(svc: Service, s: State, h: string)
    requires Distinct(Keys(s.bindings)) && Known(s, h) && !Owns(svc, Lookup(s.bindings, h).value)
    ensures Lookup(RevalidateAll(svc, s).state.bindings, h) == Lookup(s.bindings, h)
  {
    ForeignIsForeign(svc, s.bindings, h);
    if IsRemote(svc) {
      RowsSpareForeign(svc, s, s.bindings, h);
    } else {
      var usable := EnsureAvailable(svc, s);
      RowsSpareForeign(svc, usable.state, usable.state.bindings, h);
    }
  }

  lemma {:induction false} RowOfDistinct(rows: seq<Row<Binding>>, row: Row<Binding>)
    requires Distinct(Keys(rows)) && row in rows
    ensures Lookup(rows, row.handle) == Some(row.data)
  {
    assert Keys(rows)[1..] == Keys(rows[1..]);
    if row != rows[0] {
      assert row in rows[1..];
      RowOfDistinct(rows[1..], row);
      KnownIsKey(rows[1..], row.handle);
    }
  }

  lemma {:induction false} LookupIsRow(rows: seq<Row<Binding>>, h: string)
    requires Lookup(rows, h).Some?
    ensures Row(h, Lookup(rows, h).value) in rows
  {
    if rows[0].handle != h { LookupIsRow(rows[1..], h); }
  }

  /** A listing shows exactly the target's bindings, of the asked session, as they are stored. */
  lemma ListIsExact(svc: Service, s: State, session: Option<string>, row: Row<Binding>)
    requires Distinct(Keys(s.bindings)) && ListHandles(svc, s, session).result.Ok?
    ensures var t := ListHandles(svc, s, session).state;
            row in ListHandles(svc, s, session).result.value
            <==> Lookup(t.bindings, row.handle) == Some(row.data) && Listed(svc, session, row.data)
  {
    RevalidationIsSteady(svc, s, row.handle);
    var t := RevalidateAll(svc, s).state;
    var listed := (r: Row<Binding>) => Listed(svc, session, r.data);
    if row in Filter(listed, t.bindings) { RowOfDistinct(t.bindings, row); }
    if Lookup(t.bindings, row.handle) == Some(row.data) && Listed(svc, session, row.data) {
      LookupIsRow(t.bindings, row.handle);
      FilterKeeps(listed, t.bindings, row);
    }
  }

  // ---------------------------------------------------------------- cleanup

  lemma {:induction false} LookupKeep<D>(rows: seq<Row<D>>, removed: seq<string>, k: string)
    ensures Lookup(Keep(rows, removed), k) == if k in removed then None else Lookup(rows, k)
  {
    if rows != [] {
      LookupKeep(rows[1..], removed, k);
      if rows[0].handle !in removed {
        assert Keep(rows, removed)[1..] == Keep(rows[1..], removed);
      } else {
        assert Keep(rows, removed) == Keep(rows[1..], removed);
      }
    }
  }

  lemma KeptWereKeys<D>(rows: seq<Row<D>>, removed: seq<string>, k: string)
    requires k !in Keys(rows)
    ensures k !in Keys(Keep(rows, removed))
  {
    KnownIsKey(rows, k);
    KnownIsKey(Keep(rows, removed), k);
    LookupKeep(rows, removed, k);
  }

  lemma {:induction false} KeepIsDistinct<D>(rows: seq<Row<D>>, removed: seq<string>)
    requires Distinct(Keys(rows))
    ensures Distinct(Keys(Keep(rows, removed)))
  {
    if rows != [] {
      assert Keys(rows)[1..] == Keys(rows[1..]);
      KeepIsDistinct(rows[1..], removed);
      if rows[0].handle !in removed {
        KeptWereKeys(rows[1..], removed, rows[0].handle);
        assert Keep(rows, removed)[1..] == Keep(rows[1..], removed);
        assert Keys(Keep(rows, removed))[1..] == Keys(Keep(rows[1..], removed));
      } else {
        assert Keep(rows, removed) == Keep(rows[1..], removed);
      }
    }
  }

  lemma {:induction false} RemovedAreKeys(svc: Service, req: CleanupRequest, now: nat, rows: seq<Row<Binding>>, k: string)
    requires k in RemovedKeys(svc, req, now, rows)
    ensures k in Keys(rows)
  {
    assert Keys(rows) == [rows[0].handle] + Keys(rows[1..]);
    if k != rows[0].handle { RemovedAreKeys(svc, req, now, rows[1..], k); }
  }

  ghost predicate RemovableAt(svc: Service, req: CleanupRequest, now: nat, rows: seq<Row<Binding>>, k: string) {
    Lookup(rows, k).Some? && Removable(svc, req, now, Lookup(rows, k).value)
  }

  lemma {:induction false} RemovedIsRemovable(svc: Service, req: CleanupRequest, now: nat, rows: seq<Row<Binding>>,
                                              k: string)
    requires Distinct(Keys(rows))
    ensures k in RemovedKeys(svc, req, now, rows) <==> RemovableAt(svc, req, now, rows, k)
  {
    if rows != [] {
      assert Keys(rows)[1..] == Keys(rows[1..]);
      if rows[0].handle == k {
        if k in RemovedKeys(svc, req, now, rows[1..]) { RemovedAreKeys(svc, req, now, rows[1..], k); }
      } else {
        RemovedIsRemovable(svc, req, now, rows[1..], k);
      }
    }
  }

  /** Cleanup reports exactly the handles of its own target with a matching status and age, and
      takes exactly those, with their observations, out of the stores unless it is a dry run. */
  lemma CleanupIsExact(svc: Service, s: State, req: CleanupRequest, k: string)
    requires Distinct(Keys(s.bindings))
    ensures var r := Cleanup(svc, s, req);
            var removable := RemovableAt(svc, req, s.time, s.bindings, k);
            && r.result.Ok?
            && (k in r.result.value <==> removable)
            && Lookup(r.state.bindings, k) == (if removable && !req.dryRun then None else Lookup(s.bindings, k))
            && Lookup(r.state.observations, k) == (if removable && !req.dryRun then None else Lookup(s.observations, k))
  {
    var removed := RemovedKeys(svc, req, s.time, s.bindings);
    RemovedIsRemovable(svc, req, s.time, s.bindings, k);
    LookupKeep(s.bindings, removed, k);
    LookupKeep(s.observations, removed, k);
  }
}
