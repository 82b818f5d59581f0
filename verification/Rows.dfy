/** Rows kept by handle: the persisted vectors of bindings and observations, as the service searches
    and rewrites them. */
module Rows {
  import opened Text

  datatype Row<D> = Row(handle: string, data: D)

  /** `iter().find(|row| row.handle == handle)`. */
  function Lookup<D>(rows: seq<Row<D>>, h: string): Option<D> {
    if rows == [] then None else if rows[0].handle == h then Some(rows[0].data) else Lookup(rows[1..], h)
  }

  function Position<D>(rows: seq<Row<D>>, h: string): (i: nat)
    ensures i <= |rows|
    ensures i < |rows| ==> rows[i].handle == h
  {
    if rows == [] then 0 else if rows[0].handle == h then 0 else 1 + Position(rows[1..], h)
  }

  /** The rows with the first row of the handle overwritten. */
  function Put<D>(rows: seq<Row<D>>, h: string, d: D): seq<Row<D>> {
    if rows == [] then []
    else if rows[0].handle == h then [Row(h, d)] + rows[1..]
    else [rows[0]] + Put(rows[1..], h, d)
  }

  /** `retain(|row| row.handle != handle)`. */
  function Without<D>(rows: seq<Row<D>>, h: string): seq<Row<D>> {
    if rows == [] then []
    else if rows[0].handle == h then Without(rows[1..], h)
    else [rows[0]] + Without(rows[1..], h)
  }

  /** The row of a handle, pushed first when there is none. */
  function WithSlot<D>(rows: seq<Row<D>>, h: string, blank: D): seq<Row<D>> {
    if Lookup(rows, h).Some? then rows else rows + [Row(h, blank)]
  }

  function Keys<D>(rows: seq<Row<D>>): seq<string> {
    if rows == [] then [] else [rows[0].handle] + Keys(rows[1..])
  }

  predicate Distinct(keys: seq<string>) {
    keys == [] || (keys[0] !in keys[1..] && Distinct(keys[1..]))
  }

  // ---------------------------------------------------------------- laws

  lemma {:induction false} PositionLooksUp<D>(rows: seq<Row<D>>, h: string)
    ensures Position(rows, h) < |rows| <==> Lookup(rows, h).Some?
    ensures Position(rows, h) < |rows| ==> Lookup(rows, h) == Some(rows[Position(rows, h)].data)
  {
    if rows != [] && rows[0].handle != h { PositionLooksUp(rows[1..], h); }
  }

  lemma {:induction false} PutIsUpdate<D>(rows: seq<Row<D>>, h: string, d: D)
    requires Lookup(rows, h).Some?
    ensures Position(rows, h) < |rows|
    ensures Put(rows, h, d) == rows[Position(rows, h) := Row(h, d)]
  {
    if rows[0].handle != h {
      PutIsUpdate(rows[1..], h, d);
    }
  }

  lemma {:induction false} KnownIsKey<D>(rows: seq<Row<D>>, h: string)
    ensures Lookup(rows, h).Some? <==> h in Keys(rows)
  {
    if rows != [] {
      if rows[0].handle != h { KnownIsKey(rows[1..], h); }
      assert Keys(rows) == [rows[0].handle] + Keys(rows[1..]);
    }
  }

  lemma {:induction false} LookupPut<D>(rows: seq<Row<D>>, h: string, d: D, k: string)
    requires Lookup(rows, h).Some?
    ensures Lookup(Put(rows, h, d), k) == if k == h then Some(d) else Lookup(rows, k)
  {
    if rows[0].handle != h {
      LookupPut(rows[1..], h, d, k);
      assert Put(rows, h, d)[1..] == Put(rows[1..], h, d);
    }
  }

  lemma {:induction false} KeysPut<D>(rows: seq<Row<D>>, h: string, d: D)
    ensures Keys(Put(rows, h, d)) == Keys(rows)
  {
    if rows != [] {
      if rows[0].handle != h {
        KeysPut(rows[1..], h, d);
        assert Put(rows, h, d)[1..] == Put(rows[1..], h, d);
      } else {
        assert Put(rows, h, d)[1..] == rows[1..];
      }
    }
  }

  lemma {:induction false} WithoutPut<D>(rows: seq<Row<D>>, h: string, d: D)
    ensures Without(Put(rows, h, d), h) == Without(rows, h)
  {
    if rows != [] {
      if rows[0].handle != h {
        WithoutPut(rows[1..], h, d);
        assert Put(rows, h, d)[1..] == Put(rows[1..], h, d);
      } else {
        assert Put(rows, h, d)[1..] == rows[1..];
      }
    }
  }

  lemma {:induction false} LookupWithout<D>(rows: seq<Row<D>>, h: string, k: string)
    ensures Lookup(Without(rows, h), k) == if k == h then None else Lookup(rows, k)
  {
    if rows != [] {
      LookupWithout(rows[1..], h, k);
      if rows[0].handle != h {
        assert Without(rows, h)[1..] == Without(rows[1..], h);
      }
    }
  }

  lemma {:induction false} LookupPush<D>(rows: seq<Row<D>>, h: string, d: D, k: string)
    requires Lookup(rows, h).None?
    ensures Lookup(rows + [Row(h, d)], k) == if k == h then Some(d) else Lookup(rows, k)
  {
    var pushed := rows + [Row(h, d)];
    if rows == [] {
      assert pushed[1..] == [];
    } else {
      assert pushed[1..] == rows[1..] + [Row(h, d)];
      if rows[0].handle != k { LookupPush(rows[1..], h, d, k); }
    }
  }

  lemma {:induction false} KeysPush<D>(rows: seq<Row<D>>, h: string, d: D)
    ensures Keys(rows + [Row(h, d)]) == Keys(rows) + [h]
  {
    var pushed := rows + [Row(h, d)];
    if rows == [] {
      assert pushed[1..] == [];
    } else {
      assert pushed[1..] == rows[1..] + [Row(h, d)];
      KeysPush(rows[1..], h, d);
    }
  }

  lemma {:induction false} WithoutPush<D>(rows: seq<Row<D>>, h: string, d: D)
    ensures Without(rows + [Row(h, d)], h) == Without(rows, h)
  {
    var pushed := rows + [Row(h, d)];
    if rows == [] {
      assert pushed[1..] == [];
    } else {
      assert pushed[1..] == rows[1..] + [Row(h, d)];
      WithoutPush(rows[1..], h, d);
    }
  }

  lemma {:induction false} WithoutAbsent<D>(rows: seq<Row<D>>, h: string)
    requires Lookup(rows, h).None?
    ensures Without(rows, h) == rows
  {
    if rows != [] { WithoutAbsent(rows[1..], h); }
  }

  lemma {:induction false} WithoutTwice<D>(rows: seq<Row<D>>, h: string)
    ensures Without(Without(rows, h), h) == Without(rows, h)
  {
    LookupWithout(rows, h, h);
    WithoutAbsent(Without(rows, h), h);
  }

  lemma {:induction false} KeysWithout<D>(rows: seq<Row<D>>, h: string)
    ensures forall k :: k in Keys(Without(rows, h)) ==> k in Keys(rows) && k != h
    ensures Distinct(Keys(rows)) ==> Distinct(Keys(Without(rows, h)))
  {
    if rows != [] {
      KeysWithout(rows[1..], h);
      assert Keys(rows)[1..] == Keys(rows[1..]);
      if rows[0].handle != h {
        assert Without(rows, h)[1..] == Without(rows[1..], h);
        assert Keys(Without(rows, h))[1..] == Keys(Without(rows[1..], h));
      }
    }
  }

  lemma {:induction false} DistinctPush(keys: seq<string>, h: string)
    requires Distinct(keys) && h !in keys
    ensures Distinct(keys + [h])
  {
    if keys == [] {
      assert (keys + [h])[1..] == [];
    } else {
      assert (keys + [h])[1..] == keys[1..] + [h];
      DistinctPush(keys[1..], h);
    }
  }
}
