/** The data pack index as the database driver presents it: at most one entry per device,
    dataset type and acquisition time stamp, and searches in ascending time stamp order. */
module PackIndex {

  datatype Key = Key(did: string, dsType: nat, ts: nat)

  datatype EntryState = Created | Querable

  datatype IndexEntry = IndexEntry(path: string, offset: nat, size: nat, state: EntryState)

  type Index = map<Key, IndexEntry>

  /** One search result: where a data pack lies. */
  datatype Row = Row(ts: nat, path: string, offset: nat, size: nat)

  predicate Ascending(rows: seq<Row>)
  {
    forall i, j :: 0 <= i < j < |rows| ==> rows[i].ts < rows[j].ts
  }

  // ---------- from the index to rows ----------

  ghost function QuerableTimes(idx: Index, did: string, dsType: nat): set<nat>
  {
    set k | k in idx && k.did == did && k.dsType == dsType && idx[k].state == Querable :: k.ts
  }

  lemma {:induction false} FindLeast(s: set<nat>) returns (m: nat)
    requires s != {}
    ensures m in s && forall x :: x in s ==> m <= x
  {
    m :| m in s;
    var rest := s - {m};
    if rest != {} {
      var n := FindLeast(rest);
      assert forall x :: x in s ==> x == m || x in rest;
      m := if n < m then n else m;
    } else {
      assert forall x :: x in s ==> x == m || x in rest;
    }
  }

  lemma LeastExists(s: set<nat>)
    requires s != {}
    ensures exists m :: m in s && forall x :: x in s ==> m <= x
  {
    var m := FindLeast(s);
  }

  ghost function Least(s: set<nat>): (m: nat)
    requires s != {}
    ensures m in s && forall x :: x in s ==> m <= x
  {
    LeastExists(s);
    var m :| m in s && forall x :: x in s ==> m <= x;
    m
  }

  ghost function RowsAt(idx: Index, did: string, dsType: nat, times: set<nat>): seq<Row>
    requires forall t :: t in times ==> Key(did, dsType, t) in idx
    decreases |times|
  {
    if times == {} then []
    else
      var t := Least(times);
      var e := idx[Key(did, dsType, t)];
      [Row(t, e.path, e.offset, e.size)] + RowsAt(idx, did, dsType, times - {t})
  }

  lemma {:induction false} RowsAtAscend(idx: Index, did: string, dsType: nat, times: set<nat>)
    requires forall t :: t in times ==> Key(did, dsType, t) in idx
    ensures var rows := RowsAt(idx, did, dsType, times);
            Ascending(rows) && forall i :: 0 <= i < |rows| ==> rows[i].ts in times
    decreases |times|
  {
    if times != {} {
      var t := Least(times);
      RowsAtAscend(idx, did, dsType, times - {t});
      var rest := RowsAt(idx, did, dsType, times - {t});
      assert forall i :: 0 <= i < |rest| ==> rest[i].ts in times && t < rest[i].ts;
    }
  }

  lemma {:induction false} RowsAtComplete(idx: Index, did: string, dsType: nat, times: set<nat>, t: nat)
    requires forall u :: u in times ==> Key(did, dsType, u) in idx
    requires t in times
    ensures var e := idx[Key(did, dsType, t)];
            Row(t, e.path, e.offset, e.size) in RowsAt(idx, did, dsType, times)
    decreases |times|
  {
    if t != Least(times) {
      RowsAtComplete(idx, did, dsType, times - {Least(times)}, t);
    }
  }

  /** All that can be found for a device and type, in the order the driver returns it. */
  ghost function Rows(idx: Index, did: string, dsType: nat): seq<Row>
  {
    RowsAt(idx, did, dsType, QuerableTimes(idx, did, dsType))
  }

  /** Exactly the querable entries, each once, in ascending order. */
  lemma RowsFacts(idx: Index, did: string, dsType: nat)
    ensures var rows := Rows(idx, did, dsType);
            Ascending(rows) &&
            forall r: Row :: r in rows <==>
              Key(did, dsType, r.ts) in idx &&
              idx[Key(did, dsType, r.ts)] == IndexEntry(r.path, r.offset, r.size, Querable)
  {
    var times, rows := QuerableTimes(idx, did, dsType), Rows(idx, did, dsType);
    RowsAtAscend(idx, did, dsType, times);
    forall r | r in rows
      ensures Key(did, dsType, r.ts) in idx &&
              idx[Key(did, dsType, r.ts)] == IndexEntry(r.path, r.offset, r.size, Querable)
    {
      assert r.ts in times;
      RowsAtComplete(idx, did, dsType, times, r.ts);
    }
    forall r: Row | Key(did, dsType, r.ts) in idx &&
                    idx[Key(did, dsType, r.ts)] == IndexEntry(r.path, r.offset, r.size, Querable)
      ensures r in rows
    {
      assert r.ts in times;
      RowsAtComplete(idx, did, dsType, times, r.ts);
    }
  }

  // ---------- searching ----------

  /** Entries from a time stamp on; `$gte` on rows in ascending order. */
  function From(rows: seq<Row>, start: nat): seq<Row>
  {
    if rows == [] || rows[0].ts >= start then rows else From(rows[1..], start)
  }

  function UpTo(rows: seq<Row>, end: nat): seq<Row>
  {
    if rows == [] || rows[0].ts > end then [] else [rows[0]] + UpTo(rows[1..], end)
  }

  function Between(rows: seq<Row>, start: nat, end: nat): seq<Row>
  {
    UpTo(From(rows, start), end)
  }

  /** A paged search: no upper time bound, and a limit of 0 means no limit. */
  function Search(rows: seq<Row>, start: nat, limit: nat): seq<Row>
  {
    var all := From(rows, start);
    if limit == 0 || limit >= |all| then all else all[..limit]
  }

  lemma {:induction false} FromIsSuffix(rows: seq<Row>, start: nat) returns (k: nat)
    requires Ascending(rows)
    ensures k <= |rows| && From(rows, start) == rows[k..]
    ensures forall i :: 0 <= i < |rows| ==> (rows[i].ts >= start <==> i >= k)
  {
    if rows == [] || rows[0].ts >= start {
      k := 0;
    } else {
      var j := FromIsSuffix(rows[1..], start);
      k := j + 1;
      assert forall i :: 1 <= i < |rows| ==> rows[i] == rows[1..][i - 1];
    }
  }

  lemma {:induction false} UpToIsPrefix(rows: seq<Row>, end: nat) returns (k: nat)
    requires Ascending(rows)
    ensures k <= |rows| && UpTo(rows, end) == rows[..k]
    ensures forall i :: 0 <= i < |rows| ==> (rows[i].ts <= end <==> i < k)
  {
    if rows == [] || rows[0].ts > end {
      k := 0;
    } else {
      var j := UpToIsPrefix(rows[1..], end);
      k := j + 1;
      assert forall i :: 1 <= i < |rows| ==> rows[i] == rows[1..][i - 1];
    }
  }

  /** `Between` is exactly the rows in the interval, in order. */
  lemma BetweenFacts(rows: seq<Row>, start: nat, end: nat)
    requires Ascending(rows)
    ensures Ascending(Between(rows, start, end))
    ensures forall r :: r in Between(rows, start, end) <==> r in rows && start <= r.ts <= end
  {
    var k := FromIsSuffix(rows, start);
    var m := UpToIsPrefix(rows[k..], end);
    var hits := Between(rows, start, end);
    assert hits == rows[k..k + m];
    forall r | r in rows && start <= r.ts <= end ensures r in hits {
      var i :| 0 <= i < |rows| && rows[i] == r;
      assert rows[k..][i - k] == r && hits[i - k] == r;
    }
  }

  lemma {:induction false} FromUnique(rows: seq<Row>, start: nat, k: nat)
    requires Ascending(rows) && k <= |rows|
    requires forall i :: 0 <= i < |rows| ==> (rows[i].ts >= start <==> i >= k)
    ensures From(rows, start) == rows[k..]
  {
    if rows != [] && rows[0].ts < start {
      FromUnique(rows[1..], start, k - 1);
    }
  }

  /** Continuing right after a found row finds the rest, and past the interval only what is
      beyond its end: this is what makes the missing upper bound harmless. */
  lemma ContinueAfter(rows: seq<Row>, start: nat, end: nat, n: nat)
    requires Ascending(rows) && 0 < n <= |Between(rows, start, end)|
    ensures var hits := Between(rows, start, end); hits[n..] <= From(rows, hits[n - 1].ts + 1)
  {
    var hits := Between(rows, start, end);
    var k := FromIsSuffix(rows, start);
    var m := UpToIsPrefix(rows[k..], end);
    assert hits == rows[k..k + m];
    FromUnique(rows, hits[n - 1].ts + 1, k + n);
    RestOfSlice(rows, k, m, n);
  }

  lemma RestOfSlice(rows: seq<Row>, k: nat, m: nat, n: nat)
    requires n <= m && k + m <= |rows|
    ensures rows[k..k + m][n..] == rows[k + n..][..m - n]
  {
  }

  lemma BetweenIsPrefix(rows: seq<Row>, start: nat, end: nat)
    requires Ascending(rows)
    ensures Between(rows, start, end) <= From(rows, start)
  {
    var j := FromIsSuffix(rows, start);
    var k := UpToIsPrefix(From(rows, start), end);
  }
}
