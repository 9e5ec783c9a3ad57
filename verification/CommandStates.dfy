/** The executor's history of command states: a deque in order of submission, trimmed from
    the front by capping and from the back by flushing. */
module CommandStates {
  import opened CommandTypes
  import opened Sequences

  datatype Entry = Entry(id: nat, last: Event)

  function Ids(d: seq<Entry>): set<nat>
  {
    set e | e in d :: e.id
  }

  predicate Unique(d: seq<Entry>)
  {
    forall i, j :: 0 <= i < j < |d| ==> d[i].id != d[j].id
  }

  /** The fast access map: last event of a command, if it is still remembered. */
  predicate Remembers(d: seq<Entry>, id: nat, e: Event)
  {
    Entry(id, e) in d
  }

  // ---------- events ----------

  function Handle(d: seq<Entry>, id: nat, e: Event): seq<Entry>
  {
    if e == Queued then d + [Entry(id, Queued)]
    else seq(|d|, i requires 0 <= i < |d| => if d[i].id == id then Entry(id, e) else d[i])
  }

  lemma HandleKeeps(d: seq<Entry>, id: nat, e: Event)
    requires Unique(d) && (e == Queued ==> id !in Ids(d))
    ensures var r := Handle(d, id, e);
            Unique(r) && Ids(r) == Ids(d) + (if e == Queued then {id} else {}) &&
            (id in Ids(r) ==> Remembers(r, id, e)) &&
            (forall j, f :: j != id ==> (Remembers(r, j, f) <==> Remembers(d, j, f)))
  {
    var r := Handle(d, id, e);
    HandleIds(d, id, e);
    forall i | 0 <= i < |d| ensures d[i].id in Ids(d) { assert d[i] in d; }
    if id in Ids(r) {
      var x :| x in r && x.id == id;
      var i :| 0 <= i < |r| && r[i] == x;
      assert r[i] == Entry(id, e);
    }
    forall j, f | j != id ensures Remembers(r, j, f) <==> Remembers(d, j, f) {
      HandleOthers(d, id, e, j, f);
    }
  }

  lemma HandleIds(d: seq<Entry>, id: nat, e: Event)
    ensures Ids(Handle(d, id, e)) == Ids(d) + if e == Queued then {id} else {}
  {
    var r := Handle(d, id, e);
    forall j ensures j in Ids(r) <==> j in Ids(d) || (e == Queued && j == id) {
      if j in Ids(d) {
        var i :| 0 <= i < |d| && d[i].id == j;
        assert r[i].id == j && r[i] in r;
      }
      if e == Queued && j == id {
        assert r[|d|].id == j && r[|d|] in r;
      }
      if j in Ids(r) {
        var i :| 0 <= i < |r| && r[i].id == j;
        assert i < |d| ==> d[i].id == j && d[i] in d;
      }
    }
  }

  lemma HandleOthers(d: seq<Entry>, id: nat, e: Event, j: nat, f: Event)
    requires j != id
    ensures Remembers(Handle(d, id, e), j, f) <==> Remembers(d, j, f)
  {
    var r := Handle(d, id, e);
    if Remembers(d, j, f) {
      var i :| 0 <= i < |d| && d[i] == Entry(j, f);
      assert r[i] == Entry(j, f);
    }
  }

  // ---------- capping ----------

  function Terminated(d: seq<Entry>): nat
  {
    if d == [] then 0 else Terminated(d[1..]) + if Terminal(d[0].last) then 1 else 0
  }

  /** The entries of `d` that are not terminated, in order. */
  function Live(d: seq<Entry>): seq<Entry>
  {
    if d == [] then [] else (if Terminal(d[0].last) then [] else [d[0]]) + Live(d[1..])
  }

  /** How many entries are popped from the front to find `n` terminated ones, or all of them. */
  function PoppedFor(d: seq<Entry>, n: nat): (k: nat)
    ensures k <= |d|
  {
    if n == 0 || d == [] then 0
    else 1 + PoppedFor(d[1..], if Terminal(d[0].last) then n - 1 else n)
  }

  function Cap(d: seq<Entry>, max: nat): seq<Entry>
  {
    if |d| <= max then d
    else
      var k := PoppedFor(d, |d| - max);
      Reversed(Live(d[..k])) + d[k..]
  }

  lemma {:induction false} PoppedCounts(d: seq<Entry>, n: nat)
    ensures var k := PoppedFor(d, n);
            Terminated(d[..k]) == (if Terminated(d) < n then Terminated(d) else n) &&
            |Live(d[..k])| == k - Terminated(d[..k]) &&
            (k < |d| ==> Terminated(d[..k]) == n) &&
            (k > 0 && Terminated(d) >= n ==> Terminal(d[k - 1].last))
  {
    var k := PoppedFor(d, n);
    if n != 0 && d != [] {
      var m := if Terminal(d[0].last) then n - 1 else n;
      PoppedCounts(d[1..], m);
      assert d[..k][1..] == d[1..][..k - 1];
    }
  }

  lemma {:induction false} TerminatedBound(d: seq<Entry>)
    ensures Terminated(d) <= |d|
  {
    if d != [] { TerminatedBound(d[1..]); }
  }

  lemma {:induction false} LiveFacts(d: seq<Entry>)
    ensures forall e :: e in Live(d) <==> e in d && !Terminal(e.last)
    ensures Unique(d) ==> Unique(Live(d))
  {
    if d != [] {
      LiveFacts(d[1..]);
      assert d == [d[0]] + d[1..];
    }
  }

  /** The live part keeps the order of the history. */
  lemma {:induction false} LiveInOrder(d: seq<Entry>, e: seq<Entry>)
    ensures Live(d + e) == Live(d) + Live(e)
    ensures |d| == 1 ==> Live(d) == if d[0].last in {Completed, Fault, Killed} then [] else d
  {
    if d == [] {
      assert d + e == e;
    } else {
      assert (d + e)[1..] == d[1..] + e;
      LiveInOrder(d[1..], e);
    }
  }

  /** What capping an over-long history does: the result is the reversed live part of the
      popped prefix followed by the untouched rest, the prefix holds exactly the first
      min(T, n - max) terminated entries, and max(max, n - T) entries are left. */
  lemma CapOutcome(d: seq<Entry>, max: nat)
    requires |d| > max
    ensures var k := PoppedFor(d, |d| - max); var t := Terminated(d);
            Cap(d, max) == Reversed(Live(d[..k])) + d[k..] &&
            Terminated(d[..k]) == (if t < |d| - max then t else |d| - max) &&
            (k > 0 && t >= |d| - max ==> Terminal(d[k - 1].last)) &&
            |Cap(d, max)| == if max >= |d| - t then max else |d| - t
  {
    var k := PoppedFor(d, |d| - max);
    PoppedCounts(d, |d| - max);
    ReversedFacts(Live(d[..k]));
    TerminatedBound(d);
    assert |Cap(d, max)| == |Live(d[..k])| + (|d| - k);
  }

  lemma UniqueReversed(d: seq<Entry>)
    requires Unique(d)
    ensures Unique(Reversed(d))
  {
    ReversedFacts(d);
  }

  lemma UniqueCap(d: seq<Entry>, k: nat)
    requires Unique(d) && k <= |d|
    ensures Unique(Reversed(Live(d[..k])) + d[k..])
  {
    LiveFacts(d[..k]);
    UniqueReversed(Live(d[..k]));
    ReversedFacts(Live(d[..k]));
    var r := Reversed(Live(d[..k]));
    forall i, j | 0 <= i < |r| && k <= j < |d| ensures r[i].id != d[j].id {
      assert r[i] in d[..k];
    }
  }

  /** Capping keeps every command that is not terminated, with its last event, and invents nothing. */
  lemma CapKeepsLive(d: seq<Entry>, max: nat)
    requires Unique(d)
    ensures Unique(Cap(d, max))
    ensures forall e :: e in Cap(d, max) ==> e in d
    ensures forall e :: e in d && !Terminal(e.last) ==> e in Cap(d, max)
  {
    if |d| > max {
      var k := PoppedFor(d, |d| - max);
      assert d == d[..k] + d[k..];
      LiveFacts(d[..k]);
      ReversedFacts(Live(d[..k]));
      UniqueCap(d, k);
    }
  }

  // ---------- flushing ----------

  function Flush(d: seq<Entry>): seq<Entry>
  {
    if d != [] && Terminal(d[|d| - 1].last) then Flush(d[..|d| - 1]) else d
  }

  /** Flushing removes the longest terminated suffix and nothing else. */
  lemma {:induction false} FlushOutcome(d: seq<Entry>)
    ensures var r := Flush(d);
            r <= d && (forall i :: |r| <= i < |d| ==> Terminal(d[i].last)) &&
            (r != [] ==> !Terminal(r[|r| - 1].last))
  {
    if d != [] && Terminal(d[|d| - 1].last) {
      FlushOutcome(d[..|d| - 1]);
    }
  }

  lemma FlushKeepsLive(d: seq<Entry>)
    requires Unique(d)
    ensures Unique(Flush(d))
    ensures forall e :: e in Flush(d) ==> e in d
    ensures forall e :: e in d && !Terminal(e.last) ==> e in Flush(d)
  {
    FlushOutcome(d);
  }
}
