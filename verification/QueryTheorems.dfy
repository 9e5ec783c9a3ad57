/** The answer of a whole query, from the index to the numbered packs on the channel. */
module QueryTheorems {
  import opened Sequences
  import opened PackIndex
  import opened IndexCursor
  import opened QueryEngine
  import opened QueryAnswer

  // ---------- which hits are sent ----------

  /** Size of the last of the pages of `d` that `n` hits are fetched in. */
  function LastPage(n: nat, d: nat): nat
    requires d > 0
  {
    if n <= d then n else LastPage(n - d, d)
  }

  /** The hits up to here are sent when the cursor stands at `f`, `r`. */
  function SentEnd(n: nat, f: nat, r: nat, d: nat, b: nat): (k: nat)
    requires r <= f <= n && d > 0 && b > 0
    ensures r <= k <= n
    decreases n - f, f - r
  {
    if f == n then r else SentEnd(n, PageEnd(f, r, n, d), r + ChunkSize(f, r, n, d, b), d, b)
  }

  /** Only the last page can be cut short. */
  lemma {:induction false} SentEndClosed(n: nat, f: nat, r: nat, d: nat, b: nat)
    requires r <= f < n && d > 0 && b > 0
    ensures var last := LastPage(n - f, d); SentEnd(n, f, r, d, b) == n - last + Min(last, b)
    decreases n - f, f - r
  {
    var m, e := ChunkSize(f, r, n, d, b), PageEnd(f, r, n, d);
    if e < n {
      SentEndClosed(n, e, r + m, d, b);
    } else {
      assert SentEnd(n, e, r + m, d, b) == r + m;
    }
  }

  lemma {:induction false} LastPageBound(n: nat, d: nat)
    requires d > 0
    ensures LastPage(n, d) <= d && LastPage(n, d) <= n && (n > 0 ==> LastPage(n, d) > 0)
  {
    if n > d { LastPageBound(n - d, d); }
  }

  /** What is sent, with the chunks left in order. */
  function PlainFrom(hits: seq<Row>, f: nat, r: nat, d: nat, b: nat): seq<Row>
    requires r <= f <= |hits| && d > 0 && b > 0
    decreases |hits| - f, f - r
  {
    if f == |hits| then []
    else
      var m := ChunkSize(f, r, |hits|, d, b);
      hits[r..r + m] + PlainFrom(hits, PageEnd(f, r, |hits|, d), r + m, d, b)
  }

  lemma ChunkBag(chunk: seq<Row>, a: seq<Row>, b: seq<Row>)
    requires multiset(a) == multiset(b)
    ensures multiset(Reversed(chunk) + a) == multiset(chunk + b)
  {
    ReversedMultiset(chunk);
  }

  lemma {:induction false} SameBag(hits: seq<Row>, f: nat, r: nat, d: nat, b: nat)
    requires r <= f <= |hits| && d > 0 && b > 0
    ensures multiset(SentFrom(hits, f, r, d, b)) == multiset(PlainFrom(hits, f, r, d, b))
    decreases |hits| - f, f - r
  {
    if f < |hits| {
      var m, e := ChunkSize(f, r, |hits|, d, b), PageEnd(f, r, |hits|, d);
      var sent, plain := SentFrom(hits, e, r + m, d, b), PlainFrom(hits, e, r + m, d, b);
      assert multiset(Reversed(hits[r..r + m]) + sent) == multiset(hits[r..r + m] + plain) by {
        SameBag(hits, e, r + m, d, b);
        ChunkBag(hits[r..r + m], sent, plain);
      }
    }
  }

  lemma {:induction false} PlainIsPrefix(hits: seq<Row>, f: nat, r: nat, d: nat, b: nat)
    requires r <= f <= |hits| && d > 0 && b > 0
    ensures PlainFrom(hits, f, r, d, b) == hits[r..SentEnd(|hits|, f, r, d, b)]
    decreases |hits| - f, f - r
  {
    if f < |hits| {
      var m, e := ChunkSize(f, r, |hits|, d, b), PageEnd(f, r, |hits|, d);
      var k := SentEnd(|hits|, e, r + m, d, b);
      assert PlainFrom(hits, e, r + m, d, b) == hits[r + m..k] by { PlainIsPrefix(hits, e, r + m, d, b); }
      assert hits[r..r + m] + hits[r + m..k] == hits[r..k] by { Joined(hits, r, r + m, k); }
    }
  }

  lemma Joined(hits: seq<Row>, a: nat, b: nat, c: nat)
    requires a <= b <= c <= |hits|
    ensures hits[a..b] + hits[b..c] == hits[a..c]
  {
  }

  /** What is sent is always a prefix of the hits, rearranged, each exactly once. */
  lemma SentIsPrefix(hits: seq<Row>, f: nat, r: nat, d: nat, b: nat)
    requires r <= f <= |hits| && d > 0 && b > 0
    ensures multiset(SentFrom(hits, f, r, d, b)) == multiset(hits[r..SentEnd(|hits|, f, r, d, b)])
  {
    SameBag(hits, f, r, d, b);
    PlainIsPrefix(hits, f, r, d, b);
  }

  /** All hits are sent if and only if the last page fits into one read; the packs of a longer
      last page that the first read leaves behind are never looked at again. */
  lemma AnswerCompleteExactlyWhen(hits: seq<Row>, d: nat, b: nat)
    requires d > 0 && b > 0
    ensures multiset(SentFrom(hits, 0, 0, d, b)) == multiset(hits) <==> LastPage(|hits|, d) <= b
  {
    var n, k := |hits|, SentEnd(|hits|, 0, 0, d, b);
    SentIsPrefix(hits, 0, 0, d, b);
    assert k == n <==> LastPage(n, d) <= b by {
      LastPageBound(n, d);
      if n > 0 { SentEndClosed(n, 0, 0, d, b); }
    }
    assert hits[0..n] == hits;
    assert |multiset(hits[0..k])| == k && |multiset(hits)| == n;
  }

  /** With pages of 100 and a read limit of 50, a query with 60 hits loses some. */
  lemma ShortLimitLosesPacks(hits: seq<Row>)
    requires |hits| == 60
    ensures multiset(SentFrom(hits, 0, 0, 100, 50)) != multiset(hits)
  {
    AnswerCompleteExactlyWhen(hits, 100, 50);
  }

  /** The answer in terms of the hits alone: pages of `d`, each reversed. */
  function PagesReversed(hits: seq<Row>, d: nat): seq<Row>
    requires d > 0
  {
    if hits == [] then []
    else Reversed(hits[..Min(d, |hits|)]) + PagesReversed(hits[Min(d, |hits|)..], d)
  }

  lemma PagesUnfold(hits: seq<Row>, f: nat, m: nat, d: nat)
    requires f < |hits| && d > 0 && m == Min(d, |hits| - f)
    ensures PagesReversed(hits[f..], d) == Reversed(hits[f..f + m]) + PagesReversed(hits[f + m..], d)
  {
    assert hits[f..][..m] == hits[f..f + m] && hits[f..][m..] == hits[f + m..];
  }

  lemma {:induction false} WholePages(hits: seq<Row>, f: nat, d: nat, b: nat)
    requires f <= |hits| && 0 < d <= b
    ensures SentFrom(hits, f, f, d, b) == PagesReversed(hits[f..], d)
    decreases |hits| - f
  {
    var n := |hits|;
    if f < n {
      var m := Min(d, n - f);
      WholePages(hits, f + m, d, b);
      assert ChunkSize(f, f, n, d, b) == m && PageEnd(f, f, n, d) == f + m;
      assert SentFrom(hits, f, f, d, b) == Reversed(hits[f..f + m]) + SentFrom(hits, f + m, f + m, d, b);
      PagesUnfold(hits, f, m, d);
    }
  }

  // ---------- how many steps ----------

  lemma {:induction false} DefaultSteps(n: nat, f: nat)
    requires f <= n
    ensures StepsFrom(n, f, f, 100, 100, 50) == 1 + CeilDiv(n - f, 100) + CeilDiv(n - f, 50)
    decreases n - f
  {
    var k := n - f;
    if 0 < k <= 100 {
      CeilOne(k, 100);
      assert StepsFrom(n, n, n, 100, 100, 50) == 1;
      assert StepsFrom(n, f, f, 100, 100, 50) == 1 + CeilDiv(k, 50) + 1;
    } else if k > 100 {
      DefaultSteps(n, f + 100);
      CeilStep(k, 100);
      CeilStep(k, 50);
      CeilStep(k - 50, 50);
      assert CeilDiv(100, 50) == 2;
      assert StepsFrom(n, f, f, 100, 100, 50) == 1 + CeilDiv(100, 50) + StepsFrom(n, f + 100, f + 100, 100, 100, 50);
    }
  }

  // ---------- the whole query ----------

  /** What a query looks for; a missing bound (0) does not restrict. */
  predicate Wanted(ts: nat, start: nat, end: nat) {
    (start == 0 || start <= ts) && (end == 0 || ts <= end)
  }

  /** The rows in the interval of a query, missing bounds filled in as the cursor does. */
  function Hits(rows: seq<Row>, start: nat, end: nat): seq<Row>
  {
    if (start == 0 || end == 0) && rows == [] then []
    else Between(rows, if start == 0 then rows[0].ts else start, if end == 0 then rows[|rows| - 1].ts else end)
  }

  lemma HitsFacts(rows: seq<Row>, start: nat, end: nat)
    requires Ascending(rows)
    ensures Ascending(Hits(rows, start, end))
    ensures forall r :: r in Hits(rows, start, end) <==> r in rows && Wanted(r.ts, start, end)
  {
    if rows != [] {
      var lo, hi := if start == 0 then rows[0].ts else start, if end == 0 then rows[|rows| - 1].ts else end;
      BetweenFacts(rows, lo, hi);
      assert forall i :: 0 <= i < |rows| ==> rows[0].ts <= rows[i].ts <= rows[|rows| - 1].ts;
    } else if start != 0 && end != 0 {
      BetweenFacts(rows, start, end);
    }
  }

  lemma {:induction false} SearchStep(rows: seq<Row>, start: nat, end: nat, d: nat, sizes: Sizes)
    requires Ascending(rows) && Positive(rows) && d > 0 && 0 < |Hits(rows, start, end)| < UINT32
    ensures var q := NewQuery(start, end, d);
            var hits := Hits(rows, start, end);
            CanStep(q, Process(Calm(rows))) &&
            var s := Apply(q, Process(Calm(rows)), sizes);
            Waiting(s, rows, hits, 0, 0, d) && s.cursor.found == |hits| && s.sent == []
  {
    var q, hits := NewQuery(start, end, d), Hits(rows, start, end);
    StartFollows(start, end, d, rows);
    PagesInRange(|hits|, d);
    var s := Apply(q, Process(Calm(rows)), sizes);
    assert SentRows(s) == [];
  }

  /** The number of pages is not cut off by the 32 bit counter. */
  lemma PagesInRange(n: nat, d: nat)
    requires 0 < n < UINT32 && d > 0
    ensures 0 < CeilDiv(n, d) < UINT32
  {
    CeilBounds(n, d);
    MulOne(CeilDiv(n, d) - 1, d);
  }

  lemma MulOne(k: nat, d: nat)
    requires d > 0
    ensures k <= k * d
  {
  }

  /** The first step, in any world. */
  lemma SearchReaches(w: World, start: nat, end: nat, d: nat) returns (s: Query)
    requires Ascending(w.rows) && Positive(w.rows) && d > 0 && 0 < |Hits(w.rows, start, end)| < UINT32
    ensures Reaches(NewQuery(start, end, d), w, 1, s)
    ensures Waiting(s, w.rows, Hits(w.rows, start, end), 0, 0, d) && s.cursor.found == |Hits(w.rows, start, end)|
    ensures SentRows(s) == []
  {
    SearchStep(w.rows, start, end, d, w.sizes);
    s := Apply(NewQuery(start, end, d), Process(Calm(w.rows)), w.sizes);
    GoodStep(NewQuery(start, end, d), w, s);
    ReachesNext(NewQuery(start, end, d), s, w);
  }

  /** Every query whose hits can all be read ends after a fixed number of steps, having sent the chunks
      it read, numbered from 1 without gaps, after exactly the announced page queries. */
  lemma QueryAnswered(w: World, start: nat, end: nat, d: nat) returns (r: Query)
    requires Ascending(w.rows) && Positive(w.rows) && d > 0 && w.sizes.forward > 0
    requires 0 < |Hits(w.rows, start, end)| < UINT32 && AllGood(Hits(w.rows, start, end), w.bad)
    ensures var hits := Hits(w.rows, start, end); var b := Budget(w.sizes.limit);
            Reaches(NewQuery(start, end, d), w, 1 + StepsFrom(|hits|, 0, 0, d, b, w.sizes.forward), r) &&
            SentRows(r) == SentFrom(hits, 0, 0, d, b) && r.cursor.currentPage == CeilDiv(|hits|, d)
    ensures r.phase == Ended && r.disposed && Numbered(r) && r.created == |r.sent| && r.freed == []
  {
    var q, hits := NewQuery(start, end, d), Hits(w.rows, start, end);
    var s := SearchReaches(w, start, end, d);
    r := AnswerFrom(s, w, hits, 0, 0, d);
    PageQueriesMade(r.cursor);
    ReachesCompose(q, s, r, w, 1, StepsFrom(|hits|, 0, 0, d, Budget(w.sizes.limit), w.sizes.forward));
  }

  /** The row of a querable entry of the device in the interval. */
  predicate Found(idx: Index, did: string, dsType: nat, start: nat, end: nat, row: Row)
  {
    Wanted(row.ts, start, end) && Key(did, dsType, row.ts) in idx &&
    idx[Key(did, dsType, row.ts)] == IndexEntry(row.path, row.offset, row.size, Querable)
  }

  const DefaultSizes := Sizes(100, 50)

  /** The engine as configured: a query over an index with querable entries in its interval sends
      exactly these, once each, page by page in reverse, numbered 1 to N, and ends after
      2 + ceil(N / 100) + ceil(N / 50) steps. */
  lemma DefaultQueryAnswered(idx: Index, did: string, dsType: nat, start: nat, end: nat) returns (r: Query)
    requires forall k :: k in idx ==> k.ts > 0
    requires 0 < |Hits(Rows(idx, did, dsType), start, end)| < UINT32
    ensures var rows := Rows(idx, did, dsType); var hits := Hits(rows, start, end); var n := |hits|;
            Reaches(NewQuery(start, end, 100), World(rows, {}, DefaultSizes),
                    2 + CeilDiv(n, 100) + CeilDiv(n, 50), r) &&
            SentRows(r) == PagesReversed(hits, 100) && multiset(SentRows(r)) == multiset(hits) && Ascending(hits)
    ensures r.phase == Ended && r.disposed && Numbered(r)
    ensures forall row: Row :: row in SentRows(r) <==> Found(idx, did, dsType, start, end, row)
  {
    var rows := Rows(idx, did, dsType);
    RowsUsable(idx, did, dsType);
    r := DefaultRowsAnswered(rows, start, end);
    RowsWanted(idx, did, dsType, start, end);
  }

  lemma RowsUsable(idx: Index, did: string, dsType: nat)
    requires forall k :: k in idx ==> k.ts > 0
    ensures Ascending(Rows(idx, did, dsType)) && Positive(Rows(idx, did, dsType))
  {
    var rows := Rows(idx, did, dsType);
    RowsFacts(idx, did, dsType);
    forall i | 0 <= i < |rows| ensures rows[i].ts > 0 {
      assert rows[i] in rows;
    }
  }

  lemma RowsWanted(idx: Index, did: string, dsType: nat, start: nat, end: nat)
    ensures forall row: Row :: row in Hits(Rows(idx, did, dsType), start, end) <==>
              Found(idx, did, dsType, start, end, row)
  {
    RowsFacts(idx, did, dsType);
    HitsFacts(Rows(idx, did, dsType), start, end);
  }

  lemma DefaultRowsAnswered(rows: seq<Row>, start: nat, end: nat) returns (r: Query)
    requires Ascending(rows) && Positive(rows) && 0 < |Hits(rows, start, end)| < UINT32
    ensures var hits := Hits(rows, start, end); var n := |hits|;
            Reaches(NewQuery(start, end, 100), World(rows, {}, DefaultSizes),
                    2 + CeilDiv(n, 100) + CeilDiv(n, 50), r) &&
            SentRows(r) == PagesReversed(hits, 100) && multiset(SentRows(r)) == multiset(hits) && Ascending(hits)
    ensures r.phase == Ended && r.disposed && Numbered(r)
    ensures forall row :: row in SentRows(r) <==> row in Hits(rows, start, end)
  {
    var hits := Hits(rows, start, end);
    HitsFacts(rows, start, end);
    r := QueryAnswered(World(rows, {}, DefaultSizes), start, end, 100);
    DefaultSteps(|hits|, 0);
    DefaultShape(hits);
    SameMembers(SentRows(r), hits);
  }

  lemma DefaultShape(hits: seq<Row>)
    ensures SentFrom(hits, 0, 0, 100, 100) == PagesReversed(hits, 100)
    ensures multiset(SentFrom(hits, 0, 0, 100, 100)) == multiset(hits)
  {
    WholePages(hits, 0, 100, 100);
    assert hits[0..] == hits;
    LastPageBound(|hits|, 100);
    AnswerCompleteExactlyWhen(hits, 100, 100);
  }

  lemma SameMembers(a: seq<Row>, b: seq<Row>)
    requires multiset(a) == multiset(b)
    ensures forall row :: row in a <==> row in b
  {
    forall row ensures row in a <==> row in b {
      assert row in a <==> row in multiset(a);
      assert row in b <==> row in multiset(b);
    }
  }

  /** Without hits the query never reaches its end: it is reported as a search error. */
  lemma EmptyQueryFails(rows: seq<Row>, start: nat, end: nat, d: nat, sizes: Sizes)
    requires d > 0 && Hits(rows, start, end) == []
    ensures var q := NewQuery(start, end, d);
            CanStep(q, Process(Calm(rows))) &&
            var r := Apply(q, Process(Calm(rows)), sizes);
            r.phase == Error(-1) && r.disposed && r.sent == []
  {
    assert CeilDiv(0, d) == 0 by { assert (0 + d - 1) / d == 0; }
  }
}
