/** A query that meets a row it cannot read: what has been sent by then, and what becomes of the rest. */
module QueryFailure {
  import opened Sequences
  import opened PackIndex
  import opened IndexCursor
  import opened QueryEngine
  import opened QueryAnswer
  import opened QueryTheorems

  // ---------- the step that fails ----------

  /** The numbers from b - 1 down to a. */
  function Countdown(a: nat, b: nat): seq<nat>
    requires a <= b
  {
    seq(b - a, i requires 0 <= i < b - a => b - 1 - i)
  }

  predicate Consecutive(packs: seq<Pack>, serial: nat)
  {
    forall i :: 0 <= i < |packs| ==> packs[i].serial == serial + i
  }

  /** Dropping frees the waiting packs from the back. */
  lemma {:induction false} DropFrees(q: Query, serial: nat)
    requires q.toForward <= |q.fetched| && Consecutive(q.fetched, serial)
    ensures var r := DropUnsent(q);
            r == q.(toForward := 0, deleted := r.deleted, freed := q.freed + Countdown(serial, serial + q.toForward))
    decreases q.toForward
  {
    var k := q.toForward;
    if k == 0 {
      assert q.freed + Countdown(serial, serial) == q.freed;
    } else {
      var x := q.fetched[k - 1].serial;
      DropFrees(q.(toForward := k - 1, deleted := q.deleted + [x], freed := q.freed + [x]), serial);
      assert Countdown(serial, serial + k) == [x] + Countdown(serial, serial + k - 1);
      assert q.freed + [x] + Countdown(serial, serial + k - 1) == q.freed + ([x] + Countdown(serial, serial + k - 1));
    }
  }

  /** The state after the step in which reading hit number k fails. */
  predicate FailedAt(q: Query, r: Query, p: nat, k: nat)
    requires p <= k
  {
    r.phase == Error(-2) && r.disposed && r.sent == q.sent && r.totalSent == q.totalSent &&
    r.created == k && r.freed == Countdown(p, k) && r.toForward == 0
  }

  lemma BadStep(q: Query, w: World, hits: seq<Row>, f: nat, p: nat, d: nat, k: nat) returns (r: Query)
    requires Waiting(q, w.rows, hits, f, p, d) && p <= f < |hits|
    requires p <= k < p + ChunkSize(f, p, |hits|, d, Budget(w.sizes.limit)) && k < |hits|
    requires hits[k].ts in w.bad && AllGood(hits[p..k], w.bad)
    ensures Reaches(q, w, 1, r) && FailedAt(q, r, p, k)
  {
    BadInChunk(q, w, hits, f, p, d, k, ChunkSize(f, p, |hits|, d, Budget(w.sizes.limit)));
    r := BadFetch(q, w, k - p);
  }

  lemma BadInChunk(q: Query, w: World, hits: seq<Row>, f: nat, p: nat, d: nat, k: nat, m: nat)
    requires Waiting(q, w.rows, hits, f, p, d) && p <= f < |hits| &&
             m == ChunkSize(f, p, |hits|, d, Budget(w.sizes.limit))
    requires p <= k < p + m <= |hits| && hits[k].ts in w.bad && AllGood(hits[p..k], w.bad)
    ensures Fits(q, w) && k - p < |Chunk(q, Calm(w.rows), w.sizes.limit)|
    ensures FirstBad(Chunk(q, Calm(w.rows), w.sizes.limit), w.bad) == k - p
  {
    ChunkIsHits(q, w, hits, f, p, d, m);
    assert FirstBad(hits[p..p + m], w.bad) == k - p by { FirstBadInSlice(hits, w.bad, p, p + m, k); }
  }

  lemma FirstBadInSlice(hits: seq<Row>, bad: set<nat>, p: nat, e: nat, k: nat)
    requires p <= k < e <= |hits| && hits[k].ts in bad && AllGood(hits[p..k], bad)
    ensures FirstBad(hits[p..e], bad) == k - p
  {
    assert hits[p..e][..k - p] == hits[p..k];
    FirstBadIs(hits[p..e], bad, k - p, hits[p..k]);
  }

  lemma BadFetch(q: Query, w: World, k: nat) returns (r: Query)
    requires Fits(q, w) && q.phase == FetchData && q.fetched == [] && q.freed == []
    requires k < |Chunk(q, Calm(w.rows), w.sizes.limit)| && FirstBad(Chunk(q, Calm(w.rows), w.sizes.limit), w.bad) == k
    ensures Reaches(q, w, 1, r) && FailedAt(q, r, q.created, q.created + k)
  {
    MeetsBad(q, w, k);
    r := Apply(q, Process(Meets(q, w)), w.sizes);
    FailingFetch(q, Meets(q, w), w.sizes, k);
    ReachesNext(q, r, w);
  }

  lemma MeetsBad(q: Query, w: World, k: nat)
    requires Fits(q, w) && q.phase == FetchData
    requires k < |Chunk(q, Calm(w.rows), w.sizes.limit)| && FirstBad(Chunk(q, Calm(w.rows), w.sizes.limit), w.bad) == k
    ensures Meets(q, w) == Calm(w.rows).(readFails := true, readFailsAt := k)
    ensures Chunk(q, Meets(q, w), w.sizes.limit) == Chunk(q, Calm(w.rows), w.sizes.limit)
  {
  }

  lemma FirstBadIs(rows: seq<Row>, bad: set<nat>, k: nat, before: seq<Row>)
    requires k < |rows| && rows[k].ts in bad && before == rows[..k] && AllGood(before, bad)
    ensures FirstBad(rows, bad) == k
  {
    assert forall i :: 0 <= i < k ==> rows[i] == before[i];
    var f := FirstBad(rows, bad);
    assert forall i :: 0 <= i < f ==> rows[i].ts !in bad;
  }

  /** A fetch step whose k-th read fails: the packs read before it are deleted with their buffers. */
  lemma FailingFetch(q: Query, env: Env, sizes: Sizes, k: nat)
    requires CanStep(q, Process(env)) && q.phase == FetchData && q.fetched == [] && q.freed == []
    requires env.readFails && env.readFailsAt == k < |Chunk(q, env, sizes.limit)|
    ensures var r := Apply(q, Process(env), sizes);
            r.phase == Error(-2) && r.disposed && r.sent == q.sent && r.totalSent == q.totalSent &&
            r.created == q.created + k && r.freed == Countdown(q.created, q.created + k) && r.toForward == 0
  {
    FetchFails(q, env, sizes.limit, k);
    DropFrees(Fetch(q, env, sizes.limit), q.created);
    assert [] + Countdown(q.created, q.created + k) == Countdown(q.created, q.created + k);
  }

  lemma FetchFails(q: Query, env: Env, limit: nat, k: nat)
    requires CanFetch(q, env) && q.fetched == [] && env.readFails && env.readFailsAt == k < |Chunk(q, env, limit)|
    ensures var r := Fetch(q, env, limit);
            r == q.(cursor := r.cursor, fetched := r.fetched, created := q.created + k, phase := Error(-2),
                    toForward := k) &&
            |r.fetched| == k && Consecutive(r.fetched, q.created)
  {
    PageRead(q, env, limit);
    FirstPacks(q.created, Chunk(q, env, limit), k);
  }

  lemma FirstPacks(serial: nat, rows: seq<Row>, k: nat)
    requires k <= |rows|
    ensures [] + PacksOf(serial, rows[..k]) == PacksOf(serial, rows[..k])
    ensures |PacksOf(serial, rows[..k])| == k && Consecutive(PacksOf(serial, rows[..k]), serial)
  {
  }

  // ---------- the whole query ----------

  /** Number of whole pages before the one that holds hit number k. */
  function PagesBefore(k: nat, d: nat): nat
    requires d > 0
  {
    CeilDiv(k + 1, d) - 1
  }

  lemma PagesBeforeStep(k: nat, d: nat)
    requires d > 0
    ensures k < d ==> PagesBefore(k, d) == 0
    ensures k >= d ==> PagesBefore(k, d) == 1 + PagesBefore(k - d, d)
  {
    if k < d { CeilOne(k + 1, d); } else { CeilStep(k + 1, d); }
  }

  lemma PagesBeforeBounds(k: nat, d: nat)
    requires d > 0
    ensures PagesBefore(k, d) * d <= k < PagesBefore(k, d) * d + d
  {
    CeilBounds(k + 1, d);
    MulNext(PagesBefore(k, d), d);
  }

  /** From the f-th hit on, pages are sent until the one that holds the first bad hit. */
  ghost predicate FailsFrom(q: Query, w: World, hits: seq<Row>, f: nat, d: nat, k: nat, r: Query)
    requires f <= k < |hits| && d > 0 && w.sizes.forward > 0
  {
    var n := PagesBefore(k - f, d);
    FailsAfter(q, w, hits, f, d, k, r, f + n * d, n * (1 + CeilDiv(d, w.sizes.forward)) + 1)
  }

  ghost predicate FailsAfter(q: Query, w: World, hits: seq<Row>, f: nat, d: nat, k: nat, r: Query, end: nat, steps: nat)
    requires f <= k < |hits| && d > 0
  {
    f <= end <= k && Reaches(q, w, steps, r) &&
    SentRows(r) == SentRows(q) + PagesReversed(hits[f..end], d) && Numbered(r) &&
    r.phase == Error(-2) && r.disposed && r.created == k && r.freed == Countdown(end, k)
  }

  lemma FailsNow(q: Query, w: World, hits: seq<Row>, f: nat, d: nat, k: nat) returns (r: Query)
    requires Waiting(q, w.rows, hits, f, f, d) && w.sizes.forward > 0 && 0 < d <= Budget(w.sizes.limit)
    requires f <= k < |hits| && k < f + d && hits[k].ts in w.bad && AllGood(hits[f..k], w.bad)
    ensures FailsFrom(q, w, hits, f, d, k, r)
  {
    r := BadStep(q, w, hits, f, f, d, k);
    FailedInPage(q, w, hits, f, d, k, r);
  }

  lemma FailedInPage(q: Query, w: World, hits: seq<Row>, f: nat, d: nat, k: nat, r: Query)
    requires f <= k < |hits| && k < f + d && w.sizes.forward > 0 && Numbered(q)
    requires Reaches(q, w, 1, r) && FailedAt(q, r, f, k)
    ensures FailsFrom(q, w, hits, f, d, k, r)
  {
    SameSent(q, r);
    NoPages(hits, f, d);
    assert SentRows(q) + [] == SentRows(q);
    assert FailsAfter(q, w, hits, f, d, k, r, f, 1);
    PagesBeforeStep(k - f, d);
  }

  lemma SameSent(q: Query, r: Query)
    requires r.sent == q.sent && r.totalSent == q.totalSent
    ensures SentRows(r) == SentRows(q) && (Numbered(q) ==> Numbered(r))
  {
  }

  lemma NoPages(hits: seq<Row>, f: nat, d: nat)
    requires f <= |hits| && d > 0
    ensures PagesReversed(hits[f..f], d) == []
  {
  }

  lemma {:induction false} FailFrom(q: Query, w: World, hits: seq<Row>, f: nat, d: nat, k: nat) returns (r: Query)
    requires Waiting(q, w.rows, hits, f, f, d) && w.sizes.forward > 0 && 0 < d <= Budget(w.sizes.limit)
    requires f <= k < |hits| && hits[k].ts in w.bad && AllGood(hits[..k], w.bad)
    ensures FailsFrom(q, w, hits, f, d, k, r)
    decreases k - f
  {
    if k < f + d {
      assert hits[f..k] == hits[..k][f..k];
      r := FailsNow(q, w, hits, f, d, k);
    } else {
      assert hits[f..f + d] == hits[..k][f..f + d];
      SliceGood(hits[..k], f, f + d, w.bad);
      var s := FetchAndForward(q, w, hits, f, f, d, d, f + d);
      r := FailFrom(s, w, hits, f + d, d, k);
      OnePageMore(q, s, r, w, hits, f, d, k);
    }
  }

  lemma OnePageMore(q: Query, s: Query, r: Query, w: World, hits: seq<Row>, f: nat, d: nat, k: nat)
    requires f + d <= k < |hits| && d > 0 && w.sizes.forward > 0
    ensures ChunkSent(q, s, w, hits, f, d) && FailsFrom(s, w, hits, f + d, d, k, r) ==>
              FailsFrom(q, w, hits, f, d, k, r)
  {
    var n, c := PagesBefore(k - f - d, d), 1 + CeilDiv(d, w.sizes.forward);
    OnePageAfter(q, s, r, w, hits, f, d, k, f + d + n * d, n * c + 1);
    PagesBeforeStep(k - f, d);
    assert f + d + n * d == f + (n + 1) * d by { MulNext(n, d); }
    assert c + (n * c + 1) == (n + 1) * c + 1 by { MulNext(n, c); }
  }

  lemma OnePageAfter(q: Query, s: Query, r: Query, w: World, hits: seq<Row>, f: nat, d: nat, k: nat, end: nat,
                     steps: nat)
    requires f + d <= k < |hits| && d > 0 && w.sizes.forward > 0
    ensures ChunkSent(q, s, w, hits, f, d) && FailsAfter(s, w, hits, f + d, d, k, r, end, steps) ==>
              FailsAfter(q, w, hits, f, d, k, r, end, 1 + CeilDiv(d, w.sizes.forward) + steps)
  {
    if ChunkSent(q, s, w, hits, f, d) && FailsAfter(s, w, hits, f + d, d, k, r, end, steps) {
      ReachesCompose(q, s, r, w, 1 + CeilDiv(d, w.sizes.forward), steps);
      PagesFirst(hits, f, d, end);
      assert SentRows(q) + Reversed(hits[f..f + d]) + PagesReversed(hits[f + d..end], d)
          == SentRows(q) + (Reversed(hits[f..f + d]) + PagesReversed(hits[f + d..end], d));
    }
  }

  lemma PagesFirst(hits: seq<Row>, f: nat, d: nat, end: nat)
    requires d > 0 && f + d <= end <= |hits|
    ensures PagesReversed(hits[f..end], d) == Reversed(hits[f..f + d]) + PagesReversed(hits[f + d..end], d)
  {
    assert hits[f..end][..d] == hits[f..f + d] && hits[f..end][d..] == hits[f + d..end];
  }

  /** A query that asks for rows it cannot read ends in error -2. It has sent exactly the whole pages
      before the one that holds the first of them; the packs of that page read by then are freed. */
  lemma QueryFails(w: World, start: nat, end: nat, d: nat) returns (r: Query)
    requires Ascending(w.rows) && Positive(w.rows) && 0 < d <= Budget(w.sizes.limit) && w.sizes.forward > 0
    requires 0 < |Hits(w.rows, start, end)| < UINT32 &&
             FirstBad(Hits(w.rows, start, end), w.bad) < |Hits(w.rows, start, end)|
    ensures var hits := Hits(w.rows, start, end); var k := FirstBad(hits, w.bad); var n := PagesBefore(k, d);
            n * d <= k < n * d + d &&
            Reaches(NewQuery(start, end, d), w, 2 + n * (1 + CeilDiv(d, w.sizes.forward)), r) &&
            SentRows(r) == PagesReversed(hits[..n * d], d) && r.created == k && r.freed == Countdown(n * d, k)
    ensures r.phase == Error(-2) && r.disposed && Numbered(r)
  {
    var hits := Hits(w.rows, start, end);
    var k := FirstBad(hits, w.bad);
    var s := SearchReaches(w, start, end, d);
    assert AllGood(hits[..k], w.bad);
    r := FailFrom(s, w, hits, 0, d, k);
    var end', steps := PagesBefore(k, d) * d, PagesBefore(k, d) * (1 + CeilDiv(d, w.sizes.forward)) + 1;
    assert end' <= k < end' + d by { PagesBeforeBounds(k, d); }
    FromTheStart(NewQuery(start, end, d), s, w, hits, d, k, r, end', steps);
  }

  lemma FromTheStart(q: Query, s: Query, w: World, hits: seq<Row>, d: nat, k: nat, r: Query, end: nat, steps: nat)
    requires k < |hits| && d > 0 && Reaches(q, w, 1, s) && SentRows(s) == []
    ensures FailsAfter(s, w, hits, 0, d, k, r, end, steps) ==>
              end <= k && Reaches(q, w, 1 + steps, r) && SentRows(r) == PagesReversed(hits[..end], d)
  {
    if FailsAfter(s, w, hits, 0, d, k, r, end, steps) {
      ReachesCompose(q, s, r, w, 1, steps);
      assert hits[0..end] == hits[..end];
      assert [] + PagesReversed(hits[..end], d) == PagesReversed(hits[..end], d);
    }
  }
}
