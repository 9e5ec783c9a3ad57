/** What a query sends, and in how many engine steps, when nothing fails and the index does not
    change while it is answered. */
module QueryAnswer {
  import opened Sequences
  import opened PackIndex
  import opened IndexCursor
  import opened QueryEngine

  function Calm(rows: seq<Row>): Env
  {
    Env(rows, false, false, false, 0, false, false, [], true)
  }

  /** The store a query is answered from: its rows, which of them cannot be read, and the sizes in use. */
  datatype World = World(rows: seq<Row>, bad: set<nat>, sizes: Sizes)

  /** Index of the first row that cannot be read, or the number of rows. */
  function FirstBad(rows: seq<Row>, bad: set<nat>): (k: nat)
    ensures k <= |rows| && (k < |rows| ==> rows[k].ts in bad)
    ensures forall i :: 0 <= i < k ==> rows[i].ts !in bad
  {
    if rows == [] || rows[0].ts in bad then 0 else 1 + FirstBad(rows[1..], bad)
  }

  predicate Fits(q: Query, w: World) {
    CanStep(q, Process(Calm(w.rows)))
  }

  /** What a step meets: nothing fails but the reading of bad rows. */
  function Meets(q: Query, w: World): Env
    requires Fits(q, w)
  {
    if q.phase != FetchData then Calm(w.rows)
    else
      var rows := Chunk(q, Calm(w.rows), w.sizes.limit);
      var k := FirstBad(rows, w.bad);
      if k == |rows| then Calm(w.rows) else Calm(w.rows).(readFails := true, readFailsAt := k)
  }

  predicate StepsTo(q: Query, w: World, r: Query)
  {
    Fits(q, w) && r == Apply(q, Process(Meets(q, w)), w.sizes)
  }

  ghost predicate IsPath(path: seq<Query>, w: World)
  {
    forall i {:trigger StepsTo(path[i], w, path[i + 1])} :: 0 <= i < |path| - 1 ==> StepsTo(path[i], w, path[i + 1])
  }

  ghost predicate LeadsTo(path: seq<Query>, q: Query, w: World, n: nat, r: Query)
  {
    IsPath(path, w) && |path| == n + 1 && path[0] == q && path[n] == r
  }

  /** `n` engine steps lead from `q` to `r`. */
  ghost predicate Reaches(q: Query, w: World, n: nat, r: Query)
  {
    exists path :: LeadsTo(path, q, w, n, r)
  }

  lemma PathStep(path: seq<Query>, w: World, i: nat)
    requires IsPath(path, w) && i + 1 < |path|
    ensures StepsTo(path[i], w, path[i + 1])
  {
  }

  lemma ReachesCompose(q: Query, r: Query, s: Query, w: World, m: nat, n: nat)
    requires Reaches(q, w, m, r) && Reaches(r, w, n, s)
    ensures Reaches(q, w, m + n, s)
  {
    var a :| LeadsTo(a, q, w, m, r);
    var b :| LeadsTo(b, r, w, n, s);
    var path := a + b[1..];
    forall i | 0 <= i < |path| - 1 ensures StepsTo(path[i], w, path[i + 1]) {
      if i < m {
        PathStep(a, w, i);
      } else {
        assert path[i] == b[i - m] && path[i + 1] == b[i - m + 1];
        PathStep(b, w, i - m);
      }
    }
    assert LeadsTo(path, q, w, m + n, s);
  }

  lemma ReachesNext(q: Query, s: Query, w: World)
    requires StepsTo(q, w, s)
    ensures Reaches(q, w, 1, s)
  {
    assert LeadsTo([q, s], q, w, 1, s);
  }

  /** The engine is deterministic: paths of the same world from the same query agree as far as both go. */
  lemma {:induction false} SamePath(a: seq<Query>, b: seq<Query>, w: World, i: nat)
    requires IsPath(a, w) && IsPath(b, w) && i < |a| && i < |b| && a[0] == b[0]
    ensures a[i] == b[i]
  {
    if i > 0 {
      SamePath(a, b, w, i - 1);
      PathStep(a, w, i - 1);
      PathStep(b, w, i - 1);
    }
  }

  /** Hence a path that ends with a query the engine has let go of is the only one that does. */
  lemma EndsThere(path: seq<Query>, q: Query, w: World, n: nat, r: Query)
    requires IsPath(path, w) && path != [] && path[0] == q && path[|path| - 1].disposed
    requires Reaches(q, w, n, r) && r.disposed
    ensures |path| == n + 1 && path[n] == r
  {
    var a :| LeadsTo(a, q, w, n, r);
    var last := |path| - 1;
    if last < n {
      SamePath(path, a, w, last);
      PathStep(a, w, last);
    } else if n < last {
      SamePath(path, a, w, n);
      PathStep(path, w, n);
    } else {
      SamePath(path, a, w, n);
    }
  }

  function RowsOf(packs: seq<Pack>): seq<Row>
  {
    seq(|packs|, i requires 0 <= i < |packs| => packs[i].row)
  }

  function SentRows(q: Query): seq<Row>
  {
    seq(|q.sent|, i requires 0 <= i < |q.sent| => q.sent[i].pack.row)
  }

  /** Numbered from 1 without gaps. */
  predicate Numbered(q: Query)
  {
    q.totalSent == |q.sent| && forall i :: 0 <= i < |q.sent| ==> q.sent[i].number == i + 1
  }

  // ---------- the loops when nothing fails ----------

  lemma RowsOfPacks(serial: nat, rows: seq<Row>)
    ensures RowsOf(PacksOf(serial, rows)) == rows
  {
  }

  lemma ReadLoopCalm(q: Query, budget: nat)
    requires q.cursor.returned <= |q.cursor.page|
    ensures var (r, ok) := ReadLoop(q, budget, false, 0);
            var m := Min(budget, |q.cursor.page| - q.cursor.returned);
            ok && r == q.(cursor := q.cursor.(returned := q.cursor.returned + m), fetched := r.fetched,
                          created := q.created + m) &&
            RowsOf(r.fetched) == RowsOf(q.fetched) + q.cursor.page[q.cursor.returned..q.cursor.returned + m]
  {
    var rows := Upcoming(q.cursor, budget);
    ReadLoopReads(q, budget, false, 0);
    assert rows[..|rows|] == rows;
    RowsOfPacks(q.created, rows);
    assert RowsOf(q.fetched + PacksOf(q.created, rows)) == RowsOf(q.fetched) + RowsOf(PacksOf(q.created, rows));
  }

  lemma SendOneCalm(q: Query)
    requires 0 < q.toForward <= |q.fetched| && Numbered(q) && |q.sent| + q.toForward < UINT32
    ensures Numbered(SendOne(q)) && SentRows(SendOne(q)) == SentRows(q) + [q.fetched[q.toForward - 1].row]
  {
  }

  lemma ReversedSlice(rows: seq<Row>, a: nat, t: nat)
    requires a < t <= |rows|
    ensures Reversed(rows[a..t]) == [rows[t - 1]] + Reversed(rows[a..t - 1])
  {
    assert rows[a..t] == rows[a..t - 1] + [rows[t - 1]];
    ReversedConcat(rows[a..t - 1], [rows[t - 1]]);
    assert Reversed([rows[t - 1]]) == [rows[t - 1]];
  }

  /** `m` packs were sent off the back of the fetched vector of `q`. */
  predicate SentOff(q: Query, r: Query, m: nat)
    requires m <= q.toForward <= |q.fetched|
  {
    Numbered(r) && r.toForward == q.toForward - m && |r.sent| == |q.sent| + m &&
    SentRows(r) == SentRows(q) + Reversed(RowsOf(q.fetched)[q.toForward - m..q.toForward])
  }

  lemma SentOffGrows(q: Query, r: Query, m: nat)
    requires 0 < m <= q.toForward <= |q.fetched| && Numbered(q) && |q.sent| + q.toForward < UINT32
    requires SentOff(SendOne(q), r, m - 1)
    ensures SentOff(q, r, m)
  {
    var t, rows := q.toForward, RowsOf(q.fetched);
    SendOneCalm(q);
    ReversedSlice(rows, t - m, t);
    assert rows[t - 1] == q.fetched[t - 1].row;
  }

  lemma {:induction false} SendLoopCalm(q: Query, budget: nat)
    requires q.toForward <= |q.fetched| && Numbered(q) && |q.sent| + q.toForward < UINT32
    ensures var (r, ok) := SendLoop(q, [], budget); ok && SentOff(q, r, Min(budget, q.toForward))
    decreases budget
  {
    if budget == 0 || q.toForward == 0 {
      assert RowsOf(q.fetched)[q.toForward..q.toForward] == [];
    } else {
      var s := SendOne(q);
      SendOneCalm(q);
      SendLoopCalm(s, budget - 1);
      assert SendLoop(q, [], budget) == SendLoop(s, [], budget - 1);
      SentOffGrows(q, SendLoop(s, [], budget - 1).0, Min(budget, q.toForward));
    }
  }

  // ---------- forwarding all that was fetched ----------

  predicate Forwarding(q: Query)
  {
    q.phase == ForwardData && !q.disposed && 0 < q.toForward <= |q.fetched| && Numbered(q) &&
    |q.sent| + q.toForward < UINT32 && q.cursor.dimension > 0
  }

  /** Ready for the next fetch step; the same position of the cursor. */
  predicate ReadyToFetch(q: Query, c: Cursor, sentRows: seq<Row>)
  {
    q.phase == FetchData && !q.disposed && q.fetched == [] && q.toForward == 0 && Numbered(q) &&
    q.cursor == c && SentRows(q) == sentRows
  }

  lemma ForwardStep(q: Query, rows: seq<Row>, sizes: Sizes)
    requires Forwarding(q) && sizes.forward > 0
    ensures var r := Apply(q, Process(Calm(rows)), sizes);
            var m := Min(sizes.forward, q.toForward);
            var sentRows := SentRows(q) + Reversed(RowsOf(q.fetched)[q.toForward - m..q.toForward]);
            |r.sent| == |q.sent| + m && r.created == q.created && r.freed == q.freed &&
            if m == q.toForward then ReadyToFetch(r, q.cursor, sentRows)
            else Forwarding(r) && r.cursor == q.cursor && r.fetched == q.fetched && r.toForward == q.toForward - m &&
                 SentRows(r) == sentRows
  {
    SendLoopCalm(q, sizes.forward);
    SendLoopBounds(q, [], sizes.forward);
    var r := SendLoop(q, [], sizes.forward).0;
    var f := Forward(q, Calm(rows), sizes.forward);
    assert SentRows(f) == SentRows(r);
  }

  lemma CeilStep(n: nat, d: nat)
    requires 0 < d < n
    ensures CeilDiv(n, d) == 1 + CeilDiv(n - d, d)
  {
    var k := CeilDiv(n - d, d);
    CeilBounds(n - d, d);
    MulNext(k - 1, d);
    MulNext(k, d);
    CeilUnique(n, d, k + 1);
  }

  lemma CeilOne(n: nat, d: nat)
    requires 0 < n <= d
    ensures CeilDiv(n, d) == 1
  {
  }

  lemma {:induction false} ForwardAll(q: Query, w: World) returns (r: Query)
    requires Forwarding(q) && w.sizes.forward > 0
    ensures Reaches(q, w, CeilDiv(q.toForward, w.sizes.forward), r)
    ensures ReadyToFetch(r, q.cursor, SentRows(q) + Reversed(RowsOf(q.fetched)[..q.toForward]))
    ensures |r.sent| == |q.sent| + q.toForward && r.created == q.created && r.freed == q.freed
    decreases q.toForward
  {
    var s := Apply(q, Process(Calm(w.rows)), w.sizes);
    var t, f, packs := q.toForward, w.sizes.forward, RowsOf(q.fetched);
    ForwardStep(q, w.rows, w.sizes);
    ReachesNext(q, s, w);
    if t <= f {
      CeilOne(t, f);
      assert packs[0..t] == packs[..t];
      r := s;
    } else {
      CeilStep(t, f);
      r := ForwardAll(s, w);
      ReachesCompose(q, s, r, w, 1, CeilDiv(t - f, f));
      assert packs[..t] == packs[..t - f] + packs[t - f..t];
      ReversedConcat(packs[..t - f], packs[t - f..t]);
    }
  }

  // ---------- one fetch step ----------

  /** Hits handed out by the cursor so far. */
  function Position(c: Cursor): int {
    c.fetched - |c.page| + c.returned
  }

  /** Waiting for the next fetch step, everything handed out so far sent. */
  ghost predicate AtFetch(q: Query, rows: seq<Row>, hits: seq<Row>)
  {
    ReadyToFetch(q, q.cursor, SentRows(q)) && Follows(q.cursor, rows, hits) && |q.sent| == Position(q.cursor)
  }

  /** How many packs the next fetch step reads. */
  function ChunkSize(f: nat, r: nat, n: nat, dimension: nat, budget: nat): nat
    requires r <= f < n
  {
    Min(budget, if r < f then f - r else Min(dimension, n - f))
  }

  function PageEnd(f: nat, r: nat, n: nat, dimension: nat): nat
    requires r <= f < n
  {
    if r < f then f else f + Min(dimension, n - f)
  }

  /** A read of `m` packs that leaves the cursor at `c`. */
  ghost predicate ReadChunk(q: Query, r: Query, rows: seq<Row>, hits: seq<Row>, m: nat, end: nat)
    requires Follows(q.cursor, rows, hits)
  {
    var p := Position(q.cursor);
    p + m <= |hits| && r == q.(cursor := r.cursor, fetched := r.fetched, created := q.created + m) &&
    RowsOf(r.fetched) == hits[p..p + m] && Follows(r.cursor, rows, hits) && Position(r.cursor) == p + m &&
    r.cursor.fetched == end && r.cursor.found == q.cursor.found && r.cursor.dimension == q.cursor.dimension
  }

  lemma ReadRest(q: Query, rows: seq<Row>, hits: seq<Row>, budget: nat)
    requires q.fetched == [] && Follows(q.cursor, rows, hits)
    ensures var (r, ok) := ReadLoop(q, budget, false, 0);
            ok && ReadChunk(q, r, rows, hits, Min(budget, |q.cursor.page| - q.cursor.returned), q.cursor.fetched)
  {
    var m := Min(budget, |q.cursor.page| - q.cursor.returned);
    ReadLoopCalm(q, budget);
    ChunkRead(q, ReadLoop(q, budget, false, 0).0, rows, hits, m);
  }

  lemma ChunkRead(q: Query, r: Query, rows: seq<Row>, hits: seq<Row>, m: nat)
    requires q.fetched == [] && Follows(q.cursor, rows, hits) && q.cursor.returned + m <= |q.cursor.page|
    requires r == q.(cursor := q.cursor.(returned := q.cursor.returned + m), fetched := r.fetched,
                     created := q.created + m)
    requires RowsOf(r.fetched) == RowsOf(q.fetched) + q.cursor.page[q.cursor.returned..q.cursor.returned + m]
    ensures ReadChunk(q, r, rows, hits, m, q.cursor.fetched)
  {
    PageSlice(q.cursor, rows, hits, m);
    assert RowsOf([]) == [];
  }

  lemma ReadStep(q: Query, rows: seq<Row>, hits: seq<Row>, limit: nat)
    requires AtFetch(q, rows, hits) && q.cursor.fetched < q.cursor.found
    ensures CanFetch(q, Calm(rows))
    ensures var (r, ok) := ReadDataPackPage(q, Calm(rows), limit);
            var f, p, n := q.cursor.fetched, Position(q.cursor), q.cursor.found;
            ok && ReadChunk(q, r, rows, hits, ChunkSize(f, p, n, q.cursor.dimension, Budget(limit)),
                            PageEnd(f, p, n, q.cursor.dimension))
  {
    if HasNext(q.cursor) {
      ReadRest(q, rows, hits, Budget(limit));
    } else {
      ReadNewPage(q, rows, hits, limit);
    }
  }

  lemma ReadNewPage(q: Query, rows: seq<Row>, hits: seq<Row>, limit: nat)
    requires AtFetch(q, rows, hits) && q.cursor.fetched < q.cursor.found && !HasNext(q.cursor)
    ensures CanFetch(q, Calm(rows))
    ensures var (r, ok) := ReadDataPackPage(q, Calm(rows), limit);
            var f, p, n := q.cursor.fetched, Position(q.cursor), q.cursor.found;
            ok && ReadChunk(q, r, rows, hits, ChunkSize(f, p, n, q.cursor.dimension, Budget(limit)),
                            PageEnd(f, p, n, q.cursor.dimension))
  {
    NextPageFollows(q.cursor, rows, hits);
    var turned := q.(cursor := NextPage(q.cursor, rows));
    ReadRest(turned, rows, hits, Budget(limit));
    assert Position(turned.cursor) == Position(q.cursor) == q.cursor.fetched;
    var r := ReadLoop(turned, Budget(limit), false, 0).0;
    assert turned.(cursor := r.cursor, fetched := r.fetched, created := r.created)
        == q.(cursor := r.cursor, fetched := r.fetched, created := r.created);
  }

  lemma PageSlice(c: Cursor, rows: seq<Row>, hits: seq<Row>, m: nat)
    requires Follows(c, rows, hits) && c.returned + m <= |c.page|
    ensures c.page[c.returned..c.returned + m] == hits[Position(c)..Position(c) + m]
    ensures Follows(c.(returned := c.returned + m), rows, hits)
  {
  }

  lemma ReadPaged(q: Query, rows: seq<Row>, hits: seq<Row>, limit: nat)
    requires AtFetch(q, rows, hits) && q.cursor.fetched < q.cursor.found && Paged(q.cursor)
    ensures CanFetch(q, Calm(rows)) && Paged(ReadDataPackPage(q, Calm(rows), limit).0.cursor)
  {
    var c := q.cursor;
    if HasNext(c) {
      ReadLoopCalm(q, Budget(limit));
    } else {
      NextPagePaged(c, rows, hits);
      NextPageFollows(c, rows, hits);
      ReadLoopCalm(q.(cursor := NextPage(c, rows)), Budget(limit));
    }
  }

  lemma FetchStep(q: Query, rows: seq<Row>, hits: seq<Row>, sizes: Sizes)
    requires AtFetch(q, rows, hits) && q.cursor.fetched < q.cursor.found
    ensures CanStep(q, Process(Calm(rows)))
    ensures var s := Apply(q, Process(Calm(rows)), sizes);
            var f, p, n := q.cursor.fetched, Position(q.cursor), q.cursor.found;
            var m := ChunkSize(f, p, n, q.cursor.dimension, Budget(sizes.limit));
            Forwarding(s) && s.toForward == |s.fetched| == m && RowsOf(s.fetched) == hits[p..p + m] &&
            s.sent == q.sent && s.created == q.created + m && s.freed == q.freed &&
            s.cursor == ReadDataPackPage(q, Calm(rows), sizes.limit).0.cursor
  {
    ReadStep(q, rows, hits, sizes.limit);
    var r := ReadDataPackPage(q, Calm(rows), sizes.limit).0;
    assert |RowsOf(r.fetched)| == |r.fetched|;
  }

  /** Everything fetched: the next step ends the query. */
  lemma EndStep(q: Query, rows: seq<Row>, hits: seq<Row>, sizes: Sizes)
    requires AtFetch(q, rows, hits) && q.cursor.fetched == q.cursor.found
    ensures CanStep(q, Process(Calm(rows)))
    ensures var r := Apply(q, Process(Calm(rows)), sizes);
            r.phase == Ended && r.disposed && r.sent == q.sent && r.totalSent == q.totalSent && r.cursor == q.cursor &&
            r.created == q.created && r.freed == q.freed
  {
  }

  // ---------- the whole answer ----------

  /** What is sent from a position of the cursor on: every chunk read, each reversed. */
  function SentFrom(hits: seq<Row>, f: nat, r: nat, dimension: nat, budget: nat): seq<Row>
    requires r <= f <= |hits| && dimension > 0 && budget > 0
    decreases |hits| - f, f - r
  {
    if f == |hits| then []
    else
      var m := ChunkSize(f, r, |hits|, dimension, budget);
      Reversed(hits[r..r + m]) + SentFrom(hits, PageEnd(f, r, |hits|, dimension), r + m, dimension, budget)
  }

  /** The engine steps this takes, the last one included. */
  function StepsFrom(n: nat, f: nat, r: nat, dimension: nat, budget: nat, page: nat): nat
    requires r <= f <= n && dimension > 0 && budget > 0 && page > 0
    decreases n - f, f - r
  {
    if f == n then 1
    else
      var m := ChunkSize(f, r, n, dimension, budget);
      1 + CeilDiv(m, page) + StepsFrom(n, PageEnd(f, r, n, dimension), r + m, dimension, budget, page)
  }

  /** Position of the cursor: `f` hits fetched, `p` of them handed out, in pages of `d`. */
  predicate Stands(c: Cursor, f: nat, p: nat, d: nat) {
    c.fetched == f && Position(c) == p && c.dimension == d && p <= f <= c.found
  }

  ghost predicate Waiting(q: Query, rows: seq<Row>, hits: seq<Row>, f: nat, p: nat, d: nat)
  {
    AtFetch(q, rows, hits) && Paged(q.cursor) && Stands(q.cursor, f, p, d) && q.created == |q.sent| && q.freed == []
  }

  /** The next `m` hits have been sent, as one reversed chunk. */
  ghost predicate ChunkSent(q: Query, r: Query, w: World, hits: seq<Row>, p: nat, m: nat)
    requires p + m <= |hits| && w.sizes.forward > 0
  {
    Reaches(q, w, 1 + CeilDiv(m, w.sizes.forward), r) && SentRows(r) == SentRows(q) + Reversed(hits[p..p + m]) &&
    r.cursor.found == q.cursor.found && r.cursor.dimension == q.cursor.dimension
  }

  predicate AllGood(rows: seq<Row>, bad: set<nat>)
  {
    forall i :: 0 <= i < |rows| ==> rows[i].ts !in bad
  }

  lemma SliceGood(rows: seq<Row>, a: nat, b: nat, bad: set<nat>)
    requires AllGood(rows, bad) && a <= b <= |rows|
    ensures AllGood(rows[a..b], bad)
  {
  }

  lemma UpcomingIsHits(c: Cursor, rows: seq<Row>, hits: seq<Row>, budget: nat)
    requires Follows(c, rows, hits)
    ensures var m := Min(budget, |c.page| - c.returned); Upcoming(c, budget) == hits[Position(c)..Position(c) + m]
  {
    PageSlice(c, rows, hits, Min(budget, |c.page| - c.returned));
  }

  /** The rows a fetch step is going to read are the next hits. */
  lemma ChunkIsHits(q: Query, w: World, hits: seq<Row>, f: nat, p: nat, d: nat, m: nat)
    requires Waiting(q, w.rows, hits, f, p, d) && p <= f < |hits|
    requires m == ChunkSize(f, p, |hits|, d, Budget(w.sizes.limit))
    ensures Fits(q, w) && p + m <= |hits| && Chunk(q, Calm(w.rows), w.sizes.limit) == hits[p..p + m]
  {
    if HasNext(q.cursor) {
      UpcomingIsHits(q.cursor, w.rows, hits, Budget(w.sizes.limit));
      assert |q.cursor.page| - q.cursor.returned == f - p;
    } else {
      NewChunkIsHits(q, w, hits, f, d);
    }
  }

  lemma NewChunkIsHits(q: Query, w: World, hits: seq<Row>, f: nat, d: nat)
    requires AtFetch(q, w.rows, hits) && Stands(q.cursor, f, f, d) && f < |hits|
    ensures Fits(q, w)
    ensures Chunk(q, Calm(w.rows), w.sizes.limit) == hits[f..f + Min(Budget(w.sizes.limit), Min(d, |hits| - f))]
  {
    NextPageFollows(q.cursor, w.rows, hits);
    UpcomingIsHits(NextPage(q.cursor, w.rows), w.rows, hits, Budget(w.sizes.limit));
  }

  /** A fetch step has read `m` hits, and they wait to be forwarded. */
  ghost predicate Fetched(q: Query, s: Query, rows: seq<Row>, hits: seq<Row>, p: nat, m: nat, e: nat, d: nat)
    requires p + m <= |hits|
  {
    Forwarding(s) && s.toForward == m && m <= |RowsOf(s.fetched)| && RowsOf(s.fetched)[..m] == hits[p..p + m] &&
    SentRows(s) == SentRows(q) && |s.sent| == p && Follows(s.cursor, rows, hits) && Paged(s.cursor) &&
    Stands(s.cursor, e, p + m, d) && s.cursor.found == q.cursor.found && s.cursor.dimension == q.cursor.dimension &&
    s.created == p + m && s.freed == []
  }

  /** One fetch step and the forward steps for what it read: a chunk of `m`, up to page end `e`. */
  lemma FetchAndForward(q: Query, w: World, hits: seq<Row>, f: nat, p: nat, d: nat, m: nat, e: nat) returns (r: Query)
    requires Waiting(q, w.rows, hits, f, p, d) && p <= f < |hits| && w.sizes.forward > 0
    requires m == ChunkSize(f, p, |hits|, d, Budget(w.sizes.limit)) && e == PageEnd(f, p, |hits|, d)
    requires AllGood(hits[p..p + m], w.bad)
    ensures ChunkSent(q, r, w, hits, p, m) && Waiting(r, w.rows, hits, e, p + m, d)
  {
    var s := FetchGood(q, w, hits, f, p, d, m, e);
    r := ForwardAll(s, w);
    ReachesCompose(q, s, r, w, 1, CeilDiv(m, w.sizes.forward));
  }

  lemma FetchGood(q: Query, w: World, hits: seq<Row>, f: nat, p: nat, d: nat, m: nat, e: nat) returns (s: Query)
    requires Waiting(q, w.rows, hits, f, p, d) && p <= f < |hits|
    requires m == ChunkSize(f, p, |hits|, d, Budget(w.sizes.limit)) && e == PageEnd(f, p, |hits|, d)
    requires AllGood(hits[p..p + m], w.bad)
    ensures Reaches(q, w, 1, s) && Fetched(q, s, w.rows, hits, p, m, e, d)
  {
    FetchPart(q, w.rows, hits, w.sizes, f, p, d, m, e);
    ChunkIsHits(q, w, hits, f, p, d, m);
    s := Apply(q, Process(Calm(w.rows)), w.sizes);
    GoodStep(q, w, s);
    ReachesNext(q, s, w);
  }

  lemma GoodStep(q: Query, w: World, s: Query)
    requires Fits(q, w) && s == Apply(q, Process(Calm(w.rows)), w.sizes)
    requires q.phase == FetchData ==> AllGood(Chunk(q, Calm(w.rows), w.sizes.limit), w.bad)
    ensures StepsTo(q, w, s)
  {
    assert Meets(q, w) == Calm(w.rows);
  }

  lemma FetchPart(q: Query, rows: seq<Row>, hits: seq<Row>, sizes: Sizes, f: nat, p: nat, d: nat, m: nat, e: nat)
    requires Waiting(q, rows, hits, f, p, d) && f < |hits|
    requires m == ChunkSize(f, p, |hits|, d, Budget(sizes.limit)) && e == PageEnd(f, p, |hits|, d)
    ensures CanStep(q, Process(Calm(rows)))
    ensures Fetched(q, Apply(q, Process(Calm(rows)), sizes), rows, hits, p, m, e, d)
  {
    ReadStep(q, rows, hits, sizes.limit);
    ReadPaged(q, rows, hits, sizes.limit);
    FetchStep(q, rows, hits, sizes);
  }

  /** From `q` the engine ends in `r` after `n` steps, having sent `answer`. */
  ghost predicate Answers(q: Query, w: World, n: nat, r: Query, answer: seq<Row>)
  {
    Reaches(q, w, n, r) && SentRows(r) == SentRows(q) + answer &&
    r.phase == Ended && r.disposed && Numbered(r) && r.created == |r.sent| && r.freed == [] &&
    Paged(r.cursor) && r.cursor.fetched == r.cursor.found == q.cursor.found && r.cursor.dimension == q.cursor.dimension
  }

  lemma AnswerEnd(q: Query, w: World, hits: seq<Row>, f: nat, p: nat, d: nat) returns (r: Query)
    requires Waiting(q, w.rows, hits, f, p, d) && f == |hits|
    ensures Answers(q, w, 1, r, [])
  {
    EndStep(q, w.rows, hits, w.sizes);
    r := Apply(q, Process(Calm(w.rows)), w.sizes);
    GoodStep(q, w, r);
    ReachesNext(q, r, w);
    assert SentRows(r) == SentRows(q) + [];
  }

  lemma AnswerMore(q: Query, s: Query, r: Query, w: World, m: nat, n: nat, chunk: seq<Row>, rest: seq<Row>)
    requires Reaches(q, w, m, s) && SentRows(s) == SentRows(q) + chunk
    requires s.cursor.found == q.cursor.found && s.cursor.dimension == q.cursor.dimension
    requires Answers(s, w, n, r, rest)
    ensures Answers(q, w, m + n, r, chunk + rest)
  {
    ReachesCompose(q, s, r, w, m, n);
    assert SentRows(r) == SentRows(q) + (chunk + rest);
  }

  /** The rest of the answer, from the f-th fetched and p-th handed out hit on. */
  ghost predicate AnswersFrom(q: Query, w: World, hits: seq<Row>, f: nat, p: nat, d: nat, r: Query)
    requires p <= f <= |hits| && d > 0 && w.sizes.forward > 0
  {
    Answers(q, w, StepsFrom(|hits|, f, p, d, Budget(w.sizes.limit), w.sizes.forward), r,
            SentFrom(hits, f, p, d, Budget(w.sizes.limit)))
  }

  lemma {:induction false} AnswerFrom(q: Query, w: World, hits: seq<Row>, f: nat, p: nat, d: nat) returns (r: Query)
    requires Waiting(q, w.rows, hits, f, p, d) && w.sizes.forward > 0 && p <= f <= |hits| && d > 0
    requires AllGood(hits, w.bad)
    ensures AnswersFrom(q, w, hits, f, p, d, r)
    decreases |hits| - f, f - p
  {
    if f == |hits| {
      r := AnswerEnd(q, w, hits, f, p, d);
      assert AnswersFrom(q, w, hits, f, p, d, r);
    } else {
      var m, e := ChunkSize(f, p, |hits|, d, Budget(w.sizes.limit)), PageEnd(f, p, |hits|, d);
      SliceGood(hits, p, p + m, w.bad);
      var s := FetchAndForward(q, w, hits, f, p, d, m, e);
      r := AnswerFrom(s, w, hits, e, p + m, d);
      AnswerUnfolds(q, s, r, w, hits, f, p, d, m, e);
    }
  }

  lemma AnswerUnfolds(q: Query, s: Query, r: Query, w: World, hits: seq<Row>, f: nat, p: nat, d: nat, m: nat, e: nat)
    requires p <= f < |hits| && d > 0 && w.sizes.forward > 0
    requires m == ChunkSize(f, p, |hits|, d, Budget(w.sizes.limit)) && e == PageEnd(f, p, |hits|, d)
    ensures ChunkSent(q, s, w, hits, p, m) && AnswersFrom(s, w, hits, e, p + m, d, r) ==>
              AnswersFrom(q, w, hits, f, p, d, r)
  {
    if ChunkSent(q, s, w, hits, p, m) && AnswersFrom(s, w, hits, e, p + m, d, r) {
      AnswerMore(q, s, r, w, 1 + CeilDiv(m, w.sizes.forward),
                 StepsFrom(|hits|, e, p + m, d, Budget(w.sizes.limit), w.sizes.forward),
                 Reversed(hits[p..p + m]), SentFrom(hits, e, p + m, d, Budget(w.sizes.limit)));
    }
  }
}
