/** From the packs that were stored to the packs a query sends: a query is answered step by step while
    indexers, other queries and the cleaning timer go on, and each of its reads is one event of that run. */
module Pipeline {
  import opened Sequences
  import opened PackIndex
  import opened IndexCursor
  import opened QueryEngine
  import opened QueryAnswer
  import opened QueryTheorems
  import opened QueryFailure
  import DataFiles
  import BlockCache
  import opened CachedReads

  /** A run of the whole service. */
  datatype Run = Run(states: seq<Service>, events: seq<Event>, limits: DataFiles.Limits)

  /** One read of the query: the event it is, the entry it is for and what the cache answered. */
  datatype Read = Read(at: nat, key: Key, outcome: BlockCache.Outcome)

  /** One query in the run: the engine's states, what each of its steps met and when, and its reads; the pack
      with serial number i comes from read number i. */
  datatype Session = Session(did: string, dsType: nat, q: nat, path: seq<Query>, envs: seq<Env>, times: seq<nat>,
                             log: seq<Read>)

  ghost predicate IsRun(run: Run)
  {
    IsServiceRun(run.states, run.events, run.limits)
  }

  /** The index entry a row was made from. */
  function KeyOf(x: Session, row: Row): Key
  {
    Key(x.did, x.dsType, row.ts)
  }

  ghost function RowsSeen(run: Run, x: Session, t: nat): seq<Row>
    requires t < |run.states|
  {
    Rows(run.states[t].area.index, x.did, x.dsType)
  }

  /** The record agrees with the run. */
  ghost predicate IsEvent(run: Run, q: nat, r: Read)
  {
    r.at < |run.events| && r.at < |run.states| &&
    var e := run.events[r.at];
    e.ReadEntry? && e.q == q && e.key == r.key && EventEnabled(run.states[r.at], e) &&
    r.outcome == Answer(run.states[r.at], e)
  }

  ghost predicate Recorded(run: Run, x: Session)
  {
    forall i {:trigger IsEvent(run, x.q, x.log[i])} :: 0 <= i < |x.log| ==> IsEvent(run, x.q, x.log[i])
  }

  /** The read with this serial number is for the entry of the row and comes after the given time. */
  predicate ReadOf(x: Session, t: nat, serial: nat, row: Row)
  {
    serial < |x.log| && t <= x.log[serial].at && x.log[serial].key == KeyOf(x, row)
  }

  predicate ReadGives(x: Session, t: nat, serial: nat, row: Row, failure: bool)
  {
    ReadOf(x, t, serial, row) && (x.log[serial].outcome.Failed? <==> failure)
  }

  /** The reads of a fetch step fail where the cache's answers do: rows are read one after the other up to
      the first failure. */
  predicate Driven(x: Session, t: nat, serial: nat, rows: seq<Row>, env: Env)
  {
    (if env.readFails then env.readFailsAt < |rows| else env.readFailsAt == 0) &&
    forall i :: 0 <= i < |rows| && (env.readFails ==> i <= env.readFailsAt) ==>
      ReadGives(x, t, serial + i, rows[i], env.readFails && i == env.readFailsAt)
  }

  /** Nothing fails by itself: the environment of a step is the index at that time and the cache. */
  ghost predicate Met(run: Run, x: Session, t: nat, q: Query, env: Env, sizes: Sizes)
    requires t < |run.states|
  {
    CanStep(q, Process(env)) &&
    env == Calm(RowsSeen(run, x, t)).(readFails := env.readFails, readFailsAt := env.readFailsAt) &&
    if q.phase == FetchData then Driven(x, t, q.created, Chunk(q, env, sizes.limit), env)
    else env == Calm(RowsSeen(run, x, t))
  }

  ghost predicate SessionStep(run: Run, x: Session, sizes: Sizes, i: nat)
    requires i < |x.envs| == |x.times| && |x.path| == |x.envs| + 1
  {
    x.times[0] <= x.times[i] < |run.states| && Met(run, x, x.times[i], x.path[i], x.envs[i], sizes) &&
    x.path[i + 1] == Apply(x.path[i], Process(x.envs[i]), sizes)
  }

  ghost predicate IsSession(run: Run, x: Session, sizes: Sizes)
  {
    IsRun(run) && Recorded(run, x) && 0 < |x.envs| == |x.times| && |x.path| == |x.envs| + 1 &&
    forall i :: 0 <= i < |x.envs| ==> SessionStep(run, x, sizes, i)
  }

  /** The index of the device, as the query sees it, does not change while it is answered. */
  ghost predicate Unchanging(run: Run, x: Session, rows: seq<Row>)
  {
    forall i :: 0 <= i < |x.times| ==> x.times[i] < |run.states| && RowsSeen(run, x, x.times[i]) == rows
  }

  // ---------- what the cache answers ----------

  lemma {:induction false} AreaExtends(run: Run, i: nat, j: nat)
    requires IsRun(run) && i <= j < |run.states|
    ensures DataFiles.Extends(run.states[i].area, run.states[j].area)
    decreases j
  {
    if i < j {
      AreaExtends(run, i, j - 1);
      ServiceRunKeeps(run.states, run.events, run.limits, j - 1);
      var e := run.events[j - 1];
      if e.Indexing? {
        DataFiles.StepExtends(run.states[j - 1].area, e.step, run.limits);
        DataFiles.ExtendsTransitive(run.states[i].area, run.states[j - 1].area, run.states[j].area);
      }
    }
  }

  /** The time stamps of the device's misplaced entries. */
  function Misplaced(area: DataFiles.Area, x: Session): set<nat>
  {
    set k | k in area.misplaced && k.did == x.did && k.dsType == x.dsType :: k.ts
  }

  lemma MisplacedAt(area: DataFiles.Area, x: Session, row: Row)
    ensures row.ts in Misplaced(area, x) <==> KeyOf(x, row) in area.misplaced
  {
    if KeyOf(x, row) in area.misplaced {
      assert KeyOf(x, row).ts == row.ts;
    }
  }

  function Final(run: Run): DataFiles.Area
    requires run.states != []
  {
    run.states[|run.states| - 1].area
  }

  /** A read gives the pack that was stored, or fails if the entry was misplaced; neither changes later. */
  lemma ReadExact(run: Run, x: Session, i: nat)
    requires IsRun(run) && Recorded(run, x) && i < |x.log|
    ensures var area := Final(run); var k := x.log[i].key;
            k in area.origin &&
            x.log[i].outcome == if k in area.misplaced then BlockCache.Failed(BlockCache.OFF_FILE)
                                else BlockCache.Data(area.origin[k])
  {
    assert IsEvent(run, x.q, x.log[i]);
    var j := x.log[i].at;
    CachedReadsExact(run.states, run.events, run.limits, j);
    AreaExtends(run, j, |run.states| - 1);
    StatusKept(run.states[j].area, Final(run), x.log[i].key);
  }

  lemma StatusKept(s: DataFiles.Area, t: DataFiles.Area, k: Key)
    requires DataFiles.Extends(s, t) && k in s.index
    ensures k in s.misplaced <==> k in t.misplaced
    ensures k in s.origin ==> k in t.origin && t.origin[k] == s.origin[k]
  {
    assert k in (t.misplaced - s.misplaced) * s.index.Keys <==> k in t.misplaced && k !in s.misplaced;
  }

  /** The location read is the one in the row: entries never move. */
  lemma ReadsTheRow(run: Run, x: Session, t: nat, i: nat, row: Row)
    requires IsRun(run) && Recorded(run, x) && ReadOf(x, t, i, row) && t < |run.states| && row in RowsSeen(run, x, t)
    ensures var j := x.log[i].at;
            j < |run.states| && j < |run.events| && run.events[j].ReadEntry? &&
            run.events[j].key in run.states[j].area.index &&
            UseOf(run.states[j], run.events[j]) ==
              BlockCache.ReadPack(x.q, row.path, row.offset, row.size, run.events[j].id, run.states[j].area.storage)
  {
    assert IsEvent(run, x.q, x.log[i]);
    RowsFacts(run.states[t].area.index, x.did, x.dsType);
    AreaExtends(run, t, x.log[i].at);
  }

  // ---------- the session is a path of the engine ----------

  ghost function WorldOf(run: Run, x: Session, rows: seq<Row>, sizes: Sizes): World
    requires run.states != []
  {
    World(rows, Misplaced(Final(run), x), sizes)
  }

  lemma DrivenMeets(run: Run, x: Session, t: nat, serial: nat, rows: seq<Row>, env: Env)
    requires IsRun(run) && Recorded(run, x) && Driven(x, t, serial, rows, env)
    ensures FirstBad(rows, Misplaced(Final(run), x)) == if env.readFails then env.readFailsAt else |rows|
  {
    var bad := Misplaced(Final(run), x);
    var k := if env.readFails then env.readFailsAt else |rows|;
    forall i | 0 <= i < |rows| && i <= k ensures rows[i].ts in bad <==> i == k {
      assert ReadGives(x, t, serial + i, rows[i], env.readFails && i == env.readFailsAt);
      ReadExact(run, x, serial + i);
      MisplacedAt(Final(run), x, rows[i]);
    }
    FirstIs(rows, bad, k);
  }

  lemma FirstIs(rows: seq<Row>, bad: set<nat>, k: nat)
    requires k <= |rows| && (k < |rows| ==> rows[k].ts in bad) && forall i :: 0 <= i < k ==> rows[i].ts !in bad
    ensures FirstBad(rows, bad) == k
  {
    var f := FirstBad(rows, bad);
    assert forall i :: 0 <= i < f ==> rows[i].ts !in bad;
  }

  lemma MetIsWorld(run: Run, x: Session, t: nat, q: Query, env: Env, rows: seq<Row>, sizes: Sizes)
    requires IsRun(run) && Recorded(run, x) && t < |run.states| && RowsSeen(run, x, t) == rows &&
             Met(run, x, t, q, env, sizes)
    ensures Fits(q, WorldOf(run, x, rows, sizes)) && Meets(q, WorldOf(run, x, rows, sizes)) == env
  {
    if q.phase == FetchData {
      DrivenMeets(run, x, t, q.created, Chunk(q, env, sizes.limit), env);
      assert Chunk(q, env, sizes.limit) == Chunk(q, Calm(rows), sizes.limit);
    }
  }

  lemma SessionIsPath(run: Run, x: Session, rows: seq<Row>, sizes: Sizes)
    requires IsSession(run, x, sizes) && Unchanging(run, x, rows)
    ensures IsPath(x.path, WorldOf(run, x, rows, sizes))
  {
    forall i | 0 <= i < |x.path| - 1 ensures StepsTo(x.path[i], WorldOf(run, x, rows, sizes), x.path[i + 1]) {
      assert SessionStep(run, x, sizes, i);
      MetIsWorld(run, x, x.times[i], x.path[i], x.envs[i], rows, sizes);
    }
  }

  // ---------- what the packs contain ----------

  /** The read of the pack's serial number gave the bytes stored for its row. */
  predicate PackRead(area: DataFiles.Area, x: Session, pack: Pack)
    requires x.times != []
  {
    ReadOf(x, x.times[0], pack.serial, pack.row) && KeyOf(x, pack.row) in area.origin &&
    x.log[pack.serial].outcome == BlockCache.Data(area.origin[KeyOf(x, pack.row)])
  }

  predicate AllRead(area: DataFiles.Area, x: Session, q: Query)
    requires x.times != []
  {
    (forall p :: p in q.fetched ==> PackRead(area, x, p)) && (forall s :: s in q.sent ==> PackRead(area, x, s.pack))
  }

  lemma {:induction false} SendLoopMoves(q: Query, sends: seq<SendResult>, budget: nat)
    requires q.toForward <= |q.fetched|
    ensures var r := SendLoop(q, sends, budget).0;
            r.fetched == q.fetched && forall s :: s in r.sent ==> s in q.sent || s.pack in q.fetched
    decreases budget
  {
    if budget != 0 && q.toForward != 0 && (sends == [] || sends[0] == Accepted) {
      SendLoopMoves(SendOne(q), if sends == [] then [] else sends[1..], budget - 1);
    }
  }

  lemma {:induction false} DropKeepsPacks(q: Query)
    requires q.toForward <= |q.fetched|
    ensures DropUnsent(q).fetched == q.fetched && DropUnsent(q).sent == q.sent
    decreases q.toForward
  {
    if q.toForward != 0 {
      var x := q.fetched[q.toForward - 1].serial;
      DropKeepsPacks(q.(toForward := q.toForward - 1, deleted := q.deleted + [x], freed := q.freed + [x]));
    }
  }

  /** Packs only come from reads, and forwarding only moves them. */
  lemma StepPacks(q: Query, env: Env, sizes: Sizes)
    requires CanStep(q, Process(env))
    ensures var r := Apply(q, Process(env), sizes);
            (forall p :: p in r.fetched ==>
               p in q.fetched || (q.phase == FetchData && FromReads(q.created, Chunk(q, env, sizes.limit), env, p))) &&
            (forall s :: s in r.sent ==> s in q.sent || s.pack in q.fetched)
  {
    SendLoopMoves(q, env.sends, sizes.forward);
    SendLoopBounds(q, env.sends, sizes.forward);
    var t := Phased(q, env, sizes);
    if Over(t.phase) { DropKeepsPacks(t); }
    if q.phase == FetchData { FetchPacks(q, env, sizes); }
  }

  /** One of the packs that reading these rows yields. */
  ghost predicate FromReads(serial: nat, rows: seq<Row>, env: Env, p: Pack)
  {
    exists i :: 0 <= i < ReadBefore(rows, env) && p == Pack(serial + i, rows[i])
  }

  lemma FetchPacks(q: Query, env: Env, sizes: Sizes)
    requires CanFetch(q, env)
    ensures forall p :: p in Fetch(q, env, sizes.limit).fetched ==>
              p in q.fetched || FromReads(q.created, Chunk(q, env, sizes.limit), env, p)
    ensures Fetch(q, env, sizes.limit).sent == q.sent
  {
    PageRead(q, env, sizes.limit);
    var rows := Chunk(q, env, sizes.limit);
    var k := ReadBefore(rows, env);
    forall p | p in PacksOf(q.created, rows[..k]) ensures FromReads(q.created, Chunk(q, env, sizes.limit), env, p) {
      var i :| 0 <= i < k && PacksOf(q.created, rows[..k])[i] == p;
      assert p == Pack(q.created + i, rows[i]);
    }
  }

  /** The i-th row of a fetch step, if it is not the one that fails, is read as stored. */
  lemma DrivenRead(run: Run, x: Session, t: nat, serial: nat, rows: seq<Row>, env: Env, i: nat)
    requires IsRun(run) && Recorded(run, x) && x.times != [] && x.times[0] <= t
    requires Driven(x, t, serial, rows, env) && i < ReadBefore(rows, env)
    ensures PackRead(Final(run), x, Pack(serial + i, rows[i]))
  {
    assert ReadGives(x, t, serial + i, rows[i], false);
    ReadExact(run, x, serial + i);
  }

  lemma {:induction false} PacksAreRead(run: Run, x: Session, sizes: Sizes, i: nat)
    requires IsSession(run, x, sizes) && i < |x.path| && x.path[0].fetched == [] && x.path[0].sent == []
    ensures AllRead(Final(run), x, x.path[i])
  {
    if i > 0 {
      PacksAreRead(run, x, sizes, i - 1);
      assert SessionStep(run, x, sizes, i - 1);
      PackStep(run, x, x.times[i - 1], x.path[i - 1], x.envs[i - 1], sizes);
    }
  }

  lemma PackStep(run: Run, x: Session, t: nat, q: Query, env: Env, sizes: Sizes)
    requires IsRun(run) && Recorded(run, x) && x.times != [] && x.times[0] <= t < |run.states|
    requires Met(run, x, t, q, env, sizes) && AllRead(Final(run), x, q)
    ensures AllRead(Final(run), x, Apply(q, Process(env), sizes))
  {
    var r, area := Apply(q, Process(env), sizes), Final(run);
    StepPacks(q, env, sizes);
    if q.phase == FetchData {
      ChunkRead(run, x, t, q.created, Chunk(q, env, sizes.limit), env);
    }
    forall p | p in r.fetched ensures PackRead(area, x, p) {
      assert p in q.fetched || FromReads(q.created, Chunk(q, env, sizes.limit), env, p);
    }
  }

  lemma ChunkRead(run: Run, x: Session, t: nat, serial: nat, rows: seq<Row>, env: Env)
    requires IsRun(run) && Recorded(run, x) && x.times != [] && x.times[0] <= t && Driven(x, t, serial, rows, env)
    ensures forall p :: FromReads(serial, rows, env, p) ==> PackRead(Final(run), x, p)
  {
    forall p | FromReads(serial, rows, env, p) ensures PackRead(Final(run), x, p) {
      var i :| 0 <= i < ReadBefore(rows, env) && p == Pack(serial + i, rows[i]);
      DrivenRead(run, x, t, serial, rows, env, i);
    }
  }

  // ---------- the outcome ----------

  /** Querable packs of the device in the interval. */
  predicate Asked(idx: Index, x: Session, start: nat, end: nat, k: Key)
  {
    k in idx && k.did == x.did && k.dsType == x.dsType && Wanted(k.ts, start, end) && idx[k].state == Querable
  }

  /** None of the entries the query asks for was made while its block was no longer valid. */
  ghost predicate AllInPlace(area: DataFiles.Area, x: Session, start: nat, end: nat)
  {
    forall k :: Asked(area.index, x, start, end, k) ==> k !in area.misplaced
  }

  /** The rows are the querable entries asked for, each once. */
  ghost predicate AreAsked(idx: Index, x: Session, start: nat, end: nat, rows: seq<Row>)
  {
    (forall k :: Asked(idx, x, start, end, k) <==> exists row :: row in rows && KeyOf(x, row) == k) &&
    (forall m, n :: 0 <= m < n < |rows| ==> rows[m].ts != rows[n].ts)
  }

  /** The whole answer: all that was asked for, whole pages reversed, numbered from 1. */
  ghost predicate Complete(idx: Index, x: Session, start: nat, end: nat, d: nat, hits: seq<Row>, r: Query)
    requires d > 0
  {
    r.phase == Ended && SentRows(r) == PagesReversed(hits, d) && AreAsked(idx, x, start, end, SentRows(r)) &&
    Numbered(r)
  }

  /** The answer cut off by hit number k: the whole pages before it, the packs of its page freed. */
  ghost predicate CutOff(d: nat, hits: seq<Row>, k: nat, r: Query)
    requires d > 0
  {
    var n := PagesBefore(k, d) * d;
    r.phase == Error(-2) && n <= k < |hits| && k < n + d && SentRows(r) == PagesReversed(hits[..n], d) && Numbered(r) &&
    r.created == k && r.freed == Countdown(n, k)
  }

  /** Engine steps until the query is over. */
  function StepsToEnd(n: nat, k: nat, d: nat, sizes: Sizes): nat
    requires k <= n && d > 0 && sizes.forward > 0
  {
    if k == n then 1 + StepsFrom(n, 0, 0, d, Budget(sizes.limit), sizes.forward)
    else 2 + PagesBefore(k, d) * (1 + CeilDiv(d, sizes.forward))
  }

  /** What becomes of a query, from the rows and the bad ones among them. */
  lemma Outcome(idx: Index, x: Session, w: World, start: nat, end: nat, d: nat) returns (r: Query)
    requires w.rows == Rows(idx, x.did, x.dsType) && (forall k :: k in idx ==> k.ts > 0)
    requires 0 < d <= Budget(w.sizes.limit) && w.sizes.forward > 0 && 0 < |Hits(w.rows, start, end)| < UINT32
    ensures var hits := Hits(w.rows, start, end); var k := FirstBad(hits, w.bad);
            Reaches(NewQuery(start, end, d), w, StepsToEnd(|hits|, k, d, w.sizes), r) && r.disposed &&
            if k == |hits| then Complete(idx, x, start, end, d, hits, r) else CutOff(d, hits, k, r)
  {
    RowsUsable(idx, x.did, x.dsType);
    var hits := Hits(w.rows, start, end);
    if FirstBad(hits, w.bad) == |hits| {
      r := QueryAnswered(w, start, end, d);
      WholeAnswer(hits, d, Budget(w.sizes.limit));
      HitsAsked(idx, x, start, end, SentRows(r));
    } else {
      r := QueryFails(w, start, end, d);
    }
  }

  lemma WholeAnswer(hits: seq<Row>, d: nat, b: nat)
    requires 0 < d <= b
    ensures SentFrom(hits, 0, 0, d, b) == PagesReversed(hits, d)
    ensures multiset(PagesReversed(hits, d)) == multiset(hits)
  {
    WholePages(hits, 0, d, b);
    assert hits[0..] == hits;
    LastPageBound(|hits|, d);
    AnswerCompleteExactlyWhen(hits, d, b);
  }

  lemma HitsAsked(idx: Index, x: Session, start: nat, end: nat, rows: seq<Row>)
    requires multiset(rows) == multiset(Hits(Rows(idx, x.did, x.dsType), start, end))
    ensures AreAsked(idx, x, start, end, rows)
  {
    var hits := Hits(Rows(idx, x.did, x.dsType), start, end);
    RowsWanted(idx, x.did, x.dsType, start, end);
    RowsFacts(idx, x.did, x.dsType);
    HitsFacts(Rows(idx, x.did, x.dsType), start, end);
    SameMembers(rows, hits);
    AskedAreRows(idx, x, start, end, rows);
    DistinctTimes(rows, hits);
  }

  lemma AskedAreRows(idx: Index, x: Session, start: nat, end: nat, rows: seq<Row>)
    requires forall row: Row :: row in rows <==> Found(idx, x.did, x.dsType, start, end, row)
    ensures forall k :: Asked(idx, x, start, end, k) <==> exists row :: row in rows && KeyOf(x, row) == k
  {
    forall k | Asked(idx, x, start, end, k) ensures exists row :: row in rows && KeyOf(x, row) == k {
      var row := Row(k.ts, idx[k].path, idx[k].offset, idx[k].size);
      assert Found(idx, x.did, x.dsType, start, end, row);
      assert row in rows && KeyOf(x, row) == k;
    }
    forall row | row in rows ensures Asked(idx, x, start, end, KeyOf(x, row)) {
      assert Found(idx, x.did, x.dsType, start, end, row);
    }
  }

  /** A permutation of rows in ascending order has no time stamp twice. */
  lemma DistinctTimes(rows: seq<Row>, hits: seq<Row>)
    requires multiset(rows) == multiset(hits) && Ascending(hits)
    ensures forall m, n :: 0 <= m < n < |rows| ==> rows[m].ts != rows[n].ts
  {
    forall m, n | 0 <= m < n < |rows| ensures rows[m].ts != rows[n].ts {
      assert rows[m] in multiset(rows) && rows[n] in multiset(rows);
      var a :| 0 <= a < |hits| && hits[a] == rows[m];
      var b :| 0 <= b < |hits| && hits[b] == rows[n];
      if a == b {
        TwiceIn(rows, m, n);
        OnceIn(hits, a);
      }
    }
  }

  lemma TwiceIn(rows: seq<Row>, m: nat, n: nat)
    requires m < n < |rows| && rows[m] == rows[n]
    ensures multiset(rows)[rows[m]] >= 2
  {
    var x := rows[m];
    assert rows == rows[..n] + rows[n..];
    assert rows[..n][m] == x && x in rows[..n];
    assert rows[n..][0] == x && x in rows[n..];
    assert multiset(rows) == multiset(rows[..n]) + multiset(rows[n..]);
  }

  lemma OnceIn(hits: seq<Row>, a: nat)
    requires Ascending(hits) && a < |hits|
    ensures multiset(hits)[hits[a]] == 1
  {
    var x := hits[a];
    assert hits == hits[..a] + [x] + hits[a + 1..];
    assert x !in hits[..a] && x !in hits[a + 1..];
  }

  // ---------- the theorem ----------

  /** Hits are misplaced at the end of the run exactly when they were at the start of the query. */
  lemma BadHits(run: Run, x: Session, t: nat, start: nat, end: nat)
    requires IsRun(run) && t < |run.states|
    ensures var area := run.states[t].area; var hits := Hits(RowsSeen(run, x, t), start, end);
            FirstBad(hits, Misplaced(Final(run), x)) == FirstBad(hits, Misplaced(area, x)) &&
            (FirstBad(hits, Misplaced(area, x)) == |hits| <==> AllInPlace(area, x, start, end))
  {
    var area := run.states[t].area;
    var hits := Hits(RowsSeen(run, x, t), start, end);
    RowsWanted(area.index, x.did, x.dsType, start, end);
    AreaExtends(run, t, |run.states| - 1);
    forall i | 0 <= i < |hits|
      ensures hits[i].ts in Misplaced(area, x) <==> hits[i].ts in Misplaced(Final(run), x)
      ensures hits[i].ts in Misplaced(area, x) <==> KeyOf(x, hits[i]) in area.misplaced
    {
      assert hits[i] in hits;
      assert Found(area.index, x.did, x.dsType, start, end, hits[i]);
      MisplacedAt(area, x, hits[i]);
      MisplacedAt(Final(run), x, hits[i]);
      StatusKept(area, Final(run), KeyOf(x, hits[i]));
    }
    FirstIs(hits, Misplaced(Final(run), x), FirstBad(hits, Misplaced(area, x)));
    AskedAreRows(area.index, x, start, end, hits);
    InPlaceHits(area, x, start, end, hits);
  }

  lemma InPlaceHits(area: DataFiles.Area, x: Session, start: nat, end: nat, hits: seq<Row>)
    requires forall k :: Asked(area.index, x, start, end, k) <==> exists row :: row in hits && KeyOf(x, row) == k
    requires forall i :: 0 <= i < |hits| ==> (hits[i].ts in Misplaced(area, x) <==> KeyOf(x, hits[i]) in area.misplaced)
    ensures FirstBad(hits, Misplaced(area, x)) == |hits| <==> AllInPlace(area, x, start, end)
  {
    var k := FirstBad(hits, Misplaced(area, x));
    if k < |hits| {
      assert hits[k] in hits && Asked(area.index, x, start, end, KeyOf(x, hits[k]));
    } else {
      forall key | Asked(area.index, x, start, end, key) ensures key !in area.misplaced {
        var row :| row in hits && KeyOf(x, row) == key;
        var i :| 0 <= i < |hits| && hits[i] == row;
      }
    }
  }

  lemma {:induction false} PagesMembers(hits: seq<Row>, d: nat)
    requires d > 0
    ensures forall row :: row in PagesReversed(hits, d) ==> row in hits
    decreases |hits|
  {
    if hits != [] {
      var m := Min(d, |hits|);
      PagesMembers(hits[m..], d);
      ReversedMembers(hits[..m]);
    }
  }

  lemma ReversedMembers(rows: seq<Row>)
    ensures forall row :: row in Reversed(rows) ==> row in rows
  {
    ReversedMultiset(rows);
    SameMembers(Reversed(rows), rows);
  }

  lemma StoredAtStart(run: Run, x: Session, t: nat, start: nat, end: nat, pack: Pack)
    requires IsRun(run) && x.times != [] && t < |run.states| && PackRead(Final(run), x, pack)
    requires pack.row in Hits(RowsSeen(run, x, t), start, end)
    ensures PackRead(run.states[t].area, x, pack)
  {
    var area := run.states[t].area;
    RowsWanted(area.index, x.did, x.dsType, start, end);
    assert Found(area.index, x.did, x.dsType, start, end, pack.row);
    assert KeyOf(x, pack.row) in area.origin by { ServiceRunKeeps(run.states, run.events, run.limits, t); }
    assert DataFiles.Extends(area, Final(run)) by { AreaExtends(run, t, |run.states| - 1); }
    StatusKept(area, Final(run), KeyOf(x, pack.row));
  }

  lemma AllStored(run: Run, x: Session, t: nat, start: nat, end: nat, d: nat, n: nat, r: Query)
    requires IsRun(run) && x.times != [] && t < |run.states| && AllRead(Final(run), x, r) && d > 0
    requires var hits := Hits(RowsSeen(run, x, t), start, end);
             n <= |hits| && SentRows(r) == PagesReversed(hits[..n], d)
    ensures forall s :: s in r.sent ==> PackRead(run.states[t].area, x, s.pack)
  {
    var hits := Hits(RowsSeen(run, x, t), start, end);
    PagesMembers(hits[..n], d);
    forall s | s in r.sent ensures PackRead(run.states[t].area, x, s.pack) {
      var i :| 0 <= i < |r.sent| && r.sent[i] == s;
      assert SentRows(r)[i] == s.pack.row && s.pack.row in SentRows(r);
      StoredAtStart(run, x, t, start, end, s.pack);
    }
  }

  /** Main result. A query is answered step by step in a run of the service, its reads being events of that
      run in any interleaving with indexers, failed scans, other queries and cleans. When it is over, it
      has ended regularly if and only if none of the entries it asks for is misplaced. Then it has sent
      exactly these entries, each once. Otherwise it has ended in error -2, having sent exactly the whole
      pages before the one that holds the first misplaced hit, and the packs of that page read by then are
      freed. In both cases every pack sent was read with the bytes it was stored with. */
  lemma QuerySendsStoredPacks(run: Run, x: Session, sizes: Sizes, start: nat, end: nat, d: nat)
    requires IsSession(run, x, sizes) && x.path[0] == NewQuery(start, end, d) && x.path[|x.envs|].disposed
    requires x.times[0] < |run.states| && Unchanging(run, x, RowsSeen(run, x, x.times[0]))
    requires forall k :: k in run.states[x.times[0]].area.index ==> k.ts > 0
    requires 0 < d <= Budget(sizes.limit) && sizes.forward > 0
    requires 0 < |Hits(RowsSeen(run, x, x.times[0]), start, end)| < UINT32
    ensures var area := run.states[x.times[0]].area; var r := x.path[|x.envs|];
            var hits := Hits(RowsSeen(run, x, x.times[0]), start, end); var k := FirstBad(hits, Misplaced(area, x));
            (r.phase == Ended <==> AllInPlace(area, x, start, end)) &&
            (AllInPlace(area, x, start, end) ==> Complete(area.index, x, start, end, d, hits, r)) &&
            (!AllInPlace(area, x, start, end) ==> CutOff(d, hits, k, r)) &&
            |x.envs| == StepsToEnd(|hits|, k, d, sizes)
    ensures forall s :: s in x.path[|x.envs|].sent ==> PackRead(run.states[x.times[0]].area, x, s.pack)
  {
    var hits := Hits(RowsSeen(run, x, x.times[0]), start, end);
    BadHits(run, x, x.times[0], start, end);
    SessionEnds(run, x, sizes, start, end, d);
    var n := SentPages(run.states[x.times[0]].area.index, x, start, end, d, hits,
                       FirstBad(hits, Misplaced(Final(run), x)), x.path[|x.envs|]);
    assert AllRead(Final(run), x, x.path[|x.envs|]) by { PacksAreRead(run, x, sizes, |x.envs|); }
    AllStored(run, x, x.times[0], start, end, d, n, x.path[|x.envs|]);
  }

  lemma SentPages(idx: Index, x: Session, start: nat, end: nat, d: nat, hits: seq<Row>, k: nat, r: Query)
      returns (n: nat)
    requires d > 0 && if k == |hits| then Complete(idx, x, start, end, d, hits, r) else CutOff(d, hits, k, r)
    ensures n <= |hits| && SentRows(r) == PagesReversed(hits[..n], d)
  {
    n := if k == |hits| then |hits| else PagesBefore(k, d) * d;
    assert hits[..|hits|] == hits;
  }

  /** The session ends as the engine does in its world. */
  lemma SessionEnds(run: Run, x: Session, sizes: Sizes, start: nat, end: nat, d: nat)
    requires IsSession(run, x, sizes) && x.path[0] == NewQuery(start, end, d) && x.path[|x.envs|].disposed
    requires x.times[0] < |run.states| && Unchanging(run, x, RowsSeen(run, x, x.times[0]))
    requires forall k :: k in run.states[x.times[0]].area.index ==> k.ts > 0
    requires 0 < d <= Budget(sizes.limit) && sizes.forward > 0
    requires 0 < |Hits(RowsSeen(run, x, x.times[0]), start, end)| < UINT32
    ensures var idx := run.states[x.times[0]].area.index; var r := x.path[|x.envs|];
            var hits := Hits(RowsSeen(run, x, x.times[0]), start, end);
            var k := FirstBad(hits, Misplaced(Final(run), x));
            (if k == |hits| then Complete(idx, x, start, end, d, hits, r) else CutOff(d, hits, k, r)) &&
            |x.envs| == StepsToEnd(|hits|, k, d, sizes)
  {
    var rows := RowsSeen(run, x, x.times[0]);
    var w, hits := WorldOf(run, x, rows, sizes), Hits(rows, start, end);
    assert IsPath(x.path, w) by { SessionIsPath(run, x, rows, sizes); }
    var r := Outcome(run.states[x.times[0]].area.index, x, w, start, end, d);
    var k := FirstBad(hits, w.bad);
    assert |x.path| == StepsToEnd(|hits|, k, d, sizes) + 1 && x.path[|x.path| - 1] == r by {
      EndsThere(x.path, NewQuery(start, end, d), w, StepsToEnd(|hits|, k, d, sizes), r);
    }
  }
}
