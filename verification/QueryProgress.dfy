/** Every query with hits can be answered: wherever a run of the service stands, it can go on in such a way
    that a live query is stepped to its end. */
module QueryProgress {
  import opened PackIndex
  import opened IndexCursor
  import opened QueryEngine
  import opened QueryAnswer
  import opened QueryTheorems
  import opened QueryFailure
  import DataFiles
  import BlockCache
  import opened CachedReads
  import opened Pipeline

  function Last(run: Run): Service
    requires run.states != []
  {
    run.states[|run.states| - 1]
  }

  /** The second run continues the first. */
  predicate Continues(run: Run, more: Run)
  {
    run.states <= more.states && run.events <= more.events && run.limits == more.limits
  }

  /** The run has gone on with reads only: the data area is the same and the query still live. */
  ghost predicate ReadOn(run: Run, more: Run, q: nat)
  {
    IsRun(run) && IsRun(more) && Continues(run, more) && Last(more).area == Last(run).area &&
    q in Last(more).cache.queries
  }

  lemma ReadOnMore(a: Run, b: Run, c: Run, q: nat)
    ensures ReadOn(a, b, q) && ReadOn(b, c, q) ==> ReadOn(a, c, q)
  {
  }

  // ---------- reads can always be made ----------

  lemma ReadKeepsQueries(s: Service, e: Event)
    requires e.ReadEntry? && EventEnabled(s, e)
    ensures BlockCache.Apply(s.cache, UseOf(s, e)).queries.Keys == s.cache.queries.Keys
  {
  }

  lemma RunGrows(run: Run, e: Event) returns (more: Run)
    requires IsRun(run) && EventEnabled(Last(run), e) && NoEmptyPacks(e)
    ensures IsRun(more) && Continues(run, more) && more.events == run.events + [e]
    ensures more.states == run.states + [Happen(Last(run), e, run.limits)]
  {
    more := Run(run.states + [Happen(Last(run), e, run.limits)], run.events + [e], run.limits);
    forall i | 0 <= i < |more.events|
      ensures EventEnabled(more.states[i], more.events[i]) && NoEmptyPacks(more.events[i]) &&
              more.states[i + 1] == Happen(more.states[i], more.events[i], run.limits)
    {
      if i < |run.events| { assert more.events[i] == run.events[i]; }
    }
  }

  /** The query is live and can find the entry. */
  ghost predicate CanRead(run: Run, q: nat, k: Key)
  {
    IsRun(run) && q in Last(run).cache.queries && k in Last(run).area.index && Last(run).area.index[k].state == Querable
  }

  lemma OneRead(run: Run, q: nat, k: Key) returns (more: Run, r: Read)
    ensures CanRead(run, q, k) ==>
              ReadOn(run, more, q) && IsEvent(more, q, r) && r.key == k && |run.states| - 1 <= r.at
  {
    more, r := run, Read(0, k, BlockCache.Failed(0));
    if CanRead(run, q, k) {
      var s := Last(run);
      ServiceRunKeeps(run.states, run.events, run.limits, |run.events|);
      BlockCache.InvNoDangling(s.cache);
      var id := BlockCache.FreshPointer(s.cache.fetchers.Keys);
      var e := ReadEntry(q, k, id);
      more := RunGrows(run, e);
      ReadKeepsQueries(s, e);
      r := Read(|run.events|, k, Answer(s, e));
      assert more.states[|run.events|] == s && more.events[|run.events|] == e;
    }
  }

  lemma EventStays(run: Run, more: Run, q: nat, r: Read)
    requires Continues(run, more) && IsEvent(run, q, r)
    ensures IsEvent(more, q, r)
  {
    assert more.states[r.at] == run.states[r.at] && more.events[r.at] == run.events[r.at];
  }

  /** These reads are for the entries of these rows. */
  ghost predicate ReadsFor(run: Run, x: Session, t: nat, rows: seq<Row>, log: seq<Read>)
  {
    |log| == |rows| && forall i :: 0 <= i < |rows| ==> ReadFor(run, x, t, rows[i], log[i])
  }

  ghost predicate ReadFor(run: Run, x: Session, t: nat, row: Row, r: Read)
  {
    IsEvent(run, x.q, r) && r.key == KeyOf(x, row) && t <= r.at
  }

  ghost predicate CanReadAll(run: Run, x: Session, rows: seq<Row>)
  {
    IsRun(run) && x.q in Last(run).cache.queries &&
    forall row :: row in rows ==> row in RowsSeen(run, x, |run.states| - 1)
  }

  lemma {:induction false} ManyReads(run: Run, x: Session, rows: seq<Row>) returns (more: Run, log: seq<Read>)
    ensures CanReadAll(run, x, rows) ==>
              ReadOn(run, more, x.q) && run.states != [] && ReadsFor(more, x, |run.states| - 1, rows, log)
  {
    more, log := run, [];
    if rows != [] {
      var n := |rows| - 1;
      var before, first := ManyReads(run, x, rows[..n]);
      var r;
      more, r := OneRead(before, x.q, KeyOf(x, rows[n]));
      log := first + [r];
      if CanReadAll(run, x, rows) {
        AllButLast(run, x, rows, n);
        CanReadLast(run, before, x, rows, n);
        ReadOnMore(run, before, more, x.q);
        assert rows[..n] + [rows[n]] == rows;
        ReadsGrow(before, more, x, |run.states| - 1, rows[..n], first, rows[n], r);
      }
    }
  }

  lemma AllButLast(run: Run, x: Session, rows: seq<Row>, n: nat)
    requires n <= |rows|
    ensures CanReadAll(run, x, rows) ==> CanReadAll(run, x, rows[..n])
  {
    assert forall row :: row in rows[..n] ==> row in rows;
  }

  lemma CanReadLast(run: Run, before: Run, x: Session, rows: seq<Row>, n: nat)
    requires n < |rows|
    ensures CanReadAll(run, x, rows) && ReadOn(run, before, x.q) ==> CanRead(before, x.q, KeyOf(x, rows[n]))
  {
    if CanReadAll(run, x, rows) && ReadOn(run, before, x.q) {
      assert rows[n] in rows;
      RowIsQuerable(Last(run).area.index, x, rows[n]);
    }
  }

  lemma RowIsQuerable(idx: Index, x: Session, row: Row)
    requires row in Rows(idx, x.did, x.dsType)
    ensures KeyOf(x, row) in idx && idx[KeyOf(x, row)].state == Querable
  {
    RowsFacts(idx, x.did, x.dsType);
  }

  lemma ReadsGrow(run: Run, more: Run, x: Session, t: nat, rows: seq<Row>, log: seq<Read>, row: Row, r: Read)
    ensures Continues(run, more) && ReadsFor(run, x, t, rows, log) && ReadFor(more, x, t, row, r) ==>
              ReadsFor(more, x, t, rows + [row], log + [r])
  {
    if Continues(run, more) && ReadsFor(run, x, t, rows, log) && ReadFor(more, x, t, row, r) {
      ReadsGrown(run, more, x, t, rows, log, row, r);
    }
  }

  lemma ReadsGrown(run: Run, more: Run, x: Session, t: nat, rows: seq<Row>, log: seq<Read>, row: Row, r: Read)
    requires Continues(run, more) && ReadsFor(run, x, t, rows, log) && ReadFor(more, x, t, row, r)
    ensures ReadsFor(more, x, t, rows + [row], log + [r])
  {
    forall i | 0 <= i < |rows + [row]| ensures ReadFor(more, x, t, (rows + [row])[i], (log + [r])[i]) {
      if i < |rows| {
        assert ReadFor(run, x, t, rows[i], log[i]);
        EventStays(run, more, x.q, log[i]);
      }
    }
  }

  // ---------- a session can go on ----------

  /** A session that stands at the end of the run, perhaps before its first step; its reads so far are those
      of the packs created. */
  ghost predicate Underway(run: Run, x: Session, rows: seq<Row>, sizes: Sizes)
  {
    IsRun(run) && Recorded(run, x) && x.q in Last(run).cache.queries && RowsSeen(run, x, |run.states| - 1) == rows &&
    |x.times| == |x.envs| && |x.path| == |x.envs| + 1 && Unchanging(run, x, rows) &&
    (forall i :: 0 <= i < |x.envs| ==> SessionStep(run, x, sizes, i)) &&
    (!x.path[|x.envs|].disposed ==> |x.log| == x.path[|x.envs|].created) &&
    (forall row :: row in x.path[|x.envs|].cursor.page ==> row in rows)
  }

  /** The same session with more reads in a longer run. */
  ghost predicate Longer(x: Session, y: Session)
  {
    y.did == x.did && y.dsType == x.dsType && y.q == x.q && x.log <= y.log
  }

  lemma {:induction false} DrivenStays(x: Session, y: Session, t: nat, serial: nat, rows: seq<Row>, env: Env)
    requires Longer(x, y) && Driven(x, t, serial, rows, env)
    ensures Driven(y, t, serial, rows, env)
  {
    forall i | 0 <= i < |rows| && (env.readFails ==> i <= env.readFailsAt)
      ensures ReadGives(y, t, serial + i, rows[i], env.readFails && i == env.readFailsAt)
    {
      assert ReadGives(x, t, serial + i, rows[i], env.readFails && i == env.readFailsAt);
      assert y.log[serial + i] == x.log[serial + i];
    }
  }

  lemma MetStays(run: Run, more: Run, x: Session, y: Session, t: nat, q: Query, env: Env, sizes: Sizes)
    requires Continues(run, more) && Longer(x, y) && t < |run.states| && Met(run, x, t, q, env, sizes)
    ensures Met(more, y, t, q, env, sizes)
  {
    assert more.states[t] == run.states[t];
    if q.phase == FetchData { DrivenStays(x, y, t, q.created, Chunk(q, env, sizes.limit), env); }
  }

  /** The rows a fetch step looks at before it stops. */
  function Attempted(rows: seq<Row>, bad: set<nat>): seq<Row>
  {
    if FirstBad(rows, bad) == |rows| then rows else rows[..FirstBad(rows, bad) + 1]
  }

  /** The environment of a fetch step in a world where these time stamps cannot be read. */
  predicate FailsAsBad(rows: seq<Row>, bad: set<nat>, env: Env)
  {
    var k := FirstBad(rows, bad);
    if k == |rows| then !env.readFails && env.readFailsAt == 0 else env.readFails && env.readFailsAt == k
  }

  lemma {:induction false} ReadsDrive(x: Session, t: nat, serial: nat, rows: seq<Row>, bad: set<nat>, env: Env)
    requires FailsAsBad(rows, bad, env)
    requires var tried := Attempted(rows, bad);
             forall i :: 0 <= i < |tried| ==> ReadGives(x, t, serial + i, tried[i], tried[i].ts in bad)
    ensures Driven(x, t, serial, rows, env)
  {
    var tried := Attempted(rows, bad);
    forall i | 0 <= i < |rows| && (env.readFails ==> i <= env.readFailsAt)
      ensures ReadGives(x, t, serial + i, rows[i], env.readFails && i == env.readFailsAt)
    {
      assert tried[i] == rows[i];
      assert rows[i].ts in bad <==> env.readFails && i == env.readFailsAt;
    }
  }

  /** What these reads give. */
  lemma {:induction false} ReadsGive(run: Run, x: Session, t: nat, serial: nat, rows: seq<Row>, log: seq<Read>, i: nat)
    requires i < |rows| && serial <= |x.log| && x.log[serial..] == log && |log| == |rows|
    ensures IsRun(run) && Recorded(run, x) && ReadsFor(run, x, t, rows, log) ==>
              ReadGives(x, t, serial + i, rows[i], rows[i].ts in Misplaced(Final(run), x))
  {
    assert log[i] == x.log[serial + i];
    ReadAt(run, x, t, rows, log, i);
    OutcomeIs(run, x, t, serial + i, rows[i]);
  }

  lemma {:induction false} NewReadsDrive(run: Run, x: Session, t: nat, serial: nat, rows: seq<Row>, env: Env,
                                         log: seq<Read>)
    requires IsRun(run) && Recorded(run, x) && serial <= |x.log| && x.log[serial..] == log
    requires ReadsFor(run, x, t, Attempted(rows, Misplaced(Final(run), x)), log)
    requires FailsAsBad(rows, Misplaced(Final(run), x), env)
    ensures Driven(x, t, serial, rows, env)
  {
    var bad := Misplaced(Final(run), x);
    var tried := Attempted(rows, bad);
    forall i | 0 <= i < |tried| ensures ReadGives(x, t, serial + i, tried[i], tried[i].ts in bad) {
      ReadsGive(run, x, t, serial, tried, log, i);
    }
    ReadsDrive(x, t, serial, rows, bad, env);
  }

  lemma ReadAt(run: Run, x: Session, t: nat, rows: seq<Row>, log: seq<Read>, i: nat)
    requires i < |rows|
    ensures ReadsFor(run, x, t, rows, log) ==> |log| == |rows| && ReadFor(run, x, t, rows[i], log[i])
  {
  }

  lemma OutcomeIs(run: Run, x: Session, t: nat, i: nat, row: Row)
    requires i < |x.log|
    ensures IsRun(run) && Recorded(run, x) && ReadFor(run, x, t, row, x.log[i]) ==>
              ReadGives(x, t, i, row, row.ts in Misplaced(Final(run), x))
  {
    if IsRun(run) && Recorded(run, x) && ReadFor(run, x, t, row, x.log[i]) {
      ReadExact(run, x, i);
      MisplacedAt(Final(run), x, row);
    }
  }

  /** Pages only hold rows of the index. */
  lemma PagesStay(q: Query, env: Env, sizes: Sizes)
    requires CanStep(q, Process(env)) && forall row :: row in q.cursor.page ==> row in env.rows
    ensures forall row :: row in Apply(q, Process(env), sizes).cursor.page ==> row in env.rows
  {
    SendLoopBounds(q, env.sends, sizes.forward);
    var r := Phased(q, env, sizes);
    if q.phase == FetchData { FetchedPage(q, env, sizes); }
    if Over(r.phase) { DropKeepsCursor(r); }
  }

  lemma {:induction false} DropKeepsCursor(q: Query)
    requires q.toForward <= |q.fetched|
    ensures DropUnsent(q).cursor == q.cursor
    decreases q.toForward
  {
    if q.toForward != 0 {
      var x := q.fetched[q.toForward - 1].serial;
      DropKeepsCursor(q.(toForward := q.toForward - 1, deleted := q.deleted + [x], freed := q.freed + [x]));
    }
  }

  lemma FetchedPage(q: Query, env: Env, sizes: Sizes)
    requires CanFetch(q, env) && forall row :: row in q.cursor.page ==> row in env.rows
    ensures forall row :: row in Fetch(q, env, sizes.limit).cursor.page ==> row in env.rows
    ensures forall row :: row in Chunk(q, env, sizes.limit) ==> row in env.rows
  {
    if q.cursor.found != q.cursor.fetched {
      if HasNext(q.cursor) {
        ReadLoopReads(q, Budget(sizes.limit), env.readFails, env.readFailsAt);
      } else if !env.pageFails {
        FromMembers(env.rows, PageStart(q.cursor));
        ReadLoopReads(q.(cursor := NextPage(q.cursor, env.rows)), Budget(sizes.limit), env.readFails, env.readFailsAt);
      }
    }
  }

  lemma {:induction false} FromMembers(rows: seq<Row>, start: nat)
    ensures forall row :: row in From(rows, start) ==> row in rows
  {
    if rows != [] && rows[0].ts < start { FromMembers(rows[1..], start); }
  }

  lemma {:induction false} DropKeepsCreated(q: Query)
    requires q.toForward <= |q.fetched|
    ensures DropUnsent(q).created == q.created
    decreases q.toForward
  {
    if q.toForward != 0 {
      var x := q.fetched[q.toForward - 1].serial;
      DropKeepsCreated(q.(toForward := q.toForward - 1, deleted := q.deleted + [x], freed := q.freed + [x]));
    }
  }

  /** A step creates a pack for each row it reads; a failed read is the end. */
  lemma CreatedByStep(q: Query, env: Env, sizes: Sizes)
    requires CanStep(q, Process(env))
    ensures var r := Apply(q, Process(env), sizes);
            if q.phase != FetchData then r.created == q.created
            else
              var rows := Chunk(q, env, sizes.limit);
              r.created == q.created + ReadBefore(rows, env) && (ReadBefore(rows, env) < |rows| ==> r.disposed)
  {
    SendLoopBounds(q, env.sends, sizes.forward);
    var r := Phased(q, env, sizes);
    if q.phase == FetchData { PageRead(q, env, sizes.limit); }
    if Over(r.phase) { DropKeepsCreated(r); }
  }

  function Extended(x: Session, r: Query, env: Env, t: nat, log: seq<Read>): Session
  {
    x.(path := x.path + [r], envs := x.envs + [env], times := x.times + [t], log := x.log + log)
  }

  /** The reads the next step makes. */
  lemma StepReads(run: Run, x: Session, rows: seq<Row>, sizes: Sizes) returns (more: Run, log: seq<Read>)
    requires Underway(run, x, rows, sizes) && Fits(x.path[|x.envs|], WorldOf(run, x, rows, sizes))
    ensures ReadOn(run, more, x.q)
    ensures var q := x.path[|x.envs|];
            if q.phase != FetchData then log == []
            else ReadsFor(more, x, |run.states| - 1,
                          Attempted(Chunk(q, Calm(rows), sizes.limit), Misplaced(Final(run), x)), log)
  {
    var q := x.path[|x.envs|];
    if q.phase == FetchData {
      FetchedPage(q, Calm(rows), sizes);
      var tried := Attempted(Chunk(q, Calm(rows), sizes.limit), Misplaced(Final(run), x));
      assert forall row :: row in tried ==> row in Chunk(q, Calm(rows), sizes.limit);
      more, log := ManyReads(run, x, tried);
      assert CanReadAll(run, x, tried);
    } else {
      more, log := run, [];
    }
  }

  lemma RecordedStays(run: Run, more: Run, x: Session, y: Session, t: nat, rows: seq<Row>, log: seq<Read>)
    requires Continues(run, more) && Recorded(run, x) && y.q == x.q && y.log == x.log + log
    requires ReadsFor(more, x, t, rows, log)
    ensures Recorded(more, y)
  {
    forall i | 0 <= i < |y.log| ensures IsEvent(more, y.q, y.log[i]) {
      if i < |x.log| {
        assert IsEvent(run, x.q, x.log[i]);
        EventStays(run, more, x.q, x.log[i]);
      } else {
        assert ReadFor(more, x, t, rows[i - |x.log|], log[i - |x.log|]);
      }
    }
  }

  /** The new step has met what its world prescribes. */
  lemma {:induction false} NewStepMet(run: Run, more: Run, x: Session, y: Session, rows: seq<Row>, sizes: Sizes,
                                      log: seq<Read>)
    requires Underway(run, x, rows, sizes) && IsRun(more) && Continues(run, more) && Last(more).area == Last(run).area
    requires Fits(x.path[|x.envs|], WorldOf(run, x, rows, sizes))
    requires y.did == x.did && y.dsType == x.dsType && y.q == x.q && y.log == x.log + log && Recorded(more, y)
    requires var q := x.path[|x.envs|];
             q.phase == FetchData ==>
               ReadsFor(more, x, |run.states| - 1,
                        Attempted(Chunk(q, Calm(rows), sizes.limit), Misplaced(Final(run), x)), log)
    ensures Met(more, y, |run.states| - 1, x.path[|x.envs|], Meets(x.path[|x.envs|], WorldOf(run, x, rows, sizes)),
                sizes)
  {
    var q, w, t := x.path[|x.envs|], WorldOf(run, x, rows, sizes), |run.states| - 1;
    var env := Meets(q, w);
    assert more.states[t] == run.states[t] && RowsSeen(more, y, t) == rows;
    if q.phase == FetchData {
      var chunk := Chunk(q, Calm(rows), sizes.limit);
      assert Chunk(q, env, sizes.limit) == chunk;
      var tried := Attempted(chunk, w.bad);
      SameReads(more, x, y, t, tried, log);
      NewReadsDrive(more, y, t, q.created, chunk, env, log);
    }
  }

  lemma SameReads(run: Run, x: Session, y: Session, t: nat, rows: seq<Row>, log: seq<Read>)
    requires ReadsFor(run, x, t, rows, log) && y.did == x.did && y.dsType == x.dsType && y.q == x.q
    ensures ReadsFor(run, y, t, rows, log)
  {
    forall i | 0 <= i < |rows| ensures ReadFor(run, y, t, rows[i], log[i]) {
      assert ReadFor(run, x, t, rows[i], log[i]);
    }
  }

  lemma OldStepsStay(run: Run, more: Run, x: Session, y: Session, sizes: Sizes, i: nat)
    requires Continues(run, more) && Longer(x, y) && i < |x.envs| == |x.times| && |x.path| == |x.envs| + 1
    requires |y.envs| == |y.times| && |y.path| == |y.envs| + 1 && x.path <= y.path && x.envs <= y.envs &&
             x.times <= y.times
    requires SessionStep(run, x, sizes, i)
    ensures SessionStep(more, y, sizes, i)
  {
    assert y.path[i] == x.path[i] && y.path[i + 1] == x.path[i + 1] && y.envs[i] == x.envs[i];
    assert y.times[i] == x.times[i] && y.times[0] == x.times[0];
    MetStays(run, more, x, y, x.times[i], x.path[i], x.envs[i], sizes);
  }

  ghost predicate CanStepOn(run: Run, x: Session, rows: seq<Row>, sizes: Sizes, r: Query)
  {
    Underway(run, x, rows, sizes) && StepsTo(x.path[|x.envs|], WorldOf(run, x, rows, sizes), r)
  }

  /** The session has made one step more, with the reads it took. */
  ghost predicate SteppedOn(run: Run, x: Session, rows: seq<Row>, sizes: Sizes, r: Query, more: Run, y: Session)
  {
    Underway(more, y, rows, sizes) && ReadOn(run, more, x.q) && Longer(x, y) && y.path == x.path + [r] &&
    y.times == x.times + [|run.states| - 1]
  }

  lemma StepOn(run: Run, x: Session, rows: seq<Row>, sizes: Sizes, r: Query) returns (more: Run, y: Session)
    ensures CanStepOn(run, x, rows, sizes, r) ==> SteppedOn(run, x, rows, sizes, r, more, y)
  {
    more, y := run, x;
    if CanStepOn(run, x, rows, sizes, r) {
      more, y := MakeStep(run, x, rows, sizes, r);
    }
  }

  lemma MakeStep(run: Run, x: Session, rows: seq<Row>, sizes: Sizes, r: Query) returns (more: Run, y: Session)
    requires CanStepOn(run, x, rows, sizes, r)
    ensures SteppedOn(run, x, rows, sizes, r, more, y)
  {
    var q, w, t := x.path[|x.envs|], WorldOf(run, x, rows, sizes), |run.states| - 1;
    var env, log := Meets(q, w), [];
    more, log := StepReads(run, x, rows, sizes);
    y := Extended(x, r, env, t, log);
    assert Recorded(more, y) by { LogRecorded(run, more, x, y, rows, sizes, log); }
    assert Met(more, y, t, q, env, sizes) by { NewStepMet(run, more, x, y, rows, sizes, log); }
    StepsStay(run, more, x, y, sizes, r, env, t);
    StepEnds(x, y, q, env, rows, sizes, r, w, log);
    StaysUnchanging(run, more, x, y, rows, t);
  }

  lemma StepsStay(run: Run, more: Run, x: Session, y: Session, sizes: Sizes, r: Query, env: Env, t: nat)
    requires Continues(run, more) && Longer(x, y) && |x.envs| == |x.times| && |x.path| == |x.envs| + 1
    requires y.path == x.path + [r] && y.envs == x.envs + [env] && y.times == x.times + [t] && t == |run.states| - 1
    requires forall i :: 0 <= i < |x.envs| ==> SessionStep(run, x, sizes, i)
    requires |run.states| > 0 && Met(more, y, t, x.path[|x.envs|], env, sizes)
    requires r == Apply(x.path[|x.envs|], Process(env), sizes)
    ensures forall i :: 0 <= i < |y.envs| ==> SessionStep(more, y, sizes, i)
  {
    forall i | 0 <= i < |y.envs| ensures SessionStep(more, y, sizes, i) {
      if i < |x.envs| {
        OldStepsStay(run, more, x, y, sizes, i);
      } else {
        if |x.envs| > 0 { assert SessionStep(run, x, sizes, 0); }
        assert y.path[i] == x.path[|x.envs|] && y.path[i + 1] == r && y.envs[i] == env && y.times[i] == t;
      }
    }
  }

  lemma StaysUnchanging(run: Run, more: Run, x: Session, y: Session, rows: seq<Row>, t: nat)
    requires Continues(run, more) && Unchanging(run, x, rows) && t < |run.states| && RowsSeen(run, x, t) == rows
    requires y.did == x.did && y.dsType == x.dsType && y.times == x.times + [t]
    requires more.states != [] && |run.states| > 0 &&
             more.states[|more.states| - 1].area == run.states[|run.states| - 1].area
    requires RowsSeen(run, x, |run.states| - 1) == rows
    ensures Unchanging(more, y, rows) && RowsSeen(more, y, |more.states| - 1) == rows
  {
    forall i | 0 <= i < |y.times| ensures y.times[i] < |more.states| && RowsSeen(more, y, y.times[i]) == rows {
      var j := y.times[i];
      assert i < |x.times| ==> j == x.times[i];
      assert more.states[j] == run.states[j];
    }
  }

  lemma LogRecorded(run: Run, more: Run, x: Session, y: Session, rows: seq<Row>, sizes: Sizes, log: seq<Read>)
    requires Underway(run, x, rows, sizes) && Continues(run, more) && y.q == x.q && y.log == x.log + log
    requires Fits(x.path[|x.envs|], WorldOf(run, x, rows, sizes))
    requires var q := x.path[|x.envs|];
             if q.phase != FetchData then log == []
             else ReadsFor(more, x, |run.states| - 1,
                           Attempted(Chunk(q, Calm(rows), sizes.limit), Misplaced(Final(run), x)), log)
    ensures Recorded(more, y)
  {
    var q := x.path[|x.envs|];
    if q.phase == FetchData {
      RecordedStays(run, more, x, y, |run.states| - 1,
                    Attempted(Chunk(q, Calm(rows), sizes.limit), Misplaced(Final(run), x)), log);
    } else {
      RecordedStays(run, more, x, y, 0, [], log);
    }
  }

  /** After the step, unless it was the last, the reads are again those of the packs created. */
  lemma StepEnds(x: Session, y: Session, q: Query, env: Env, rows: seq<Row>, sizes: Sizes, r: Query, w: World,
                 log: seq<Read>)
    requires w.rows == rows && w.sizes == sizes && Fits(q, w) && env == Meets(q, w) &&
             r == Apply(q, Process(env), sizes)
    requires |x.log| == q.created && y.log == x.log + log && forall row :: row in q.cursor.page ==> row in rows
    requires if q.phase != FetchData then log == [] else |log| == |Attempted(Chunk(q, Calm(rows), sizes.limit), w.bad)|
    ensures !r.disposed ==> |y.log| == r.created
    ensures forall row :: row in r.cursor.page ==> row in rows
  {
    CreatedByStep(q, env, sizes);
    PagesStay(q, env, sizes);
    if q.phase == FetchData {
      assert Chunk(q, env, sizes.limit) == Chunk(q, Calm(rows), sizes.limit);
    }
  }

  // ---------- the whole session ----------

  /** A session along the given path of the engine. */
  ghost predicate Built(run: Run, x: Session, rows: seq<Row>, sizes: Sizes, path: seq<Query>, more: Run, y: Session)
  {
    Underway(more, y, rows, sizes) && ReadOn(run, more, x.q) && Longer(x, y) && y.path == path &&
    (|path| == 1 ==> more == run && y == x) && (|path| > 1 ==> |y.times| > 0 && y.times[0] == |run.states| - 1)
  }

  lemma {:induction false} BuildSession(run: Run, x: Session, rows: seq<Row>, sizes: Sizes, path: seq<Query>)
      returns (more: Run, y: Session)
    requires Underway(run, x, rows, sizes) && |x.envs| == 0 && path != [] && path[0] == x.path[0]
    requires IsPath(path, WorldOf(run, x, rows, sizes))
    ensures Built(run, x, rows, sizes, path, more, y)
    decreases |path|
  {
    var n := |path| - 1;
    if n == 0 {
      more, y := run, x;
    } else {
      var w := WorldOf(run, x, rows, sizes);
      assert IsPath(path[..n], w) by { PathPrefix(path, w, n); }
      var before, z := BuildSession(run, x, rows, sizes, path[..n]);
      assert StepsTo(path[n - 1], w, path[n]) by { PathStep(path, w, n - 1); }
      more, y := StepOn(before, z, rows, sizes, path[n]);
      BuiltOn(run, x, rows, sizes, path, n, before, z, more, y);
    }
  }

  lemma BuiltOn(run: Run, x: Session, rows: seq<Row>, sizes: Sizes, path: seq<Query>, n: nat, before: Run, z: Session,
                more: Run, y: Session)
    requires run.states != [] && |x.times| == 0 && 0 < n == |path| - 1
    requires StepsTo(path[n - 1], WorldOf(run, x, rows, sizes), path[n])
    requires CanStepOn(before, z, rows, sizes, path[n]) ==> SteppedOn(before, z, rows, sizes, path[n], more, y)
    ensures Built(run, x, rows, sizes, path[..n], before, z) ==> Built(run, x, rows, sizes, path, more, y)
  {
    if Built(run, x, rows, sizes, path[..n], before, z) {
      SameWorld(run, before, x, z, rows, sizes);
      assert z.path[|z.envs|] == path[n - 1];
      assert CanStepOn(before, z, rows, sizes, path[n]);
      ReadOnMore(run, before, more, x.q);
      assert path == path[..n] + [path[n]];
    }
  }

  lemma SameWorld(run: Run, more: Run, x: Session, y: Session, rows: seq<Row>, sizes: Sizes)
    requires run.states != [] && more.states != [] && Last(more).area == Last(run).area
    requires y.did == x.did && y.dsType == x.dsType
    ensures WorldOf(more, y, rows, sizes) == WorldOf(run, x, rows, sizes)
  {
  }

  lemma PathPrefix(path: seq<Query>, w: World, n: nat)
    requires IsPath(path, w) && n <= |path|
    ensures IsPath(path[..n], w)
  {
    forall i | 0 <= i < n - 1 ensures StepsTo(path[..n][i], w, path[..n][i + 1]) {
      PathStep(path, w, i);
    }
  }

  /** Wherever a run stands, a live query with hits can be stepped to its end from there: the run goes on with
      the reads the query makes, and the session is one that `Pipeline.QuerySendsStoredPacks` speaks about. */
  lemma QueryCanBeAnswered(run: Run, did: string, dsType: nat, q: nat, sizes: Sizes, start: nat, end: nat, d: nat)
      returns (more: Run, x: Session)
    requires IsRun(run) && q in Last(run).cache.queries && (forall k :: k in Last(run).area.index ==> k.ts > 0)
    requires 0 < d <= Budget(sizes.limit) && sizes.forward > 0
    requires 0 < |Hits(Rows(Last(run).area.index, did, dsType), start, end)| < UINT32
    ensures Continues(run, more) && IsSession(more, x, sizes) && x.did == did && x.dsType == dsType && x.q == q
    ensures x.path[0] == NewQuery(start, end, d) && x.path[|x.envs|].disposed && x.times[0] == |run.states| - 1
    ensures Unchanging(more, x, Rows(Last(run).area.index, did, dsType))
  {
    var rows := Rows(Last(run).area.index, did, dsType);
    var x0 := Session(did, dsType, q, [NewQuery(start, end, d)], [], [], []);
    var path := WholePath(run, x0, sizes, start, end, d);
    more, x := BuildSession(run, x0, rows, sizes, path);
  }

  lemma WholePath(run: Run, x: Session, sizes: Sizes, start: nat, end: nat, d: nat) returns (path: seq<Query>)
    requires run.states != [] && forall k :: k in Last(run).area.index ==> k.ts > 0
    requires 0 < d <= Budget(sizes.limit) && sizes.forward > 0
    requires 0 < |Hits(Rows(Last(run).area.index, x.did, x.dsType), start, end)| < UINT32
    ensures IsPath(path, WorldOf(run, x, Rows(Last(run).area.index, x.did, x.dsType), sizes))
    ensures |path| > 1 && path[0] == NewQuery(start, end, d) && path[|path| - 1].disposed
  {
    var rows := Rows(Last(run).area.index, x.did, x.dsType);
    var w, hits := WorldOf(run, x, rows, sizes), Hits(rows, start, end);
    var r := Outcome(Last(run).area.index, x, w, start, end, d);
    var n := StepsToEnd(|hits|, FirstBad(hits, w.bad), d, sizes);
    path :| LeadsTo(path, NewQuery(start, end, d), w, n, r);
  }
}
