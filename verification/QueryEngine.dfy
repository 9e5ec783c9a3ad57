/** The query engine: one query is stepped through search, fetch and forward phases, reading
    in one page size and forwarding in another. */
module QueryEngine {
  import opened PackIndex
  import opened IndexCursor

  datatype Phase = NeedSearch | FetchData | ForwardData | Error(code: int) | ClientDisconnected | Ended

  /** A fetched data pack object; the serial number tells objects (and their buffers) apart. */
  datatype Pack = Pack(serial: nat, row: Row)

  /** A buffer handed to the answer channel under its running number. */
  datatype Sent = Sent(number: nat, pack: Pack)

  datatype Query = Query(
    phase: Phase,
    cursor: Cursor,
    fetched: seq<Pack>,       // fetched_data_vector
    toForward: nat,           // number_of_element_to_forward
    totalSent: nat,
    created: nat,           // pack objects created so far
    sent: seq<Sent>,          // buffers handed to the channel
    deleted: seq<nat>,        // pack objects deleted
    freed: seq<nat>,          // buffers freed with their pack
    disposed: bool)           // the engine has let go of the query

  function NewQuery(start: nat, end: nat, dimension: nat): Query
  {
    Query(NeedSearch, NewCursor(start, end, dimension), [], 0, 0, 0, [], [], [], false)
  }

  /** What handing one buffer to the channel comes back with. */
  datatype SendResult = Accepted | Refused | ClientGone

  /** Everything one engine step meets: the index as it is then, and what fails. */
  datatype Env = Env(
    rows: seq<Row>, searchFails: bool, pageFails: bool, readFails: bool, readFailsAt: nat,
    disconnects: bool, channelFails: bool, sends: seq<SendResult>, rescheduled: bool)

  /** Sizes: read limit of one fetch step and forwarding page. */
  datatype Sizes = Sizes(limit: nat, forward: nat)

  datatype Step = Process(env: Env) | Disconnect

  predicate Over(p: Phase) {
    p.Error? || p.ClientDisconnected? || p.Ended?
  }

  /** A limit of 0 wraps around and lets 2^32 packs through. */
  function Budget(limit: nat): nat {
    if limit == 0 then UINT32 else limit
  }

  function Min(a: nat, b: nat): nat {
    if a < b then a else b
  }

  // ---------- search ----------

  predicate SearchWorks(c: Cursor, rows: seq<Row>)
    requires c.dimension > 0
  {
    !((c.start == 0 || c.end == 0) && rows == []) && Counted(Bounded(c, rows), rows).totalPages != 0
  }

  function StartSearch(q: Query, env: Env): Query
    requires q.cursor.dimension > 0
  {
    if env.searchFails || !SearchWorks(q.cursor, env.rows) then q.(phase := Error(-1))
    else q.(phase := FetchData, cursor := Counted(Bounded(q.cursor, env.rows), env.rows))
  }

  // ---------- fetch ----------

  function Advanced(q: Query): Query {
    q.(cursor := q.cursor.(returned := q.cursor.returned + 1))
  }

  function ReadOne(q: Query): Query
    requires q.cursor.returned < |q.cursor.page|
  {
    Advanced(q).(fetched := q.fetched + [Pack(q.created, q.cursor.page[q.cursor.returned])], created := q.created + 1)
  }

  /** The read loop: result and whether it ended without error. */
  function ReadLoop(q: Query, budget: nat, fails: bool, failsAt: nat): (Query, bool)
    requires q.cursor.returned <= |q.cursor.page|
    decreases |q.cursor.page| - q.cursor.returned
  {
    if !HasNext(q.cursor) || budget == 0 then (q, true)
    else if fails && failsAt == 0 then (Advanced(q), false)
    else ReadLoop(ReadOne(q), budget - 1, fails, if failsAt == 0 then 0 else failsAt - 1)
  }

  predicate CanFetch(q: Query, env: Env) {
    q.cursor.returned <= |q.cursor.page| &&
    (q.cursor.found != q.cursor.fetched && !HasNext(q.cursor) && !env.pageFails ==> Answered(q.cursor, env.rows))
  }

  function ReadDataPackPage(q: Query, env: Env, limit: nat): (Query, bool)
    requires CanFetch(q, env)
  {
    if q.cursor.found == q.cursor.fetched then (q, true)
    else if HasNext(q.cursor) then ReadLoop(q, Budget(limit), env.readFails, env.readFailsAt)
    else if env.pageFails then (q, false)
    else ReadLoop(q.(cursor := NextPage(q.cursor, env.rows)), Budget(limit), env.readFails, env.readFailsAt)
  }

  /** The rows of the page still to be handed out, up to the limit. */
  function Upcoming(c: Cursor, budget: nat): seq<Row>
    requires c.returned <= |c.page|
  {
    c.page[c.returned..c.returned + Min(budget, |c.page| - c.returned)]
  }

  predicate NeedsPage(q: Query) {
    q.cursor.found != q.cursor.fetched && !HasNext(q.cursor)
  }

  /** The rows a fetch step is going to read. */
  function Chunk(q: Query, env: Env, limit: nat): seq<Row>
    requires CanFetch(q, env)
  {
    if q.cursor.found == q.cursor.fetched || (NeedsPage(q) && env.pageFails) then []
    else Upcoming(if HasNext(q.cursor) then q.cursor else NextPage(q.cursor, env.rows), Budget(limit))
  }

  /** How many of these rows are read before one fails. */
  function ReadBefore(rows: seq<Row>, env: Env): nat {
    if env.readFails && env.readFailsAt < |rows| then env.readFailsAt else |rows|
  }

  function PacksOf(serial: nat, rows: seq<Row>): seq<Pack>
  {
    seq(|rows|, i requires 0 <= i < |rows| => Pack(serial + i, rows[i]))
  }

  /** The first k rows have been read, and perhaps the next one has failed. */
  function AfterReading(q: Query, rows: seq<Row>, k: nat, failed: bool): Query
    requires k <= |rows|
  {
    q.(cursor := q.cursor.(returned := q.cursor.returned + if failed then k + 1 else k),
       fetched := q.fetched + PacksOf(q.created, rows[..k]), created := q.created + k)
  }

  lemma AfterOne(q: Query, rows: seq<Row>, k: nat, failed: bool, rest: seq<Row>)
    requires q.cursor.returned < |q.cursor.page| && 0 < k <= |rows| && rows == [q.cursor.page[q.cursor.returned]] + rest
    ensures AfterReading(ReadOne(q), rest, k - 1, failed) == AfterReading(q, rows, k, failed)
  {
    var first := [Pack(q.created, rows[0])];
    assert PacksOf(q.created, rows[..k]) == first + PacksOf(q.created + 1, rest[..k - 1]);
    assert q.fetched + (first + PacksOf(q.created + 1, rest[..k - 1]))
        == q.fetched + first + PacksOf(q.created + 1, rest[..k - 1]);
  }

  lemma AfterNone(q: Query, rows: seq<Row>)
    ensures AfterReading(q, rows, 0, false) == q && AfterReading(q, rows, 0, true) == Advanced(q)
  {
    assert q.fetched + PacksOf(q.created, rows[..0]) == q.fetched;
  }

  lemma UpcomingStep(q: Query, budget: nat)
    requires q.cursor.returned < |q.cursor.page| && budget > 0
    ensures Upcoming(q.cursor, budget) == [q.cursor.page[q.cursor.returned]] + Upcoming(ReadOne(q).cursor, budget - 1)
  {
  }

  /** The read loop reads the upcoming rows in order, up to the first failure. */
  lemma {:induction false} ReadLoopReads(q: Query, budget: nat, fails: bool, failsAt: nat)
    requires q.cursor.returned <= |q.cursor.page|
    ensures var rows := Upcoming(q.cursor, budget);
            var failed := fails && failsAt < |rows|;
            ReadLoop(q, budget, fails, failsAt)
            == (AfterReading(q, rows, if failed then failsAt else |rows|, failed), !failed)
    decreases |q.cursor.page| - q.cursor.returned
  {
    var rows := Upcoming(q.cursor, budget);
    AfterNone(q, rows);
    if HasNext(q.cursor) && budget != 0 && !(fails && failsAt == 0) {
      var rest := Upcoming(ReadOne(q).cursor, budget - 1);
      var failed := fails && failsAt < |rows|;
      ReadLoopReads(ReadOne(q), budget - 1, fails, if failsAt == 0 then 0 else failsAt - 1);
      UpcomingStep(q, budget);
      AfterOne(q, rows, if failed then failsAt else |rows|, failed, rest);
    }
  }

  /** What a whole read of a fetch step does. */
  lemma PageRead(q: Query, env: Env, limit: nat)
    requires CanFetch(q, env)
    ensures var rows := Chunk(q, env, limit); var k := ReadBefore(rows, env);
            var (r, ok) := ReadDataPackPage(q, env, limit);
            (ok <==> !(NeedsPage(q) && env.pageFails) && k == |rows|) &&
            r == q.(cursor := r.cursor, fetched := q.fetched + PacksOf(q.created, rows[..k]), created := q.created + k)
  {
    if q.cursor.found == q.cursor.fetched || (NeedsPage(q) && env.pageFails) {
      assert q.fetched + PacksOf(q.created, []) == q.fetched;
    } else {
      var turned := if HasNext(q.cursor) then q else q.(cursor := NextPage(q.cursor, env.rows));
      ReadLoopReads(turned, Budget(limit), env.readFails, env.readFailsAt);
    }
  }

  function Fetch(q: Query, env: Env, limit: nat): Query
    requires CanFetch(q, env)
  {
    var (r, ok) := ReadDataPackPage(q, env, limit);
    var phase := if env.disconnects then ClientDisconnected else q.phase;
    var next :=
      if !ok then Error(-2)
      else if r.fetched == [] && r.cursor.fetched == r.cursor.found then Ended
      else if r.fetched != [] && phase == FetchData then ForwardData
      else phase;
    r.(phase := next, toForward := |r.fetched|)
  }

  // ---------- forward ----------

  function SendOne(q: Query): Query
    requires 0 < q.toForward <= |q.fetched|
  {
    var pack, number := q.fetched[q.toForward - 1], (q.totalSent + 1) % UINT32;
    q.(toForward := q.toForward - 1, totalSent := number,
       sent := q.sent + [Sent(number, pack)], deleted := q.deleted + [pack.serial])
  }

  function SendLoop(q: Query, sends: seq<SendResult>, budget: nat): (Query, bool)
    requires q.toForward <= |q.fetched|
    decreases budget
  {
    if budget == 0 || q.toForward == 0 then (q, true)
    else if sends == [] || sends[0] == Accepted
    then SendLoop(SendOne(q), if sends == [] then [] else sends[1..], budget - 1)
    else (SendOne(q), false)
  }

  function Forward(q: Query, env: Env, page: nat): Query
    requires q.toForward <= |q.fetched|
  {
    if env.channelFails then q.(phase := Error(-3))
    else
      var (r, ok) := SendLoop(q, env.sends, page);
      if !ok then r.(phase := Error(-3))
      else if r.toForward == 0 then r.(phase := FetchData, fetched := [])
      else r
  }

  // ---------- one engine step ----------

  /** Packs that were never sent are deleted with their buffers. */
  function DropUnsent(q: Query): Query
    requires q.toForward <= |q.fetched|
    decreases q.toForward
  {
    if q.toForward == 0 then q
    else
      var serial := q.fetched[q.toForward - 1].serial;
      DropUnsent(q.(toForward := q.toForward - 1, deleted := q.deleted + [serial], freed := q.freed + [serial]))
  }

  predicate CanStep(q: Query, step: Step)
  {
    !q.disposed && q.toForward <= |q.fetched| && q.cursor.dimension > 0 &&
    (step.Process? && q.phase == FetchData ==> CanFetch(q, step.env))
  }

  function Phased(q: Query, env: Env, sizes: Sizes): (r: Query)
    requires CanStep(q, Process(env))
  {
    match q.phase
    case NeedSearch => StartSearch(q, env)
    case FetchData => Fetch(q, env, sizes.limit)
    case ForwardData => Forward(q, env, sizes.forward)
    case _ => q
  }

  function Finished(r: Query, rescheduled: bool): Query
    requires r.toForward <= |r.fetched|
  {
    if Over(r.phase) then DropUnsent(r).(disposed := true)
    else if !rescheduled then r.(disposed := true)
    else r
  }

  lemma {:induction false} SendLoopBounds(q: Query, sends: seq<SendResult>, budget: nat)
    requires q.toForward <= |q.fetched|
    ensures var r := SendLoop(q, sends, budget).0;
            r.toForward <= q.toForward &&
            r == q.(toForward := r.toForward, totalSent := r.totalSent, sent := r.sent, deleted := r.deleted)
    decreases budget
  {
    if budget != 0 && q.toForward != 0 && (sends == [] || sends[0] == Accepted) {
      SendLoopBounds(SendOne(q), if sends == [] then [] else sends[1..], budget - 1);
    }
  }

  function Apply(q: Query, step: Step, sizes: Sizes): Query
    requires CanStep(q, step)
  {
    match step
    case Disconnect => q.(phase := ClientDisconnected)
    case Process(env) =>
      SendLoopBounds(q, env.sends, sizes.forward);
      Finished(Phased(q, env, sizes), env.rescheduled)
  }
}
