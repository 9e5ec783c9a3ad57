/** The query object the engine threads work on, with the loops that read, send and clean up,
    proved to take the steps of the query state machine. */
module DataCloudQuery {
  import opened PackIndex
  import opened IndexCursor
  import Spec = QueryEngine

  class Query {
    var queryPhase: Spec.Phase
    const cursor: MongoDBIndexCursor
    var fetchedDataVector: seq<Spec.Pack>
    var numberOfElementToForward: nat
    var totalDataPackSent: nat
    var created: nat
    var sent: seq<Spec.Sent>
    var deleted: seq<nat>
    var freed: seq<nat>
    var disposed: bool

    function Abs(): Spec.Query
      reads this, cursor
    {
      Spec.Query(queryPhase, cursor.Abs(), fetchedDataVector, numberOfElementToForward, totalDataPackSent,
                 created, sent, deleted, freed, disposed)
    }

    constructor (start: nat, end: nat, dimension: nat)
      ensures Abs() == Spec.NewQuery(start, end, dimension) && fresh(cursor)
    {
      queryPhase := Spec.NeedSearch;
      cursor := new MongoDBIndexCursor(start, end, dimension);
      fetchedDataVector, numberOfElementToForward, totalDataPackSent := [], 0, 0;
      created, sent, deleted, freed, disposed := 0, [], [], [], false;
    }

    method ExecuteQuery(env: Spec.Env)
      requires Abs().cursor.dimension > 0
      modifies this, cursor
      ensures var q := Spec.StartSearch(old(Abs()), env);
              if q.phase.Error?
              then queryPhase == q.phase && Abs() == old(Abs()).(phase := queryPhase, cursor := cursor.Abs())
              else Abs() == q
    {
      if env.searchFails {
        queryPhase := Spec.Error(-1);
      } else {
        var err := cursor.ComputeTimeLapsForPage(env.rows);
        queryPhase := if err != 0 then Spec.Error(-1) else Spec.FetchData;
      }
    }

    /** One read: take the next index and load its pack. */
    method ReadNext(fails: bool) returns (ok: bool)
      requires HasNext(Abs().cursor) && Abs().cursor.returned <= |Abs().cursor.page|
      modifies this, cursor
      ensures ok == !fails
      ensures Abs() == if fails then Spec.Advanced(old(Abs())) else Spec.ReadOne(old(Abs()))
    {
      var row := cursor.GetIndex();
      ok := !fails;
      if ok {
        fetchedDataVector := fetchedDataVector + [Spec.Pack(created, row)];
        created := created + 1;
      }
    }

    method ReadDataPackPage(env: Spec.Env, limit: nat) returns (ok: bool)
      requires Spec.CanFetch(Abs(), env) && limit < UINT32
      modifies this, cursor
      ensures (Abs(), ok) == Spec.ReadDataPackPage(old(Abs()), env, limit)
    {
      if cursor.elementFound == cursor.numberOfElementFetched { return true; }
      if !HasNext(cursor.Abs()) {
        if env.pageFails { return false; }
        cursor.PerformNextPagedQuery(env.rows);
      }
      ok := ReadPacks(env, limit);
    }

    /** The read loop. */
    method ReadPacks(env: Spec.Env, limit: nat) returns (ok: bool)
      requires cursor.numberOfReturnedElementInPage <= |cursor.fetchedElementPage| && limit < UINT32
      modifies this, cursor
      ensures (Abs(), ok) == Spec.ReadLoop(old(Abs()), Spec.Budget(limit), env.readFails, env.readFailsAt)
    {
      ghost var q := Abs();
      var limitTo, failsAt := limit, env.readFailsAt;
      ok := true;
      while HasNext(cursor.Abs()) && ok
        invariant cursor.numberOfReturnedElementInPage <= |cursor.fetchedElementPage| && 0 <= limitTo < UINT32
        invariant Spec.ReadLoop(q, Spec.Budget(limit), env.readFails, env.readFailsAt)
               == if ok then Spec.ReadLoop(Abs(), Spec.Budget(limitTo), env.readFails, failsAt) else (Abs(), false)
        decreases |cursor.fetchedElementPage| - cursor.numberOfReturnedElementInPage
      {
        ok := ReadNext(env.readFails && failsAt == 0);
        failsAt := if failsAt == 0 then 0 else failsAt - 1;
        limitTo := if limitTo == 0 then UINT32 - 1 else limitTo - 1;
        if limitTo == 0 { break; }
      }
    }

    method SendNext()
      requires 0 < numberOfElementToForward <= |fetchedDataVector|
      modifies this
      ensures Abs() == Spec.SendOne(old(Abs()))
    {
      numberOfElementToForward := numberOfElementToForward - 1;
      var pack := fetchedDataVector[numberOfElementToForward];
      totalDataPackSent := (totalDataPackSent + 1) % UINT32;
      sent := sent + [Spec.Sent(totalDataPackSent, pack)];
      deleted := deleted + [pack.serial];
    }

    /** Forward up to `page` packs from the back of the vector. */
    method SendDataToClient(sends: seq<Spec.SendResult>, page: nat) returns (ok: bool)
      requires numberOfElementToForward <= |fetchedDataVector|
      modifies this
      ensures (Abs(), ok) == Spec.SendLoop(old(Abs()), sends, page)
    {
      var sentCount, rest := 0, sends;
      ok := true;
      while sentCount < page && numberOfElementToForward > 0 && ok
        invariant 0 <= sentCount <= page && numberOfElementToForward <= |fetchedDataVector|
        invariant Spec.SendLoop(old(Abs()), sends, page)
               == if ok then Spec.SendLoop(Abs(), rest, page - sentCount) else (Abs(), false)
        decreases page - sentCount
      {
        SendNext();
        ok := rest == [] || rest[0] == Spec.Accepted;
        rest := if rest == [] then [] else rest[1..];
        sentCount := sentCount + 1;
      }
    }

    method RemoveUnsent()
      requires numberOfElementToForward <= |fetchedDataVector|
      modifies this
      ensures Abs() == Spec.DropUnsent(old(Abs()))
    {
      while numberOfElementToForward > 0
        invariant numberOfElementToForward <= |fetchedDataVector|
        invariant Spec.DropUnsent(Abs()) == Spec.DropUnsent(old(Abs()))
      {
        numberOfElementToForward := numberOfElementToForward - 1;
        var serial := fetchedDataVector[numberOfElementToForward].serial;
        deleted := deleted + [serial];
        freed := freed + [serial];
      }
    }

    method FetchPhase(env: Spec.Env, limit: nat)
      requires Spec.CanFetch(Abs(), env) && limit < UINT32
      modifies this, cursor
      ensures Abs() == Spec.Fetch(old(Abs()), env, limit)
    {
      ghost var q := Abs();
      var ok := ReadDataPackPage(env, limit);
      assert Abs() == Spec.ReadDataPackPage(q, env, limit).0;
      FrameOfRead(q, env, limit);
      if env.disconnects { queryPhase := Spec.ClientDisconnected; }
      if !ok {
        queryPhase := Spec.Error(-2);
      } else if fetchedDataVector == [] && cursor.numberOfElementFetched == cursor.elementFound {
        queryPhase := Spec.Ended;
      } else if fetchedDataVector != [] && queryPhase == Spec.FetchData {
        queryPhase := Spec.ForwardData;
      }
      numberOfElementToForward := |fetchedDataVector|;
    }

    static lemma {:induction false} FrameOfLoop(q: Spec.Query, budget: nat, fails: bool, failsAt: nat)
      requires q.cursor.returned <= |q.cursor.page|
      ensures Spec.ReadLoop(q, budget, fails, failsAt).0.phase == q.phase
      decreases |q.cursor.page| - q.cursor.returned
    {
      if HasNext(q.cursor) && budget != 0 && !(fails && failsAt == 0) {
        FrameOfLoop(Spec.ReadOne(q), budget - 1, fails, if failsAt == 0 then 0 else failsAt - 1);
      }
    }

    static lemma FrameOfRead(q: Spec.Query, env: Spec.Env, limit: nat)
      requires Spec.CanFetch(q, env)
      ensures Spec.ReadDataPackPage(q, env, limit).0.phase == q.phase
    {
      if q.cursor.found != q.cursor.fetched {
        if HasNext(q.cursor) {
          FrameOfLoop(q, Spec.Budget(limit), env.readFails, env.readFailsAt);
        } else if !env.pageFails {
          FrameOfLoop(q.(cursor := NextPage(q.cursor, env.rows)), Spec.Budget(limit), env.readFails, env.readFailsAt);
        }
      }
    }

    method ForwardPhase(env: Spec.Env, page: nat)
      requires numberOfElementToForward <= |fetchedDataVector|
      modifies this
      ensures Abs() == Spec.Forward(old(Abs()), env, page)
    {
      var ok := !env.channelFails;
      if ok {
        ok := SendDataToClient(env.sends, page);
      }
      if !ok {
        queryPhase := Spec.Error(-3);
      } else if numberOfElementToForward == 0 {
        queryPhase := Spec.FetchData;
        fetchedDataVector := [];
      }
    }

    /** One step of an engine thread on this query. After a failed search the program has no cursor
        any more; nothing is said about it then. */
    method ProcessQuery(env: Spec.Env, sizes: Spec.Sizes)
      requires Spec.CanStep(Abs(), Spec.Process(env)) && sizes.limit < UINT32
      modifies this, cursor
      ensures var q := Spec.Apply(old(Abs()), Spec.Process(env), sizes);
              Abs() == if q.phase == Spec.Error(-1) then q.(cursor := Abs().cursor) else q
    {
      ghost var q := Abs();
      PhaseStep(env, sizes);
      label Stepped:
      Spec.SendLoopBounds(q, env.sends, sizes.forward);
      if Spec.Over(queryPhase) {
        RemoveUnsent();
        disposed := true;
        DropFrame(q, env, sizes, old@Stepped(Abs()).cursor);
      } else if !env.rescheduled {
        disposed := true;
      }
    }

    method PhaseStep(env: Spec.Env, sizes: Spec.Sizes)
      requires Spec.CanStep(Abs(), Spec.Process(env)) && sizes.limit < UINT32
      modifies this, cursor
      ensures var r := Spec.Phased(old(Abs()), env, sizes);
              Abs() == (if r.phase == Spec.Error(-1) then r.(cursor := Abs().cursor) else r) &&
              numberOfElementToForward <= |fetchedDataVector|
    {
      Spec.SendLoopBounds(Abs(), env.sends, sizes.forward);
      match queryPhase {
        case NeedSearch => ExecuteQuery(env);
        case FetchData => FetchPhase(env, sizes.limit);
        case ForwardData => ForwardPhase(env, sizes.forward);
        case _ =>
      }
    }

    /** Cleaning up does not look at the cursor. */
    static lemma {:induction false} DropIgnoresCursor(q: Spec.Query, c: Cursor)
      requires q.toForward <= |q.fetched|
      ensures Spec.DropUnsent(q.(cursor := c)) == Spec.DropUnsent(q).(cursor := c)
      ensures Spec.DropUnsent(q).phase == q.phase && Spec.DropUnsent(q).cursor == q.cursor
      decreases q.toForward
    {
      if q.toForward != 0 {
        var serial := q.fetched[q.toForward - 1].serial;
        DropIgnoresCursor(q.(toForward := q.toForward - 1, deleted := q.deleted + [serial],
                             freed := q.freed + [serial]), c);
      }
    }

    static lemma DropFrame(q: Spec.Query, env: Spec.Env, sizes: Spec.Sizes, c: Cursor)
      requires Spec.CanStep(q, Spec.Process(env)) &&
               Spec.Phased(q, env, sizes).toForward <= |Spec.Phased(q, env, sizes).fetched|
      ensures var r := Spec.Phased(q, env, sizes);
              Spec.DropUnsent(r.(cursor := c)) == Spec.DropUnsent(r).(cursor := c) &&
              Spec.DropUnsent(r).phase == r.phase
    {
      DropIgnoresCursor(Spec.Phased(q, env, sizes), c);
    }
  }
}
