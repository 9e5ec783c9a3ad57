/** How each step of a query ends, in terms of what the step meets, and what the end of a query says about the run. */
module QueryPhases {
  import opened PackIndex
  import opened IndexCursor
  import opened QueryEngine
  import opened QueryMemory

  predicate Finishes(p: Phase) {
    p == Ended || p == ClientDisconnected || p.Error?
  }

  // ---------- search ----------

  /** The interval asked for, missing bounds filled in from the first and the last row. */
  function Start(c: Cursor, rows: seq<Row>): nat
    requires rows != []
  {
    if c.start == 0 then rows[0].ts else c.start
  }

  function End(c: Cursor, rows: seq<Row>): nat
    requires rows != []
  {
    if c.end == 0 then rows[|rows| - 1].ts else c.end
  }

  function PageCount(c: Cursor, rows: seq<Row>): nat
    requires c.dimension > 0 && rows != []
  {
    (|Between(rows, Start(c, rows), End(c, rows))| + c.dimension - 1) / c.dimension
  }

  predicate NothingFound(c: Cursor, rows: seq<Row>)
    requires c.dimension > 0
  {
    rows == [] || PageCount(c, rows) % 0x1_0000_0000 == 0
  }

  lemma {:induction false} NothingBetween(start: nat, end: nat)
    ensures Between([], start, end) == []
  {
  }

  /** A search ends the query with -1 exactly when it fails or finds nothing. */
  lemma SearchOutcome(q: Query, env: Env, sizes: Sizes)
    requires CanStep(q, Process(env)) && q.phase == NeedSearch
    ensures var t := Phased(q, env, sizes);
            t.phase == (if env.searchFails || NothingFound(q.cursor, env.rows) then Error(-1) else FetchData) &&
            t == q.(phase := t.phase, cursor := t.cursor) &&
            (t.phase == FetchData ==>
               env.rows != [] &&
               var start, end := Start(q.cursor, env.rows), End(q.cursor, env.rows);
               t.cursor == q.cursor.(start := start, end := end, found := |Between(env.rows, start, end)|,
                                     totalPages := PageCount(q.cursor, env.rows) % 0x1_0000_0000))
  {
    NothingBetween(q.cursor.start, q.cursor.end);
  }

  // ---------- fetch ----------

  /** The rows a fetch is about to hand out: none once all have been fetched from the index, else what is left of
      the page, or of the next page; at most as many as the limit says, where 0 means 2^32. */
  function NextOnes(q: Query, env: Env, limit: nat): seq<Row>
    requires CanFetch(q, env)
  {
    var c := q.cursor;
    if c.found == c.fetched then []
    else
      var at, page := if c.returned == |c.page| then 0 else c.returned,
                      if c.returned != |c.page| then c.page
                      else if env.pageFails then [] else NextPage(c, env.rows).page;
      var budget := if limit == 0 then 0x1_0000_0000 else limit;
      if at + budget < |page| then page[at..at + budget] else if at <= |page| then page[at..] else []
  }

  /** The next page is needed. */
  predicate TurnsPage(c: Cursor) {
    c.found != c.fetched && c.returned == |c.page|
  }

  predicate FetchFails(q: Query, env: Env, limit: nat)
    requires CanFetch(q, env)
  {
    (TurnsPage(q.cursor) && env.pageFails) || (env.readFails && env.readFailsAt < |NextOnes(q, env, limit)|)
  }

  /** All that was counted has been fetched from the index, this page included. */
  predicate AllFetched(q: Query, env: Env)
    requires CanFetch(q, env)
  {
    var c := q.cursor;
    c.found == if TurnsPage(c) && !env.pageFails then NextPage(c, env.rows).fetched else c.fetched
  }

  lemma NextOnesChunk(q: Query, env: Env, limit: nat)
    requires CanFetch(q, env)
    ensures NextOnes(q, env, limit) == Chunk(q, env, limit)
  {
  }

  lemma FetchedCount(q: Query, env: Env, limit: nat)
    requires CanFetch(q, env)
    ensures var r := ReadDataPackPage(q, env, limit).0;
            r.cursor.found == q.cursor.found && (r.cursor.fetched == r.cursor.found <==> AllFetched(q, env))
  {
    if q.cursor.found != q.cursor.fetched && !(NeedsPage(q) && env.pageFails) {
      var turned := if HasNext(q.cursor) then q else q.(cursor := NextPage(q.cursor, env.rows));
      ReadLoopReads(turned, Budget(limit), env.readFails, env.readFailsAt);
    }
  }

  /** A fetch ends the query with -2 exactly when the page cannot be had or one of the rows cannot be read; it ends it
      regularly exactly when there is nothing to hand out and all has been fetched; else what it has read, all of the
      rows, is to be forwarded. */
  lemma FetchOutcome(q: Query, env: Env, sizes: Sizes)
    requires CanStep(q, Process(env)) && q.phase == FetchData && q.fetched == []
    ensures var t := Phased(q, env, sizes); var rows := NextOnes(q, env, sizes.limit);
            t.phase == if FetchFails(q, env, sizes.limit) then Error(-2)
                       else if rows == [] && AllFetched(q, env) then Ended
                       else if env.disconnects then ClientDisconnected
                       else if rows != [] then ForwardData
                       else FetchData
    ensures var t := Phased(q, env, sizes); var read := ReadRows(q, env, sizes.limit);
            t == q.(phase := t.phase, cursor := t.cursor, toForward := |read|, created := q.created + |read|,
                    fetched := seq(|read|, i requires 0 <= i < |read| => Pack(q.created + i, read[i])))
    ensures !FetchFails(q, env, sizes.limit) ==>
              var page := if TurnsPage(q.cursor) then NextPage(q.cursor, env.rows) else q.cursor;
              Phased(q, env, sizes).cursor == page.(returned := page.returned + |ReadRows(q, env, sizes.limit)|)
  {
    FetchReads(q, env, sizes.limit);
    if !FetchFails(q, env, sizes.limit) { FetchTurns(q, env, sizes.limit); }
    FetchedCount(q, env, sizes.limit);
  }

  lemma FetchTurns(q: Query, env: Env, limit: nat)
    requires CanFetch(q, env) && !FetchFails(q, env, limit)
    ensures var page := if TurnsPage(q.cursor) then NextPage(q.cursor, env.rows) else q.cursor;
            ReadDataPackPage(q, env, limit).0.cursor
            == page.(returned := page.returned + |ReadRows(q, env, limit)|)
  {
    NextOnesChunk(q, env, limit);
    if q.cursor.found != q.cursor.fetched {
      var turned := if HasNext(q.cursor) then q else q.(cursor := NextPage(q.cursor, env.rows));
      ReadLoopReads(turned, Budget(limit), env.readFails, env.readFailsAt);
    }
  }

  /** The rows that are read: all, or those before the first that cannot be. */
  function ReadRows(q: Query, env: Env, limit: nat): seq<Row>
    requires CanFetch(q, env)
  {
    var rows := NextOnes(q, env, limit);
    if env.readFails && env.readFailsAt < |rows| then rows[..env.readFailsAt] else rows
  }

  lemma FetchReads(q: Query, env: Env, limit: nat)
    requires CanFetch(q, env) && q.fetched == []
    ensures var (r, ok) := ReadDataPackPage(q, env, limit); var read := ReadRows(q, env, limit);
            (ok <==> !FetchFails(q, env, limit)) &&
            r == q.(cursor := r.cursor, fetched := PacksOf(q.created, read), created := q.created + |read|)
  {
    var rows := Chunk(q, env, limit);
    NextOnesChunk(q, env, limit);
    PageRead(q, env, limit);
    var k := ReadBefore(rows, env);
    assert rows[..k] == ReadRows(q, env, limit);
    assert q.fetched + PacksOf(q.created, rows[..k]) == PacksOf(q.created, rows[..k]);
  }

  // ---------- forward ----------

  /** How many of `n` sends are tried: up to and including the first that is not accepted. */
  function Tried(sends: seq<SendResult>, n: nat): (k: nat)
    ensures k <= n
    ensures forall i :: 0 <= i < k - 1 && i < |sends| ==> sends[i] == Accepted
    ensures k == n || (0 < k <= |sends| && sends[k - 1] != Accepted)
  {
    if n == 0 then 0
    else if sends != [] && sends[0] != Accepted then 1
    else
      var rest := if sends == [] then [] else sends[1..];
      var k := Tried(rest, n - 1);
      assert forall i :: 0 < i < |sends| ==> sends[i] == rest[i - 1];
      1 + k
  }

  predicate Rejected(sends: seq<SendResult>, n: nat) {
    exists i :: 0 <= i < n && i < |sends| && sends[i] != Accepted
  }

  /** The last k packs, from the back, with the next numbers. */
  function Parts(packs: seq<Pack>, total: nat, k: nat): seq<Sent>
    requires k <= |packs|
  {
    seq(k, j requires 0 <= j < k => Sent((total + 1 + j) % 0x1_0000_0000, packs[|packs| - 1 - j]))
  }

  function SerialsBack(packs: seq<Pack>, k: nat): seq<nat>
    requires k <= |packs|
  {
    seq(k, j requires 0 <= j < k => packs[|packs| - 1 - j].serial)
  }

  /** k packs have been handed to the channel. */
  predicate HandsOver(q: Query, k: nat, r: Query)
    requires k <= q.toForward <= |q.fetched|
  {
    var packs := q.fetched[..q.toForward];
    r == q.(toForward := q.toForward - k, sent := q.sent + Parts(packs, q.totalSent, k),
            deleted := q.deleted + SerialsBack(packs, k), totalSent := r.totalSent) &&
    (k > 0 ==> r.totalSent == (q.totalSent + k) % 0x1_0000_0000) && (k == 0 ==> r.totalSent == q.totalSent)
  }

  /** Numbers wrap around. */
  lemma NextNumber(total: nat, j: nat)
    ensures ((total + 1) % 0x1_0000_0000 + j) % 0x1_0000_0000 == (total + 1 + j) % 0x1_0000_0000
  {
  }

  lemma PartsMore(packs: seq<Pack>, total: nat, k: nat)
    requires 0 < k <= |packs|
    ensures var fewer, next := packs[..|packs| - 1], (total + 1) % 0x1_0000_0000;
            Parts(packs, total, k) == [Sent(next, packs[|packs| - 1])] + Parts(fewer, next, k - 1) &&
            SerialsBack(packs, k) == [packs[|packs| - 1].serial] + SerialsBack(fewer, k - 1)
  {
    var fewer, next := packs[..|packs| - 1], (total + 1) % 0x1_0000_0000;
    var all, rest := Parts(packs, total, k), Parts(fewer, next, k - 1);
    forall j | 0 < j < k ensures all[j] == rest[j - 1] {
      NextNumber(total, j);
    }
    assert all == [Sent(next, packs[|packs| - 1])] + rest;
  }

  lemma HandsOverMore(q: Query, k: nat, r: Query)
    requires 0 < k <= q.toForward <= |q.fetched| && HandsOver(SendOne(q), k - 1, r)
    ensures HandsOver(q, k, r)
  {
    var packs, s := q.fetched[..q.toForward], SendOne(q);
    assert packs[..|packs| - 1] == s.fetched[..s.toForward] && packs[|packs| - 1] == q.fetched[q.toForward - 1];
    PartsMore(packs, q.totalSent, k);
    assert r.sent == q.sent + Parts(packs, q.totalSent, k);
    assert r.deleted == q.deleted + SerialsBack(packs, k);
    NextNumber(q.totalSent, k - 1);
  }

  lemma {:induction false} SendLoopHands(q: Query, sends: seq<SendResult>, budget: nat)
    requires q.toForward <= |q.fetched|
    ensures var n := if budget < q.toForward then budget else q.toForward;
            HandsOver(q, Tried(sends, n), SendLoop(q, sends, budget).0)
    decreases budget
  {
    var n := if budget < q.toForward then budget else q.toForward;
    if n == 0 {
      assert q.sent + Parts(q.fetched[..q.toForward], q.totalSent, 0) == q.sent;
      assert q.deleted + SerialsBack(q.fetched[..q.toForward], 0) == q.deleted;
    } else {
      var s := SendOne(q);
      var rest := if sends == [] then [] else sends[1..];
      if sends == [] || sends[0] == Accepted {
        SendLoopHands(s, rest, budget - 1);
        HandsOverMore(q, Tried(sends, n), SendLoop(q, sends, budget).0);
      } else {
        assert s.sent + Parts(s.fetched[..s.toForward], s.totalSent, 0) == s.sent;
        assert s.deleted + SerialsBack(s.fetched[..s.toForward], 0) == s.deleted;
        HandsOverMore(q, 1, s);
      }
    }
  }

  /** A forward step ends the query with -3 exactly when there is no channel or one of its sends is not accepted; it
      hands over the last packs from the back, up to a page, and goes back to fetching when none is left. */
  lemma ForwardOutcome(q: Query, env: Env, sizes: Sizes) returns (sent: Query)
    requires CanStep(q, Process(env)) && q.phase == ForwardData
    ensures var n := if sizes.forward < q.toForward then sizes.forward else q.toForward;
            HandsOver(q, if env.channelFails then 0 else Tried(env.sends, n), sent) &&
            Phased(q, env, sizes) ==
              if env.channelFails || Rejected(env.sends, n) then sent.(phase := Error(-3))
              else if q.toForward <= sizes.forward then sent.(phase := FetchData, fetched := [])
              else sent
  {
    if env.channelFails {
      sent := q;
      assert q.sent + Parts(q.fetched[..q.toForward], q.totalSent, 0) == q.sent;
      assert q.deleted + SerialsBack(q.fetched[..q.toForward], 0) == q.deleted;
    } else {
      sent := SendLoop(q, env.sends, sizes.forward).0;
      SendLoopHands(q, env.sends, sizes.forward);
      SendsAccepted(q, env.sends, sizes.forward);
    }
  }

  // ---------- the end of a step ----------

  lemma {:induction false} DropOutcome(q: Query)
    requires q.toForward <= |q.fetched|
    ensures var back := SerialsBack(q.fetched[..q.toForward], q.toForward);
            DropUnsent(q) == q.(toForward := 0, deleted := q.deleted + back, freed := q.freed + back)
    decreases q.toForward
  {
    var back := SerialsBack(q.fetched[..q.toForward], q.toForward);
    if q.toForward == 0 {
      assert q.deleted + back == q.deleted && q.freed + back == q.freed;
    } else {
      var k, serial := q.toForward, q.fetched[q.toForward - 1].serial;
      var less := q.(toForward := k - 1, deleted := q.deleted + [serial], freed := q.freed + [serial]);
      DropOutcome(less);
      assert back == [serial] + SerialsBack(q.fetched[..k - 1], k - 1);
    }
  }

  /** After its phase a query that is over is let go with all unsent packs deleted and freed from the back; one that
      cannot be put back into the queue is let go as it is. */
  lemma StepOutcome(q: Query, env: Env, sizes: Sizes)
    requires CanStep(q, Process(env))
    ensures var r, t := Phased(q, env, sizes), Apply(q, Process(env), sizes);
            r.toForward <= |r.fetched| &&
            var back := SerialsBack(r.fetched[..r.toForward], r.toForward);
            t == if Finishes(r.phase)
                 then r.(toForward := 0, deleted := r.deleted + back, freed := r.freed + back, disposed := true)
                 else r.(disposed := !env.rescheduled)
  {
    SendLoopBounds(q, env.sends, sizes.forward);
    var r := Phased(q, env, sizes);
    PhasedUndisposed(q, env, sizes);
    DropOutcome(r);
  }

  lemma PhasedUndisposed(q: Query, env: Env, sizes: Sizes)
    requires CanStep(q, Process(env))
    ensures var r := Phased(q, env, sizes); r.toForward <= |r.fetched| && !r.disposed && r.freed == q.freed
  {
    SendLoopBounds(q, env.sends, sizes.forward);
    if q.phase == FetchData {
      PageRead(q, env, sizes.limit);
    }
  }

  lemma OtherPhases(q: Query, env: Env, sizes: Sizes)
    requires CanStep(q, Process(env)) && Finishes(q.phase)
    ensures Phased(q, env, sizes) == q
  {
  }

  // ---------- runs ----------

  lemma {:induction false} NothingFreedYet(states: seq<Query>, steps: seq<Step>, sizes: Sizes, k: nat)
    requires IsRun(states, steps, sizes) && k < |states|
    ensures MemInv(states[k]) && (!states[k].disposed ==> states[k].freed == [] && states[k].phase != Ended)
    ensures k < |steps| ==> !states[k].disposed
  {
    RunKeeps(states, steps, sizes, k);
    assert k < |steps| ==> CanStep(states[k], steps[k]);
    if k > 0 {
      NothingFreedYet(states, steps, sizes, k - 1);
      assert CanStep(states[k - 1], steps[k - 1]) && states[k] == Apply(states[k - 1], steps[k - 1], sizes);
      NothingFreedStep(states[k - 1], steps[k - 1], sizes, states[k]);
    }
  }

  lemma NothingFreedStep(q: Query, step: Step, sizes: Sizes, t: Query)
    requires CanStep(q, step) && t == Apply(q, step, sizes) && q.freed == []
    ensures !t.disposed ==> t.freed == [] && t.phase != Ended
  {
    if step.Process? {
      StepOutcome(q, step.env, sizes);
      PhasedUndisposed(q, step.env, sizes);
    }
  }

  /** A step of a run in which a send is not accepted, or which finds no channel, is its last and ends it with -3. */
  lemma RefusalEndsQuery(states: seq<Query>, steps: seq<Step>, sizes: Sizes, k: nat)
    requires IsRun(states, steps, sizes) && k < |steps| && steps[k].Process? && states[k].phase == ForwardData
    requires var n := if sizes.forward < states[k].toForward then sizes.forward else states[k].toForward;
             steps[k].env.channelFails || Rejected(steps[k].env.sends, n)
    ensures states[k + 1].phase == Error(-3) && states[k + 1].disposed && k + 1 == |steps|
  {
    assert CanStep(states[k], steps[k]);
    var sent := ForwardOutcome(states[k], steps[k].env, sizes);
    StepOutcome(states[k], steps[k].env, sizes);
    NothingFreedYet(states, steps, sizes, k + 1);
  }

  /** A query that has ended regularly has handed every pack it ever fetched to the channel, once, and freed none. */
  lemma EndedMeansAllSent(states: seq<Query>, steps: seq<Step>, sizes: Sizes, k: nat)
    requires IsRun(states, steps, sizes) && k < |states| && states[k].phase == Ended
    ensures states[k].freed == [] && states[k].toForward == 0 && |states[k].sent| == states[k].created
    ensures forall serial :: 0 <= serial < states[k].created ==> multiset(Handed(states[k].sent))[serial] == 1
    ensures states[k].disposed && k == |steps|
  {
    var q := states[k];
    assert k > 0;
    var before, step := states[k - 1], steps[k - 1];
    NothingFreedYet(states, steps, sizes, k - 1);
    NothingFreedYet(states, steps, sizes, k);
    assert CanStep(before, step) && q == Apply(before, step, sizes);
    EndingStep(before, step, sizes);
    AllHanded(q);
  }

  lemma EndingStep(q: Query, step: Step, sizes: Sizes)
    requires MemInv(q) && CanStep(q, step) && q.freed == [] && Apply(q, step, sizes).phase == Ended && q.phase != Ended
    ensures var t := Apply(q, step, sizes); t.freed == [] && t.toForward == 0 && t.disposed
  {
    assert step.Process?;
    StepOutcome(q, step.env, sizes);
    match q.phase
    case NeedSearch => SearchOutcome(q, step.env, sizes);
    case FetchData => FetchOutcome(q, step.env, sizes);
    case ForwardData => var sent := ForwardOutcome(q, step.env, sizes);
    case _ =>
  }

  lemma AllHanded(q: Query)
    requires MemInv(q) && q.freed == [] && q.toForward == 0
    ensures |q.sent| == q.created
    ensures forall serial :: 0 <= serial < q.created ==> multiset(Handed(q.sent))[serial] == 1
  {
    assert Serials(q.fetched[..0]) == [];
    assert multiset(Handed(q.sent)) == multiset(Numbers(q.created));
    assert |multiset(Handed(q.sent))| == |multiset(Numbers(q.created))|;
    forall serial | 0 <= serial < q.created ensures multiset(Handed(q.sent))[serial] == 1 {
      NumbersOnce(q.created, serial);
    }
  }
}
