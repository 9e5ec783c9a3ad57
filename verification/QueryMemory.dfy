/** Ownership of fetched packs over every run of a query, with fetch errors, send errors and
    client disconnections at any point. */
module QueryMemory {
  import opened PackIndex
  import opened IndexCursor
  import opened QueryEngine

  function Serials(packs: seq<Pack>): seq<nat>
  {
    seq(|packs|, i requires 0 <= i < |packs| => packs[i].serial)
  }

  /** Buffers the channel has become responsible for. */
  function Handed(sent: seq<Sent>): seq<nat>
  {
    seq(|sent|, i requires 0 <= i < |sent| => sent[i].pack.serial)
  }

  function Numbers(n: nat): seq<nat>
  {
    seq(n, i => i)
  }

  /** Each created pack is waiting to be forwarded or has been deleted, exactly once; each deleted
      pack's buffer was handed over or freed, exactly once and never both. */
  ghost predicate Accounted(waiting: seq<Pack>, q: Query)
  {
    multiset(Serials(waiting)) + multiset(q.deleted) == multiset(Numbers(q.created)) &&
    multiset(Handed(q.sent)) + multiset(q.freed) == multiset(q.deleted)
  }

  ghost predicate MemInv(q: Query)
  {
    q.toForward <= |q.fetched| && Accounted(q.fetched[..q.toForward], q) &&
    (q.phase == NeedSearch || q.phase == FetchData ==> q.fetched == []) &&
    (q.disposed && Over(q.phase) ==> q.toForward == 0)
  }

  lemma SerialsPush(packs: seq<Pack>, p: Pack)
    ensures Serials(packs + [p]) == Serials(packs) + [p.serial]
  {
  }

  lemma NumbersPush(n: nat)
    ensures Numbers(n + 1) == Numbers(n) + [n]
  {
  }

  lemma SendOneKeeps(q: Query)
    requires 0 < q.toForward <= |q.fetched| && Accounted(q.fetched[..q.toForward], q)
    ensures Accounted(SendOne(q).fetched[..SendOne(q).toForward], SendOne(q))
  {
    var k, r := q.toForward, SendOne(q);
    var p := q.fetched[k - 1];
    assert q.fetched[..k] == q.fetched[..k - 1] + [p];
    SerialsPush(q.fetched[..k - 1], p);
    assert Handed(r.sent) == Handed(q.sent) + [p.serial];
  }

  ghost predicate InHand(q: Query) {
    q.toForward <= |q.fetched| && Accounted(q.fetched[..q.toForward], q)
  }

  lemma {:induction false} SendLoopKeeps(q: Query, sends: seq<SendResult>, budget: nat)
    requires InHand(q)
    ensures InHand(SendLoop(q, sends, budget).0)
    decreases budget
  {
    if budget == 0 || q.toForward == 0 {
      assert SendLoop(q, sends, budget).0 == q;
    } else {
      SendOneKeeps(q);
      var r, rest := SendOne(q), if sends == [] then [] else sends[1..];
      if sends == [] || sends[0] == Accepted {
        SendLoopKeeps(r, rest, budget - 1);
        assert SendLoop(q, sends, budget) == SendLoop(r, rest, budget - 1);
      } else {
        assert SendLoop(q, sends, budget).0 == r;
      }
    }
  }

  lemma {:induction false} DropUnsentKeeps(q: Query)
    requires q.toForward <= |q.fetched| && Accounted(q.fetched[..q.toForward], q)
    ensures var r := DropUnsent(q);
            r.toForward == 0 && Accounted(r.fetched[..0], r) && r.phase == q.phase && r.fetched == q.fetched &&
            r.cursor == q.cursor
    decreases q.toForward
  {
    var k := q.toForward;
    if k != 0 {
      var p := q.fetched[k - 1];
      assert q.fetched[..k] == q.fetched[..k - 1] + [p];
      SerialsPush(q.fetched[..k - 1], p);
      DropUnsentKeeps(q.(toForward := k - 1, deleted := q.deleted + [p.serial], freed := q.freed + [p.serial]));
    }
  }

  lemma ReadOneKeeps(q: Query)
    requires q.cursor.returned < |q.cursor.page| && Accounted(q.fetched, q)
    ensures Accounted(ReadOne(q).fetched, ReadOne(q))
  {
    SerialsPush(q.fetched, Pack(q.created, q.cursor.page[q.cursor.returned]));
    NumbersPush(q.created);
  }

  lemma {:induction false} ReadLoopKeeps(q: Query, budget: nat, fails: bool, failsAt: nat)
    requires q.cursor.returned <= |q.cursor.page| && Accounted(q.fetched, q)
    ensures var r := ReadLoop(q, budget, fails, failsAt).0;
            Accounted(r.fetched, r) && r.phase == q.phase && r.disposed == q.disposed
    decreases |q.cursor.page| - q.cursor.returned
  {
    if HasNext(q.cursor) && budget != 0 && !(fails && failsAt == 0) {
      ReadOneKeeps(q);
      ReadLoopKeeps(ReadOne(q), budget - 1, fails, if failsAt == 0 then 0 else failsAt - 1);
    }
  }

  lemma FetchKeeps(q: Query, env: Env, limit: nat)
    requires MemInv(q) && q.phase == FetchData && CanFetch(q, env) && !q.disposed
    ensures MemInv(Fetch(q, env, limit)) && !Fetch(q, env, limit).disposed
  {
    assert q.fetched[..q.toForward] == q.fetched;
    if q.cursor.found != q.cursor.fetched {
      if HasNext(q.cursor) {
        ReadLoopKeeps(q, Budget(limit), env.readFails, env.readFailsAt);
      } else if !env.pageFails {
        ReadLoopKeeps(q.(cursor := NextPage(q.cursor, env.rows)), Budget(limit), env.readFails, env.readFailsAt);
      }
    }
    var r := Fetch(q, env, limit);
    assert r.fetched[..r.toForward] == r.fetched;
  }

  lemma ForwardKeeps(q: Query, env: Env, page: nat)
    requires MemInv(q) && q.phase == ForwardData && !q.disposed
    ensures MemInv(Forward(q, env, page)) && !Forward(q, env, page).disposed
  {
    SendLoopKeeps(q, env.sends, page);
    SendLoopBounds(q, env.sends, page);
    var s := SendLoop(q, env.sends, page).0;
    var r := Forward(q, env, page);
    if r.fetched == [] {
      assert r.fetched[..r.toForward] == [] && (s.toForward == 0 ==> s.fetched[..s.toForward] == []);
    }
  }

  lemma FinishedKeeps(q: Query, rescheduled: bool)
    requires MemInv(q) && !q.disposed
    ensures MemInv(Finished(q, rescheduled))
  {
    if Over(q.phase) {
      DropUnsentKeeps(q);
    }
  }

  lemma StepKeeps(q: Query, step: Step, sizes: Sizes)
    requires MemInv(q) && CanStep(q, step)
    ensures MemInv(Apply(q, step, sizes))
  {
    if step.Process? {
      PhasedKeeps(q, step.env, sizes);
      FinishedKeeps(Phased(q, step.env, sizes), step.env.rescheduled);
    }
  }

  ghost predicate IsRun(states: seq<Query>, steps: seq<Step>, sizes: Sizes)
  {
    |states| == |steps| + 1 &&
    (exists start, end, dimension :: dimension > 0 && states[0] == NewQuery(start, end, dimension)) &&
    forall i {:trigger steps[i]} :: 0 <= i < |steps| ==>
      CanStep(states[i], steps[i]) && states[i + 1] == Apply(states[i], steps[i], sizes)
  }

  lemma {:induction false} RunKeeps(states: seq<Query>, steps: seq<Step>, sizes: Sizes, k: nat)
    requires IsRun(states, steps, sizes) && k < |states|
    ensures MemInv(states[k])
  {
    if k == 0 {
      assert Serials([]) == [] && Handed([]) == [] && Numbers(0) == [];
    } else {
      RunKeeps(states, steps, sizes, k - 1);
      StepKeeps(states[k - 1], steps[k - 1], sizes);
    }
  }

  predicate AllDeleted(q: Query)
  {
    multiset(q.deleted) == multiset(Numbers(q.created))
  }

  lemma NumbersOnce(n: nat, k: nat)
    ensures multiset(Numbers(n))[k] == if k < n then 1 else 0
  {
    if n > 0 {
      NumbersOnce(n - 1, k);
      NumbersPush(n - 1);
    }
  }

  /** The first n sends are accepted; where nothing is said about a send, it is. */
  predicate AllAccepted(sends: seq<SendResult>, n: nat)
  {
    forall i :: 0 <= i < n && i < |sends| ==> sends[i] == Accepted
  }

  /** The step ends with packs waiting and the query cannot be put back into the queue: a fetch has read at
      least one pack without error or disconnection, or a forward step has sent a full page without error
      and more are waiting. */
  predicate LosesPacks(q: Query, step: Step, sizes: Sizes)
    requires CanStep(q, step)
  {
    step.Process? && !step.env.rescheduled &&
    match q.phase
    case FetchData =>
      var rows := Chunk(q, step.env, sizes.limit);
      rows != [] && ReadBefore(rows, step.env) == |rows| && !step.env.disconnects
    case ForwardData =>
      !step.env.channelFails && AllAccepted(step.env.sends, sizes.forward) && q.toForward > sizes.forward
    case _ => false
  }

  /** When the engine lets go of a query, every pack it ever fetched has been deleted exactly once
      and its buffer handed over or freed exactly once, if and only if its last step was not one that
      loses packs. */
  lemma PacksAccountedFor(states: seq<Query>, steps: seq<Step>, sizes: Sizes)
    requires IsRun(states, steps, sizes) && states[|steps|].disposed
    ensures |steps| > 0 && CanStep(states[|steps| - 1], steps[|steps| - 1])
    ensures var q := states[|steps|];
            var loses := LosesPacks(states[|steps| - 1], steps[|steps| - 1], sizes);
            (AllDeleted(q) <==> !loses) &&
            (!loses ==> forall k :: 0 <= k < q.created ==>
               multiset(q.deleted)[k] == 1 && multiset(Handed(q.sent))[k] + multiset(q.freed)[k] == 1)
  {
    var n := |steps|;
    var q := states[n];
    assert n > 0;
    assert CanStep(states[n - 1], steps[n - 1]) && q == Apply(states[n - 1], steps[n - 1], sizes);
    RunKeeps(states, steps, sizes, n - 1);
    RunKeeps(states, steps, sizes, n);
    LeftWaiting(states[n - 1], steps[n - 1], sizes);
    WaitingOrDeleted(q);
    forall k | 0 <= k < q.created ensures multiset(Numbers(q.created))[k] == 1 {
      NumbersOnce(q.created, k);
    }
  }

  /** A step after which the engine lets go of the query leaves packs waiting exactly when it loses them. */
  lemma LeftWaiting(q: Query, step: Step, sizes: Sizes)
    requires MemInv(q) && CanStep(q, step) && Apply(q, step, sizes).disposed
    ensures Apply(q, step, sizes).toForward > 0 <==> LosesPacks(q, step, sizes)
  {
    if step.Process? {
      var r := Phased(q, step.env, sizes);
      PhasedKeeps(q, step.env, sizes);
      if Over(r.phase) { DropUnsentKeeps(r); }
      match q.phase
      case FetchData => FetchLeaves(q, step.env, sizes);
      case ForwardData => ForwardLeaves(q, step.env, sizes);
      case _ =>
    }
  }

  lemma FetchLeaves(q: Query, env: Env, sizes: Sizes)
    requires MemInv(q) && q.phase == FetchData && CanFetch(q, env)
    ensures var r := Fetch(q, env, sizes.limit); var rows := Chunk(q, env, sizes.limit);
            !Over(r.phase) && r.toForward > 0 <==> rows != [] && ReadBefore(rows, env) == |rows| && !env.disconnects
  {
    PageRead(q, env, sizes.limit);
  }

  lemma ForwardLeaves(q: Query, env: Env, sizes: Sizes)
    requires q.phase == ForwardData && q.toForward <= |q.fetched|
    ensures var r := Forward(q, env, sizes.forward);
            !Over(r.phase) && r.toForward > 0 <==>
            !env.channelFails && AllAccepted(env.sends, sizes.forward) && q.toForward > sizes.forward
  {
    SendsAccepted(q, env.sends, sizes.forward);
    SendLoopBounds(q, env.sends, sizes.forward);
  }

  lemma {:induction false} SendsAccepted(q: Query, sends: seq<SendResult>, budget: nat)
    requires q.toForward <= |q.fetched|
    ensures var (r, ok) := SendLoop(q, sends, budget);
            (ok <==> AllAccepted(sends, Min(budget, q.toForward))) &&
            (ok ==> r.toForward == q.toForward - Min(budget, q.toForward))
    decreases budget
  {
    if budget != 0 && q.toForward != 0 {
      var rest := if sends == [] then [] else sends[1..];
      SendsAccepted(SendOne(q), rest, budget - 1);
      assert forall i :: 0 <= i < |rest| ==> rest[i] == sends[i + 1];
      if sends != [] && sends[0] == Accepted {
        var n := Min(budget, q.toForward);
        assert AllAccepted(sends, n) <==> AllAccepted(rest, n - 1) by {
          if AllAccepted(rest, n - 1) {
            forall i | 0 <= i < n && i < |sends| ensures sends[i] == Accepted {
              if i > 0 { assert rest[i - 1] == Accepted; }
            }
          }
        }
      }
    }
  }

  /** A query that is thrown away right after its first fetch: its one pack is never deleted. */
  lemma FailedReschedulingLosesPacks(row: Row) returns (states: seq<Query>, steps: seq<Step>)
    requires row.ts > 0
    ensures IsRun(states, steps, Sizes(100, 50)) && |steps| == 2 && states[2].disposed
    ensures states[2].created == 1 && states[2].deleted == [] && states[2].freed == [] && states[2].sent == []
  {
    var q0, q1, q2 := NewQuery(row.ts, row.ts, 100), FirstSearch(row), FirstFetch(row);
    var calm := OneRowEnv(row);
    OneRow(row);
    FetchesOneRow(row);
    states, steps := [q0, q1, q2], [Process(calm), Process(calm.(rescheduled := false))];
    assert states[0] == NewQuery(row.ts, row.ts, 100);
  }

  function OneRowEnv(row: Row): Env
  {
    Env([row], false, false, false, 0, false, false, [], true)
  }

  /** The query after it has counted its one row. */
  function FirstSearch(row: Row): Query
  {
    NewQuery(row.ts, row.ts, 100).(phase := FetchData, cursor := Cursor(row.ts, row.ts, 1, 0, 100, 1, 0, 0, [], 0))
  }

  function FirstFetch(row: Row): Query
  {
    FirstSearch(row).(phase := ForwardData, cursor := Cursor(row.ts, row.ts, 1, 1, 100, 1, 1, row.ts, [row], 1),
                      fetched := [Pack(0, row)], toForward := 1, created := 1, disposed := true)
  }

  lemma OneRow(row: Row)
    requires row.ts > 0
    ensures Between([row], row.ts, row.ts) == [row] && Search([row], row.ts, 1) == [row]
    ensures CanStep(NewQuery(row.ts, row.ts, 100), Process(OneRowEnv(row)))
    ensures Apply(NewQuery(row.ts, row.ts, 100), Process(OneRowEnv(row)), Sizes(100, 50)) == FirstSearch(row)
  {
    var rows := [row];
    assert rows[1..] == [] && From(rows, row.ts) == rows;
    assert UpTo(rows[1..], row.ts) == [];
    assert UpTo(rows, row.ts) == [row] + UpTo(rows[1..], row.ts);
    assert CeilDiv(1, 100) == 1;
  }

  lemma FetchesOneRow(row: Row)
    requires row.ts > 0 && Search([row], row.ts, 1) == [row]
    ensures var env := OneRowEnv(row).(rescheduled := false);
            CanStep(FirstSearch(row), Process(env)) &&
            Apply(FirstSearch(row), Process(env), Sizes(100, 50)) == FirstFetch(row)
  {
    var q, env := FirstSearch(row), OneRowEnv(row).(rescheduled := false);
    var turned := q.(cursor := NextPage(q.cursor, env.rows));
    assert turned.cursor == Cursor(row.ts, row.ts, 1, 1, 100, 1, 1, row.ts, [row], 0);
    ReadLoopReads(turned, 100, false, 0);
    assert Upcoming(turned.cursor, 100) == [row];
    assert [] + PacksOf(0, [row][..1]) == [Pack(0, row)];
  }

  lemma PhasedKeeps(q: Query, env: Env, sizes: Sizes)
    requires CanStep(q, Process(env)) && MemInv(q)
    ensures MemInv(Phased(q, env, sizes)) && !Phased(q, env, sizes).disposed
  {
    match q.phase
    case FetchData => FetchKeeps(q, env, sizes.limit);
    case ForwardData => ForwardKeeps(q, env, sizes.forward);
    case _ =>
  }

  lemma WaitingOrDeleted(q: Query)
    requires MemInv(q)
    ensures AllDeleted(q) <==> q.toForward == 0
  {
    var waiting := Serials(q.fetched[..q.toForward]);
    assert |multiset(waiting)| == q.toForward;
    assert |multiset(waiting) + multiset(q.deleted)| == |multiset(waiting)| + |multiset(q.deleted)|;
    assert q.toForward == 0 ==> multiset(waiting) == multiset{};
  }
}
