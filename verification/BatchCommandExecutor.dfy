/** The executor's two views of the command states, a deque and a map that share the same
    mutable records, and the loops that trim them. */
module BatchCommandExecutor {
  import opened CommandTypes
  import opened Sequences
  import Spec = CommandStates

  class CommandState {
    const commandId: nat
    var lastEvent: Event

    constructor (id: nat)
      ensures commandId == id && lastEvent == Queued
    {
      commandId, lastEvent := id, Queued;
    }
  }

  ghost function Entries(q: seq<CommandState>): (d: seq<Spec.Entry>)
    reads q
    ensures |d| == |q|
    ensures forall i :: 0 <= i < |q| ==> d[i] == Spec.Entry(q[i].commandId, q[i].lastEvent)
  {
    seq(|q|, i requires 0 <= i < |q| reads q => Spec.Entry(q[i].commandId, q[i].lastEvent))
  }

  class Executor {
    var commandStateQueue: seq<CommandState>
    var fastAccessMap: map<nat, CommandState>
    const maxSize: nat

    /** The map holds exactly the records of the deque, under their own ids. */
    ghost predicate Valid()
      reads this
    {
      Distinct(commandStateQueue) && Mirrors(fastAccessMap, commandStateQueue)
    }

    static ghost predicate Mirrors(m: map<nat, CommandState>, q: seq<CommandState>)
    {
      (forall i :: 0 <= i < |q| ==> q[i].commandId in m && m[q[i].commandId] == q[i]) &&
      (forall id :: id in m ==> m[id].commandId == id && m[id] in q)
    }

    ghost function Abs(): seq<Spec.Entry>
      reads this, commandStateQueue
    {
      Entries(commandStateQueue)
    }

    constructor (max: nat)
      ensures Valid() && Abs() == [] && maxSize == max
    {
      commandStateQueue, fastAccessMap, maxSize := [], map[], max;
    }

    method GetCommandState(id: nat) returns (r: Option<CommandState>)
      requires Valid()
      ensures r.None? ==> id !in Spec.Ids(Abs())
      ensures r.Some? ==> r.value in commandStateQueue && r.value.commandId == id &&
                          Spec.Remembers(Abs(), id, r.value.lastEvent)
    {
      if id in fastAccessMap {
        r := Some(fastAccessMap[id]);
        var i :| 0 <= i < |commandStateQueue| && commandStateQueue[i] == r.value;
        assert Abs()[i] == Spec.Entry(id, r.value.lastEvent);
      } else {
        r := None;
      }
    }

    /** A second QUEUED for an id still remembered would leave two records in the deque, the map showing the
        first; ids of one epoch are never reused, so it does not happen in a running system. */
    method HandleCommandEvent(id: nat, event: Event)
      requires Valid()
      modifies this, commandStateQueue
      ensures Abs() == Spec.Handle(old(Abs()), id, event)
      ensures Valid() <==> !(event == Queued && id in Spec.Ids(old(Abs())))
      ensures forall c :: c in commandStateQueue ==> c in old(commandStateQueue) || fresh(c)
    {
      if event == Queued {
        AddCommandState(id);
      } else {
        var state := GetCommandState(id);
        if state.Some? {
          state.value.lastEvent := event;
        }
        SameHandled(old(Abs()), id, event, state.Some?);
        assert Abs() == Spec.Handle(old(Abs()), id, event);
      }
    }

    /** An event for a forgotten command changes nothing. */
    static lemma SameHandled(d: seq<Spec.Entry>, id: nat, event: Event, present: bool)
      requires event != Queued && (!present ==> id !in Spec.Ids(d))
      ensures !present ==> Spec.Handle(d, id, event) == d
    {
      if !present {
        assert forall i :: 0 <= i < |d| ==> d[i] in d && d[i].id in Spec.Ids(d);
      }
    }

    static lemma Among(q: seq<CommandState>, id: nat)
      ensures id in Spec.Ids(Entries(q)) <==> exists i :: 0 <= i < |q| && q[i].commandId == id
    {
      var d := Entries(q);
      forall i | 0 <= i < |q| ensures q[i].commandId in Spec.Ids(d) {
        assert d[i] in d;
      }
      if id in Spec.Ids(d) {
        var i :| 0 <= i < |d| && d[i].id == id;
        assert q[i].commandId == id;
      }
    }

    /** The map finds an id exactly when the deque has it. */
    static lemma MappedAmong(q: seq<CommandState>, m: map<nat, CommandState>, id: nat)
      requires Mirrors(m, q)
      ensures id in m <==> id in Spec.Ids(Entries(q))
    {
      Among(q, id);
      if id in m {
        var i :| 0 <= i < |q| && q[i] == m[id];
      }
    }

    static lemma Added(q: seq<CommandState>, m: map<nat, CommandState>, state: CommandState)
      requires Distinct(q) && Mirrors(m, q)
      ensures state.commandId in m ==> !Distinct(q + [state])
      ensures state.commandId !in m ==>
                Distinct(q + [state]) && Mirrors(m[state.commandId := state], q + [state])
    {
      var r := q + [state];
      assert r[|q|] == state;
      if state.commandId in m {
        var i :| 0 <= i < |q| && q[i] == m[state.commandId];
        assert r[i].commandId == r[|q|].commandId;
      } else {
        forall i | 0 <= i < |q| ensures q[i].commandId != state.commandId { assert q[i].commandId in m; }
        forall id | id in m ensures m[id] in r { assert m[id] in q; }
      }
    }

    method AddCommandState(id: nat)
      requires Valid()
      modifies this
      ensures Abs() == old(Abs()) + [Spec.Entry(id, Queued)]
      ensures Valid() <==> id !in Spec.Ids(old(Abs()))
      ensures id in Spec.Ids(old(Abs())) ==> fastAccessMap == old(fastAccessMap)
      ensures forall c :: c in commandStateQueue ==> c in old(commandStateQueue) || fresh(c)
    {
      MappedAmong(commandStateQueue, fastAccessMap, id);
      var state := new CommandState(id);
      Added(commandStateQueue, fastAccessMap, state);
      commandStateQueue := commandStateQueue + [state];
      if id !in fastAccessMap {
        fastAccessMap := fastAccessMap[id := state];
      }
    }

    method FlushCommandStates()
      requires Valid()
      modifies this
      ensures Valid() && Abs() == Spec.Flush(old(Abs()))
      ensures commandStateQueue <= old(commandStateQueue)
    {
      var left, remaining := PopBack(commandStateQueue, fastAccessMap);
      commandStateQueue, fastAccessMap := left, remaining;
      assert Abs() == Entries(left);
    }

    /** Terminated records are taken off the back until a live one is met. */
    static method PopBack(q: seq<CommandState>, m: map<nat, CommandState>)
        returns (left: seq<CommandState>, remaining: map<nat, CommandState>)
      requires Mirrors(m, q) && Distinct(q)
      ensures left <= q && Entries(left) == Spec.Flush(Entries(q)) && Mirrors(remaining, left) && Distinct(left)
    {
      left, remaining := q, m;
      while left != []
        invariant FlushInv(q, left, remaining)
        decreases |left|
      {
        var state := left[|left| - 1];
        if !Terminal(state.lastEvent) { break; }
        FlushInvStep(q, left, remaining);
        remaining := remaining - {state.commandId};
        left := left[..|left| - 1];
      }
    }

    static ghost predicate FlushInv(q: seq<CommandState>, left: seq<CommandState>, m: map<nat, CommandState>)
      reads q, left
    {
      left <= q && Distinct(left) && Mirrors(m, left) && Spec.Flush(Entries(left)) == Spec.Flush(Entries(q))
    }

    static lemma FlushInvStep(q: seq<CommandState>, left: seq<CommandState>, m: map<nat, CommandState>)
      requires FlushInv(q, left, m) && left != [] && Terminal(left[|left| - 1].lastEvent)
      ensures FlushInv(q, left[..|left| - 1], m - {left[|left| - 1].commandId})
    {
      var n := |left|;
      MirrorsWithoutLast(m, left);
      assert Entries(left[..n - 1]) == Entries(left)[..n - 1];
    }

    static lemma MirrorsWithoutLast(m: map<nat, CommandState>, q: seq<CommandState>)
      requires q != [] && Mirrors(m, q) && Distinct(q)
      ensures Mirrors(m - {q[|q| - 1].commandId}, q[..|q| - 1]) && Distinct(q[..|q| - 1])
    {
      var front, state := q[..|q| - 1], q[|q| - 1];
      assert q == front + ([state] + []) && front + [] == front;
      MirrorsWithout(m, front, state, []);
    }

    /** Trim the deque to `maxSize`, as far as terminated commands allow. */
    method CapCommandQueue()
      requires Valid()
      modifies this
      ensures Valid() && Abs() == Spec.Cap(old(Abs()), maxSize)
    {
      if |commandStateQueue| <= maxSize { return; }
      var queue, remaining := Trim(commandStateQueue, fastAccessMap, maxSize);
      commandStateQueue, fastAccessMap := queue, remaining;
      assert Abs() == Entries(queue);
    }

    /** Pop, then put the live ones back in front. */
    static method Trim(q: seq<CommandState>, m: map<nat, CommandState>, max: nat)
        returns (queue: seq<CommandState>, remaining: map<nat, CommandState>)
      requires |q| > max && Mirrors(m, q) && Distinct(q)
      ensures Entries(queue) == Spec.Cap(Entries(q), max) && Distinct(queue) && Mirrors(remaining, queue)
    {
      var kept, rest;
      kept, rest, remaining := PopTerminated(q, m, max);
      queue := Reinsert(kept, rest);
      Capped(q, kept, rest, remaining, max);
    }

    static lemma Capped(q: seq<CommandState>, kept: seq<CommandState>, rest: seq<CommandState>,
                        m: map<nat, CommandState>, max: nat)
      requires |q| > max && Distinct(q) && Mirrors(m, kept + rest)
      requires var k := Spec.PoppedFor(Entries(q), |q| - max);
               rest == q[k..] && Entries(kept) == Spec.Live(Entries(q)[..k])
      ensures var queue := Reversed(kept) + rest;
              Entries(queue) == Spec.Cap(Entries(q), max) && Distinct(queue) && Mirrors(m, queue)
    {
      var d := Entries(q);
      assert Entries(rest) == d[Spec.PoppedFor(d, |d| - max)..];
      Reassembled(d, kept, rest, max);
      CapValid(d, kept, rest, max);
      MirrorsReordered(m, kept + rest, Reversed(kept) + rest);
    }

    /** Live records go back to the front, one by one. */
    static method Reinsert(kept: seq<CommandState>, rest: seq<CommandState>) returns (queue: seq<CommandState>)
      ensures queue == Reversed(kept) + rest
    {
      queue := rest;
      var i := 0;
      while i < |kept|
        invariant 0 <= i <= |kept| && queue == Reversed(kept[..i]) + rest
      {
        ReversedPush(kept, i);
        queue := [kept[i]] + queue;
        i := i + 1;
      }
      assert kept[..i] == kept;
    }

    /** The popping loop: terminated records leave the map, live ones are put aside. The counter
        `idx` is unsigned in the program; it runs below zero only when the deque is empty. */
    static method PopTerminated(q: seq<CommandState>, m: map<nat, CommandState>, max: nat)
        returns (kept: seq<CommandState>, rest: seq<CommandState>, remaining: map<nat, CommandState>)
      requires |q| > max && Mirrors(m, q) && Distinct(q)
      ensures var k := Spec.PoppedFor(Entries(q), |q| - max);
              rest == q[k..] && Entries(kept) == Spec.Live(Entries(q)[..k])
      ensures Mirrors(remaining, kept + rest)
    {
      kept, rest, remaining := [], q, m;
      ghost var n, wanted := 0, |q| - max;
      var idx: int := |q| - 1;
      assert kept + rest == q && Entries(q)[0..] == Entries(q);
      while idx >= max || idx < 0
        invariant PopInv(q, kept, rest, remaining, n, wanted) && idx == |q| - 1 - (n - |kept|)
        decreases |rest|
      {
        if rest == [] { break; }
        var state := rest[0];
        PopInvStep(q, kept, rest, remaining, n, wanted);
        rest := rest[1..];
        if !Terminal(state.lastEvent) {
          kept := kept + [state];
        } else {
          remaining := remaining - {state.commandId};
          idx := idx - 1;
        }
        n := n + 1;
      }
      Popped(q, kept, rest, remaining, n, wanted);
    }

    static ghost predicate PopInv(q: seq<CommandState>, kept: seq<CommandState>, rest: seq<CommandState>,
                                  m: map<nat, CommandState>, n: nat, wanted: nat)
      reads q, kept
    {
      n <= |q| && rest == q[n..] && Popping(Entries(q), Entries(kept), n, wanted) &&
      Mirrors(m, kept + rest) && Apart(kept, rest) && Distinct(q)
    }

    static lemma PopInvStep(q: seq<CommandState>, kept: seq<CommandState>, rest: seq<CommandState>,
                            m: map<nat, CommandState>, n: nat, wanted: nat)
      requires PopInv(q, kept, rest, m, n, wanted) && rest != [] && n - |kept| < wanted
      ensures if Terminal(rest[0].lastEvent) then PopInv(q, kept, rest[1..], m - {rest[0].commandId}, n + 1, wanted)
              else PopInv(q, kept + [rest[0]], rest[1..], m, n + 1, wanted)
    {
      var state := rest[0];
      assert rest == [state] + rest[1..];
      PopStep(Entries(q), Entries(kept), n, wanted);
      Split(kept, state, rest[1..], m);
      assert Entries(kept + [state]) == Entries(kept) + [Entries(q)[n]];
    }

    static lemma Popped(q: seq<CommandState>, kept: seq<CommandState>, rest: seq<CommandState>,
                        m: map<nat, CommandState>, n: nat, wanted: nat)
      requires PopInv(q, kept, rest, m, n, wanted) && (rest == [] || n - |kept| == wanted)
      ensures Spec.PoppedFor(Entries(q), wanted) == n
    {
      assert rest == [] ==> Entries(q)[n..] == [];
    }

    static ghost predicate Distinct(q: seq<CommandState>)
    {
      forall i, j :: 0 <= i < j < |q| ==> q[i].commandId != q[j].commandId
    }

    static ghost predicate Apart(p: seq<CommandState>, q: seq<CommandState>)
    {
      forall i, j :: 0 <= i < |p| && 0 <= j < |q| ==> p[i].commandId != q[j].commandId
    }

    /** `n` entries popped so far, `kept` of them put aside. */
    static ghost predicate Popping(d: seq<Spec.Entry>, kept: seq<Spec.Entry>, n: nat, wanted: nat)
    {
      n <= |d| && |kept| <= n && kept == Spec.Live(d[..n]) && n - |kept| <= wanted &&
      Spec.PoppedFor(d, wanted) == n + Spec.PoppedFor(d[n..], wanted - (n - |kept|))
    }

    static lemma Split(kept: seq<CommandState>, state: CommandState, rest: seq<CommandState>, m: map<nat, CommandState>)
      requires Mirrors(m, kept + ([state] + rest)) && Apart(kept, [state] + rest) && Distinct([state] + rest)
      ensures Mirrors(m, (kept + [state]) + rest) && Apart(kept + [state], rest)
      ensures Mirrors(m - {state.commandId}, kept + rest) && Apart(kept, rest)
    {
      var q := [state] + rest;
      assert kept + q == (kept + [state]) + rest;
      assert q[0] == state && forall j :: 0 <= j < |rest| ==> q[j + 1] == rest[j];
      assert state !in kept && state !in rest;
      MirrorsWithout(m, kept, state, rest);
    }

    static lemma MirrorsReordered(m: map<nat, CommandState>, q: seq<CommandState>, r: seq<CommandState>)
      requires Mirrors(m, q) && forall c :: c in r <==> c in q
      ensures Mirrors(m, r)
    {
      assert forall i :: 0 <= i < |r| ==> r[i] in q;
    }

    static lemma PopStep(d: seq<Spec.Entry>, kept: seq<Spec.Entry>, n: nat, wanted: nat)
      requires Popping(d, kept, n, wanted) && n < |d| && n - |kept| < wanted
      ensures if Terminal(d[n].last) then Popping(d, kept, n + 1, wanted) else Popping(d, kept + [d[n]], n + 1, wanted)
    {
      assert d[n..][1..] == d[n + 1..];
      assert d[..n + 1] == d[..n] + [d[n]];
      LiveAppend(d[..n], d[n]);
    }

    static lemma {:induction false} LiveAppend(d: seq<Spec.Entry>, e: Spec.Entry)
      ensures Spec.Live(d + [e]) == Spec.Live(d) + if Terminal(e.last) then [] else [e]
    {
      if d != [] {
        assert (d + [e])[1..] == d[1..] + [e];
        LiveAppend(d[1..], e);
      }
    }

    static lemma MirrorsWithout(m: map<nat, CommandState>, kept: seq<CommandState>, state: CommandState,
                                rest: seq<CommandState>)
      requires Mirrors(m, kept + ([state] + rest)) && state !in kept && state !in rest
      ensures Mirrors(m - {state.commandId}, kept + rest)
    {
      var q, r := kept + ([state] + rest), kept + rest;
      assert q[|kept|] == state;
      forall i | 0 <= i < |r|
        ensures r[i].commandId in m && m[r[i].commandId] == r[i] && r[i].commandId != state.commandId
      {
        assert r[i] == q[if i < |kept| then i else i + 1];
      }
    }

    static lemma ReversedPush(kept: seq<CommandState>, i: nat)
      requires i < |kept|
      ensures Reversed(kept[..i + 1]) == [kept[i]] + Reversed(kept[..i])
    {
      ReversedFacts(kept[..i + 1]);
      ReversedFacts(kept[..i]);
    }

    static lemma Reassembled(d: seq<Spec.Entry>, kept: seq<CommandState>, rest: seq<CommandState>, max: nat)
      requires |d| > max
      requires Entries(kept) == Spec.Live(d[..Spec.PoppedFor(d, |d| - max)])
      requires Entries(rest) == d[Spec.PoppedFor(d, |d| - max)..]
      ensures Entries(Reversed(kept) + rest) == Spec.Cap(d, max)
    {
      EntriesReversed(kept);
      assert Entries(Reversed(kept) + rest) == Entries(Reversed(kept)) + Entries(rest);
    }

    static lemma EntriesReversed(q: seq<CommandState>)
      ensures Entries(Reversed(q)) == Reversed(Entries(q))
    {
      ReversedFacts(q);
      ReversedFacts(Entries(q));
    }

    static lemma CapValid(d: seq<Spec.Entry>, kept: seq<CommandState>, rest: seq<CommandState>, max: nat)
      requires Spec.Unique(d) && Entries(Reversed(kept) + rest) == Spec.Cap(d, max)
      ensures var q := Reversed(kept) + rest;
              Distinct(q) && (forall c :: c in q <==> c in kept || c in rest)
    {
      Spec.CapKeepsLive(d, max);
      ReversedFacts(kept);
      var q := Reversed(kept) + rest;
      assert forall i :: 0 <= i < |q| ==> Entries(q)[i].id == q[i].commandId;
    }
  }
}
