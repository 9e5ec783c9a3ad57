/** What each step of a sandbox does to all of its state, in terms of the commands' own fields. */
module SandboxEffects {
  import opened CommandTypes
  import opened CommandLife
  import opened Sandbox
  import opened SandboxInvariant
  import opened SandboxRuns

  // ---------- the set handler ----------

  predicate EntersSetHandler(c: BatchCommand) {
    c.handlers.setup && !c.alreadySetUp
  }

  /** The call of the set handler, if it is entered. */
  function SetCall(c: BatchCommand, id: nat): seq<Occurrence> {
    if EntersSetHandler(c) then [Occurrence(id, Called(SetHandler, c.rp))] else []
  }

  /** The command afterwards: the property the handler leaves, or faulted if it throws. */
  function AfterSetHandler(c: BatchCommand, outcome: SetOutcome): BatchCommand {
    if !EntersSetHandler(c) then c
    else if outcome.Throws? then c.(rp := Faulted)
    else c.(rp := outcome.rp, alreadySetUp := true)
  }

  /** It has something to schedule, and its set handler does not throw. */
  predicate Runs(c: BatchCommand, outcome: SetOutcome) {
    (c.handlers.acquire || c.handlers.correlation) && !(EntersSetHandler(c) && outcome.Throws?)
  }

  function Told(id: nat, e: Event): seq<Occurrence> {
    [Occurrence(id, Fired(e))]
  }

  /** A functor after `next` has been installed: it serves `next` where that implements the handler. */
  function Serving(implemented: bool, next: nat, before: Option<nat>): Option<nat> {
    if implemented then Some(next) else before
  }

  /** A functor that no longer refers to `cur`. */
  function Cleared(before: Option<nat>, cur: nat): Option<nat> {
    if before == Some(cur) then None else before
  }

  // ---------- submission and kill ----------

  lemma EnqueueOutcome(s: State, id: nat, c: BatchCommand, t: State)
    requires Steps(s, Enqueue(id, c), t)
    ensures !Known(s, id)
    ensures t == s.(queue := s.queue + {id}, heap := s.heap[id := c], log := s.log + Told(id, Queued))
  {
  }

  lemma KillOutcome(s: State, t: State)
    requires Steps(s, Step.KillCurrent, t)
    ensures s.current.None? ==> t == s
    ensures s.current.Some? ==>
              var cur := s.current.value; cur in s.heap && t == s.(heap := s.heap[cur := s.heap[cur].(rp := End)])
  {
  }

  /** A killed command makes no more calls and leaves with COMPLETED at the next check, whatever is queued, unless
      the submission that is to replace it cannot be installed. */
  lemma KilledLeaves(s: State, t: State, next: nat, outcome: SetOutcome, u: State)
    requires Steps(s, Step.KillCurrent, t) && Steps(t, Check(next, outcome), u) && s.current.Some?
    requires t.queue != {} ==> next in t.heap && Runs(t.heap[next], outcome)
    ensures u.current != s.current && s.current.value in u.disposed &&
            Told(s.current.value, Completed) <= u.log[|u.log| - 1..]
  {
    KillOutcome(s, t);
    assert Placed(t, s.current.value);
    if t.queue != {} {
      ReplaceOutcome(t, next, outcome, u);
    } else if t.stack != [] {
      ResumeOutcome(t, next, outcome, u);
    } else {
      FinishOutcome(t, next, outcome, u);
    }
  }

  // ---------- the checker, something submitted ----------

  /** The checker looks at a submission of highest priority. */
  lemma HighestPriorityFirst(s: State, next: nat, outcome: SetOutcome, t: State)
    requires Steps(s, Check(next, outcome), t) && s.queue != {}
    ensures next in s.queue && forall id :: id in s.queue ==>
              id in s.heap && next in s.heap && s.heap[id].priority <= s.heap[next].priority
    ensures forall id :: id in s.queue && id != next ==> id in t.queue && id in t.heap && t.heap[id] == s.heap[id]
  {
    assert Placed(s, next);
    forall id | id in s.queue && id != next ensures id in t.queue && id in t.heap && t.heap[id] == s.heap[id] {
      assert Placed(s, id);
      OthersKept(s, next, outcome, t, id);
    }
  }

  lemma OthersKept(s: State, next: nat, outcome: SetOutcome, t: State, id: nat)
    requires Steps(s, Check(next, outcome), t) && s.queue != {} && id in s.queue && id != next
    ensures id in t.queue && id in t.heap && t.heap[id] == s.heap[id]
  {
    assert Placed(s, next) && Placed(s, id);
    assert s.current.Some? ==> Placed(s, s.current.value);
    var c := s.heap[next];
    if s.current.None? {
      IdleOutcome(s, next, outcome, t);
    } else if !c.handlers.acquire && !c.handlers.correlation {
      SetOnlyOutcome(s, next, outcome, t);
    } else if Waits(s.heap[s.current.value], c) {
      WaitOutcome(s, next, outcome, t);
    } else if Replaced(s.heap[s.current.value], c) {
      ReplaceOutcome(s, next, outcome, t);
    } else {
      StackOutcome(s, next, outcome, t);
    }
  }

  lemma IdleOutcome(s: State, next: nat, outcome: SetOutcome, t: State)
    requires Steps(s, Check(next, outcome), t) && s.queue != {} && s.current.None?
    ensures next in s.heap
    ensures var c := s.heap[next];
            t == if Runs(c, outcome)
                 then s.(queue := s.queue - {next}, heap := s.heap[next := AfterSetHandler(c, outcome)],
                         current := Some(next),
                         acquire := Serving(c.handlers.acquire, next, s.acquire),
                         correlation := Serving(c.handlers.correlation, next, s.correlation),
                         log := s.log + SetCall(c, next) + Told(next, Running))
                 else s.(queue := s.queue - {next}, heap := s.heap[next := AfterSetHandler(c, outcome)],
                         dropped := s.dropped + {next}, log := s.log + SetCall(c, next))
  {
    assert s.heap[next := s.heap[next]] == s.heap;
  }

  lemma SetOnlyOutcome(s: State, next: nat, outcome: SetOutcome, t: State)
    requires Steps(s, Check(next, outcome), t) && s.queue != {} && s.current.Some?
    requires next in s.heap && !s.heap[next].handlers.acquire && !s.heap[next].handlers.correlation
    ensures var c := s.heap[next];
            t == s.(queue := s.queue - {next}, heap := s.heap - {next}, disposed := s.disposed + {next},
                    log := s.log + SetCall(c, next)
                           + Told(next, if AfterSetHandler(c, outcome).rp == Faulted then Fault else Completed))
  {
    var c := s.heap[next];
    assert s.heap[next := AfterSetHandler(c, outcome)] - {next} == s.heap - {next};
  }

  /** The current command keeps the submission waiting. */
  predicate Waits(cur: BatchCommand, c: BatchCommand) {
    cur.rp == Exclusive || (cur.rp == Normal && c.rule == SubmitNormal)
  }

  lemma WaitOutcome(s: State, next: nat, outcome: SetOutcome, t: State)
    requires Steps(s, Check(next, outcome), t) && s.queue != {} && s.current.Some? && next in s.heap
    requires s.current.value in s.heap && Waits(s.heap[s.current.value], s.heap[next])
    requires s.heap[next].handlers.acquire || s.heap[next].handlers.correlation
    ensures t == s
  {
  }

  /** A submission whose set handler throws is told FAULT and deleted. */
  function Thrown(s: State, next: nat): State
    requires next in s.heap
  {
    s.(queue := s.queue - {next}, heap := s.heap - {next}, disposed := s.disposed + {next},
       log := s.log + SetCall(s.heap[next], next) + Told(next, Fault))
  }

  lemma StackOutcome(s: State, next: nat, outcome: SetOutcome, t: State)
    requires Steps(s, Check(next, outcome), t) && s.queue != {} && s.current.Some? && next in s.heap
    requires s.current.value in s.heap && s.heap[s.current.value].rp == Normal && s.heap[next].rule == SubmitStack
    requires s.heap[next].handlers.acquire || s.heap[next].handlers.correlation
    ensures var c, cur := s.heap[next], s.current.value;
            t == if Runs(c, outcome)
                 then s.(queue := s.queue - {next}, heap := s.heap[next := AfterSetHandler(c, outcome)],
                         stack := s.stack + [cur], current := Some(next),
                         acquire := Serving(c.handlers.acquire, next, s.acquire),
                         correlation := Serving(c.handlers.correlation, next, s.correlation),
                         log := s.log + SetCall(c, next) + Told(next, Running) + Told(cur, Paused))
                 else Thrown(s, next)
  {
    var c := s.heap[next];
    assert s.heap[next := s.heap[next]] == s.heap;
    assert s.heap[next := AfterSetHandler(c, outcome)] - {next} == s.heap - {next};
  }

  /** Why a current command is replaced by a submission. */
  function Farewells(cur: BatchCommand): Event {
    if cur.rp == Normal then Killed else if cur.rp == End then Completed else Fault
  }

  predicate Replaced(cur: BatchCommand, c: BatchCommand) {
    cur.rp == End || cur.rp == Faulted || (cur.rp == Normal && c.rule == SubmitKill)
  }

  lemma ReplaceOutcome(s: State, next: nat, outcome: SetOutcome, t: State)
    requires Steps(s, Check(next, outcome), t) && s.queue != {} && s.current.Some? && next in s.heap
    requires s.current.value in s.heap && Replaced(s.heap[s.current.value], s.heap[next])
    requires s.heap[next].handlers.acquire || s.heap[next].handlers.correlation
    ensures next != s.current.value
    ensures var c, cur := s.heap[next], s.current.value;
            t == if Runs(c, outcome) then TakenOver(s, cur, next, outcome, Farewells(s.heap[cur]))
                 else Thrown(s, next).(log := Thrown(s, next).log + Told(cur, Running))
  {
    var c, cur := s.heap[next], s.current.value;
    assert next != cur && next in s.queue by { assert Placed(s, next); }
    assert t == CheckReplace(s, next, outcome, Farewells(s.heap[cur]));
    if Runs(c, outcome) {
      ReplacedOutcome(s, next, outcome, Farewells(s.heap[cur]));
    } else {
      RefusedOutcome(s, next, outcome, Farewells(s.heap[cur]));
    }
  }

  /** `next` runs in the place of `cur`, which has been told its last event and deleted. */
  function TakenOver(s: State, cur: nat, next: nat, outcome: SetOutcome, farewell: Event): State
    requires cur in s.heap && next in s.heap
  {
    var c := s.heap[next];
    s.(queue := s.queue - {next}, heap := s.heap[next := AfterSetHandler(c, outcome)] - {cur},
       current := Some(next), disposed := s.disposed + {cur},
       acquire := Serving(c.handlers.acquire, next, Cleared(s.acquire, cur)),
       correlation := Serving(c.handlers.correlation, next, Cleared(s.correlation, cur)),
       log := s.log + SetCall(c, next) + Told(next, Running) + Told(cur, farewell))
  }

  lemma ReplacedOutcome(s: State, next: nat, outcome: SetOutcome, farewell: Event)
    requires FunctorsSafe(s) && s.current.Some? && s.current.value in s.heap && next in s.heap
    requires next != s.current.value && Runs(s.heap[next], outcome)
    ensures CheckReplace(s, next, outcome, farewell) == TakenOver(s, s.current.value, next, outcome, farewell)
  {
    var cur := s.current.value;
    assert s.heap[next := s.heap[next]] == s.heap;
    ClearedByRemove(s, cur);
  }

  lemma RefusedOutcome(s: State, next: nat, outcome: SetOutcome, farewell: Event)
    requires Inv(s) && s.current.Some? && s.current.value in s.heap && next in s.queue && next in s.heap
    requires next != s.current.value && !Runs(s.heap[next], outcome)
    requires s.heap[next].handlers.acquire || s.heap[next].handlers.correlation
    ensures CheckReplace(s, next, outcome, farewell)
            == Thrown(s, next).(log := Thrown(s, next).log + Told(s.current.value, Running))
  {
    var c := s.heap[next];
    ReplaceFailureKeeps(s, next, outcome, farewell);
    assert s.heap[next := AfterSetHandler(c, outcome)] - {next} == s.heap - {next};
  }

  /** A functor that refers to the current command serves a handler it implements. */
  lemma ClearedByRemove(s: State, cur: nat)
    requires FunctorsSafe(s) && cur in s.heap
    ensures Remove(s, cur).acquire == Cleared(s.acquire, cur) &&
            Remove(s, cur).correlation == Cleared(s.correlation, cur)
  {
  }

  // ---------- the checker, nothing submitted ----------

  function LeavesWith(cur: BatchCommand): Event {
    if cur.rp == Faulted then Fault else Completed
  }

  lemma NothingToDo(s: State, next: nat, outcome: SetOutcome, t: State)
    requires Steps(s, Check(next, outcome), t) && s.queue == {}
    requires s.current.None? || (s.current.value in s.heap && s.heap[s.current.value].rp in {Exclusive, Normal})
    ensures t == s
  {
  }

  lemma FinishOutcome(s: State, next: nat, outcome: SetOutcome, t: State)
    requires Steps(s, Check(next, outcome), t) && s.queue == {} && s.current.Some? && s.stack == []
    requires s.current.value in s.heap && s.heap[s.current.value].rp in {End, Faulted}
    ensures var cur := s.current.value;
            t == s.(current := None, acquire := None, correlation := None, heap := s.heap - {cur},
                    disposed := s.disposed + {cur}, log := s.log + Told(cur, LeavesWith(s.heap[cur])))
  {
  }

  lemma ResumeOutcome(s: State, next: nat, outcome: SetOutcome, t: State)
    requires Steps(s, Check(next, outcome), t) && s.queue == {} && s.current.Some? && s.stack != []
    requires s.current.value in s.heap && s.heap[s.current.value].rp in {End, Faulted}
    ensures var cur, top := s.current.value, s.stack[|s.stack| - 1];
            top in s.heap &&
            t == s.(current := Some(top), stack := s.stack[..|s.stack| - 1], heap := s.heap - {cur},
                    acquire := Serving(s.heap[top].handlers.acquire, top, Cleared(s.acquire, cur)),
                    correlation := Serving(s.heap[top].handlers.correlation, top, Cleared(s.correlation, cur)),
                    disposed := s.disposed + {cur},
                    log := s.log + Told(top, Running) + Told(cur, LeavesWith(s.heap[cur])))
  {
    var cur, top := s.current.value, s.stack[|s.stack| - 1];
    assert top in s.stack;
    assert Placed(s, top) && Placed(s, cur);
    ClearedByRemove(s, cur);
  }

  // ---------- the scheduler ----------

  /** A call of the handler, if there is a target that has neither ended nor faulted. */
  function CallOn(target: Option<nat>, h: Handler, rp: RunningProperty): seq<Occurrence> {
    if target.Some? && rp in {Exclusive, Normal} then [Occurrence(target.value, Called(h, rp))] else []
  }

  function PropertyOf(s: State, target: Option<nat>): RunningProperty {
    if target.Some? && target.value in s.heap then s.heap[target.value].rp else End
  }

  /** The property of a command after the acquire handler may have changed it. */
  function AfterAcquire(s: State, id: Option<nat>, acquired: RunningProperty): RunningProperty {
    if id == s.acquire && PropertyOf(s, id) in {Exclusive, Normal} then acquired else PropertyOf(s, id)
  }

  /** One step of the scheduler: first the acquire functor, then the correlation functor, each called exactly when
      its target has neither ended nor faulted at that time; then the current command's own last word. */
  lemma RunOutcome(s: State, a: RunningProperty, c: RunningProperty, p: Option<RunningProperty>, t: State)
    requires Steps(s, Run(a, c, p), t)
    ensures s.current.None? ==> t == s
    ensures s.current.Some? ==>
              t.log == s.log + CallOn(s.acquire, AcquireHandler, PropertyOf(s, s.acquire))
                       + CallOn(s.correlation, CorrelationHandler, AfterAcquire(s, s.correlation, a))
    ensures t == s.(heap := t.heap, log := t.log) && t.heap.Keys == s.heap.Keys
    ensures s.current.Some? ==> forall id :: id in s.heap ==> t.heap[id] == s.heap[id].(rp := AfterRun(s, id, a, c, p))
  {
    if s.current.Some? {
      InvReferenced(s);
      FunctorsOutcome(s, a, c, CallFunctors(s, a, c));
    }
  }

  predicate Followed(s: State) {
    (s.acquire.Some? ==> s.acquire.value in s.heap) && (s.correlation.Some? ==> s.correlation.value in s.heap)
  }

  lemma FunctorsOutcome(s: State, a: RunningProperty, c: RunningProperty, t: State)
    requires Followed(s) && t == CallFunctors(s, a, c)
    ensures t == s.(heap := t.heap, log := t.log) && t.heap.Keys == s.heap.Keys
    ensures t.log == s.log + CallOn(s.acquire, AcquireHandler, PropertyOf(s, s.acquire))
                     + CallOn(s.correlation, CorrelationHandler, AfterAcquire(s, s.correlation, a))
    ensures forall id :: id in s.heap ==> t.heap[id] == s.heap[id].(rp := AfterCalls(s, id, a, c))
  {
    var u := Invoke(s, s.acquire, AcquireHandler, a);
    InvokeOutcome(s, s.acquire, AcquireHandler, a);
    InvokeOutcome(u, s.correlation, CorrelationHandler, c);
    CallsInTurn(s, u, t, a, c);
  }

  /** A handler called on a target that is alive leaves it with the property `rp`; nothing else happens. */
  predicate Calls(s: State, target: Option<nat>, h: Handler, rp: RunningProperty, t: State) {
    t.heap.Keys == s.heap.Keys && t == s.(heap := t.heap, log := s.log + CallOn(target, h, PropertyOf(s, target))) &&
    forall id :: id in s.heap ==>
      t.heap[id] == if target == Some(id) && s.heap[id].rp in {Exclusive, Normal} then s.heap[id].(rp := rp)
                    else s.heap[id]
  }

  lemma InvokeOutcome(s: State, target: Option<nat>, h: Handler, rp: RunningProperty)
    requires target.Some? ==> target.value in s.heap
    ensures Calls(s, target, h, rp, Invoke(s, target, h, rp))
  {
  }

  lemma CallsInTurn(s: State, u: State, t: State, a: RunningProperty, c: RunningProperty)
    requires Followed(s) && Calls(s, s.acquire, AcquireHandler, a, u) &&
             Calls(u, s.correlation, CorrelationHandler, c, t)
    ensures t == s.(heap := t.heap, log := t.log) && t.heap.Keys == s.heap.Keys
    ensures t.log == s.log + CallOn(s.acquire, AcquireHandler, PropertyOf(s, s.acquire))
                     + CallOn(s.correlation, CorrelationHandler, AfterAcquire(s, s.correlation, a))
    ensures forall id :: id in s.heap ==> t.heap[id] == s.heap[id].(rp := AfterCalls(s, id, a, c))
  {
    assert PropertyOf(u, s.correlation) == AfterAcquire(s, s.correlation, a);
  }

  function AfterRun(s: State, id: nat, a: RunningProperty, c: RunningProperty,
                    p: Option<RunningProperty>): RunningProperty {
    if s.current == Some(id) && p.Some? then p.value else AfterCalls(s, id, a, c)
  }

  function AfterCalls(s: State, id: nat, a: RunningProperty, c: RunningProperty): RunningProperty {
    if s.correlation == Some(id) && AfterAcquire(s, s.correlation, a) in {Exclusive, Normal} then c
    else AfterAcquire(s, Some(id), a)
  }

  /** In particular for the current command: it gets exactly the calls it implements, acquire first, the second
      only if the first has not ended it, and its property is the one the last call has left. */
  lemma RunOfCurrent(s: State, a: RunningProperty, c: RunningProperty, p: Option<RunningProperty>, t: State)
    requires Steps(s, Run(a, c, p), t) && s.current.Some?
    ensures var cur := s.current.value;
            cur in s.heap && cur in t.heap &&
            var h, rp := s.heap[cur].handlers, s.heap[cur].rp;
            var first := h.acquire && rp in {Exclusive, Normal};
            var between := if first then a else rp;
            var second := h.correlation && between in {Exclusive, Normal};
            t.heap[cur].rp == (if p.Some? then p.value else if second then c else between) &&
            (h.acquire && h.correlation ==>
               t.log == s.log + (if first then [Occurrence(cur, Called(AcquireHandler, rp))] else [])
                        + (if second then [Occurrence(cur, Called(CorrelationHandler, between))] else []))
  {
    assert Placed(s, s.current.value);
    RunOutcome(s, a, c, p, t);
  }

  /** A command that has ended or faulted makes no call. */
  lemma NoCallOnFinished(s: State, a: RunningProperty, c: RunningProperty, p: Option<RunningProperty>, t: State,
                         id: nat)
    requires Steps(s, Run(a, c, p), t) && id in s.heap && s.heap[id].rp in {End, Faulted}
    ensures |t.log| >= |s.log| && forall i :: |s.log| <= i < |t.log| ==> t.log[i].id != id
  {
    RunOutcome(s, a, c, p, t);
  }
}
