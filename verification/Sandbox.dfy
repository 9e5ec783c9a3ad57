/** The sandbox as a state machine: one iteration of the checker thread, one step of
    the scheduler thread, one submission and one kill are atomic, each under the
    mutexes the sandbox takes. Commands are named by their unique id, which stands for
    the pointer; `heap` holds the command objects that have not been deleted. */
module Sandbox {
  import opened CommandTypes
  import opened CommandLife

  datatype State = State(
    queue: set<nat>,             // submitted, waiting for the checker (a priority queue with unspecified ties)
    stack: seq<nat>,             // paused commands, the top is the last element
    current: Option<nat>,
    acquire: Option<nat>,        // target of the acquire functor
    correlation: Option<nat>,    // target of the correlation functor
    heap: map<nat, BatchCommand>,
    dropped: set<nat>,           // popped without an event and without being deleted
    disposed: set<nat>,          // deleted
    log: seq<Occurrence>)

  function Init(): State
  {
    State({}, [], None, None, None, map[], {}, {}, [])
  }

  /** How a set handler ends when it is invoked. */
  datatype SetOutcome = Returns(rp: RunningProperty) | Throws

  datatype Step =
    | Enqueue(id: nat, command: BatchCommand)
    | Check(next: nat, outcome: SetOutcome)
    | Run(acquired: RunningProperty, correlated: RunningProperty, post: Option<RunningProperty>)
    | KillCurrent

  // ---------- pieces ----------

  function Emit(s: State, id: nat, act: Act): (t: State)
    ensures forall j :: LifeOf(t.log, j) == if j == id then Advance(LifeOf(s.log, j), act) else LifeOf(s.log, j)
  {
    var log := s.log + [Occurrence(id, act)];
    assert log[..|log| - 1] == s.log;
    s.(log := log)
  }

  function SetProperty(s: State, id: nat, rp: RunningProperty): State
    requires id in s.heap
  {
    s.(heap := s.heap[id := s.heap[id].(rp := rp)])
  }

  function Dispose(s: State, id: nat): State
  {
    s.(heap := s.heap - {id}, disposed := s.disposed + {id})
  }

  /** Whether installing this command would enter its set handler. */
  predicate NeedsSetup(c: BatchCommand) {
    c.handlers.setup && !c.alreadySetUp
  }

  function SetUp(s: State, id: nat, outcome: SetOutcome): State
    requires id in s.heap
  {
    var c := s.heap[id];
    if !NeedsSetup(c) then s
    else
      var called := Emit(s, id, Called(SetHandler, c.rp));
      called.(heap := s.heap[id :=
        match outcome
        case Returns(rp) => c.(rp := rp, alreadySetUp := true)
        case Throws => c.(rp := Faulted)])
  }

  predicate Installs(c: BatchCommand, outcome: SetOutcome) {
    !SetOnly(c.handlers) && !(NeedsSetup(c) && outcome.Throws?)
  }

  function Install(s: State, id: nat, outcome: SetOutcome): State
    requires id in s.heap
  {
    var c := s.heap[id];
    var t := SetUp(s, id, outcome);
    if !Installs(c, outcome) then t
    else
      Emit(t.(acquire := if c.handlers.acquire then Some(id) else t.acquire,
              correlation := if c.handlers.correlation then Some(id) else t.correlation,
              current := Some(id)),
           id, Fired(Running))
  }

  function Remove(s: State, id: nat): State
    requires id in s.heap
  {
    var h := s.heap[id].handlers;
    s.(acquire := if h.acquire && s.acquire == Some(id) then None else s.acquire,
       correlation := if h.correlation && s.correlation == Some(id) then None else s.correlation)
  }

  /** Event for a command that leaves because of its own running property. */
  function Farewell(rp: RunningProperty): Event
  {
    if rp == Faulted then Fault else Completed
  }

  /** A submission whose installation failed: FAULT if any fault bit is set, then deleted. */
  function RejectInstall(s: State, id: nat): State
    requires id in s.heap
  {
    Dispose(if s.heap[id].rp == Exclusive then s else Emit(s, id, Fired(Fault)), id)
  }

  // ---------- the branches of one checker iteration ----------

  function CheckSetOnly(s: State, next: nat, outcome: SetOutcome): State
    requires next in s.heap
  {
    var t := SetUp(s.(queue := s.queue - {next}), next, outcome);
    Dispose(Emit(t, next, Fired(Farewell(t.heap[next].rp))), next)
  }

  function CheckStack(s: State, next: nat, outcome: SetOutcome): State
    requires next in s.heap && s.current.Some?
  {
    var t := Install(s.(queue := s.queue - {next}), next, outcome);
    if Installs(s.heap[next], outcome) then
      Emit(t.(stack := t.stack + [s.current.value]), s.current.value, Fired(Paused))
    else
      RejectInstall(t, next)
  }

  function CheckReplace(s: State, next: nat, outcome: SetOutcome, farewell: Event): State
    requires next in s.heap && s.current.Some? && s.current.value in s.heap && next != s.current.value
  {
    var cur := s.current.value;
    var t := Install(Remove(s.(queue := s.queue - {next}), cur), next, outcome);
    if Installs(s.heap[next], outcome) then
      Dispose(Emit(t, cur, Fired(farewell)), cur)
    else
      Install(RejectInstall(t, next), cur, outcome)
  }

  /** No current command: the result of the installation is ignored. */
  function CheckIdle(s: State, next: nat, outcome: SetOutcome): State
    requires next in s.heap
  {
    var t := Install(s.(queue := s.queue - {next}), next, outcome);
    if Installs(s.heap[next], outcome) then t else t.(dropped := t.dropped + {next})
  }

  /** Nothing queued and the current command is over: resume the last paused one. */
  function CheckResume(s: State, outcome: SetOutcome): State
    requires s.current.Some? && s.current.value in s.heap
    requires s.stack != [] && s.stack[|s.stack| - 1] in s.heap
  {
    var cur, top := s.current.value, s.stack[|s.stack| - 1];
    var t := Install(Remove(s, cur), top, outcome).(stack := s.stack[..|s.stack| - 1]);
    Dispose(Emit(t, cur, Fired(Farewell(s.heap[cur].rp))), cur)
  }

  /** Nothing queued, nothing paused and the current command is over. */
  function CheckFinish(s: State): State
    requires s.current.Some? && s.current.value in s.heap
  {
    var cur := s.current.value;
    var t := s.(current := None, acquire := None, correlation := None);
    Dispose(Emit(t, cur, Fired(Farewell(s.heap[cur].rp))), cur)
  }

  // ---------- steps ----------

  /** Every pointer the sandbox follows leads to a command that has not been deleted. */
  predicate Referenced(s: State)
  {
    (forall id :: id in s.queue ==> id in s.heap) &&
    (forall id :: id in s.stack ==> id in s.heap) &&
    (s.current.Some? ==> s.current.value in s.heap && s.current.value !in s.queue) &&
    (s.acquire.Some? ==> s.acquire.value in s.heap) &&
    (s.correlation.Some? ==> s.correlation.value in s.heap)
  }

  /** `top()` of the priority queue: some command of maximal priority. */
  predicate IsTop(s: State, next: nat)
    requires Referenced(s)
  {
    next in s.queue && forall id :: id in s.queue ==> s.heap[id].priority <= s.heap[next].priority
  }

  predicate Known(s: State, id: nat) {
    id in s.heap || id in s.disposed
  }

  /** Inputs a step may have: fresh ids for submissions (the executor numbers them), not yet
      set up; the checker looks at the top of a non-empty queue. */
  predicate Enabled(s: State, step: Step)
    requires Referenced(s)
  {
    match step
    case Enqueue(id, c) => !Known(s, id) && !c.alreadySetUp
    case Check(next, _) => s.queue != {} ==> IsTop(s, next)
    case _ => true
  }

  function CheckNext(s: State, next: nat, outcome: SetOutcome): State
    requires Referenced(s) && (s.queue != {} ==> IsTop(s, next))
  {
    if s.queue != {} then
      if s.current.None? then CheckIdle(s, next, outcome)
      else if SetOnly(s.heap[next].handlers) then CheckSetOnly(s, next, outcome)
      else
        match Decide(s.heap[s.current.value].rp, s.heap[next].rule)
        case NoChange => s
        case TimedRetry => s
        case StackCurrent => CheckStack(s, next, outcome)
        case KillCurrent => CheckReplace(s, next, outcome, Killed)
        case CurrentEnded => CheckReplace(s, next, outcome, Completed)
        case CurrentFaulted => CheckReplace(s, next, outcome, Fault)
    else if s.current.None? || Alive(s.heap[s.current.value].rp) then s
    else if s.stack != [] then CheckResume(s, outcome)
    else CheckFinish(s)
  }

  /** A functor call: enters the handler only on a command that is neither ended nor faulted. */
  function Invoke(s: State, target: Option<nat>, h: Handler, rp: RunningProperty): State
    requires target.Some? ==> target.value in s.heap
  {
    if target.None? || !Alive(s.heap[target.value].rp) then s
    else SetProperty(Emit(s, target.value, Called(h, s.heap[target.value].rp)), target.value, rp)
  }

  /** Acquire handler, then correlation handler. */
  function CallFunctors(s: State, acquired: RunningProperty, correlated: RunningProperty): State
    requires (s.acquire.Some? ==> s.acquire.value in s.heap) && (s.correlation.Some? ==> s.correlation.value in s.heap)
  {
    var t := Invoke(s, s.acquire, AcquireHandler, acquired);
    Invoke(t, t.correlation, CorrelationHandler, correlated)
  }

  function RunCommand(s: State, acquired: RunningProperty, correlated: RunningProperty,
                      post: Option<RunningProperty>): State
    requires Referenced(s)
  {
    if s.current.None? then s
    else
      var u := CallFunctors(s, acquired, correlated);
      if post.None? then u else SetProperty(u, s.current.value, post.value)
  }

  function Apply(s: State, step: Step): State
    requires Referenced(s) && Enabled(s, step)
  {
    match step
    case Enqueue(id, c) => Emit(s.(queue := s.queue + {id}, heap := s.heap[id := c]), id, Fired(Queued))
    case Check(next, outcome) => CheckNext(s, next, outcome)
    case Run(a, c, p) => RunCommand(s, a, c, p)
    case KillCurrent => if s.current.None? then s else SetProperty(s, s.current.value, End)
  }
}
