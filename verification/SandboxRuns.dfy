/** Theorems about every run of one sandbox, whatever the submissions, the handlers
    and the order in which the threads get the mutexes. */
module SandboxRuns {
  import opened CommandTypes
  import opened CommandLife
  import opened Sandbox
  import opened SandboxInvariant

  predicate Transition(s: State, step: Step, t: State)
  {
    Referenced(s) && Enabled(s, step) && t == Apply(s, step)
  }

  ghost predicate IsRun(states: seq<State>, steps: seq<Step>)
  {
    |states| == |steps| + 1 && states[0] == Init() &&
    forall i {:trigger steps[i]} :: 0 <= i < |steps| ==> Transition(states[i], steps[i], states[i + 1])
  }

  lemma {:induction false} RunKeepsInv(states: seq<State>, steps: seq<Step>, k: nat)
    requires IsRun(states, steps) && k < |states|
    ensures Inv(states[k])
  {
    if k == 0 {
      InvInit();
    } else {
      RunKeepsInv(states, steps, k - 1);
      assert Transition(states[k - 1], steps[k - 1], states[k]);
      StepKeepsInv(states[k - 1], steps[k - 1]);
    }
  }

  /** A step from a state that satisfies the invariant. */
  ghost predicate Steps(s: State, step: Step, t: State)
  {
    Inv(s) && Transition(s, step, t)
  }

  lemma RunSteps(states: seq<State>, steps: seq<Step>, k: nat)
    requires IsRun(states, steps) && k < |steps|
    ensures Steps(states[k], steps[k], states[k + 1])
  {
    RunKeepsInv(states, steps, k);
  }

  /** No reachable state holds a dangling pointer, so every step whose inputs exist can be taken. */
  lemma NeverStuck(states: seq<State>, steps: seq<Step>)
    requires IsRun(states, steps)
    ensures var s := states[|steps|];
            Referenced(s) && forall step :: Enabled(s, step) ==> IsRun(states + [Apply(s, step)], steps + [step])
  {
    var s := states[|steps|];
    RunKeepsInv(states, steps, |steps|);
    InvReferenced(s);
    forall step | Enabled(s, step)
      ensures IsRun(states + [Apply(s, step)], steps + [step])
    {
      var states', steps' := states + [Apply(s, step)], steps + [step];
      forall i | 0 <= i < |steps'| ensures Transition(states'[i], steps'[i], states'[i + 1]) {
        if i < |steps| { assert Transition(states[i], steps[i], states[i + 1]); }
      }
    }
  }

  // ---------- the story of one command ----------

  /** The last event tells where the command is. */
  predicate LastEventLocates(s: State, id: nat, es: seq<Event>)
  {
    (es == [] <==> !Known(s, id)) &&
    (es == [Queued] <==> id in s.queue || id in s.dropped) &&
    (es != [] && es[|es| - 1] == Running <==> s.current == Some(id)) &&
    (es != [] && es[|es| - 1] == Paused <==> id in s.stack) &&
    (es != [] && Terminal(es[|es| - 1]) <==> id in s.disposed)
  }

  lemma EveryStoryIsLegal(states: seq<State>, steps: seq<Step>, id: nat)
    requires IsRun(states, steps)
    ensures var s := states[|steps|];
            var w := Word(s.log, id);
            LegalEvents(Events(w)) && LegalCalls(w) && LastEventLocates(s, id, Events(w))
  {
    RunKeepsInv(states, steps, |steps|);
    StoryAt(states[|steps|], id);
  }

  /** Over every run: a terminal event is the last one told about a command and never follows PAUSED. */
  lemma EndIsFinal(states: seq<State>, steps: seq<Step>, id: nat, i: nat)
    requires IsRun(states, steps)
    requires var es := Events(Word(states[|steps|].log, id)); i < |es| && Terminal(es[i])
    ensures var es := Events(Word(states[|steps|].log, id)); i == |es| - 1 && i > 0 && es[i - 1] != Paused
  {
    EveryStoryIsLegal(states, steps, id);
    TerminalIsLast(Events(Word(states[|steps|].log, id)), i);
  }

  /** Over every run: the set handler of a command is entered at most once. */
  lemma SetHandlerEnteredOnce(states: seq<State>, steps: seq<Step>, id: nat, i: nat, j: nat)
    requires IsRun(states, steps)
    requires var w := Word(states[|steps|].log, id); i < |w| && j < |w| && SetUpCall(w[i]) && SetUpCall(w[j])
    ensures i == j
  {
    EveryStoryIsLegal(states, steps, id);
    SetHandlerAtMostOnce(Word(states[|steps|].log, id), i, j);
  }

  predicate SetUpCall(act: Act) {
    act.Called? && act.handler == SetHandler
  }

  lemma StoryAt(s: State, id: nat)
    requires Inv(s)
    ensures var w := Word(s.log, id);
            LegalEvents(Events(w)) && LegalCalls(w) && LastEventLocates(s, id, Events(w))
  {
    assert Placed(s, id);
    WordIsLegal(s.log, id);
  }

  // ---------- conservation ----------

  predicate WasSubmitted(steps: seq<Step>, id: nat)
  {
    exists i :: 0 <= i < |steps| && steps[i].Enqueue? && steps[i].id == id
  }

  function Places(s: State, id: nat): nat
  {
    (if id in s.queue then 1 else 0) + (if id in s.stack then 1 else 0) +
    (if s.current == Some(id) then 1 else 0) +
    (if id in s.dropped then 1 else 0) + (if id in s.disposed then 1 else 0)
  }

  /** A submitted command is in exactly one place; nothing else is anywhere. */
  lemma {:induction false} Conservation(states: seq<State>, steps: seq<Step>, k: nat, id: nat)
    requires IsRun(states, steps) && k < |states|
    ensures Places(states[k], id) == if WasSubmitted(steps[..k], id) then 1 else 0
  {
    RunKeepsInv(states, steps, k);
    assert Placed(states[k], id);
    KnownIsSubmitted(states, steps, k, id);
  }

  lemma {:induction false} KnownIsSubmitted(states: seq<State>, steps: seq<Step>, k: nat, id: nat)
    requires IsRun(states, steps) && k < |states|
    ensures Known(states[k], id) <==> WasSubmitted(steps[..k], id)
  {
    if k > 0 {
      KnownIsSubmitted(states, steps, k - 1, id);
      RunKeepsInv(states, steps, k - 1);
      assert Transition(states[k - 1], steps[k - 1], states[k]);
      KnownStep(states[k - 1], steps[k - 1], id);
      assert steps[..k] == steps[..k - 1] + [steps[k - 1]];
      SubmittedGrows(steps[..k - 1], steps[k - 1], id);
    }
  }

  lemma SubmittedGrows(steps: seq<Step>, step: Step, id: nat)
    ensures WasSubmitted(steps + [step], id) <==> WasSubmitted(steps, id) || (step.Enqueue? && step.id == id)
  {
    var all := steps + [step];
    if step.Enqueue? && step.id == id {
      assert all[|steps|] == step;
    }
    if WasSubmitted(steps, id) {
      var i :| 0 <= i < |steps| && steps[i].Enqueue? && steps[i].id == id;
      assert all[i] == steps[i];
    }
  }

  lemma KnownStep(s: State, step: Step, id: nat)
    requires Inv(s) && Referenced(s) && Enabled(s, step)
    ensures Known(Apply(s, step), id) <==> Known(s, id) || (step.Enqueue? && step.id == id)
  {
    match step
    case Enqueue(_, _) =>
    case Check(next, outcome) => KnownCheck(s, next, outcome, id);
    case Run(a, c, p) => RunShape(s, a, c, p);
    case KillCurrent =>
  }

  lemma InvokeShape(s: State, target: Option<nat>, h: Handler, rp: RunningProperty)
    requires target.Some? ==> target.value in s.heap
    ensures var t := Invoke(s, target, h, rp); t == s.(heap := t.heap, log := t.log) && t.heap.Keys == s.heap.Keys
  {
  }

  lemma RunShape(s: State, a: RunningProperty, c: RunningProperty, p: Option<RunningProperty>)
    requires Referenced(s)
    ensures var t := RunCommand(s, a, c, p);
            t == s.(heap := t.heap, log := t.log) && t.heap.Keys == s.heap.Keys
  {
    if s.current.Some? {
      InvokeShape(s, s.acquire, AcquireHandler, a);
      var t := Invoke(s, s.acquire, AcquireHandler, a);
      InvokeShape(t, t.correlation, CorrelationHandler, c);
    }
  }

  lemma KnownCheck(s: State, next: nat, outcome: SetOutcome, id: nat)
    requires Inv(s) && Referenced(s) && (s.queue != {} ==> IsTop(s, next))
    ensures Known(CheckNext(s, next, outcome), id) <==> Known(s, id)
  {
    CheckShape(s, next, outcome);
  }

  // ---------- the effect of one checker iteration ----------

  /** All a checker iteration can do to the five places. */
  datatype Effect = Nothing | Starts | Drops | Rejects | Pauses | Replaces | Resumes | Ends

  function EffectOf(s: State, next: nat, outcome: SetOutcome): Effect
    requires Referenced(s) && (s.queue != {} ==> IsTop(s, next))
  {
    if s.queue != {} then
      if s.current.None? then (if Installs(s.heap[next], outcome) then Starts else Drops)
      else if SetOnly(s.heap[next].handlers) then Rejects
      else
        var d := Decide(s.heap[s.current.value].rp, s.heap[next].rule);
        if d == NoChange || d == TimedRetry then Nothing
        else if !Installs(s.heap[next], outcome) then Rejects
        else if d == StackCurrent then Pauses
        else Replaces
    else if s.current.None? || Alive(s.heap[s.current.value].rp) then Nothing
    else if s.stack != [] then Resumes
    else Ends
  }

  ghost predicate Shaped(s: State, t: State, next: nat, e: Effect)
  {
    match e
    case Nothing => t == s
    case Starts => s.current.None? && t.queue == s.queue - {next} && t.stack == s.stack && t.current == Some(next) &&
                   t.dropped == s.dropped && t.disposed == s.disposed && t.heap.Keys == s.heap.Keys
    case Drops => s.current.None? && t.queue == s.queue - {next} && t.stack == s.stack && t.current == None &&
                  t.dropped == s.dropped + {next} && t.disposed == s.disposed && t.heap.Keys == s.heap.Keys
    case Rejects => t.queue == s.queue - {next} && t.stack == s.stack && t.current == s.current &&
                    t.dropped == s.dropped && t.disposed == s.disposed + {next} && t.heap.Keys == s.heap.Keys - {next}
    case Pauses => s.current.Some? && t.queue == s.queue - {next} && t.stack == s.stack + [s.current.value] &&
                   t.current == Some(next) &&
                   t.dropped == s.dropped && t.disposed == s.disposed && t.heap.Keys == s.heap.Keys
    case Replaces => s.current.Some? && t.queue == s.queue - {next} && t.stack == s.stack && t.current == Some(next) &&
                     t.dropped == s.dropped && t.disposed == s.disposed + {s.current.value} &&
                     t.heap.Keys == s.heap.Keys - {s.current.value}
    case Resumes => s.current.Some? && s.stack != [] && t.queue == s.queue && t.stack == s.stack[..|s.stack| - 1] &&
                    t.current == Some(s.stack[|s.stack| - 1]) &&
                    t.dropped == s.dropped && t.disposed == s.disposed + {s.current.value} &&
                    t.heap.Keys == s.heap.Keys - {s.current.value}
    case Ends => s.current.Some? && s.stack == [] && t.queue == s.queue && t.stack == [] && t.current == None &&
                 t.dropped == s.dropped && t.disposed == s.disposed + {s.current.value} &&
                 t.heap.Keys == s.heap.Keys - {s.current.value}
  }

  lemma CheckShape(s: State, next: nat, outcome: SetOutcome)
    requires Inv(s) && Referenced(s) && (s.queue != {} ==> IsTop(s, next))
    ensures Shaped(s, CheckNext(s, next, outcome), next, EffectOf(s, next, outcome))
    ensures next in s.queue ==> next in s.heap && (EffectOf(s, next, outcome).Replaces? ==> next != s.current.value)
  {
    match EffectOf(s, next, outcome)
    case Nothing =>
    case Starts => IdleShape(s, next, outcome);
    case Drops => IdleShape(s, next, outcome);
    case Rejects => RejectShape(s, next, outcome);
    case Pauses => PauseShape(s, next, outcome);
    case Replaces => ReplaceShape(s, next, outcome);
    case Resumes => ResumeTakesOver(s, outcome);
    case Ends => EndShape(s);
  }

  lemma IdleShape(s: State, next: nat, outcome: SetOutcome)
    requires Referenced(s) && s.queue != {} && IsTop(s, next) && s.current.None?
    ensures Shaped(s, CheckIdle(s, next, outcome), next, if Installs(s.heap[next], outcome) then Starts else Drops)
  {
  }

  lemma PauseShape(s: State, next: nat, outcome: SetOutcome)
    requires Referenced(s) && s.queue != {} && IsTop(s, next) && s.current.Some? && Installs(s.heap[next], outcome)
    ensures Shaped(s, CheckStack(s, next, outcome), next, Pauses)
  {
  }

  lemma EndShape(s: State)
    requires Referenced(s) && s.current.Some? && s.stack == []
    ensures Shaped(s, CheckFinish(s), 0, Ends)
  {
  }

  lemma ReplaceShape(s: State, next: nat, outcome: SetOutcome)
    requires Inv(s) && Referenced(s) && s.queue != {} && IsTop(s, next)
    requires EffectOf(s, next, outcome).Replaces?
    ensures next != s.current.value
    ensures CheckNext(s, next, outcome)
            == CheckReplace(s, next, outcome, ReplacedBy(Decide(s.heap[s.current.value].rp, s.heap[next].rule)))
    ensures Shaped(s, CheckNext(s, next, outcome), next, Replaces)
  {
    var farewell := ReplacedBy(Decide(s.heap[s.current.value].rp, s.heap[next].rule));
    ReplaceTakesOver(s, next, outcome, farewell);
    assert CheckReplace(s, next, outcome, farewell).stack == s.stack;
  }

  function ReplacedBy(d: Decision): Event
  {
    match d
    case KillCurrent => Killed
    case CurrentFaulted => Fault
    case _ => Completed
  }

  lemma RejectShape(s: State, next: nat, outcome: SetOutcome)
    requires Inv(s) && Referenced(s) && s.queue != {} && IsTop(s, next) && s.current.Some?
    requires EffectOf(s, next, outcome).Rejects?
    ensures Shaped(s, CheckNext(s, next, outcome), next, Rejects)
  {
    if SetOnly(s.heap[next].handlers) {
      var t := CheckNext(s, next, outcome);
      assert t.heap.Keys == s.heap.Keys - {next};
    } else {
      InstallFailureKeeps(s, next, outcome);
      match Decide(s.heap[s.current.value].rp, s.heap[next].rule)
      case StackCurrent =>
      case KillCurrent => ReplaceFailureKeeps(s, next, outcome, Killed);
      case CurrentEnded => ReplaceFailureKeeps(s, next, outcome, Completed);
      case CurrentFaulted => ReplaceFailureKeeps(s, next, outcome, Fault);
    }
  }
}
