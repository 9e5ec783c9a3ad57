/** Who may interrupt whom, and in which order paused commands come back. */
module SandboxOrder {
  import opened CommandTypes
  import opened CommandLife
  import opened Sandbox
  import opened SandboxInvariant
  import opened SandboxRuns

  lemma StepShape(s: State, step: Step, t: State)
    requires Steps(s, step, t)
    ensures step.Check? ==> Shaped(s, t, step.next, EffectOf(s, step.next, step.outcome))
    ensures !step.Check? ==>
              t.stack == s.stack && t.current == s.current && t.dropped == s.dropped && t.disposed == s.disposed
  {
    match step
    case Enqueue(_, _) =>
    case Check(next, outcome) => CheckShape(s, next, outcome);
    case Run(a, c, p) => RunShape(s, a, c, p);
    case KillCurrent =>
  }

  /** A command is dropped without any event exactly when it reaches an idle sandbox and cannot be
      installed: it only has a set handler, or its set handler throws. */
  lemma DroppedExactlyWhenIdle(s: State, step: Step, t: State)
    requires Steps(s, step, t)
    ensures var lost := step.Check? && s.queue != {} && s.current.None? && !Installs(s.heap[step.next], step.outcome);
            t.dropped == s.dropped + if lost then {step.next} else {}
  {
    StepShape(s, step, t);
  }

  /** A command with a set handler only, submitted to an idle sandbox: its set handler runs, and then it is
      gone, still told to be queued. */
  lemma SetOnlyCommandVanishes(id: nat, rule: SubmissionRule, priority: int)
      returns (states: seq<State>, steps: seq<Step>)
    ensures IsRun(states, steps) && |steps| == 2
    ensures steps[0] == Enqueue(id, BatchCommand(Handlers(true, false, false), rule, priority, Normal, false))
    ensures states[2].dropped == {id} && states[2].disposed == {} && states[2].current == None && states[2].queue == {}
    ensures Events(Word(states[2].log, id)) == [Queued]
  {
    var c := BatchCommand(Handlers(true, false, false), rule, priority, Normal, false);
    var s1 := Apply(Init(), Enqueue(id, c));
    var check := Check(id, Returns(Normal));
    var s2 := Apply(s1, check);
    states, steps := [Init(), s1, s2], [Enqueue(id, c), check];
    assert Transition(Init(), Enqueue(id, c), s1) && Transition(s1, check, s2);
    EveryStoryIsLegal(states, steps, id);
  }

  /** Every way the current command stops being current, with the event it is told, which is
      the last thing logged by that iteration unless the command is merely paused. */
  lemma HowCurrentLeaves(s: State, step: Step, t: State)
    requires Steps(s, step, t) && s.current.Some? && t.current != s.current
    ensures step.Check?
    ensures var cur := s.current.value; var rp := s.heap[cur].rp;
            var told := t.log[|t.log| - 1];
            |t.log| > 0 && told.id == cur && told.act.Fired? &&
            match told.act.event
            case Paused => rp == Normal && s.heap[step.next].rule == SubmitStack && t.stack == s.stack + [cur]
            case Killed => rp == Normal && s.heap[step.next].rule == SubmitKill && cur in t.disposed
            case Completed => rp == End && cur in t.disposed
            case Fault => rp == Faulted && cur in t.disposed
            case _ => false
  {
    StepShape(s, step, t);
    var e := EffectOf(s, step.next, step.outcome);
    if e.Replaces? {
      ReplaceShape(s, step.next, step.outcome);
    } else if e.Pauses? {
      assert t == CheckStack(s, step.next, step.outcome);
    }
  }

  /** The first submission becomes current exactly when it can be installed and the sandbox is idle, the
      current command is over, or the current command is normal and the submission stacks or kills; it
      stays queued exactly when it has to wait for the current command. */
  lemma TakesOverExactlyWhen(s: State, step: Step, t: State)
    requires Steps(s, step, t) && step.Check? && s.queue != {}
    ensures var next := s.heap[step.next];
            var gives := s.current.None? || !Alive(s.heap[s.current.value].rp) ||
                          (s.heap[s.current.value].rp == Normal && next.rule != SubmitNormal);
            (t.current == Some(step.next) <==> Installs(next, step.outcome) && gives) &&
            (step.next in t.queue <==> !gives && !SetOnly(next.handlers))
  {
    StepShape(s, step, t);
    assert Placed(s, step.next);
  }

  /** With nothing queued the current command gives way exactly when it is over. */
  lemma GivesWayExactlyWhenOver(s: State, step: Step, t: State)
    requires Steps(s, step, t) && step.Check? && s.queue == {} && s.current.Some?
    ensures t.current != s.current <==> !Alive(s.heap[s.current.value].rp)
    ensures t.current != s.current ==> t.current == if s.stack == [] then None else Some(s.stack[|s.stack| - 1])
  {
    StepShape(s, step, t);
    assert Placed(s, s.current.value);
    if s.stack != [] { assert s.stack[|s.stack| - 1] in s.stack && Placed(s, s.stack[|s.stack| - 1]); }
  }

  /** An exclusive command is never paused, killed or replaced by a submission. */
  lemma ExclusiveStays(s: State, step: Step, t: State)
    requires Steps(s, step, t) && s.current.Some? && s.heap[s.current.value].rp == Exclusive
    ensures t.current == s.current
  {
    StepShape(s, step, t);
  }

  /** A functor never points at a deleted command, and never misses a handler of the current one. */
  lemma FunctorsNeverDangle(states: seq<State>, steps: seq<Step>, k: nat)
    requires IsRun(states, steps) && k < |states|
    ensures var s := states[k];
            (s.current.None? ==> s.stack == [] && s.acquire == None && s.correlation == None) &&
            FunctorsSafe(s) && FunctorsServeCurrent(s) &&
            (s.acquire.Some? ==> s.acquire.value !in s.disposed) &&
            (s.correlation.Some? ==> s.correlation.value !in s.disposed)
  {
    var s := states[k];
    RunKeepsInv(states, steps, k);
    assert s.acquire.Some? ==> Placed(s, s.acquire.value);
    assert s.correlation.Some? ==> Placed(s, s.correlation.value);
  }

  // ---------- bracketing of pauses and resumes ----------

  /** `b` runs, or is paused, above position `p` of the pause stack. */
  predicate Above(s: State, p: nat, b: nat)
  {
    s.current == Some(b) || exists q :: p < q < |s.stack| && s.stack[q] == b
  }

  /** One step seen from position `p` of the pause stack: either the stack up to it stays and what was
      above it is still there or deleted, or the command there comes back and all above it is deleted. */
  ghost predicate Moved(s: State, t: State, p: nat)
    requires p < |s.stack|
  {
    s.disposed <= t.disposed && s.stack[p] !in s.stack[..p] &&
    if p < |t.stack| then
      t.stack[..p + 1] == s.stack[..p + 1] &&
      forall b :: Above(s, p, b) ==> Above(t, p, b) || b in t.disposed
    else
      t.stack == s.stack[..p] && t.current == Some(s.stack[p]) &&
      forall b :: Above(s, p, b) ==> b in t.disposed
  }

  ghost predicate Moves(s: State, t: State)
  {
    forall p: nat :: p < |s.stack| ==> Moved(s, t, p)
  }

  lemma AboveStep(s: State, step: Step, t: State, p: nat)
    requires Steps(s, step, t) && p < |s.stack|
    ensures Moved(s, t, p)
  {
    StepShape(s, step, t);
    NotBelow(s.stack, p);
    if p < |t.stack| {
      forall b | Above(s, p, b) ensures Above(t, p, b) || b in t.disposed {
        AboveKept(s, step, t, p, b);
      }
    }
  }

  lemma AboveKept(s: State, step: Step, t: State, p: nat, b: nat)
    requires Steps(s, step, t) && p < |s.stack| && p < |t.stack| && Above(s, p, b)
    ensures Above(t, p, b) || b in t.disposed
  {
    StepShape(s, step, t);
    if s.current == Some(b) {
      if step.Check? && EffectOf(s, step.next, step.outcome).Pauses? {
        assert t.stack[|s.stack|] == b;
      }
    } else {
      var q :| p < q < |s.stack| && s.stack[q] == b;
      if q < |t.stack| {
        assert t.stack[q] == b;
      }
    }
  }

  lemma NotBelow(stack: seq<nat>, p: nat)
    requires NoDuplicates(stack) && p < |stack|
    ensures stack[p] !in stack[..p]
  {
  }

  /** All that the bracketing of pauses depends on. */
  ghost predicate IsTrace(states: seq<State>)
  {
    forall k {:trigger Moves(states[k], states[k + 1])} :: 0 <= k < |states| - 1 ==> Moves(states[k], states[k + 1])
  }

  lemma StepMoves(s: State, step: Step, t: State)
    requires Steps(s, step, t)
    ensures Moves(s, t)
  {
    forall p: nat | p < |s.stack| ensures Moved(s, t, p) {
      AboveStep(s, step, t, p);
    }
  }

  lemma RunIsTrace(states: seq<State>, steps: seq<Step>)
    requires IsRun(states, steps)
    ensures IsTrace(states)
  {
    forall k | 0 <= k < |states| - 1 ensures Moves(states[k], states[k + 1]) {
      RunSteps(states, steps, k);
      StepMoves(states[k], steps[k], states[k + 1]);
    }
  }

  lemma TraceStep(states: seq<State>, k: nat, p: nat)
    requires IsTrace(states) && k + 1 < |states| && p < |states[k].stack|
    ensures Moved(states[k], states[k + 1], p)
  {
    assert Moves(states[k], states[k + 1]);
  }

  /** While the command at position `p` stays paused, the stack up to it does not change. */
  lemma {:induction false} BelowKept(states: seq<State>, i: nat, k: nat, p: nat)
    requires IsTrace(states) && i <= k < |states| && p < |states[i].stack|
    requires forall j :: i <= j <= k ==> states[i].stack[p] in states[j].stack
    ensures p < |states[k].stack| && states[k].stack[..p + 1] == states[i].stack[..p + 1]
    decreases k
  {
    if i < k {
      BelowKept(states, i, k - 1, p);
      assert states[k - 1].stack[p] == states[k - 1].stack[..p + 1][p] == states[i].stack[..p + 1][p];
      TraceStep(states, k - 1, p);
    }
  }

  /** Meanwhile all that was ever above it is still above it or has been deleted. */
  lemma {:induction false} WhilePaused(states: seq<State>, i: nat, m: nat, k: nat, p: nat, b: nat)
    requires IsTrace(states) && i <= m <= k < |states| && p < |states[i].stack|
    requires forall j :: i <= j <= k ==> states[i].stack[p] in states[j].stack
    requires Above(states[m], p, b)
    ensures Above(states[k], p, b) || b in states[k].disposed
    decreases k
  {
    if m < k {
      WhilePaused(states, i, m, k - 1, p, b);
      BelowKept(states, i, k - 1, p);
      BelowKept(states, i, k, p);
      TraceStep(states, k - 1, p);
    }
  }

  /** A paused command comes back only when every command that ever ran above it is deleted,
      and the stack below it is as it was when the command was paused. */
  lemma WellBracketed(states: seq<State>, steps: seq<Step>, i: nat, k: nat, p: nat)
    requires IsRun(states, steps) && i < k < |states| && p < |states[i].stack|
    requires forall j :: i <= j < k ==> states[i].stack[p] in states[j].stack
    requires states[i].stack[p] !in states[k].stack
    ensures states[k].current == Some(states[i].stack[p]) && states[k].stack == states[i].stack[..p]
    ensures forall m, b :: i <= m < k && Above(states[m], p, b) ==> b in states[k].disposed
  {
    RunIsTrace(states, steps);
    TraceBracketed(states, i, k, p);
  }

  lemma TraceBracketed(states: seq<State>, i: nat, k: nat, p: nat)
    requires IsTrace(states) && i < k < |states| && p < |states[i].stack|
    requires forall j :: i <= j < k ==> states[i].stack[p] in states[j].stack
    requires states[i].stack[p] !in states[k].stack
    ensures states[k].current == Some(states[i].stack[p]) && states[k].stack == states[i].stack[..p]
    ensures forall m, b :: i <= m < k && Above(states[m], p, b) ==> b in states[k].disposed
  {
    var s, t := states[k - 1], states[k];
    BelowKept(states, i, k - 1, p);
    TraceStep(states, k - 1, p);
    var a := states[i].stack[p];
    assert s.stack[p] == s.stack[..p + 1][p] == a;
    assert s.stack[..p] == s.stack[..p + 1][..p] == states[i].stack[..p];
    forall m, b | i <= m < k && Above(states[m], p, b) ensures b in t.disposed {
      WhilePaused(states, i, m, k - 1, p, b);
    }
  }

  lemma PausedStep(s: State, step: Step, t: State, b: nat)
    requires Steps(s, step, t) && b in s.stack
    ensures b in t.stack || t.current == Some(b)
  {
    StepShape(s, step, t);
    if step.Check? && EffectOf(s, step.next, step.outcome).Resumes? {
      PoppedStack(s.stack);
    }
  }

  lemma PausedInRun(states: seq<State>, steps: seq<Step>, i: nat, b: nat)
    requires IsRun(states, steps) && i + 1 < |states| && b in states[i].stack
    ensures b in states[i + 1].stack || states[i + 1].current == Some(b)
  {
    RunKeepsInv(states, steps, i);
    assert Transition(states[i], steps[i], states[i + 1]);
    PausedStep(states[i], steps[i], states[i + 1], b);
  }

  lemma OnStageNotDeleted(states: seq<State>, steps: seq<Step>, i: nat, b: nat)
    requires IsRun(states, steps) && i < |states| && OnStage(states[i], b)
    ensures b !in states[i].disposed
  {
    RunKeepsInv(states, steps, i);
    assert Placed(states[i], b);
  }

  /** A paused command that ended up deleted was current again in between. */
  lemma {:induction false} DeletedOnlyAfterResuming(states: seq<State>, steps: seq<Step>, i: nat, k: nat, b: nat)
    requires IsRun(states, steps) && i <= k < |states| && b in states[i].stack && b in states[k].disposed
    ensures exists m :: i < m < k && states[m].current == Some(b)
    decreases k - i
  {
    OnStageNotDeleted(states, steps, i, b);
    PausedInRun(states, steps, i, b);
    OnStageNotDeleted(states, steps, i + 1, b);
    if states[i + 1].current != Some(b) {
      DeletedOnlyAfterResuming(states, steps, i + 1, k, b);
    }
  }

  /** Resumes come in the exact reverse order of pauses: before the command at position `p`
      comes back, the one paused above it at `q` has come back and gone. */
  lemma ResumesInReverseOrder(states: seq<State>, steps: seq<Step>, i: nat, k: nat, p: nat, q: nat)
    requires IsRun(states, steps) && i < k < |states| && p < q < |states[i].stack|
    requires forall j :: i <= j < k ==> states[i].stack[p] in states[j].stack
    requires states[i].stack[p] !in states[k].stack
    ensures exists m :: i < m < k && states[m].current == Some(states[i].stack[q])
    ensures states[i].stack[q] in states[k].disposed
  {
    WellBracketed(states, steps, i, k, p);
    assert Above(states[i], p, states[i].stack[q]);
    DeletedOnlyAfterResuming(states, steps, i, k, states[i].stack[q]);
  }
}
