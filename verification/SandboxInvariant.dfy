/** What every step of a sandbox keeps. */
module SandboxInvariant {
  import opened CommandTypes
  import opened CommandLife
  import opened Sandbox

  /** In which of the five places a command is. */
  predicate Located(s: State, id: nat, queued: bool, paused: bool, current: bool, dropped: bool, disposed: bool)
  {
    (id in s.queue <==> queued) && (id in s.stack <==> paused) && (s.current == Some(id) <==> current) &&
    (id in s.dropped <==> dropped) && (id in s.disposed <==> disposed) &&
    (id in s.heap <==> queued || paused || current || dropped)
  }

  /** Installing the command again cannot enter its set handler and cannot fail. */
  predicate Ready(c: BatchCommand) {
    !SetOnly(c.handlers) && !NeedsSetup(c)
  }

  /** The story told by the log and the place of the command agree. */
  predicate Placed(s: State, id: nat)
  {
    match LifeOf(s.log, id)
    case Unborn => Located(s, id, false, false, false, false, false)
    case Queueing =>
      || (Located(s, id, true, false, false, false, false) && !s.heap[id].alreadySetUp)
      || Located(s, id, false, false, false, true, false)
    case Tried => Located(s, id, false, false, false, true, false)
    case Active => Located(s, id, false, false, true, false, false) && Ready(s.heap[id])
    case Suspended => Located(s, id, false, true, false, false, false) && Ready(s.heap[id])
    case Finished => Located(s, id, false, false, false, false, true)
    case Broken => false
  }

  predicate NoDuplicates(ids: seq<nat>) {
    forall i, j :: 0 <= i < j < |ids| ==> ids[i] != ids[j]
  }

  predicate OnStage(s: State, id: nat) {
    s.current == Some(id) || id in s.stack
  }

  /** A functor is empty or points at the current or at a paused command that implements it. */
  predicate FunctorsSafe(s: State)
  {
    (s.acquire.Some? ==>
      OnStage(s, s.acquire.value) && s.acquire.value in s.heap && s.heap[s.acquire.value].handlers.acquire) &&
    (s.correlation.Some? ==>
      OnStage(s, s.correlation.value) && s.correlation.value in s.heap &&
      s.heap[s.correlation.value].handlers.correlation)
  }

  predicate FunctorsServeCurrent(s: State)
  {
    s.current.Some? && s.current.value in s.heap ==>
      (s.heap[s.current.value].handlers.acquire ==> s.acquire == s.current) &&
      (s.heap[s.current.value].handlers.correlation ==> s.correlation == s.current)
  }

  ghost predicate Inv(s: State)
  {
    (forall id: nat :: Placed(s, id)) &&
    NoDuplicates(s.stack) && FunctorsSafe(s) && FunctorsServeCurrent(s) &&
    (s.current.None? ==> s.stack == [])
  }

  lemma InvInit()
    ensures Inv(Init())
  {
  }

  /** No pointer dangles. */
  lemma InvReferenced(s: State)
    requires Inv(s)
    ensures Referenced(s)
  {
    assert forall id :: id in s.queue ==> Placed(s, id);
    assert forall id :: id in s.stack ==> Placed(s, id);
    assert s.current.Some? ==> Placed(s, s.current.value);
    assert s.acquire.Some? ==> Placed(s, s.acquire.value);
    assert s.correlation.Some? ==> Placed(s, s.correlation.value);
  }

  lemma EnqueueKeeps(s: State, id: nat, c: BatchCommand)
    requires Inv(s) && Referenced(s) && Enabled(s, Enqueue(id, c))
    ensures Inv(Apply(s, Enqueue(id, c)))
  {
    var t := Apply(s, Enqueue(id, c));
    assert Placed(s, id);
    forall j: nat ensures Placed(t, j) { assert Placed(s, j); }
    assert s.current.Some? ==> Placed(s, s.current.value);
  }

  lemma SetPropertyKeeps(s: State, id: nat, rp: RunningProperty)
    requires Inv(s) && id in s.heap
    ensures Inv(SetProperty(s, id, rp))
  {
    var t := SetProperty(s, id, rp);
    forall j: nat ensures Placed(t, j) { assert Placed(s, j); }
  }

  lemma InvokeKeeps(s: State, target: Option<nat>, h: Handler, rp: RunningProperty)
    requires Inv(s) && h != SetHandler
    requires target.Some? ==> OnStage(s, target.value)
    ensures target.Some? ==> target.value in s.heap
    ensures Inv(Invoke(s, target, h, rp))
    ensures Invoke(s, target, h, rp).(heap := s.heap, log := s.log) == s
    ensures Invoke(s, target, h, rp).heap.Keys == s.heap.Keys
  {
    if target.Some? {
      assert Placed(s, target.value);
      if Alive(s.heap[target.value].rp) {
        var t := Emit(s, target.value, Called(h, s.heap[target.value].rp));
        forall j: nat ensures Placed(t, j) { assert Placed(s, j); }
        SetPropertyKeeps(t, target.value, rp);
      }
    }
  }

  lemma RunKeeps(s: State, a: RunningProperty, c: RunningProperty, p: Option<RunningProperty>)
    requires Inv(s) && Referenced(s)
    ensures Inv(RunCommand(s, a, c, p))
  {
    if s.current.Some? {
      InvokeKeeps(s, s.acquire, AcquireHandler, a);
      var t := Invoke(s, s.acquire, AcquireHandler, a);
      InvokeKeeps(t, t.correlation, CorrelationHandler, c);
      var u := Invoke(t, t.correlation, CorrelationHandler, c);
      if p.Some? {
        SetPropertyKeeps(u, s.current.value, p.value);
      }
    }
  }

  /** Reinstalling a command that was installed once always succeeds and never enters
      its set handler again, whatever that handler would do. */
  lemma ReinstallSucceeds(s: State, id: nat, outcome: SetOutcome)
    requires Inv(s) && OnStage(s, id)
    ensures id in s.heap && Installs(s.heap[id], outcome) && SetUp(s, id, outcome) == s
  {
    assert Placed(s, id);
  }

  lemma CheckSetOnlyKeeps(s: State, next: nat, outcome: SetOutcome)
    requires Inv(s) && next in s.queue && next in s.heap && SetOnly(s.heap[next].handlers)
    ensures Inv(CheckSetOnly(s, next, outcome))
  {
    var t := CheckSetOnly(s, next, outcome);
    assert Placed(s, next);
    assert s.current.Some? ==> Placed(s, s.current.value);
    forall j: nat ensures Placed(t, j) { assert Placed(s, j); }
  }

  /** What an attempt to install a queued command does to the stories. */
  lemma InstallLife(s: State, id: nat, outcome: SetOutcome)
    requires id in s.heap && LifeOf(s.log, id) == Queueing
    ensures forall j :: LifeOf(Install(s, id, outcome).log, j) ==
              if j != id then LifeOf(s.log, j)
              else if Installs(s.heap[id], outcome) then Active
              else if NeedsSetup(s.heap[id]) then Tried
              else Queueing
  {
  }

  lemma CheckIdleKeeps(s: State, next: nat, outcome: SetOutcome)
    requires Inv(s) && next in s.queue && next in s.heap && s.current.None?
    ensures Inv(CheckIdle(s, next, outcome))
  {
    if Installs(s.heap[next], outcome) {
      StartKeeps(s, next, outcome);
    } else {
      DropKeeps(s, next, outcome);
    }
  }

  lemma StartKeeps(s: State, next: nat, outcome: SetOutcome)
    requires Inv(s) && next in s.queue && next in s.heap && s.current.None? && Installs(s.heap[next], outcome)
    ensures Inv(CheckIdle(s, next, outcome))
  {
    var t := CheckIdle(s, next, outcome);
    assert Placed(s, next);
    InstallLife(s.(queue := s.queue - {next}), next, outcome);
    forall j: nat ensures Placed(t, j) { assert Placed(s, j); }
  }

  lemma DropKeeps(s: State, next: nat, outcome: SetOutcome)
    requires Inv(s) && next in s.queue && next in s.heap && s.current.None? && !Installs(s.heap[next], outcome)
    ensures Inv(CheckIdle(s, next, outcome))
  {
    var t := CheckIdle(s, next, outcome);
    assert Placed(s, next);
    InstallLife(s.(queue := s.queue - {next}), next, outcome);
    forall j: nat ensures Placed(t, j) { assert Placed(s, j); }
  }

  lemma CheckFinishKeeps(s: State)
    requires Inv(s) && s.current.Some? && s.current.value in s.heap && s.stack == []
    ensures Inv(CheckFinish(s))
  {
    var t := CheckFinish(s);
    assert Placed(s, s.current.value);
    forall j: nat ensures Placed(t, j) { assert Placed(s, j); }
  }

  lemma CheckStackKeeps(s: State, next: nat, outcome: SetOutcome)
    requires Inv(s) && next in s.queue && next in s.heap && s.current.Some?
    requires !SetOnly(s.heap[next].handlers)
    ensures Inv(CheckStack(s, next, outcome))
  {
    if Installs(s.heap[next], outcome) {
      PauseKeeps(s, next, outcome);
    } else {
      InstallFailureKeeps(s, next, outcome);
    }
  }

  lemma PauseKeeps(s: State, next: nat, outcome: SetOutcome)
    requires Inv(s) && next in s.queue && next in s.heap && s.current.Some? && Installs(s.heap[next], outcome)
    ensures Inv(CheckStack(s, next, outcome))
  {
    var t, cur := CheckStack(s, next, outcome), s.current.value;
    assert Placed(s, next) && Placed(s, cur);
    InstallLife(s.(queue := s.queue - {next}), next, outcome);
    assert t.stack == s.stack + [cur];
    forall j: nat ensures Placed(t, j) { assert Placed(s, j); }
  }

  /** A submission that cannot be installed over a current command leaves no trace but its own FAULT. */
  lemma InstallFailureKeeps(s: State, next: nat, outcome: SetOutcome)
    requires Inv(s) && next in s.queue && next in s.heap && s.current.Some?
    requires !SetOnly(s.heap[next].handlers) && !Installs(s.heap[next], outcome)
    ensures var t := RejectInstall(Install(s.(queue := s.queue - {next}), next, outcome), next);
            Inv(t) && t == s.(queue := t.queue, heap := s.heap - {next}, disposed := t.disposed, log := t.log)
  {
    var t := RejectInstall(Install(s.(queue := s.queue - {next}), next, outcome), next);
    assert Placed(s, next) && Placed(s, s.current.value);
    assert t.heap == s.heap - {next};
    forall j: nat ensures Placed(t, j) { assert Placed(s, j); }
  }

  /** Taking the current command off its functors and putting it back only adds a RUNNING event. */
  lemma RemoveReinstall(s: State, outcome: SetOutcome)
    requires Inv(s) && s.current.Some? && s.current.value in s.heap
    ensures Install(Remove(s, s.current.value), s.current.value, outcome) == Emit(s, s.current.value, Fired(Running))
    ensures Inv(Emit(s, s.current.value, Fired(Running)))
  {
    ReinstallSucceeds(s, s.current.value, outcome);
    var t := Emit(s, s.current.value, Fired(Running));
    forall j: nat ensures Placed(t, j) { assert Placed(s, j); }
  }

  /** Removing the handlers of the current command before or after the failed installation is the same. */
  lemma RejectCommutes(s: State, next: nat, outcome: SetOutcome)
    requires s.current.Some? && s.current.value in s.heap && next in s.heap && next != s.current.value
    requires !Installs(s.heap[next], outcome)
    ensures var q := s.(queue := s.queue - {next});
            RejectInstall(Install(Remove(q, s.current.value), next, outcome), next)
            == Remove(RejectInstall(Install(q, next, outcome), next), s.current.value)
  {
  }

  /** Where the functors point once `next` has taken the place of the removed command `cur`. */
  function TakenOver(functor: Option<nat>, cur: nat, next: nat, implemented: bool): Option<nat>
  {
    if implemented then Some(next) else if functor == Some(cur) then None else functor
  }

  /** The current command is over and another one becomes current, its set handler done. */
  ghost predicate TakesOver(s: State, t: State, next: nat)
  {
    s.current.Some? && s.current.value != next && next in s.heap && next in t.heap &&
    t.queue == s.queue - {next} && t.current == Some(next) &&
    (forall j :: j in t.stack <==> j in s.stack && j != next) && NoDuplicates(t.stack) &&
    t.acquire == TakenOver(s.acquire, s.current.value, next, s.heap[next].handlers.acquire) &&
    t.correlation == TakenOver(s.correlation, s.current.value, next, s.heap[next].handlers.correlation) &&
    t.heap == s.heap[next := t.heap[next]] - {s.current.value} &&
    t.heap[next].handlers == s.heap[next].handlers && Ready(t.heap[next]) &&
    t.dropped == s.dropped && t.disposed == s.disposed + {s.current.value} &&
    forall j :: LifeOf(t.log, j) ==
      if j == next then Active else if j == s.current.value then Finished else LifeOf(s.log, j)
  }

  lemma TakesOverKeeps(s: State, t: State, next: nat)
    requires Inv(s) && TakesOver(s, t, next) && (next in s.queue || next in s.stack)
    ensures Inv(t)
  {
    assert Placed(s, next) && Placed(s, s.current.value);
    forall j: nat ensures Placed(t, j) { assert Placed(s, j); }
    FunctorsTakenOver(s, t, next);
  }

  lemma FunctorsTakenOver(s: State, t: State, next: nat)
    requires Inv(s) && TakesOver(s, t, next)
    ensures FunctorsSafe(t) && FunctorsServeCurrent(t)
  {
    assert Placed(s, s.current.value);
    if s.acquire.Some? { assert Placed(s, s.acquire.value); }
    if s.correlation.Some? { assert Placed(s, s.correlation.value); }
  }

  lemma ReplaceTakesOver(s: State, next: nat, outcome: SetOutcome, farewell: Event)
    requires Inv(s) && next in s.queue && next in s.heap && s.current.Some? && s.current.value in s.heap
    requires next != s.current.value && Installs(s.heap[next], outcome) && Terminal(farewell)
    ensures TakesOver(s, CheckReplace(s, next, outcome, farewell), next)
  {
    assert Placed(s, next) && Placed(s, s.current.value);
  }

  lemma CheckReplaceKeeps(s: State, next: nat, outcome: SetOutcome, farewell: Event)
    requires Inv(s) && next in s.queue && next in s.heap && s.current.Some? && s.current.value in s.heap
    requires next != s.current.value && !SetOnly(s.heap[next].handlers) && Terminal(farewell)
    ensures Inv(CheckReplace(s, next, outcome, farewell))
  {
    if Installs(s.heap[next], outcome) {
      ReplaceTakesOver(s, next, outcome, farewell);
      TakesOverKeeps(s, CheckReplace(s, next, outcome, farewell), next);
    } else {
      ReplaceFailureKeeps(s, next, outcome, farewell);
    }
  }

  /** The submission fails: the command about to be replaced stays current and only sees RUNNING again. */
  lemma ReplaceFailureKeeps(s: State, next: nat, outcome: SetOutcome, farewell: Event)
    requires Inv(s) && next in s.queue && next in s.heap && s.current.Some? && s.current.value in s.heap
    requires next != s.current.value && !SetOnly(s.heap[next].handlers) && !Installs(s.heap[next], outcome)
    ensures var rejected := RejectInstall(Install(s.(queue := s.queue - {next}), next, outcome), next);
            CheckReplace(s, next, outcome, farewell) == Emit(rejected, s.current.value, Fired(Running))
    ensures Inv(CheckReplace(s, next, outcome, farewell))
  {
    InstallFailureKeeps(s, next, outcome);
    var rejected := RejectInstall(Install(s.(queue := s.queue - {next}), next, outcome), next);
    RemoveReinstall(rejected, outcome);
    RejectCommutes(s, next, outcome);
  }

  lemma PoppedStack(ids: seq<nat>)
    requires ids != [] && NoDuplicates(ids)
    ensures NoDuplicates(ids[..|ids| - 1])
    ensures forall j :: j in ids[..|ids| - 1] <==> j in ids && j != ids[|ids| - 1]
  {
    assert ids == ids[..|ids| - 1] + [ids[|ids| - 1]];
  }

  lemma ResumeTakesOver(s: State, outcome: SetOutcome)
    requires Inv(s) && s.current.Some? && s.current.value in s.heap && s.queue == {}
    requires s.stack != [] && s.stack[|s.stack| - 1] in s.heap
    ensures TakesOver(s, CheckResume(s, outcome), s.stack[|s.stack| - 1])
  {
    assert Placed(s, s.stack[|s.stack| - 1]) && Placed(s, s.current.value);
    ResumeShape(s, s.current.value, s.stack[|s.stack| - 1], outcome);
  }

  lemma ResumeShape(s: State, cur: nat, top: nat, outcome: SetOutcome)
    requires s.current == Some(cur) && cur in s.heap && s.queue == {}
    requires s.stack != [] && top == s.stack[|s.stack| - 1] && NoDuplicates(s.stack)
    requires top in s.heap && top != cur && Ready(s.heap[top])
    requires LifeOf(s.log, cur) == Active && LifeOf(s.log, top) == Suspended && FunctorsSafe(s)
    ensures TakesOver(s, CheckResume(s, outcome), top)
  {
    PoppedStack(s.stack);
    var t := CheckResume(s, outcome);
    assert t.queue == s.queue - {top};
    assert s.heap[top := s.heap[top]] == s.heap;
    ResumedLives(s, cur, top, outcome);
  }

  lemma ResumedLives(s: State, cur: nat, top: nat, outcome: SetOutcome)
    requires s.current == Some(cur) && cur in s.heap && s.stack != [] && top == s.stack[|s.stack| - 1]
    requires top in s.heap && top != cur && Ready(s.heap[top])
    requires LifeOf(s.log, cur) == Active && LifeOf(s.log, top) == Suspended
    ensures forall j :: LifeOf(CheckResume(s, outcome).log, j) ==
                          if j == top then Active else if j == cur then Finished else LifeOf(s.log, j)
  {
    var u := Install(Remove(s, cur), top, outcome);
    assert u.log == Emit(s, top, Fired(Running)).log;
    var v := u.(stack := s.stack[..|s.stack| - 1]);
    assert CheckResume(s, outcome).log == Emit(v, cur, Fired(Farewell(s.heap[cur].rp))).log;
  }

  lemma CheckKeeps(s: State, next: nat, outcome: SetOutcome)
    requires Inv(s) && Referenced(s) && (s.queue != {} ==> IsTop(s, next))
    ensures Inv(CheckNext(s, next, outcome))
  {
    if s.queue != {} {
      if s.current.None? {
        CheckIdleKeeps(s, next, outcome);
      } else if SetOnly(s.heap[next].handlers) {
        CheckSetOnlyKeeps(s, next, outcome);
      } else {
        match Decide(s.heap[s.current.value].rp, s.heap[next].rule)
        case NoChange =>
        case TimedRetry =>
        case StackCurrent => CheckStackKeeps(s, next, outcome);
        case KillCurrent => CheckReplaceKeeps(s, next, outcome, Killed);
        case CurrentEnded => CheckReplaceKeeps(s, next, outcome, Completed);
        case CurrentFaulted => CheckReplaceKeeps(s, next, outcome, Fault);
      }
    } else if s.current.Some? && !Alive(s.heap[s.current.value].rp) {
      if s.stack != [] {
        ResumeTakesOver(s, outcome);
        TakesOverKeeps(s, CheckResume(s, outcome), s.stack[|s.stack| - 1]);
      } else {
        CheckFinishKeeps(s);
      }
    }
  }

  lemma StepKeepsInv(s: State, step: Step)
    requires Inv(s) && Referenced(s) && Enabled(s, step)
    ensures Inv(Apply(s, step))
  {
    match step
    case Enqueue(id, c) => EnqueueKeeps(s, id, c);
    case Check(next, outcome) => CheckKeeps(s, next, outcome);
    case Run(a, c, p) => RunKeeps(s, a, c, p);
    case KillCurrent =>
      if s.current.Some? {
        SetPropertyKeeps(s, s.current.value, End);
      }
  }
}
