/** The sandbox object itself: the fields its threads update in place and the code that
    updates them, proved to take exactly the steps of the state machine. */
module BatchCommandSandbox {
  import opened CommandTypes
  import opened CommandLife
  import Spec = Sandbox

  class Sandbox {
    var commandSubmittedQueue: set<nat>
    var commandStack: seq<nat>
    var currentExecutingCommand: Option<nat>
    var acquireFunctor: Option<nat>
    var correlationFunctor: Option<nat>
    var heap: map<nat, BatchCommand>
    var log: seq<Occurrence>
    var dropped: set<nat>
    var disposed: set<nat>

    function Abs(): Spec.State
      reads this
    {
      Spec.State(commandSubmittedQueue, commandStack, currentExecutingCommand, acquireFunctor,
                 correlationFunctor, heap, dropped, disposed, log)
    }

    constructor ()
      ensures Abs() == Spec.Init()
    {
      commandSubmittedQueue, commandStack, currentExecutingCommand := {}, [], None;
      acquireFunctor, correlationFunctor := None, None;
      heap, log, dropped, disposed := map[], [], {}, {};
    }

    method Note(id: nat, act: Act)
      modifies this`log
      ensures Abs() == Spec.Emit(old(Abs()), id, act)
    {
      log := log + [Occurrence(id, act)];
    }

    method Delete(id: nat)
      modifies this`heap, this`disposed
      ensures Abs() == Spec.Dispose(old(Abs()), id)
    {
      heap := heap - {id};
      disposed := disposed + {id};
    }

    method SetRunningProperty(id: nat, rp: RunningProperty)
      requires id in heap
      modifies this`heap
      ensures Abs() == Spec.SetProperty(old(Abs()), id, rp)
    {
      heap := heap[id := heap[id].(rp := rp)];
    }

    method EnqueueCommand(id: nat, command: BatchCommand)
      requires Spec.Referenced(Abs()) && Spec.Enabled(Abs(), Spec.Enqueue(id, command))
      modifies this
      ensures Abs() == Spec.Apply(old(Abs()), Spec.Enqueue(id, command))
    {
      heap := heap[id := command];
      commandSubmittedQueue := commandSubmittedQueue + {id};
      Note(id, Fired(Queued));
    }

    method InstallHandler(toInstall: Option<nat>, outcome: Spec.SetOutcome) returns (installed: bool)
      requires toInstall.Some? ==> toInstall.value in heap
      modifies this
      ensures toInstall.Some? ==>
        Abs() == Spec.Install(old(Abs()), toInstall.value, outcome) &&
        installed == Spec.Installs(old(heap)[toInstall.value], outcome)
      ensures toInstall.None? ==>
        Abs() == old(Abs()).(current := None, acquire := None, correlation := None) && installed
    {
      installed := true;
      if toInstall.None? {
        currentExecutingCommand, acquireFunctor, correlationFunctor := None, None, None;
        return;
      }
      var id := toInstall.value;
      var mask := heap[id].handlers;
      if !heap[id].alreadySetUp && mask.setup {
        Note(id, Called(SetHandler, heap[id].rp));
        match outcome {
          case Returns(rp) =>
            heap := heap[id := heap[id].(rp := rp, alreadySetUp := true)];
          case Throws =>
            installed := false;
            SetRunningProperty(id, Faulted);
        }
      }
      assert Abs() == Spec.SetUp(old(Abs()), id, outcome);
      if SetOnly(mask) || !installed {
        return false;
      }
      if mask.acquire { acquireFunctor := Some(id); }
      if mask.correlation { correlationFunctor := Some(id); }
      currentExecutingCommand := Some(id);
      Note(id, Fired(Running));
    }

    method RemoveHandler(id: nat)
      requires id in heap
      modifies this`acquireFunctor, this`correlationFunctor
      ensures Abs() == Spec.Remove(old(Abs()), id)
    {
      var mask := heap[id].handlers;
      if SetOnly(mask) { return; }
      if mask.acquire && acquireFunctor == Some(id) { acquireFunctor := None; }
      if mask.correlation && correlationFunctor == Some(id) { correlationFunctor := None; }
    }

    method RejectInstall(id: nat)
      requires id in heap
      modifies this
      ensures Abs() == Spec.RejectInstall(old(Abs()), id)
    {
      if heap[id].rp != Exclusive {
        Note(id, Fired(Fault));
      }
      Delete(id);
    }

    /** One iteration of the checker loop; `next` is what `top()` returns. */
    method CheckNextCommand(next: nat, outcome: Spec.SetOutcome)
      requires Spec.Referenced(Abs()) && Spec.Enabled(Abs(), Spec.Check(next, outcome))
      modifies this
      ensures Abs() == Spec.Apply(old(Abs()), Spec.Check(next, outcome))
    {
      if commandSubmittedQueue != {} {
        if currentExecutingCommand.Some? {
          if SetOnly(heap[next].handlers) {
            CheckSetOnly(next, outcome);
          } else {
            CheckAgainstCurrent(next, outcome);
          }
        } else {
          var installed := InstallHandler(Some(next), outcome);
          commandSubmittedQueue := commandSubmittedQueue - {next};
          if !installed { dropped := dropped + {next}; }
        }
      } else {
        var ended := currentExecutingCommand.Some? && !Alive(heap[currentExecutingCommand.value].rp);
        if ended {
          CheckEnded(outcome);
        }
      }
    }

    method CheckSetOnly(next: nat, outcome: Spec.SetOutcome)
      requires next in heap && SetOnly(heap[next].handlers)
      modifies this
      ensures Abs() == Spec.CheckSetOnly(old(Abs()), next, outcome)
    {
      var _ := InstallHandler(Some(next), outcome);
      commandSubmittedQueue := commandSubmittedQueue - {next};
      if heap[next].rp == Faulted {
        Note(next, Fired(Fault));
      } else {
        Note(next, Fired(Completed));
      }
      Delete(next);
    }

    method CheckAgainstCurrent(next: nat, outcome: Spec.SetOutcome)
      requires next in heap && currentExecutingCommand.Some? && currentExecutingCommand.value in heap
      requires next != currentExecutingCommand.value && next in commandSubmittedQueue
      requires Spec.Referenced(Abs()) && Spec.IsTop(Abs(), next) && !SetOnly(heap[next].handlers)
      modifies this
      ensures Abs() == Spec.CheckNext(old(Abs()), next, outcome)
    {
      var tmp := currentExecutingCommand.value;
      var decision := Decide(heap[tmp].rp, heap[next].rule);
      if decision == NoChange || decision == TimedRetry {
        return;
      }
      commandSubmittedQueue := commandSubmittedQueue - {next};
      if decision == StackCurrent {
        var installed := InstallHandler(Some(next), outcome);
        if installed {
          commandStack := commandStack + [tmp];
          Note(tmp, Fired(Paused));
        } else {
          RejectInstall(next);
        }
      } else {
        ReplaceCurrent(tmp, next, outcome,
                       if decision == KillCurrent then Killed else if decision == CurrentEnded then Completed
                       else Fault);
      }
    }

    method ReplaceCurrent(tmp: nat, next: nat, outcome: Spec.SetOutcome, farewell: Event)
      requires next in heap && tmp in heap && next != tmp
      modifies this
      ensures var t := Spec.Install(Spec.Remove(old(Abs()), tmp), next, outcome);
              Abs() == if Spec.Installs(old(heap)[next], outcome)
                       then Spec.Dispose(Spec.Emit(t, tmp, Fired(farewell)), tmp)
                       else Spec.Install(Spec.RejectInstall(t, next), tmp, outcome)
    {
      var commandToDelete := None;
      RemoveHandler(tmp);
      var installed := InstallHandler(Some(next), outcome);
      if installed {
        commandToDelete := Some(tmp);
      } else {
        RejectInstall(next);
        var _ := InstallHandler(Some(tmp), outcome);
      }
      if commandToDelete.Some? {
        Note(commandToDelete.value, Fired(farewell));
        Delete(commandToDelete.value);
      }
    }

    /** The current command has ended or faulted and nothing is queued. */
    method CheckEnded(outcome: Spec.SetOutcome)
      requires currentExecutingCommand.Some? && currentExecutingCommand.value in heap
      requires commandStack != [] ==> commandStack[|commandStack| - 1] in heap
      modifies this
      ensures Abs() == if old(commandStack) != [] then Spec.CheckResume(old(Abs()), outcome)
                       else Spec.CheckFinish(old(Abs()))
    {
      var commandToDelete := currentExecutingCommand.value;
      var farewell := if heap[commandToDelete].rp == Faulted then Fault else Completed;
      RemoveHandler(commandToDelete);
      if commandStack != [] {
        ResumeTop(outcome);
      } else {
        var _ := InstallHandler(None, outcome);
      }
      Note(commandToDelete, Fired(farewell));
      Delete(commandToDelete);
    }

    method ResumeTop(outcome: Spec.SetOutcome)
      requires commandStack != [] && commandStack[|commandStack| - 1] in heap
      modifies this
      ensures Abs() == Spec.Install(old(Abs()), old(commandStack)[|old(commandStack)| - 1], outcome)
                         .(stack := old(commandStack)[..|old(commandStack)| - 1])
    {
      var _ := InstallHandler(Some(commandStack[|commandStack| - 1]), outcome);
      commandStack := commandStack[..|commandStack| - 1];
    }

    /** Calling a functor. */
    method Call(target: Option<nat>, h: Handler, result: RunningProperty)
      requires target.Some? ==> target.value in heap
      modifies this
      ensures Abs() == Spec.Invoke(old(Abs()), target, h, result)
    {
      if target.Some? && Alive(heap[target.value].rp) {
        Note(target.value, Called(h, heap[target.value].rp));
        SetRunningProperty(target.value, result);
      }
    }

    /** One step of the scheduler loop. */
    method RunCommand(acquired: RunningProperty, correlated: RunningProperty, post: Option<RunningProperty>)
      requires Spec.Referenced(Abs())
      modifies this
      ensures Abs() == Spec.Apply(old(Abs()), Spec.Run(acquired, correlated, post))
    {
      if currentExecutingCommand.Some? {
        RunHandlers(acquired, correlated, post);
      }
    }

    method RunHandlers(acquired: RunningProperty, correlated: RunningProperty, post: Option<RunningProperty>)
      requires currentExecutingCommand.Some? && currentExecutingCommand.value in heap
      requires acquireFunctor.Some? ==> acquireFunctor.value in heap
      requires correlationFunctor.Some? ==> correlationFunctor.value in heap
      modifies this
      ensures var u := Spec.CallFunctors(old(Abs()), acquired, correlated);
              Abs() == if post.None? then u else Spec.SetProperty(u, old(currentExecutingCommand).value, post.value)
    {
      CallFunctors(acquired, correlated);
      if post.Some? {
        SetRunningProperty(currentExecutingCommand.value, post.value);
      }
    }

    method CallFunctors(acquired: RunningProperty, correlated: RunningProperty)
      requires acquireFunctor.Some? ==> acquireFunctor.value in heap
      requires correlationFunctor.Some? ==> correlationFunctor.value in heap
      modifies this
      ensures Abs() == Spec.CallFunctors(old(Abs()), acquired, correlated)
      ensures currentExecutingCommand == old(currentExecutingCommand) && heap.Keys == old(heap).Keys
    {
      Call(acquireFunctor, AcquireHandler, acquired);
      Call(correlationFunctor, CorrelationHandler, correlated);
    }

    method KillCurrentCommand()
      requires Spec.Referenced(Abs())
      modifies this
      ensures Abs() == Spec.Apply(old(Abs()), Spec.KillCurrent)
    {
      if currentExecutingCommand.Some? {
        SetRunningProperty(currentExecutingCommand.value, End);
      }
    }
  }
}
