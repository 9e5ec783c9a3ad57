/** Vocabulary shared by the batch command sandbox and the batch command executor. */
module CommandTypes {

  datatype Option<+T> = None | Some(value: T)

  /** Notifications a sandbox sends about one command, in the order of their numeric codes. */
  datatype Event = Queued | Waiting | Running | Paused | Completed | Fault | Killed

  function Code(e: Event): nat
  {
    match e
    case Queued => 0
    case Waiting => 1
    case Running => 2
    case Paused => 3
    case Completed => 4
    case Fault => 5
    case Killed => 6
  }

  /** A command state may be forgotten once its last event is one of the last three. */
  predicate Terminal(e: Event) {
    Code(e) >= Code(Completed)
  }

  datatype RunningProperty = Exclusive | Normal | End | Faulted

  /** `runningProperty < RP_End`: the command still has steps to run. */
  predicate Alive(rp: RunningProperty) {
    rp == Exclusive || rp == Normal
  }

  datatype SubmissionRule = SubmitStack | SubmitKill | SubmitNormal

  datatype Handler = SetHandler | AcquireHandler | CorrelationHandler

  /** The handlers a command implements; one flag per bit of the mask. */
  datatype Handlers = Handlers(setup: bool, acquire: bool, correlation: bool)

  /** Mask at most 1: nothing to schedule after the set handler. */
  predicate SetOnly(h: Handlers) {
    !h.acquire && !h.correlation
  }

  datatype BatchCommand = BatchCommand(
    handlers: Handlers,
    rule: SubmissionRule,
    priority: int,
    rp: RunningProperty,
    alreadySetUp: bool)

  datatype Decision = NoChange | TimedRetry | StackCurrent | KillCurrent | CurrentEnded | CurrentFaulted

  /** The running-versus-submission table. */
  function Decide(running: RunningProperty, submitted: SubmissionRule): Decision
  {
    match (running, submitted)
    case (Exclusive, SubmitNormal) => NoChange
    case (Exclusive, _) => TimedRetry
    case (Normal, SubmitStack) => StackCurrent
    case (Normal, SubmitKill) => KillCurrent
    case (Normal, SubmitNormal) => NoChange
    case (End, _) => CurrentEnded
    case (Faulted, _) => CurrentFaulted
  }
}
