/** One executor with any number of sandboxes. Each sandbox hands its notifications to the
    executor in order, but between any two of them other sandboxes, the capping thread and
    flush requests may run. */
module ExecutorSystem {
  import opened CommandTypes
  import opened CommandLife
  import Sandbox
  import opened SandboxInvariant
  import opened SandboxRuns
  import opened CommandStates

  /** A sandbox and how much of its log the executor has been told. */
  datatype Box = Box(sandbox: Sandbox.State, delivered: nat)

  datatype System = System(boxes: map<nat, Box>, history: seq<Entry>, sequence: nat)

  datatype SystemStep =
    | Submit(channel: nat, command: Option<BatchCommand>)  // None: no instancer for the alias
    | Work(channel: nat, step: Sandbox.Step)
    | Deliver(channel: nat)
    | CapHistory(max: nat)
    | FlushHistory

  predicate SystemEnabled(s: System, step: SystemStep)
  {
    match step
    case Submit(ch, c) =>
      ch in s.boxes && c.Some? ==> Sandbox.Referenced(s.boxes[ch].sandbox) &&
                                   Sandbox.Enabled(s.boxes[ch].sandbox, Sandbox.Enqueue(s.sequence + 1, c.value))
    case Work(ch, w) =>
      ch in s.boxes && !w.Enqueue? && Sandbox.Referenced(s.boxes[ch].sandbox) && Sandbox.Enabled(s.boxes[ch].sandbox, w)
    case Deliver(ch) => ch in s.boxes && s.boxes[ch].delivered < |s.boxes[ch].sandbox.log|
    case _ => true
  }

  function Told(b: Box): Box
    requires b.delivered < |b.sandbox.log|
  {
    b.(delivered := b.delivered + 1)
  }

  function Receive(history: seq<Entry>, o: Occurrence): seq<Entry>
  {
    if o.act.Fired? then Handle(history, o.id, o.act.event) else history
  }

  function SystemApply(s: System, step: SystemStep): System
    requires SystemEnabled(s, step)
  {
    match step
    case Submit(ch, c) =>
      if ch !in s.boxes then s  // execution channel not found
      else if c.None? then s.(sequence := s.sequence + 1)  // the number is used up
      else
        var b := s.boxes[ch];
        s.(sequence := s.sequence + 1,
           boxes := s.boxes[ch := b.(sandbox := Sandbox.Apply(b.sandbox, Sandbox.Enqueue(s.sequence + 1, c.value)))])
    case Work(ch, w) =>
      var b := s.boxes[ch];
      s.(boxes := s.boxes[ch := b.(sandbox := Sandbox.Apply(b.sandbox, w))])
    case Deliver(ch) =>
      var b := s.boxes[ch];
      s.(boxes := s.boxes[ch := Told(b)], history := Receive(s.history, b.sandbox.log[b.delivered]))
    case CapHistory(max) => s.(history := Cap(s.history, max))
    case FlushHistory => s.(history := Flush(s.history))
  }

  /** What the executor has been told about a command. */
  function Seen(b: Box, id: nat): seq<Event>
    requires b.delivered <= |b.sandbox.log|
  {
    Events(Word(b.sandbox.log[..b.delivered], id))
  }

  ghost predicate Owns(b: Box, id: nat) {
    Sandbox.Known(b.sandbox, id)
  }

  ghost predicate BoxOk(b: Box, sequence: nat)
  {
    Inv(b.sandbox) && b.delivered <= |b.sandbox.log| && forall id: nat :: Owns(b, id) ==> id <= sequence
  }

  /** A command reported and not yet reported over is remembered with its last event. */
  predicate Tracked(b: Box, history: seq<Entry>, id: nat)
    requires b.delivered <= |b.sandbox.log|
  {
    var es := Seen(b, id);
    es != [] && !Terminal(es[|es| - 1]) ==> Remembers(history, id, es[|es| - 1])
  }

  /** Nothing is remembered that no sandbox has reported. */
  predicate Reported(s: System, id: nat)
    requires forall ch :: ch in s.boxes ==> s.boxes[ch].delivered <= |s.boxes[ch].sandbox.log|
  {
    exists ch :: ch in s.boxes && Seen(s.boxes[ch], id) != []
  }

  ghost predicate Separate(s: System)
  {
    forall c, d, id: nat :: c in s.boxes && d in s.boxes && c != d ==> !(Owns(s.boxes[c], id) && Owns(s.boxes[d], id))
  }

  ghost predicate SystemInv(s: System)
  {
    (forall ch :: ch in s.boxes ==> BoxOk(s.boxes[ch], s.sequence)) && Separate(s) && Unique(s.history) &&
    (forall ch, id: nat :: ch in s.boxes ==> Tracked(s.boxes[ch], s.history, id)) &&
    (forall id :: id in Ids(s.history) ==> Reported(s, id))
  }

  // ---------- prefixes of a log ----------

  lemma {:induction false} PrefixLife(log: seq<Occurrence>, k: nat, id: nat)
    requires k <= |log| && LifeOf(log, id) != Broken
    ensures LifeOf(log[..k], id) != Broken
    ensures LifeOf(log[..k], id) != Unborn ==> LifeOf(log, id) != Unborn
    decreases |log|
  {
    if k < |log| {
      var shorter := log[..|log| - 1];
      assert LifeOf(shorter, id) != Broken;
      PrefixLife(shorter, k, id);
      assert shorter[..k] == log[..k];
    } else {
      assert log[..k] == log;
    }
  }

  lemma KnownIsBorn(s: Sandbox.State, id: nat)
    requires Inv(s)
    ensures Sandbox.Known(s, id) <==> LifeOf(s.log, id) != Unborn
  {
    assert Placed(s, id);
  }

  lemma SeenIsLegal(b: Box, id: nat)
    requires Inv(b.sandbox) && b.delivered <= |b.sandbox.log|
    ensures LegalEvents(Seen(b, id))
    ensures Seen(b, id) != [] ==> Owns(b, id)
  {
    var log := b.sandbox.log;
    assert Placed(b.sandbox, id);
    PrefixLife(log, b.delivered, id);
    WordIsLegal(log[..b.delivered], id);
    KnownIsBorn(b.sandbox, id);
  }

  lemma ToldSees(b: Box, id: nat)
    requires b.delivered < |b.sandbox.log|
    ensures var o := b.sandbox.log[b.delivered];
            Seen(Told(b), id) == if o.id == id && o.act.Fired? then Seen(b, id) + [o.act.event] else Seen(b, id)
  {
    var log, k := b.sandbox.log, b.delivered;
    assert log[..k + 1][..k] == log[..k];
    var w := Word(log[..k], id);
    if log[k].id == id {
      assert (w + [log[k].act])[..|w|] == w;
    }
  }

  // ---------- every step of a sandbox only adds to its log ----------

  lemma InstallLog(s: Sandbox.State, id: nat, outcome: Sandbox.SetOutcome)
    requires id in s.heap
    ensures s.log <= Sandbox.Install(s, id, outcome).log
  {
  }

  lemma CheckLog(s: Sandbox.State, next: nat, outcome: Sandbox.SetOutcome)
    requires Sandbox.Referenced(s) && (s.queue != {} ==> Sandbox.IsTop(s, next))
    ensures s.log <= Sandbox.CheckNext(s, next, outcome).log
  {
    if s.queue != {} {
      var q := s.(queue := s.queue - {next});
      InstallLog(q, next, outcome);
      if s.current.Some? {
        match Decide(s.heap[s.current.value].rp, s.heap[next].rule)
        case KillCurrent => ReplaceLog(s, next, outcome, Killed);
        case CurrentEnded => ReplaceLog(s, next, outcome, Completed);
        case CurrentFaulted => ReplaceLog(s, next, outcome, Fault);
        case _ =>
      }
    } else if s.current.Some? && s.stack != [] {
      InstallLog(Sandbox.Remove(s, s.current.value), s.stack[|s.stack| - 1], outcome);
    }
  }

  lemma ReplaceLog(s: Sandbox.State, next: nat, outcome: Sandbox.SetOutcome, farewell: Event)
    requires next in s.heap && s.current.Some? && s.current.value in s.heap && next != s.current.value
    ensures s.log <= Sandbox.CheckReplace(s, next, outcome, farewell).log
  {
    var r := Sandbox.Remove(s.(queue := s.queue - {next}), s.current.value);
    InstallLog(r, next, outcome);
    var t := Sandbox.Install(r, next, outcome);
    if !Sandbox.Installs(s.heap[next], outcome) {
      var u := Sandbox.RejectInstall(t, next);
      assert t.log <= u.log;
      InstallLog(u, s.current.value, outcome);
    }
  }

  lemma LogGrows(s: Sandbox.State, step: Sandbox.Step)
    requires Sandbox.Referenced(s) && Sandbox.Enabled(s, step)
    requires Inv(s)
    ensures s.log <= Sandbox.Apply(s, step).log
  {
    match step
    case Enqueue(_, _) =>
    case Check(next, outcome) => CheckLog(s, next, outcome);
    case Run(a, c, p) =>
      if s.current.Some? {
        InvokeKeeps(s, s.acquire, AcquireHandler, a);
        var t := Sandbox.Invoke(s, s.acquire, AcquireHandler, a);
        assert s.log <= t.log;
        InvokeKeeps(t, t.correlation, CorrelationHandler, c);
        assert t.log <= Sandbox.Invoke(t, t.correlation, CorrelationHandler, c).log;
      }
    case KillCurrent =>
  }

  // ---------- every step keeps the invariant ----------

  /** A sandbox step changes neither what the executor was told nor, unless it is a submission
      of `id`, who owns what. */
  lemma BoxStep(b: Box, step: Sandbox.Step, sequence: nat)
    requires BoxOk(b, sequence) && Sandbox.Referenced(b.sandbox) && Sandbox.Enabled(b.sandbox, step)
    requires step.Enqueue? ==> step.id <= sequence
    ensures var c := b.(sandbox := Sandbox.Apply(b.sandbox, step));
            BoxOk(c, sequence) &&
            (forall id: nat :: Owns(c, id) <==> Owns(b, id) || (step.Enqueue? && step.id == id)) &&
            (forall id: nat :: Seen(c, id) == Seen(b, id))
  {
    var c := b.(sandbox := Sandbox.Apply(b.sandbox, step));
    StepKeepsInv(b.sandbox, step);
    LogGrows(b.sandbox, step);
    forall id: nat ensures Owns(c, id) <==> Owns(b, id) || (step.Enqueue? && step.id == id) {
      KnownStep(b.sandbox, step, id);
    }
    assert c.sandbox.log[..c.delivered] == b.sandbox.log[..b.delivered];
  }

  /** Replacing one box by another with the same reports keeps the executor's side. */
  lemma BoxReplaced(s: System, ch: nat, c: Box, sequence: nat)
    requires SystemInv(s) && ch in s.boxes && s.sequence <= sequence && BoxOk(c, sequence)
    requires forall id: nat :: Seen(c, id) == Seen(s.boxes[ch], id)
    requires forall id: nat :: Owns(c, id) ==> Owns(s.boxes[ch], id) || id > s.sequence
    ensures SystemInv(s.(boxes := s.boxes[ch := c], sequence := sequence))
  {
    var t := s.(boxes := s.boxes[ch := c], sequence := sequence);
    forall d | d in t.boxes ensures BoxOk(t.boxes[d], sequence) {
      assert BoxOk(s.boxes[d], s.sequence);
    }
    forall id | id in Ids(t.history) ensures Reported(t, id) {
      var d :| d in s.boxes && Seen(s.boxes[d], id) != [];
      assert d in t.boxes && Seen(t.boxes[d], id) != [];
    }
    forall d, id: nat | d in t.boxes ensures Tracked(t.boxes[d], t.history, id) {
      assert Tracked(s.boxes[d], s.history, id);
    }
    SeparateReplaced(s, ch, c, sequence);
  }

  lemma SeparateReplaced(s: System, ch: nat, c: Box, sequence: nat)
    requires SystemInv(s) && ch in s.boxes
    requires forall id: nat :: Owns(c, id) ==> Owns(s.boxes[ch], id) || id > s.sequence
    ensures Separate(s.(boxes := s.boxes[ch := c], sequence := sequence))
  {
    var t := s.(boxes := s.boxes[ch := c], sequence := sequence);
    forall a, d, id: nat | a in t.boxes && d in t.boxes && a != d
      ensures !(Owns(t.boxes[a], id) && Owns(t.boxes[d], id))
    {
      assert BoxOk(s.boxes[a], s.sequence) && BoxOk(s.boxes[d], s.sequence);
      assert !(Owns(s.boxes[a], id) && Owns(s.boxes[d], id));
    }
  }

  lemma HistoryTrimmed(s: System, h: seq<Entry>)
    requires SystemInv(s) && Unique(h)
    requires forall e :: e in h ==> e in s.history
    requires forall e :: e in s.history && !Terminal(e.last) ==> e in h
    ensures SystemInv(s.(history := h))
  {
    var t := s.(history := h);
    forall ch, id: nat | ch in t.boxes ensures Tracked(t.boxes[ch], h, id) {
      assert Tracked(s.boxes[ch], s.history, id);
    }
    forall id | id in Ids(h) ensures Reported(t, id) {
      assert Reported(s, id);
      var d :| d in s.boxes && Seen(s.boxes[d], id) != [];
      assert d in t.boxes && Seen(t.boxes[d], id) != [];
    }
  }

  /** QUEUED arrives for a command the executor does not know; any other event for one it
      still remembers. */
  lemma DeliveryExpected(s: System, ch: nat)
    requires SystemInv(s) && ch in s.boxes && s.boxes[ch].delivered < |s.boxes[ch].sandbox.log|
    requires s.boxes[ch].sandbox.log[s.boxes[ch].delivered].act.Fired?
    ensures var o := s.boxes[ch].sandbox.log[s.boxes[ch].delivered];
            if o.act.event == Queued then o.id !in Ids(s.history) else o.id in Ids(s.history)
  {
    var b := s.boxes[ch];
    var o := b.sandbox.log[b.delivered];
    assert BoxOk(b, s.sequence) && Tracked(b, s.history, o.id);
    ToldSees(b, o.id);
    SeenIsLegal(Told(b), o.id);
    var es, fs := Seen(b, o.id), Seen(Told(b), o.id);
    assert fs == es + [o.act.event];
    if o.act.event == Queued {
      assert es != [] ==> Follows(fs[|es| - 1], fs[|es|]);
      if o.id in Ids(s.history) {
        var d :| d in s.boxes && Seen(s.boxes[d], o.id) != [];
        assert BoxOk(s.boxes[d], s.sequence);
        SeenIsLegal(s.boxes[d], o.id);
        assert Owns(s.boxes[d], o.id) && Owns(b, o.id);
      }
    } else {
      assert Follows(fs[|es| - 1], fs[|es|]);
      assert Remembers(s.history, o.id, es[|es| - 1]);
      assert Entry(o.id, es[|es| - 1]).id in Ids(s.history);
    }
  }

  lemma DeliverKeeps(s: System, ch: nat)
    requires SystemInv(s) && SystemEnabled(s, Deliver(ch))
    ensures SystemInv(SystemApply(s, Deliver(ch)))
  {
    var b, t := s.boxes[ch], SystemApply(s, Deliver(ch));
    var o := b.sandbox.log[b.delivered];
    assert BoxOk(b, s.sequence);
    if o.act.Fired? {
      DeliveryExpected(s, ch);
      HandleKeeps(s.history, o.id, o.act.event);
    }
    ToldOk(b, s.sequence);
    forall d | d in t.boxes ensures BoxOk(t.boxes[d], t.sequence) {
      assert BoxOk(s.boxes[d], s.sequence);
    }
    SeparateTold(s, ch);
    forall d, id: nat | d in t.boxes ensures Tracked(t.boxes[d], t.history, id) {
      DeliverTracks(s, ch, d, id);
    }
    forall id | id in Ids(t.history) ensures Reported(t, id) {
      DeliverReports(s, ch, id);
    }
  }

  lemma ToldOk(b: Box, sequence: nat)
    requires BoxOk(b, sequence) && b.delivered < |b.sandbox.log|
    ensures BoxOk(Told(b), sequence)
  {
    assert forall id: nat :: Owns(Told(b), id) ==> Owns(b, id);
  }

  lemma SeparateTold(s: System, ch: nat)
    requires SystemInv(s) && SystemEnabled(s, Deliver(ch))
    ensures Separate(SystemApply(s, Deliver(ch)))
  {
    var t := SystemApply(s, Deliver(ch));
    forall c, d, id: nat | c in t.boxes && d in t.boxes && c != d
      ensures !(Owns(t.boxes[c], id) && Owns(t.boxes[d], id))
    {
      assert !(Owns(s.boxes[c], id) && Owns(s.boxes[d], id));
    }
  }

  lemma DeliverTracks(s: System, ch: nat, d: nat, id: nat)
    requires SystemInv(s) && SystemEnabled(s, Deliver(ch)) && d in s.boxes
    ensures var t := SystemApply(s, Deliver(ch));
            t.boxes[d].delivered <= |t.boxes[d].sandbox.log| && Tracked(t.boxes[d], t.history, id)
  {
    var b, t := s.boxes[ch], SystemApply(s, Deliver(ch));
    var o := b.sandbox.log[b.delivered];
    assert BoxOk(s.boxes[d], s.sequence) && Tracked(s.boxes[d], s.history, id);
    ToldSees(b, id);
    if o.act.Fired? {
      DeliveryExpected(s, ch);
      HandleKeeps(s.history, o.id, o.act.event);
      if o.id == id && d != ch {
        OthersNotSeen(s, ch, d, id);
      }
    }
  }

  lemma OthersNotSeen(s: System, ch: nat, d: nat, id: nat)
    requires SystemInv(s) && SystemEnabled(s, Deliver(ch)) && d in s.boxes && d != ch
    requires s.boxes[ch].sandbox.log[s.boxes[ch].delivered].act.Fired?
    requires s.boxes[ch].sandbox.log[s.boxes[ch].delivered].id == id
    ensures s.boxes[d].delivered <= |s.boxes[d].sandbox.log| && Seen(s.boxes[d], id) == []
  {
    var b := s.boxes[ch];
    assert BoxOk(b, s.sequence) && BoxOk(s.boxes[d], s.sequence);
    ToldSees(b, id);
    SeenIsLegal(Told(b), id);
    SeenIsLegal(s.boxes[d], id);
    assert Owns(b, id);
    assert !(Owns(b, id) && Owns(s.boxes[d], id));
  }

  lemma DeliverReports(s: System, ch: nat, id: nat)
    requires SystemInv(s) && SystemEnabled(s, Deliver(ch)) && id in Ids(SystemApply(s, Deliver(ch)).history)
    requires forall d :: d in s.boxes ==> BoxOk(SystemApply(s, Deliver(ch)).boxes[d], s.sequence)
    ensures Reported(SystemApply(s, Deliver(ch)), id)
  {
    var b, t := s.boxes[ch], SystemApply(s, Deliver(ch));
    var o := b.sandbox.log[b.delivered];
    ToldSees(b, id);
    if o.act.Fired? {
      DeliveryExpected(s, ch);
      HandleKeeps(s.history, o.id, o.act.event);
    }
    if id in Ids(s.history) {
      assert Reported(s, id);
      var d :| d in s.boxes && Seen(s.boxes[d], id) != [];
      assert d in t.boxes && Seen(t.boxes[d], id) != [];
    } else {
      assert ch in t.boxes && Seen(t.boxes[ch], id) != [];
    }
  }

  lemma SystemStepKeeps(s: System, step: SystemStep)
    requires SystemInv(s) && SystemEnabled(s, step)
    ensures SystemInv(SystemApply(s, step))
  {
    match step
    case Submit(ch, c) =>
      if ch in s.boxes {
        var b, next := s.boxes[ch], s.sequence + 1;
        assert BoxOk(b, s.sequence);
        assert BoxOk(b, next);
        if c.Some? {
          BoxStep(b, Sandbox.Enqueue(next, c.value), next);
          BoxReplaced(s, ch, b.(sandbox := Sandbox.Apply(b.sandbox, Sandbox.Enqueue(next, c.value))), next);
        } else {
          BoxReplaced(s, ch, b, next);
          assert s.boxes[ch := b] == s.boxes;
        }
      }
    case Work(ch, w) =>
      var b := s.boxes[ch];
      assert BoxOk(b, s.sequence);
      BoxStep(b, w, s.sequence);
      BoxReplaced(s, ch, b.(sandbox := Sandbox.Apply(b.sandbox, w)), s.sequence);
    case Deliver(ch) => DeliverKeeps(s, ch);
    case CapHistory(max) =>
      CapKeepsLive(s.history, max);
      HistoryTrimmed(s, Cap(s.history, max));
    case FlushHistory =>
      FlushKeepsLive(s.history);
      HistoryTrimmed(s, Flush(s.history));
  }

  // ---------- runs ----------

  function Boot(channels: set<nat>): System
  {
    System(map ch | ch in channels :: Box(Sandbox.Init(), 0), [], 0)
  }

  ghost predicate IsSystemRun(channels: set<nat>, states: seq<System>, steps: seq<SystemStep>)
  {
    |states| == |steps| + 1 && states[0] == Boot(channels) &&
    forall i {:trigger steps[i]} :: 0 <= i < |steps| ==>
      SystemEnabled(states[i], steps[i]) && states[i + 1] == SystemApply(states[i], steps[i])
  }

  lemma BootInv(channels: set<nat>)
    ensures SystemInv(Boot(channels))
  {
    InvInit();
  }

  lemma {:induction false} SystemRunKeeps(channels: set<nat>, states: seq<System>, steps: seq<SystemStep>, k: nat)
    requires IsSystemRun(channels, states, steps) && k < |states|
    ensures SystemInv(states[k])
  {
    if k == 0 {
      BootInv(channels);
    } else {
      SystemRunKeeps(channels, states, steps, k - 1);
      SystemStepKeeps(states[k - 1], steps[k - 1]);
    }
  }

  /** Submitting is always possible: the number the executor hands out is new everywhere. */
  lemma SubmissionNeverStuck(channels: set<nat>, states: seq<System>, steps: seq<SystemStep>, ch: nat, c: BatchCommand)
    requires IsSystemRun(channels, states, steps) && !c.alreadySetUp
    ensures SystemEnabled(states[|steps|], Submit(ch, Some(c)))
  {
    var s := states[|steps|];
    SystemRunKeeps(channels, states, steps, |steps|);
    if ch in s.boxes {
      assert BoxOk(s.boxes[ch], s.sequence);
      InvReferenced(s.boxes[ch].sandbox);
      assert !Owns(s.boxes[ch], s.sequence + 1);
    }
  }

  /** Main result: in every reachable state, whatever capping and flushing did in between, each
      queued, current or paused command of a sandbox that has handed over its notifications is
      remembered by the executor with QUEUED, RUNNING or PAUSED according to where it is; a
      dropped command stays there as QUEUED for ever. */
  lemma LiveCommandsTracked(channels: set<nat>, states: seq<System>, steps: seq<SystemStep>, k: nat, ch: nat, id: nat)
    requires IsSystemRun(channels, states, steps) && k < |states|
    requires ch in states[k].boxes && states[k].boxes[ch].delivered == |states[k].boxes[ch].sandbox.log|
    ensures var s := states[k]; var box := s.boxes[ch].sandbox;
            (id in box.queue || id in box.dropped ==> Remembers(s.history, id, Queued)) &&
            (box.current == Some(id) ==> Remembers(s.history, id, Running)) &&
            (id in box.stack ==> Remembers(s.history, id, Paused))
    ensures Unique(states[k].history)
  {
    var s := states[k];
    SystemRunKeeps(channels, states, steps, k);
    var b := s.boxes[ch];
    assert BoxOk(b, s.sequence) && Tracked(b, s.history, id);
    assert b.sandbox.log[..b.delivered] == b.sandbox.log;
    StoryAt(b.sandbox, id);
  }

  /** The same while notifications are still on their way: the history agrees with the part told. */
  lemma ToldCommandsTracked(channels: set<nat>, states: seq<System>, steps: seq<SystemStep>, k: nat, ch: nat, id: nat)
    requires IsSystemRun(channels, states, steps) && k < |states| && ch in states[k].boxes
    ensures var b := states[k].boxes[ch];
            b.delivered <= |b.sandbox.log| && Tracked(b, states[k].history, id) && LegalEvents(Seen(b, id))
  {
    SystemRunKeeps(channels, states, steps, k);
    assert BoxOk(states[k].boxes[ch], states[k].sequence);
    SeenIsLegal(states[k].boxes[ch], id);
  }
}
