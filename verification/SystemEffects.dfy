/** What each step of the executor with its sandboxes does to all of its state, in every run. */
module SystemEffects {
  import opened CommandTypes
  import opened CommandLife
  import Sandbox
  import opened SandboxInvariant
  import SandboxRuns
  import opened CommandStates
  import opened ExecutorSystem

  lemma SystemRunStep(channels: set<nat>, states: seq<System>, steps: seq<SystemStep>, k: nat)
    requires IsSystemRun(channels, states, steps) && k < |steps|
    ensures SystemInv(states[k]) && SystemEnabled(states[k], steps[k])
    ensures states[k + 1] == SystemApply(states[k], steps[k])
  {
    SystemRunKeeps(channels, states, steps, k);
  }

  /** The sandbox `box` with one more submission. */
  function Accepted(box: Sandbox.State, id: nat, c: BatchCommand): Sandbox.State {
    box.(queue := box.queue + {id}, heap := box.heap[id := c], log := box.log + [Occurrence(id, Fired(Queued))])
  }

  /** A submission to a channel that exists uses up the next number; with an instance it puts the command under this
      number, which nobody has had before, into the queue of that sandbox and reports it QUEUED. */
  lemma SubmissionEnqueues(channels: set<nat>, states: seq<System>, steps: seq<SystemStep>, k: nat)
    requires IsSystemRun(channels, states, steps) && k < |steps| && steps[k].Submit?
    ensures var s, t, ch, id := states[k], states[k + 1], steps[k].channel, states[k].sequence + 1;
            t == if ch !in s.boxes then s
                 else if steps[k].command.None? then s.(sequence := id)
                 else var b := s.boxes[ch];
                      s.(sequence := id,
                         boxes := s.boxes[ch := Box(Accepted(b.sandbox, id, steps[k].command.value), b.delivered)])
    ensures forall ch :: ch in states[k].boxes ==> !Owns(states[k].boxes[ch], states[k].sequence + 1)
  {
    SystemRunStep(channels, states, steps, k);
    assert forall ch :: ch in states[k].boxes ==> BoxOk(states[k].boxes[ch], states[k].sequence);
  }

  /** A thread of a sandbox takes one step of that sandbox and touches nothing else. */
  lemma WorkStaysInItsBox(channels: set<nat>, states: seq<System>, steps: seq<SystemStep>, k: nat)
    requires IsSystemRun(channels, states, steps) && k < |steps| && steps[k].Work?
    ensures var s, t, ch := states[k], states[k + 1], steps[k].channel;
            ch in s.boxes && ch in t.boxes && !steps[k].step.Enqueue? &&
            SandboxRuns.Steps(s.boxes[ch].sandbox, steps[k].step, t.boxes[ch].sandbox) &&
            t == s.(boxes := s.boxes[ch := Box(t.boxes[ch].sandbox, s.boxes[ch].delivered)])
  {
    SystemRunStep(channels, states, steps, k);
    assert BoxOk(states[k].boxes[steps[k].channel], states[k].sequence);
  }

  /** What the executor does with one notification: QUEUED is appended, another event replaces the last event of
      its command, a handler call is not its business. */
  predicate Noted(h: seq<Entry>, o: Occurrence, r: seq<Entry>) {
    match o.act
    case Called(_, _) => r == h
    case Fired(e) =>
      if e == Queued then r == h + [Entry(o.id, Queued)]
      else |r| == |h| && (exists i :: 0 <= i < |h| && h[i].id == o.id) &&
           forall i :: 0 <= i < |h| ==> r[i] == if h[i].id == o.id then Entry(o.id, e) else h[i]
  }

  /** A delivery hands over the next notification of one sandbox. */
  lemma DeliveryNotes(channels: set<nat>, states: seq<System>, steps: seq<SystemStep>, k: nat)
    requires IsSystemRun(channels, states, steps) && k < |steps| && steps[k].Deliver?
    ensures var s, t, ch := states[k], states[k + 1], steps[k].channel;
            ch in s.boxes && s.boxes[ch].delivered < |s.boxes[ch].sandbox.log| &&
            var b := s.boxes[ch];
            Noted(s.history, b.sandbox.log[b.delivered], t.history) &&
            t == s.(boxes := s.boxes[ch := Box(b.sandbox, b.delivered + 1)], history := t.history)
  {
    SystemRunStep(channels, states, steps, k);
    var s, ch := states[k], steps[k].channel;
    var o := s.boxes[ch].sandbox.log[s.boxes[ch].delivered];
    if o.act.Fired? {
      DeliveryExpected(s, ch);
    }
  }

  /** Capping: the history is brought down to `max` or to the live commands alone, all of which stay as they are. */
  lemma CappingShortens(channels: set<nat>, states: seq<System>, steps: seq<SystemStep>, k: nat)
    requires IsSystemRun(channels, states, steps) && k < |steps| && steps[k].CapHistory?
    ensures var s, t, max := states[k], states[k + 1], steps[k].max;
            t == s.(history := t.history) &&
            (|s.history| <= max ==> t.history == s.history) &&
            (|s.history| > max ==>
               |t.history| >= max && (|t.history| == max || forall e :: e in t.history ==> !Terminal(e.last))) &&
            (forall e :: e in t.history ==> e in s.history) &&
            (forall e :: e in s.history && !Terminal(e.last) ==> e in t.history)
  {
    SystemRunStep(channels, states, steps, k);
    var h, max := states[k].history, steps[k].max;
    CapKeepsLive(h, max);
    if |h| > max {
      CapOutcome(h, max);
      CapLength(h, max);
    }
  }

  /** More than `max` entries are left only when all terminated ones are gone. */
  lemma CapLength(d: seq<Entry>, max: nat)
    requires |d| > max
    ensures |Cap(d, max)| > max ==> forall e :: e in Cap(d, max) ==> !Terminal(e.last)
  {
    var k := PoppedFor(d, |d| - max);
    PoppedCounts(d, |d| - max);
    CapOutcome(d, max);
    if |Cap(d, max)| > max {
      assert k == |d|;
      assert d[..k] == d;
      LiveFacts(d);
      Sequences.ReversedFacts(Live(d));
    }
  }

  lemma FlushingShortens(channels: set<nat>, states: seq<System>, steps: seq<SystemStep>, k: nat)
    requires IsSystemRun(channels, states, steps) && k < |steps| && steps[k].FlushHistory?
    ensures var s, t := states[k], states[k + 1];
            t == s.(history := t.history) && t.history <= s.history &&
            (forall i :: |t.history| <= i < |s.history| ==> Terminal(s.history[i].last)) &&
            (t.history != [] ==> !Terminal(t.history[|t.history| - 1].last))
  {
    SystemRunStep(channels, states, steps, k);
    FlushOutcome(states[k].history);
  }

  // ---------- what can always happen ----------

  lemma {:induction false} HighestPriority(ids: set<nat>, heap: map<nat, BatchCommand>) returns (top: nat)
    requires ids != {} && forall id :: id in ids ==> id in heap
    ensures top in ids && forall id :: id in ids ==> heap[id].priority <= heap[top].priority
    decreases |ids|
  {
    var one :| one in ids;
    top := one;
    var rest := ids - {one};
    if rest != {} {
      var best := HighestPriority(rest, heap);
      if heap[best].priority > heap[one].priority {
        top := best;
      }
    }
    forall id | id in ids ensures heap[id].priority <= heap[top].priority {
      assert id == one || id in rest;
    }
  }

  /** In every reachable state each sandbox can be checked, with any outcome of a set handler, can be run and killed,
      and the executor can take a notification exactly when there is one. */
  lemma ThreadsNeverStuck(channels: set<nat>, states: seq<System>, steps: seq<SystemStep>, ch: nat,
                          outcome: Sandbox.SetOutcome, a: RunningProperty, c: RunningProperty,
                          p: Option<RunningProperty>)
    returns (next: nat)
    requires IsSystemRun(channels, states, steps) && ch in channels
    ensures var s := states[|steps|];
            ch in s.boxes && SystemEnabled(s, Work(ch, Sandbox.Check(next, outcome))) &&
            SystemEnabled(s, Work(ch, Sandbox.Run(a, c, p))) &&
            SystemEnabled(s, Work(ch, Sandbox.Step.KillCurrent)) &&
            (SystemEnabled(s, Deliver(ch)) <==> s.boxes[ch].delivered != |s.boxes[ch].sandbox.log|)
  {
    var s := states[|steps|];
    SystemRunKeeps(channels, states, steps, |steps|);
    NumbersHandedOut(channels, states, steps, |steps|);
    assert BoxOk(s.boxes[ch], s.sequence);
    var box := s.boxes[ch].sandbox;
    InvReferenced(box);
    next := 0;
    if box.queue != {} {
      next := HighestPriority(box.queue, box.heap);
    }
  }

  /** The executor can always catch up with a sandbox, which is then tracked in full. */
  lemma {:induction false} CatchUp(channels: set<nat>, states: seq<System>, steps: seq<SystemStep>, ch: nat)
    returns (longer: seq<System>, more: seq<SystemStep>)
    requires IsSystemRun(channels, states, steps) && ch in states[|steps|].boxes
    ensures IsSystemRun(channels, longer, more) && states <= longer && steps <= more
    ensures ch in longer[|more|].boxes
    ensures var b := longer[|more|].boxes[ch];
            b.sandbox == states[|steps|].boxes[ch].sandbox && b.delivered == |b.sandbox.log|
    decreases |states[|steps|].boxes[ch].sandbox.log| - states[|steps|].boxes[ch].delivered
  {
    var s := states[|steps|];
    SystemRunKeeps(channels, states, steps, |steps|);
    assert BoxOk(s.boxes[ch], s.sequence);
    longer, more := states, steps;
    if s.boxes[ch].delivered < |s.boxes[ch].sandbox.log| {
      var t := SystemApply(s, Deliver(ch));
      RunExtends(channels, states, steps, Deliver(ch));
      DeliveryNotes(channels, states + [t], steps + [Deliver(ch)], |steps|);
      longer, more := CatchUp(channels, states + [t], steps + [Deliver(ch)], ch);
    }
  }

  lemma RunExtends(channels: set<nat>, states: seq<System>, steps: seq<SystemStep>, step: SystemStep)
    requires IsSystemRun(channels, states, steps) && SystemEnabled(states[|steps|], step)
    ensures IsSystemRun(channels, states + [SystemApply(states[|steps|], step)], steps + [step])
  {
    var longer, more := states + [SystemApply(states[|steps|], step)], steps + [step];
    forall i | 0 <= i < |more|
      ensures SystemEnabled(longer[i], more[i]) && longer[i + 1] == SystemApply(longer[i], more[i])
    {
      if i < |steps| { assert more[i] == steps[i]; }
    }
  }

  // ---------- numbers ----------

  /** How many numbers have been handed out: one for each submission to a channel that exists. */
  function Numbers(channels: set<nat>, steps: seq<SystemStep>): nat {
    if steps == [] then 0
    else
      var last := steps[|steps| - 1];
      Numbers(channels, steps[..|steps| - 1]) + if last.Submit? && last.channel in channels then 1 else 0
  }

  /** Step `i` has submitted a command under the number `id` to the sandbox `ch`. */
  predicate SubmittedAs(channels: set<nat>, steps: seq<SystemStep>, i: nat, ch: nat, id: nat)
    requires i < |steps|
  {
    steps[i].Submit? && steps[i].channel == ch && steps[i].command.Some? && id == Numbers(channels, steps[..i]) + 1
  }

  ghost predicate Submitted(channels: set<nat>, steps: seq<SystemStep>, k: nat, ch: nat, id: nat)
    requires k <= |steps|
  {
    exists i: nat :: i < k && SubmittedAs(channels, steps, i, ch, id)
  }

  lemma {:induction false} NumbersHandedOut(channels: set<nat>, states: seq<System>, steps: seq<SystemStep>, k: nat)
    requires IsSystemRun(channels, states, steps) && k < |states|
    ensures states[k].boxes.Keys == channels && states[k].sequence == Numbers(channels, steps[..k])
  {
    if k > 0 {
      NumbersHandedOut(channels, states, steps, k - 1);
      SystemRunStep(channels, states, steps, k - 1);
      assert steps[..k][..k - 1] == steps[..k - 1];
    }
  }

  lemma OwnershipStep(channels: set<nat>, states: seq<System>, steps: seq<SystemStep>, k: nat, ch: nat, id: nat)
    requires IsSystemRun(channels, states, steps) && k < |steps| && ch in channels
    requires states[k].boxes.Keys == channels && states[k + 1].boxes.Keys == channels
    requires states[k].sequence == Numbers(channels, steps[..k])
    ensures Owns(states[k + 1].boxes[ch], id) <==>
            Owns(states[k].boxes[ch], id) || SubmittedAs(channels, steps, k, ch, id)
  {
    var s := states[k];
    SystemRunStep(channels, states, steps, k);
    assert BoxOk(s.boxes[ch], s.sequence);
    match steps[k]
    case Submit(c, _) =>
    case Work(c, w) =>
      if c == ch { SandboxRuns.KnownStep(s.boxes[ch].sandbox, w, id); }
    case _ =>
  }

  lemma {:induction false} OwnedAreSubmitted(channels: set<nat>, states: seq<System>, steps: seq<SystemStep>, k: nat,
                                             ch: nat, id: nat)
    requires IsSystemRun(channels, states, steps) && k < |states| && ch in channels
    ensures ch in states[k].boxes && (Owns(states[k].boxes[ch], id) <==> Submitted(channels, steps, k, ch, id))
  {
    NumbersHandedOut(channels, states, steps, k);
    if k > 0 {
      OwnedAreSubmitted(channels, states, steps, k - 1, ch, id);
      NumbersHandedOut(channels, states, steps, k - 1);
      OwnershipStep(channels, states, steps, k - 1, ch, id);
      SubmittedStep(channels, steps, k - 1, ch, id);
    }
  }

  lemma SubmittedStep(channels: set<nat>, steps: seq<SystemStep>, k: nat, ch: nat, id: nat)
    requires k < |steps|
    ensures Submitted(channels, steps, k + 1, ch, id) <==>
            Submitted(channels, steps, k, ch, id) || SubmittedAs(channels, steps, k, ch, id)
  {
  }

  lemma PlacedOnce(s: Sandbox.State, id: nat)
    requires Inv(s)
    ensures SandboxRuns.Places(s, id) == if Sandbox.Known(s, id) then 1 else 0
  {
    assert Placed(s, id);
  }

  /** Main result: at any time a sandbox holds, each in exactly one of its five places, exactly the commands of the
      successful submissions to it, under the numbers of those submissions; it knows no other number. */
  lemma SystemConservation(channels: set<nat>, states: seq<System>, steps: seq<SystemStep>, k: nat, ch: nat, id: nat)
    requires IsSystemRun(channels, states, steps) && k < |states| && ch in channels
    ensures ch in states[k].boxes
    ensures Owns(states[k].boxes[ch], id) <==> Submitted(channels, steps, k, ch, id)
    ensures SandboxRuns.Places(states[k].boxes[ch].sandbox, id)
         == if Submitted(channels, steps, k, ch, id) then 1 else 0
  {
    OwnedAreSubmitted(channels, states, steps, k, ch, id);
    SystemRunKeeps(channels, states, steps, k);
    assert BoxOk(states[k].boxes[ch], states[k].sequence);
    PlacedOnce(states[k].boxes[ch].sandbox, id);
  }

  /** No two submissions get the same number. */
  lemma {:induction false} NumbersGrow(channels: set<nat>, steps: seq<SystemStep>, i: nat, j: nat)
    requires i <= j <= |steps|
    ensures Numbers(channels, steps[..i]) <= Numbers(channels, steps[..j])
    ensures i < j && steps[i].Submit? && steps[i].channel in channels ==>
              Numbers(channels, steps[..i]) < Numbers(channels, steps[..j])
    decreases j
  {
    if i < j {
      NumbersGrow(channels, steps, i, j - 1);
      assert steps[..j][..j - 1] == steps[..j - 1];
    }
  }

  lemma NumberedOnce(channels: set<nat>, steps: seq<SystemStep>, i: nat, j: nat, ch: nat, d: nat, id: nat)
    requires i < |steps| && j < |steps| && ch in channels && d in channels
    requires SubmittedAs(channels, steps, i, ch, id) && SubmittedAs(channels, steps, j, d, id)
    ensures i == j && ch == d
  {
    if i < j {
      NumbersGrow(channels, steps, i, j);
    } else if j < i {
      NumbersGrow(channels, steps, j, i);
    }
  }
}
