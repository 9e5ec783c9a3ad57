/** What each step does to the whole stage area, in clock readings, sizes and block states. */
module StageEffects {
  import opened CommandTypes
  import DataFiles
  import opened StageBlocks
  import opened StageArea
  import opened StageRuns
  import opened StageTheorems

  /** When the block of this name was opened: the clock of the last write that was given the name. */
  function OpenedAt(steps: seq<Step>, path: string): nat
  {
    if steps == [] then 0
    else
      var last := steps[|steps| - 1];
      if last.WriteDoc? && last.path == path then last.now else OpenedAt(steps[..|steps| - 1], path)
  }

  /** A block has lived for its lifetime or reached its size. */
  predicate Due(since: nat, size: nat, now: nat, limits: DataFiles.Limits) {
    now >= since + limits.lifetime || size >= limits.maxSize
  }

  lemma StageRunStep(states: seq<Stage>, steps: seq<Step>, limits: DataFiles.Limits, i: nat)
    requires IsRun(states, steps, limits) && i < |steps|
    ensures StageInv(states[i]) && Enabled(states[i], steps[i], limits)
    ensures states[i + 1] == Apply(states[i], steps[i], limits)
  {
    StageRunKeeps(states, steps, limits, i);
  }

  // ---------- clocks ----------

  /** The time until which a writer's block may be used is counted from its opening. */
  predicate Timed(w: Writer, steps: seq<Step>, limits: DataFiles.Limits) {
    w.current.Some? ==> w.current.value.validUntil == OpenedAt(steps, w.current.value.path) + limits.lifetime
  }

  lemma {:induction false} WritersTimed(states: seq<Stage>, steps: seq<Step>, limits: DataFiles.Limits, i: nat, w: nat)
    requires IsRun(states, steps, limits) && i <= |steps| && w in states[i].writers
    ensures Timed(states[i].writers[w], steps[..i], limits)
  {
    if i > 0 {
      if w in states[i - 1].writers {
        WritersTimed(states, steps, limits, i - 1, w);
      }
      assert Timed(states[i].writers[w], steps[..i - 1] + [steps[i - 1]], limits) by {
        StageRunStep(states, steps, limits, i - 1);
        TimedStep(states[i - 1], steps[i - 1], limits, states[i], steps[..i - 1], w);
      }
      assert steps[..i - 1] + [steps[i - 1]] == steps[..i];
    }
  }

  lemma TimedStep(s: Stage, step: Step, limits: DataFiles.Limits, t: Stage, before: seq<Step>, w: nat)
    requires StageInv(s) && Enabled(s, step, limits) && t == Apply(s, step, limits) && w in t.writers
    requires w in s.writers ==> Timed(s.writers[w], before, limits)
    ensures Timed(t.writers[w], before + [step], limits)
  {
    assert (before + [step])[..|before|] == before;
    assert w in s.writers ==> WriterOk(s.blocks, s.writers[w]);
    if step.WriteDoc? {
      WriteTimes(s, step.w, step.doc, step.path, step.now, limits);
    } else {
      OtherWriters(s, step, limits, w);
    }
  }

  lemma OtherWriters(s: Stage, step: Step, limits: DataFiles.Limits, w: nat)
    requires Enabled(s, step, limits) && !step.WriteDoc? && w in Apply(s, step, limits).writers
    ensures var x := Apply(s, step, limits).writers[w]; x.current.None? || (w in s.writers && x == s.writers[w])
  {
  }

  lemma WriteTimes(s: Stage, w: nat, doc: Document, path: string, now: nat, limits: DataFiles.Limits)
    requires Linked(s) && w in s.writers && path !in s.blocks
    ensures var t := Write(s, w, doc, path, now, limits);
            t.writers.Keys == s.writers.Keys && t.writers[w].current.Some? &&
            var b := t.writers[w].current.value;
            (if b.path == path then b.validUntil == now + limits.lifetime
             else s.writers[w].current.Some? && b.path == s.writers[w].current.value.path &&
                  b.validUntil == s.writers[w].current.value.validUntil) &&
            forall v :: v in s.writers && v != w ==> t.writers[v] == s.writers[v]
  {
  }

  /** The check of a writer's block, in clock and size. */
  lemma ValidMeans(states: seq<Stage>, steps: seq<Step>, limits: DataFiles.Limits, i: nat, w: nat, now: nat)
    requires IsRun(states, steps, limits) && i <= |steps| && w in states[i].writers
    requires states[i].writers[w].current.Some?
    ensures var b := states[i].writers[w].current.value;
            b.path in states[i].blocks && states[i].blocks[b.path].state == Acquiring && b.path in states[i].docs &&
            var since, size := OpenedAt(steps[..i], b.path), |states[i].blocks[b.path].bytes|;
            b == DataFiles.Block(b.path, size, since + limits.lifetime) &&
            (DataFiles.IsValid(b, now, limits) <==> !Due(since, size, now, limits))
  {
    WritersTimed(states, steps, limits, i, w);
    StageRunKeeps(states, steps, limits, i);
    assert WriterOk(states[i].blocks, states[i].writers[w]);
  }

  // ---------- writers ----------

  /** Maintenance gives a block to the indexers exactly when it is due. */
  lemma MaintenanceOutcome(states: seq<Stage>, steps: seq<Step>, limits: DataFiles.Limits, i: nat)
    requires IsRun(states, steps, limits) && i < |steps| && steps[i].MaintainWriter?
    ensures var s, w := states[i], steps[i].w;
            w in s.writers &&
            (s.writers[w].current.None? ==> states[i + 1] == s) &&
            (s.writers[w].current.Some? ==>
               var p := s.writers[w].current.value.path;
               p in s.blocks &&
               states[i + 1] ==
                 if Due(OpenedAt(steps[..i], p), |s.blocks[p].bytes|, steps[i].now, limits)
                 then s.(blocks := s.blocks[p := StageBlock(s.blocks[p].bytes, Free)],
                         writers := s.writers[w := Writer(None, s.writers[w].counter)])
                 else s)
  {
    StageRunStep(states, steps, limits, i);
    var s, w := states[i], steps[i].w;
    if s.writers[w].current.Some? {
      ValidMeans(states, steps, limits, i, w, steps[i].now);
    }
  }

  /** Hence a block that is open after its maintenance is younger than its lifetime and below its maximum size. */
  lemma OpenAfterMaintenance(states: seq<Stage>, steps: seq<Step>, limits: DataFiles.Limits, i: nat)
    requires IsRun(states, steps, limits) && i < |steps| && steps[i].MaintainWriter?
    ensures var t, w := states[i + 1], steps[i].w;
            w in t.writers &&
            (t.writers[w].current.Some? ==>
               var p := t.writers[w].current.value.path;
               p in t.blocks && steps[i].now < OpenedAt(steps[..i], p) + limits.lifetime &&
               |t.blocks[p].bytes| < limits.maxSize)
  {
    MaintenanceOutcome(states, steps, limits, i);
  }

  /** This write, by the count of the writer's checks, looks at the block. */
  predicate Looks(x: Writer) {
    (x.counter + 1) % 0x1_0000_0000 % 16 == 0
  }

  function NextCounter(x: Writer): nat {
    (x.counter + 1) % 0x1_0000_0000
  }

  /** A writer's block is left if the write looks at it and it is due. */
  predicate Leaves(s: Stage, w: nat, before: seq<Step>, now: nat, limits: DataFiles.Limits)
    requires w in s.writers && s.writers[w].current.Some? && s.writers[w].current.value.path in s.blocks
  {
    var p := s.writers[w].current.value.path;
    Looks(s.writers[w]) && Due(OpenedAt(before, p), |s.blocks[p].bytes|, now, limits)
  }

  /** The document at the end of the writer's own block. */
  function AddedTo(s: Stage, w: nat, doc: Document, p: string, validUntil: nat): Stage
    requires p in s.blocks && p in s.docs && w in s.writers
  {
    s.(blocks := s.blocks[p := StageBlock(s.blocks[p].bytes + doc, Acquiring)], docs := s.docs[p := s.docs[p] + [doc]],
       writers := s.writers[w := Writer(Some(DataFiles.Block(p, |s.blocks[p].bytes| + |doc|, validUntil)),
                                        NextCounter(s.writers[w]))],
       written := s.written + multiset{doc})
  }

  /** The document alone in a new block; a block the writer had before is free for the indexers. */
  function AddedToNew(s: Stage, w: nat, doc: Document, p: string, validUntil: nat): Stage
    requires w in s.writers && (s.writers[w].current.Some? ==> s.writers[w].current.value.path in s.blocks)
  {
    var blocks := if s.writers[w].current.None? then s.blocks
                  else var q := s.writers[w].current.value.path; s.blocks[q := StageBlock(s.blocks[q].bytes, Free)];
    s.(blocks := blocks[p := StageBlock(doc, Acquiring)], docs := s.docs[p := [doc]],
       writers := s.writers[w := Writer(Some(DataFiles.Block(p, |doc|, validUntil)), NextCounter(s.writers[w]))],
       written := s.written + multiset{doc})
  }

  /** A document goes to the end of the writer's block, or to a new one exactly when there is none or this write
      looks and finds it due. */
  predicate Adds(s: Stage, w: nat, doc: Document, path: string, now: nat, limits: DataFiles.Limits, before: seq<Step>,
                 t: Stage)
  {
    Linked(s) && w in s.writers &&
    t == if s.writers[w].current.None? || Leaves(s, w, before, now, limits)
         then AddedToNew(s, w, doc, path, now + limits.lifetime)
         else var p := s.writers[w].current.value.path;
              AddedTo(s, w, doc, p, OpenedAt(before, p) + limits.lifetime)
  }

  lemma WriteOutcome(states: seq<Stage>, steps: seq<Step>, limits: DataFiles.Limits, i: nat)
    requires IsRun(states, steps, limits) && i < |steps| && steps[i].WriteDoc?
    ensures Adds(states[i], steps[i].w, steps[i].doc, steps[i].path, steps[i].now, limits, steps[..i], states[i + 1])
  {
    StageRunStep(states, steps, limits, i);
    var s, t, w, before := states[i], states[i + 1], steps[i].w, steps[..i];
    assert Timed(s.writers[w], before, limits) by { WritersTimed(states, steps, limits, i, w); }
    assert WriterOk(s.blocks, s.writers[w]);
    assert Adds(s, w, steps[i].doc, steps[i].path, steps[i].now, limits, before, t) by {
      WriteIs(s, w, steps[i].doc, steps[i].path, steps[i].now, limits, before);
    }
  }

  lemma WriteIs(s: Stage, w: nat, doc: Document, path: string, now: nat, limits: DataFiles.Limits, before: seq<Step>)
    requires Linked(s) && w in s.writers && path !in s.blocks && WriterOk(s.blocks, s.writers[w])
    requires Timed(s.writers[w], before, limits)
    ensures Adds(s, w, doc, path, now, limits, before, Write(s, w, doc, path, now, limits))
  {
    if s.writers[w].current.None? || Leaves(s, w, before, now, limits) {
      SwitchOutcome(s, w, doc, path, now, limits);
    }
  }

  lemma SwitchOutcome(s: Stage, w: nat, doc: Document, path: string, now: nat, limits: DataFiles.Limits)
    requires Linked(s) && w in s.writers && path !in s.blocks && !WriterKeepsBlock(s.writers[w], now, limits)
    ensures Write(s, w, doc, path, now, limits) == AddedToNew(s, w, doc, path, now + limits.lifetime)
  {
    var t := Switched(Counted(s, w), w, path, now, limits);
    assert [] + doc == doc;
    assert t.docs == s.docs[path := []];
    var none: seq<Document> := [];
    assert none + [doc] == [doc];
    assert s.docs[path := none][path := [doc]] == s.docs[path := [doc]];
  }

  lemma OpenWriterOutcome(states: seq<Stage>, steps: seq<Step>, limits: DataFiles.Limits, i: nat)
    requires IsRun(states, steps, limits) && i < |steps| && steps[i].OpenWriter?
    ensures states[i + 1] == states[i].(writers := states[i].writers[steps[i].w :=
                                          Writer(None, steps[i].counter % 0x1_0000_0000)])
  {
    StageRunStep(states, steps, limits, i);
  }

  // ---------- indexers ----------

  /** A claim of a free block makes this indexer its reader, from the start, and marks the block; a claim of any
      other block changes nothing. */
  lemma ClaimOutcome(states: seq<Stage>, steps: seq<Step>, limits: DataFiles.Limits, i: nat)
    requires IsRun(states, steps, limits) && i < |steps| && steps[i].Claim?
    ensures var s, t, r, p := states[i], states[i + 1], steps[i].r, steps[i].path;
            p in s.blocks && r !in s.readers &&
            (s.blocks[p].state != Free ==> t == s) &&
            (s.blocks[p].state == Free ==>
               t == s.(blocks := s.blocks[p := StageBlock(s.blocks[p].bytes, Processing)],
                       readers := s.readers[r := Reading(p, 0, [])]))
  {
    StageRunStep(states, steps, limits, i);
  }

  /** A read processes the next document of the block. */
  lemma ReadOutcome(states: seq<Stage>, steps: seq<Step>, limits: DataFiles.Limits, i: nat)
    requires IsRun(states, steps, limits) && i < |steps| && steps[i].ReadNext?
    ensures var s, r := states[i], steps[i].r;
            r in s.readers && s.readers[r].path in s.docs &&
            var docs, n := s.docs[s.readers[r].path], |s.readers[r].seen|;
            n < |docs| &&
            states[i + 1]
            == s.(readers := s.readers[r := Reading(s.readers[r].path, |Flatten(docs[..n + 1])|, docs[..n + 1])],
                  processed := s.processed + multiset{docs[n]})
  {
    StageRunStep(states, steps, limits, i);
    ReadIs(states[i], steps[i].r);
  }

  lemma ReadIs(s: Stage, r: nat)
    requires StageInv(s) && r in s.readers && s.readers[r].path in s.blocks
    requires s.readers[r].position != |s.blocks[s.readers[r].path].bytes|
    ensures s.readers[r].path in s.docs && |s.readers[r].seen| < |s.docs[s.readers[r].path]|
    ensures var docs, n := s.docs[s.readers[r].path], |s.readers[r].seen|;
            Read(s, r)
            == s.(readers := s.readers[r := Reading(s.readers[r].path, |Flatten(docs[..n + 1])|, docs[..n + 1])],
                  processed := s.processed + multiset{docs[n]})
  {
    NextDocument(s, r);
    var x := s.readers[r];
    var docs, n := s.docs[x.path], |x.seen|;
    assert x.position + |docs[n]| == |Flatten(docs[..n + 1])| && x.seen + [docs[n]] == docs[..n + 1] by {
      assert ReaderOk(s.blocks, s.docs, x);
      FlattenAt(docs, n);
      assert docs[..n] + [docs[n]] == docs[..n + 1];
    }
  }

  /** The end of a scan removes the block, all of whose documents have been processed. */
  lemma FinishOutcome(states: seq<Stage>, steps: seq<Step>, limits: DataFiles.Limits, i: nat)
    requires IsRun(states, steps, limits) && i < |steps| && steps[i].Finish?
    ensures var s, r := states[i], steps[i].r;
            r in s.readers && s.readers[r].path in s.docs && s.readers[r].seen == s.docs[s.readers[r].path] &&
            states[i + 1] == s.(blocks := s.blocks - {s.readers[r].path}, docs := s.docs - {s.readers[r].path},
                                readers := s.readers - {r})
  {
    StageRunStep(states, steps, limits, i);
    NextDocument(states[i], steps[i].r);
  }

  /** A scan that stops early gives the whole block back. */
  lemma AbortOutcome(states: seq<Stage>, steps: seq<Step>, limits: DataFiles.Limits, i: nat)
    requires IsRun(states, steps, limits) && i < |steps| && steps[i].Abort?
    ensures var s, r := states[i], steps[i].r;
            r in s.readers && s.readers[r].path in s.blocks &&
            var p := s.readers[r].path;
            states[i + 1]
            == s.(blocks := s.blocks[p := StageBlock(s.blocks[p].bytes, Free)], readers := s.readers - {r},
                  redone := s.redone + multiset(s.readers[r].seen))
  {
    StageRunStep(states, steps, limits, i);
  }

  // ---------- releases ----------

  function ClockOf(step: Step): nat {
    match step
    case WriteDoc(_, _, _, now) => now
    case MaintainWriter(_, now) => now
    case _ => 0
  }

  /** A block that a writer gives up has lived for its lifetime or reached its size at that moment. */
  lemma ReleasedWhenDue(states: seq<Stage>, steps: seq<Step>, limits: DataFiles.Limits, i: nat, p: string)
    requires IsRun(states, steps, limits) && i < |steps| && p in states[i].blocks && p in states[i + 1].blocks
    requires states[i].blocks[p].state == Acquiring && states[i + 1].blocks[p].state == Free
    ensures steps[i].WriteDoc? || steps[i].MaintainWriter?
    ensures Due(OpenedAt(steps[..i], p), |states[i].blocks[p].bytes|, ClockOf(steps[i]), limits)
  {
    var s, step := states[i], steps[i];
    if step.WriteDoc? {
      WriteOutcome(states, steps, limits, i);
    } else if step.MaintainWriter? {
      MaintenanceOutcome(states, steps, limits, i);
    } else {
      StageRunStep(states, steps, limits, i);
    }
  }

  // ---------- block states ----------

  predicate WrittenBy(writers: map<nat, Writer>, w: nat, p: string) {
    w in writers && writers[w].current.Some? && writers[w].current.value.path == p
  }

  /** The state of a block tells who uses it: a writer, an indexer, or nobody. */
  ghost predicate Tells(s: Stage, p: string)
    requires p in s.blocks
  {
    match s.blocks[p].state
    case Acquiring => (exists w :: WrittenBy(s.writers, w, p)) && (forall r :: !ReadBy(s.readers, r, p))
    case Processing => (exists r :: ReadBy(s.readers, r, p)) && (forall w :: !WrittenBy(s.writers, w, p))
    case Free => (forall w :: !WrittenBy(s.writers, w, p)) && (forall r :: !ReadBy(s.readers, r, p))
  }

  /** Somebody uses every block that is not free. */
  ghost predicate InUse(s: Stage, p: string)
    requires p in s.blocks
  {
    match s.blocks[p].state
    case Acquiring => exists w :: WrittenBy(s.writers, w, p)
    case Processing => exists r :: ReadBy(s.readers, r, p)
    case Free => true
  }

  lemma WriteUses(s: Stage, w: nat, doc: Document, path: string, now: nat, limits: DataFiles.Limits, p: string)
    requires Linked(s) && w in s.writers && path !in s.blocks && WriterOk(s.blocks, s.writers[w])
    requires p in Write(s, w, doc, path, now, limits).blocks && (p in s.blocks ==> InUse(s, p))
    ensures InUse(Write(s, w, doc, path, now, limits), p)
  {
    var t := Write(s, w, doc, path, now, limits);
    var x := s.writers[w];
    if t.writers[w].current.value.path == p {
      assert WrittenBy(t.writers, w, p);
    } else if x.current.Some? && x.current.value.path == p {
      assert t.blocks[p].state == Free;
    } else {
      assert t.blocks[p] == s.blocks[p];
      if v :| WrittenBy(s.writers, v, p) {
        assert WrittenBy(t.writers, v, p);
      }
    }
  }

  lemma StepUses(s: Stage, step: Step, limits: DataFiles.Limits, p: string)
    requires StageInv(s) && Enabled(s, step, limits) && p in Apply(s, step, limits).blocks
    requires p in s.blocks ==> InUse(s, p)
    ensures InUse(Apply(s, step, limits), p)
  {
    match step
    case OpenWriter(w, c) => OpeningUses(s, w, c, limits, p);
    case WriteDoc(w, doc, path, now) => WriteUses(s, w, doc, path, now, limits, p);
    case MaintainWriter(w, now) => MaintenanceUses(s, w, now, limits, p);
    case Claim(r, path) => ClaimUses(s, r, path, limits, p);
    case ReadNext(r) => ReadUses(s, r, limits, p);
    case Finish(r) => FinishUses(s, r, limits, p);
    case Abort(r) => AbortUses(s, r, limits, p);
  }

  lemma OpeningUses(s: Stage, w: nat, c: nat, limits: DataFiles.Limits, p: string)
    requires Enabled(s, OpenWriter(w, c), limits) && p in s.blocks && InUse(s, p)
    ensures InUse(Apply(s, OpenWriter(w, c), limits), p)
  {
    if v :| WrittenBy(s.writers, v, p) {
      assert WrittenBy(Apply(s, OpenWriter(w, c), limits).writers, v, p);
    }
  }

  lemma MaintenanceUses(s: Stage, w: nat, now: nat, limits: DataFiles.Limits, p: string)
    requires Enabled(s, MaintainWriter(w, now), limits) && p in s.blocks && InUse(s, p)
    ensures InUse(Apply(s, MaintainWriter(w, now), limits), p)
  {
    var t := Apply(s, MaintainWriter(w, now), limits);
    if v :| WrittenBy(s.writers, v, p) {
      assert t.blocks[p].state == Free || WrittenBy(t.writers, v, p);
    }
  }

  lemma ClaimUses(s: Stage, r: nat, path: string, limits: DataFiles.Limits, p: string)
    requires Enabled(s, Claim(r, path), limits) && p in s.blocks && InUse(s, p)
    ensures InUse(Apply(s, Claim(r, path), limits), p)
  {
    var t := Apply(s, Claim(r, path), limits);
    if q :| ReadBy(s.readers, q, p) {
      assert ReadBy(t.readers, q, p);
    } else if p == path && s.blocks[p].state == Free {
      assert ReadBy(t.readers, r, p);
    }
  }

  lemma ReadUses(s: Stage, r: nat, limits: DataFiles.Limits, p: string)
    requires Enabled(s, ReadNext(r), limits) && p in s.blocks && InUse(s, p)
    ensures InUse(Apply(s, ReadNext(r), limits), p)
  {
    if q :| ReadBy(s.readers, q, p) {
      assert ReadBy(Read(s, r).readers, q, p);
    }
  }

  lemma FinishUses(s: Stage, r: nat, limits: DataFiles.Limits, p: string)
    requires Enabled(s, Finish(r), limits) && p in s.blocks && InUse(s, p) && p != s.readers[r].path
    ensures InUse(Apply(s, Finish(r), limits), p)
  {
    if q :| ReadBy(s.readers, q, p) {
      assert ReadBy(Removed(s, r).readers, q, p);
    }
  }

  lemma AbortUses(s: Stage, r: nat, limits: DataFiles.Limits, p: string)
    requires Enabled(s, Abort(r), limits) && p in s.blocks && InUse(s, p)
    ensures InUse(Apply(s, Abort(r), limits), p)
  {
    var t := Aborted(s, r);
    if q :| ReadBy(s.readers, q, p) {
      assert t.blocks[p].state == Free || ReadBy(t.readers, q, p);
    }
  }

  lemma {:induction false} BlocksInUse(states: seq<Stage>, steps: seq<Step>, limits: DataFiles.Limits, i: nat,
                                       p: string)
    requires IsRun(states, steps, limits) && i <= |steps| && p in states[i].blocks
    ensures InUse(states[i], p)
  {
    if i > 0 {
      StageRunStep(states, steps, limits, i - 1);
      if p in states[i - 1].blocks {
        BlocksInUse(states, steps, limits, i - 1, p);
      }
      StepUses(states[i - 1], steps[i - 1], limits, p);
    }
  }

  /** In every reachable state a block is being written, being processed, or free, exactly as its state says. */
  lemma StatesTell(states: seq<Stage>, steps: seq<Step>, limits: DataFiles.Limits, i: nat, p: string)
    requires IsRun(states, steps, limits) && i <= |steps| && p in states[i].blocks
    ensures Tells(states[i], p)
  {
    var s := states[i];
    BlocksInUse(states, steps, limits, i, p);
    StageRunKeeps(states, steps, limits, i);
    assert forall w :: w in s.writers ==> WriterOk(s.blocks, s.writers[w]);
    assert forall r :: r in s.readers ==> ReaderOk(s.blocks, s.docs, s.readers[r]);
  }
}
