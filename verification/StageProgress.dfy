/** What can always happen in the stage area: nobody is stuck, and whatever has been written can be indexed. */
module StageProgress {
  import opened CommandTypes
  import DataFiles
  import opened StageBlocks
  import opened StageArea
  import opened StageRuns
  import opened StageTheorems
  import opened StageEffects

  /** Which steps are possible in a reachable state. */
  lemma StageNeverStuck(states: seq<Stage>, steps: seq<Step>, limits: DataFiles.Limits)
    requires IsRun(states, steps, limits)
    ensures var s := states[|steps|];
            (forall w, c :: Enabled(s, OpenWriter(w, c), limits) <==> w !in s.writers) &&
            (forall w, doc, p, now ::
               Enabled(s, WriteDoc(w, doc, p, now), limits) <==> w in s.writers && WellFormed(doc) && p !in s.blocks) &&
            (forall w, now :: Enabled(s, MaintainWriter(w, now), limits) <==> w in s.writers) &&
            (forall r, p :: Enabled(s, Claim(r, p), limits) <==> r !in s.readers && p in s.blocks) &&
            (forall r :: Enabled(s, Abort(r), limits) <==> r in s.readers)
    ensures var s := states[|steps|];
            forall r :: r in s.readers ==>
              s.readers[r].path in s.docs &&
              (Enabled(s, ReadNext(r), limits) <==> s.readers[r].seen != s.docs[s.readers[r].path]) &&
              (Enabled(s, Finish(r), limits) <==> s.readers[r].seen == s.docs[s.readers[r].path])
  {
    var s := states[|steps|];
    StageRunKeeps(states, steps, limits, |steps|);
    forall r | r in s.readers
      ensures s.readers[r].path in s.docs &&
              (Enabled(s, ReadNext(r), limits) <==> s.readers[r].seen != s.docs[s.readers[r].path]) &&
              (Enabled(s, Finish(r), limits) <==> s.readers[r].seen == s.docs[s.readers[r].path])
    {
      NextDocument(s, r);
    }
  }

  /** The run goes on. */
  predicate Continues(states: seq<Stage>, steps: seq<Step>, limits: DataFiles.Limits, longer: seq<Stage>,
                      more: seq<Step>) {
    IsRun(longer, more, limits) && states <= longer && steps <= more
  }

  /** The state with this block indexed and removed, and its reader gone. */
  function Indexed(s: Stage, p: string, docs: seq<Document>, readers: map<nat, Reading>): Stage {
    s.(blocks := s.blocks - {p}, docs := s.docs - {p}, readers := readers, processed := s.processed + multiset(docs))
  }

  /** A scan can always go on to its end: exactly the rest of the block is processed and the block removed. */
  lemma {:induction false} ScanCanFinish(states: seq<Stage>, steps: seq<Step>, limits: DataFiles.Limits, r: nat)
    returns (longer: seq<Stage>, more: seq<Step>)
    requires IsRun(states, steps, limits) && r in states[|steps|].readers
    ensures Continues(states, steps, limits, longer, more)
    ensures var s := states[|steps|]; var x := s.readers[r];
            x.path in s.docs && x.seen <= s.docs[x.path] && |more| == |steps| + |s.docs[x.path]| - |x.seen| + 1 &&
            longer[|more|] == Indexed(s, x.path, s.docs[x.path][|x.seen|..], s.readers - {r})
    decreases var s := states[|steps|]; var x := s.readers[r];
              if x.path in s.docs then |s.docs[x.path]| - |x.seen| else 0
  {
    var s := states[|steps|];
    var x := s.readers[r];
    assert ReaderOk(s.blocks, s.docs, x) && Linked(s) by { StageRunKeeps(states, steps, limits, |steps|); }
    StageNeverStuck(states, steps, limits);
    if x.seen == s.docs[x.path] {
      longer, more := OneStepMore(states, steps, Finish(r), limits);
      FinishOutcome(longer, more, limits, |steps|);
    } else {
      var next, taken := OneStepMore(states, steps, ReadNext(r), limits);
      ReadOutcome(next, taken, limits, |steps|);
      longer, more := ScanCanFinish(next, taken, limits, r);
      RestIndexed(s, next[|taken|], r);
    }
  }

  lemma RestIndexed(s: Stage, t: Stage, r: nat)
    requires r in s.readers && r in t.readers && s.readers[r].path in s.docs
    requires var x := s.readers[r]; var docs, n := s.docs[x.path], |x.seen|;
             n < |docs| && t.readers[r].path == x.path && t.readers[r].seen == docs[..n + 1] &&
             t == s.(readers := s.readers[r := t.readers[r]], processed := s.processed + multiset{docs[n]})
    ensures var p, docs, n := s.readers[r].path, s.docs[s.readers[r].path], |s.readers[r].seen|;
            Indexed(t, p, docs[n + 1..], t.readers - {r}) == Indexed(s, p, docs[n..], s.readers - {r})
  {
    var docs, n := s.docs[s.readers[r].path], |s.readers[r].seen|;
    assert docs[n..] == [docs[n]] + docs[n + 1..];
    assert t.readers - {r} == s.readers - {r};
  }

  /** Progress: a released block can be claimed, read to its end and removed by any indexer that is idle; its
      documents, all of them, are then processed, and nothing else has changed. */
  lemma ReleasedCanBeIndexed(states: seq<Stage>, steps: seq<Step>, limits: DataFiles.Limits, p: string, r: nat)
    returns (longer: seq<Stage>, more: seq<Step>)
    requires IsRun(states, steps, limits) && p in states[|steps|].blocks && r !in states[|steps|].readers
    requires states[|steps|].blocks[p].state == Free
    ensures Continues(states, steps, limits, longer, more)
    ensures var s := states[|steps|];
            p in s.docs && |more| == |steps| + |s.docs[p]| + 2 &&
            longer[|more|] == Indexed(s, p, s.docs[p], s.readers)
  {
    var s := states[|steps|];
    StageNeverStuck(states, steps, limits);
    var next, taken := OneStepMore(states, steps, Claim(r, p), limits);
    ClaimOutcome(next, taken, limits, |steps|);
    longer, more := ScanCanFinish(next, taken, limits, r);
    assert s.docs[p][0..] == s.docs[p];
    assert next[|taken|].readers - {r} == s.readers;
    assert next[|taken|].blocks - {p} == s.blocks - {p};
  }

  // ---------- everything ----------

  lemma {:induction false} IdleIndexer(ids: set<nat>) returns (r: nat)
    ensures r !in ids && forall id :: id in ids ==> id < r
    decreases |ids|
  {
    r := 0;
    if ids != {} {
      var one :| one in ids;
      var rest := ids - {one};
      var q := IdleIndexer(rest);
      r := if one < q then q else one + 1;
      forall id | id in ids ensures id < r { assert id == one || id in rest; }
    }
  }

  /** With time a writer's block is released. */
  lemma BlockCanBeReleased(states: seq<Stage>, steps: seq<Step>, limits: DataFiles.Limits, p: string, w: nat)
    returns (longer: seq<Stage>, more: seq<Step>)
    requires IsRun(states, steps, limits) && p in states[|steps|].blocks && WrittenBy(states[|steps|].writers, w, p)
    ensures Continues(states, steps, limits, longer, more)
    ensures var s := states[|steps|];
            longer[|more|] == s.(blocks := s.blocks[p := StageBlock(s.blocks[p].bytes, Free)],
                                 writers := s.writers[w := Writer(None, s.writers[w].counter)])
  {
    StageNeverStuck(states, steps, limits);
    var now := OpenedAt(steps, p) + limits.lifetime;
    longer, more := OneStepMore(states, steps, MaintainWriter(w, now), limits);
    assert more[..|steps|] == steps;
    MaintenanceOutcome(longer, more, limits, |steps|);
  }

  /** A free block can be indexed by some indexer. */
  lemma FreeCanBeIndexed(states: seq<Stage>, steps: seq<Step>, limits: DataFiles.Limits, p: string)
    returns (longer: seq<Stage>, more: seq<Step>)
    requires IsRun(states, steps, limits) && p in states[|steps|].blocks && states[|steps|].blocks[p].state == Free
    ensures Continues(states, steps, limits, longer, more)
    ensures Lighter(states[|steps|], longer[|more|], p)
  {
    var r := IdleIndexer(states[|steps|].readers.Keys);
    longer, more := ReleasedCanBeIndexed(states, steps, limits, p, r);
  }

  /** One block less to index. */
  predicate Lighter(s: Stage, t: Stage, p: string) {
    p in s.blocks && t.blocks.Keys == s.blocks.Keys - {p} && t.written == s.written && t.redone == s.redone
  }

  lemma BlockCanBeIndexed(states: seq<Stage>, steps: seq<Step>, limits: DataFiles.Limits, p: string)
    returns (longer: seq<Stage>, more: seq<Step>)
    requires IsRun(states, steps, limits) && p in states[|steps|].blocks
    ensures Continues(states, steps, limits, longer, more)
    ensures Lighter(states[|steps|], longer[|more|], p)
  {
    var s := states[|steps|];
    StatesTell(states, steps, limits, |steps|, p);
    match s.blocks[p].state
    case Free =>
      longer, more := FreeCanBeIndexed(states, steps, limits, p);
    case Processing =>
      var r :| ReadBy(s.readers, r, p);
      longer, more := ScanCanFinish(states, steps, limits, r);
    case Acquiring =>
      var w :| WrittenBy(s.writers, w, p);
      var next, taken := BlockCanBeReleased(states, steps, limits, p, w);
      longer, more := FreeCanBeIndexed(next, taken, limits, p);
  }

  /** Progress of the whole: from every reachable state the stage area can be emptied, and then every document ever
      written has been processed, once and once more for each aborted scan that had reached it. */
  lemma {:induction false} EverythingCanBeIndexed(states: seq<Stage>, steps: seq<Step>, limits: DataFiles.Limits)
    returns (longer: seq<Stage>, more: seq<Step>)
    requires IsRun(states, steps, limits)
    ensures Continues(states, steps, limits, longer, more)
    ensures var s, t := states[|steps|], longer[|more|];
            t.blocks == map[] && t.written == s.written && t.redone == s.redone && t.processed == s.written + s.redone
    decreases |states[|steps|].blocks.Keys|
  {
    var s := states[|steps|];
    if s.blocks.Keys == {} {
      longer, more := states, steps;
      StageConservation(states, steps, limits, |steps|);
      StageRunKeeps(states, steps, limits, |steps|);
      assert Pending(s.docs, s.readers) == map[];
    } else {
      var p :| p in s.blocks.Keys;
      var next, taken := BlockCanBeIndexed(states, steps, limits, p);
      longer, more := EverythingCanBeIndexed(next, taken, limits);
    }
  }
}
