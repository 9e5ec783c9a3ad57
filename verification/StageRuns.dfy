/** What every run of the stage area keeps: documents stay whole and in order, and a block has one
    user at a time. */
module StageRuns {
  import opened CommandTypes
  import DataFiles
  import opened StageBlocks
  import opened StageArea

  type Blocks = map<string, StageBlock>
  type Docs = map<string, seq<Document>>

  // ---------- the invariant ----------

  /** A block holds exactly the documents written to it, none of them cut. */
  ghost predicate Holds(b: StageBlock, docs: seq<Document>)
  {
    b.bytes == Flatten(docs) && forall j :: 0 <= j < |docs| ==> WellFormed(docs[j])
  }

  ghost predicate BlocksOk(blocks: Blocks, docs: Docs)
  {
    blocks.Keys == docs.Keys && forall p :: p in blocks ==> p in docs && Holds(blocks[p], docs[p])
  }

  ghost predicate WriterOk(blocks: Blocks, w: Writer)
  {
    w.current.Some? ==>
      var b := w.current.value;
      b.path in blocks && blocks[b.path].state == Acquiring && b.position == |blocks[b.path].bytes|
  }

  predicate SameBlock(v: Writer, w: Writer) {
    v.current.Some? && w.current.Some? && v.current.value.path == w.current.value.path
  }

  ghost predicate WritersOk(blocks: Blocks, writers: map<nat, Writer>)
  {
    (forall w :: w in writers ==> WriterOk(blocks, writers[w])) &&
    (forall v, w :: v in writers && w in writers && SameBlock(writers[v], writers[w]) ==> v == w)
  }

  /** An indexer is at the end of the documents it has processed, the first ones of its block. */
  ghost predicate ReaderOk(blocks: Blocks, docs: Docs, x: Reading)
  {
    x.path in blocks && x.path in docs && blocks[x.path].state == Processing &&
    |x.seen| <= |docs[x.path]| && x.seen == docs[x.path][..|x.seen|] && x.position == |Flatten(x.seen)|
  }

  ghost predicate ReadersOk(blocks: Blocks, docs: Docs, readers: map<nat, Reading>)
  {
    (forall r :: r in readers ==> ReaderOk(blocks, docs, readers[r])) &&
    (forall q, r :: q in readers && r in readers && readers[q].path == readers[r].path ==> q == r)
  }

  ghost predicate StageInv(s: Stage)
  {
    BlocksOk(s.blocks, s.docs) && WritersOk(s.blocks, s.writers) && ReadersOk(s.blocks, s.docs, s.readers)
  }

  lemma InvLinks(s: Stage)
    requires StageInv(s)
    ensures Linked(s)
  {
    assert forall w :: w in s.writers ==> WriterOk(s.blocks, s.writers[w]);
    assert forall r :: r in s.readers ==> ReaderOk(s.blocks, s.docs, s.readers[r]);
  }

  /** One block, one user. */
  lemma OneUser(s: Stage, w: nat, r: nat)
    requires StageInv(s) && w in s.writers && s.writers[w].current.Some? && r in s.readers
    ensures s.writers[w].current.value.path != s.readers[r].path
  {
    assert ReaderOk(s.blocks, s.docs, s.readers[r]);
    assert WriterOk(s.blocks, s.writers[w]);
  }

  // ---------- changes of one block ----------

  /** A change of a block that no one reads does not concern the readers. */
  lemma ReadersFramed(blocks: Blocks, docs: Docs, readers: map<nat, Reading>, p: string, b: StageBlock,
                      d: seq<Document>)
    requires ReadersOk(blocks, docs, readers)
    requires forall r :: r in readers ==> readers[r].path != p
    ensures ReadersOk(blocks[p := b], docs[p := d], readers)
  {
    forall r | r in readers ensures ReaderOk(blocks[p := b], docs[p := d], readers[r]) {
      assert ReaderOk(blocks, docs, readers[r]);
    }
  }

  /** Likewise for the writers. */
  lemma WritersFramed(blocks: Blocks, writers: map<nat, Writer>, p: string, b: StageBlock)
    requires WritersOk(blocks, writers)
    requires forall w :: w in writers && writers[w].current.Some? ==> writers[w].current.value.path != p
    ensures WritersOk(blocks[p := b], writers)
  {
    forall w | w in writers ensures WriterOk(blocks[p := b], writers[w]) {
      assert WriterOk(blocks, writers[w]);
    }
  }

  lemma BlocksFramed(blocks: Blocks, docs: Docs, p: string, b: StageBlock, d: seq<Document>)
    requires BlocksOk(blocks, docs) && Holds(b, d)
    ensures BlocksOk(blocks[p := b], docs[p := d])
  {
  }

  // ---------- writers ----------

  /** A writer without a block can be given any block nobody else writes. */
  lemma WriterSet(blocks: Blocks, writers: map<nat, Writer>, w: nat, x: Writer)
    requires WritersOk(blocks, writers) && WriterOk(blocks, x)
    requires forall v :: v in writers && v != w ==> !SameBlock(writers[v], x)
    ensures WritersOk(blocks, writers[w := x])
  {
  }

  lemma CountedKeeps(s: Stage, w: nat)
    requires StageInv(s) && w in s.writers
    ensures StageInv(Counted(s, w)) && Linked(Counted(s, w))
  {
    var x := s.writers[w].(counter := (s.writers[w].counter + 1) % UINT32);
    assert WriterOk(s.blocks, s.writers[w]);
    forall v | v in s.writers && v != w ensures !SameBlock(s.writers[v], x) {
      assert SameBlock(s.writers[v], x) ==> SameBlock(s.writers[v], s.writers[w]);
    }
    WriterSet(s.blocks, s.writers, w, x);
    InvLinks(Counted(s, w));
  }

  function Closed(s: Stage, w: nat): Stage
    requires w in s.writers && (s.writers[w].current.Some? ==> s.writers[w].current.value.path in s.blocks)
  {
    var t := if s.writers[w].current.Some? then Freed(s, s.writers[w].current.value.path) else s;
    t.(writers := s.writers[w := s.writers[w].(current := None)])
  }

  lemma ClosedKeeps(s: Stage, w: nat)
    requires StageInv(s) && w in s.writers
    ensures s.writers[w].current.Some? ==> s.writers[w].current.value.path in s.blocks
    ensures StageInv(Closed(s, w))
  {
    assert WriterOk(s.blocks, s.writers[w]);
    var none := s.writers[w].(current := None);
    WriterSet(s.blocks, s.writers, w, none);
    if s.writers[w].current.Some? {
      var p := s.writers[w].current.value.path;
      forall v | v in s.writers && v != w && s.writers[v].current.Some? ensures s.writers[v].current.value.path != p {
        assert !SameBlock(s.writers[v], s.writers[w]);
      }
      WritersFramed(s.blocks, s.writers[w := none], p, s.blocks[p].(state := Free));
      forall r | r in s.readers ensures s.readers[r].path != p { OneUser(s, w, r); }
      ReadersFramed(s.blocks, s.docs, s.readers, p, s.blocks[p].(state := Free), s.docs[p]);
      BlocksFramed(s.blocks, s.docs, p, s.blocks[p].(state := Free), s.docs[p]);
      assert s.docs[p := s.docs[p]] == s.docs;
    }
  }

  lemma OpenedKeeps(s: Stage, w: nat, b: DataFiles.Block)
    requires StageInv(s) && w in s.writers && s.writers[w].current.None? && b.path !in s.blocks && b.position == 0
    ensures StageInv(Opened(s, w, b))
  {
    forall v | v in s.writers && s.writers[v].current.Some? ensures s.writers[v].current.value.path != b.path {
      assert WriterOk(s.blocks, s.writers[v]);
    }
    forall r | r in s.readers ensures s.readers[r].path != b.path {
      assert ReaderOk(s.blocks, s.docs, s.readers[r]);
    }
    WritersFramed(s.blocks, s.writers, b.path, StageBlock([], Acquiring));
    WriterSet(s.blocks[b.path := StageBlock([], Acquiring)], s.writers, w, s.writers[w].(current := Some(b)));
    ReadersFramed(s.blocks, s.docs, s.readers, b.path, StageBlock([], Acquiring), []);
    BlocksFramed(s.blocks, s.docs, b.path, StageBlock([], Acquiring), []);
  }

  function Opened(s: Stage, w: nat, b: DataFiles.Block): Stage
    requires w in s.writers
  {
    s.(blocks := s.blocks[b.path := StageBlock([], Acquiring)], docs := s.docs[b.path := []],
       writers := s.writers[w := s.writers[w].(current := Some(b))])
  }

  lemma SwitchedIsOpened(s: Stage, w: nat, path: string, now: nat, limits: DataFiles.Limits)
    requires w in s.writers && (s.writers[w].current.Some? ==> s.writers[w].current.value.path in s.blocks)
    ensures Switched(s, w, path, now, limits)
            == Opened(Closed(s, w), w, DataFiles.Block(path, 0, now + limits.lifetime))
  {
    var b := DataFiles.Block(path, 0, now + limits.lifetime);
    assert Closed(s, w).writers[w := Closed(s, w).writers[w].(current := Some(b))]
           == s.writers[w := s.writers[w].(current := Some(b))];
  }

  lemma SwitchedKeeps(s: Stage, w: nat, path: string, now: nat, limits: DataFiles.Limits)
    requires StageInv(s) && Linked(s) && w in s.writers && path !in s.blocks
    ensures StageInv(Switched(s, w, path, now, limits))
  {
    ClosedKeeps(s, w);
    SwitchedIsOpened(s, w, path, now, limits);
    OpenedKeeps(Closed(s, w), w, DataFiles.Block(path, 0, now + limits.lifetime));
  }

  lemma AppendedKeeps(s: Stage, w: nat, doc: Document)
    requires StageInv(s) && w in s.writers && s.writers[w].current.Some? && WellFormed(doc)
    ensures s.writers[w].current.value.path in s.blocks && s.writers[w].current.value.path in s.docs
    ensures StageInv(Appended(s, w, doc))
  {
    assert WriterOk(s.blocks, s.writers[w]);
    var b := s.writers[w].current.value;
    var p := b.path;
    var block, docs := s.blocks[p].(bytes := s.blocks[p].bytes + doc), s.docs[p] + [doc];
    var none := s.writers[w].(current := None);
    assert docs[..|s.docs[p]|] == s.docs[p];
    forall v | v in s.writers && v != w && s.writers[v].current.Some? ensures s.writers[v].current.value.path != p {
      assert !SameBlock(s.writers[v], s.writers[w]);
    }
    WriterSet(s.blocks, s.writers, w, none);
    WritersFramed(s.blocks, s.writers[w := none], p, block);
    var x := s.writers[w].(current := Some(b.(position := b.position + |doc|)));
    WriterSet(s.blocks[p := block], s.writers[w := none], w, x);
    assert s.writers[w := none][w := x] == s.writers[w := x];
    forall r | r in s.readers ensures s.readers[r].path != p { OneUser(s, w, r); }
    ReadersFramed(s.blocks, s.docs, s.readers, p, block, docs);
    BlocksFramed(s.blocks, s.docs, p, block, docs);
  }

  lemma WriteKeeps(s: Stage, w: nat, doc: Document, path: string, now: nat, limits: DataFiles.Limits)
    requires StageInv(s) && Linked(s) && w in s.writers && WellFormed(doc) && path !in s.blocks
    ensures StageInv(Write(s, w, doc, path, now, limits))
  {
    var t := Counted(s, w);
    CountedKeeps(s, w);
    if WriterKeepsBlock(s.writers[w], now, limits) {
      AppendedKeeps(t, w, doc);
    } else {
      SwitchedKeeps(t, w, path, now, limits);
      AppendedKeeps(Switched(t, w, path, now, limits), w, doc);
    }
  }

  // ---------- readers ----------

  lemma ClaimKeeps(s: Stage, r: nat, path: string)
    requires StageInv(s) && path in s.blocks && r !in s.readers
    ensures StageInv(Claimed(s, r, path))
  {
    if s.blocks[path].state == Free {
      var block := s.blocks[path].(state := Processing);
      forall v | v in s.writers && s.writers[v].current.Some? ensures s.writers[v].current.value.path != path {
        assert WriterOk(s.blocks, s.writers[v]);
      }
      WritersFramed(s.blocks, s.writers, path, block);
      forall q | q in s.readers ensures s.readers[q].path != path {
        assert ReaderOk(s.blocks, s.docs, s.readers[q]);
      }
      ReadersFramed(s.blocks, s.docs, s.readers, path, block, s.docs[path]);
      BlocksFramed(s.blocks, s.docs, path, block, s.docs[path]);
      assert s.docs[path := s.docs[path]] == s.docs;
      assert s.docs[path][..0] == [];
      ReaderSet(s.blocks[path := block], s.docs, s.readers, r, Reading(path, 0, []));
    }
  }

  lemma ReaderSet(blocks: Blocks, docs: Docs, readers: map<nat, Reading>, r: nat, x: Reading)
    requires ReadersOk(blocks, docs, readers) && ReaderOk(blocks, docs, x)
    requires forall q :: q in readers && q != r ==> readers[q].path != x.path
    ensures ReadersOk(blocks, docs, readers[r := x])
  {
  }

  /** Each read yields exactly the next document of the block; the end is reached exactly after the last. */
  lemma NextDocument(s: Stage, r: nat)
    requires StageInv(s) && r in s.readers
    ensures s.readers[r].path in s.blocks && s.readers[r].path in s.docs
    ensures var x := s.readers[r]; var docs := s.docs[x.path];
            (x.position == |s.blocks[x.path].bytes| <==> x.seen == docs) &&
            (x.seen != docs ==>
               |x.seen| < |docs| && FrameAt(s.blocks[x.path].bytes, x.position) == Some(docs[|x.seen|]))
  {
    assert ReaderOk(s.blocks, s.docs, s.readers[r]);
    var x := s.readers[r];
    assert Holds(s.blocks[x.path], s.docs[x.path]);
    var docs := s.docs[x.path];
    EndOfBlock(docs, |x.seen|);
    if |x.seen| < |docs| {
      FrameAtBoundary(docs, |x.seen|);
    } else {
      assert docs[..|x.seen|] == docs;
    }
  }

  lemma ReadKeeps(s: Stage, r: nat)
    requires StageInv(s) && Linked(s) && r in s.readers && s.readers[r].position != |s.blocks[s.readers[r].path].bytes|
    ensures StageInv(Read(s, r))
  {
    var x := s.readers[r];
    NextDocument(s, r);
    var y := Reading(x.path, x.position + |s.docs[x.path][|x.seen|]|, x.seen + [s.docs[x.path][|x.seen|]]);
    ReaderAdvances(s.blocks, s.docs, x);
    assert forall q :: q in s.readers && q != r ==> s.readers[q].path != y.path;
    ReaderSet(s.blocks, s.docs, s.readers, r, y);
  }

  lemma ReaderAdvances(blocks: Blocks, docs: Docs, x: Reading)
    requires ReaderOk(blocks, docs, x) && |x.seen| < |docs[x.path]|
    ensures var doc := docs[x.path][|x.seen|];
            ReaderOk(blocks, docs, Reading(x.path, x.position + |doc|, x.seen + [doc]))
  {
    FlattenAt(docs[x.path], |x.seen|);
    assert docs[x.path][..|x.seen|] + [docs[x.path][|x.seen|]] == docs[x.path][..|x.seen| + 1];
  }

  lemma ReaderGone(blocks: Blocks, docs: Docs, readers: map<nat, Reading>, r: nat)
    requires ReadersOk(blocks, docs, readers) && r in readers
    ensures ReadersOk(blocks, docs, readers - {r})
    ensures forall q :: q in readers - {r} ==> (readers - {r})[q].path != readers[r].path
  {
  }

  lemma RemovedKeeps(s: Stage, r: nat)
    requires StageInv(s) && r in s.readers
    ensures StageInv(Removed(s, r))
  {
    var p, t := s.readers[r].path, Removed(s, r);
    ReaderGone(s.blocks, s.docs, s.readers, r);
    forall w | w in s.writers ensures WriterOk(t.blocks, s.writers[w]) {
      assert WriterOk(s.blocks, s.writers[w]);
      if s.writers[w].current.Some? { OneUser(s, w, r); }
    }
    forall q | q in t.readers ensures ReaderOk(t.blocks, t.docs, t.readers[q]) {
      assert ReaderOk(s.blocks, s.docs, t.readers[q]);
    }
  }

  lemma AbortedKeeps(s: Stage, r: nat)
    requires StageInv(s) && Linked(s) && r in s.readers
    ensures StageInv(Aborted(s, r))
  {
    var p := s.readers[r].path;
    var block := s.blocks[p].(state := Free);
    ReaderGone(s.blocks, s.docs, s.readers, r);
    ReadersFramed(s.blocks, s.docs, s.readers - {r}, p, block, s.docs[p]);
    forall w | w in s.writers && s.writers[w].current.Some? ensures s.writers[w].current.value.path != p {
      OneUser(s, w, r);
    }
    WritersFramed(s.blocks, s.writers, p, block);
    BlocksFramed(s.blocks, s.docs, p, block, s.docs[p]);
    assert s.docs[p := s.docs[p]] == s.docs;
  }

  // ---------- runs ----------

  lemma StageStepKeeps(s: Stage, step: Step, limits: DataFiles.Limits)
    requires StageInv(s) && Enabled(s, step, limits)
    ensures StageInv(Apply(s, step, limits))
  {
    match step
    case OpenWriter(w, counter) => WriterSet(s.blocks, s.writers, w, Writer(None, counter % UINT32));
    case WriteDoc(w, doc, path, now) => WriteKeeps(s, w, doc, path, now, limits);
    case MaintainWriter(w, now) => if s.writers[w].current.Some? { ClosedKeeps(s, w); }
    case Claim(r, path) => ClaimKeeps(s, r, path);
    case ReadNext(r) => ReadKeeps(s, r);
    case Finish(r) => RemovedKeeps(s, r);
    case Abort(r) => AbortedKeeps(s, r);
  }

  /** A run from the empty stage area. */
  predicate IsRun(states: seq<Stage>, steps: seq<Step>, limits: DataFiles.Limits)
  {
    |states| == |steps| + 1 && states[0] == EmptyStage() &&
    forall i {:trigger steps[i]} :: 0 <= i < |steps| ==>
      Enabled(states[i], steps[i], limits) && states[i + 1] == Apply(states[i], steps[i], limits)
  }

  lemma {:induction false} StageRunKeeps(states: seq<Stage>, steps: seq<Step>, limits: DataFiles.Limits, i: nat)
    requires IsRun(states, steps, limits) && i <= |steps|
    ensures StageInv(states[i]) && Linked(states[i])
  {
    if i > 0 {
      StageRunKeeps(states, steps, limits, i - 1);
      assert steps[i - 1] == steps[i - 1];
      StageStepKeeps(states[i - 1], steps[i - 1], limits);
    }
    InvLinks(states[i]);
  }

  /** The block a reader works on is the same in both states. */
  predicate Untouched(s: Stage, t: Stage, p: string)
  {
    p in s.blocks && p in s.docs && p in t.blocks && p in t.docs && t.docs[p] == s.docs[p] && t.blocks[p] == s.blocks[p]
  }

  lemma WriteLeavesOthers(s: Stage, w: nat, doc: Document, path: string, now: nat, limits: DataFiles.Limits, p: string)
    requires Linked(s) && w in s.writers && path !in s.blocks && p in s.blocks && p in s.docs
    requires s.writers[w].current.Some? ==> s.writers[w].current.value.path != p
    ensures Untouched(s, Write(s, w, doc, path, now, limits), p)
    ensures Write(s, w, doc, path, now, limits).readers == s.readers
  {
  }

  lemma OthersLeave(s: Stage, step: Step, limits: DataFiles.Limits, r: nat)
    requires Enabled(s, step, limits) && r in s.readers && !step.WriteDoc?
    requires step != Finish(r) && step != Abort(r) && s.blocks[s.readers[r].path].state == Processing
    requires forall q :: q in s.readers && s.readers[q].path == s.readers[r].path ==> q == r
    requires forall w :: w in s.writers && s.writers[w].current.Some? ==>
               s.writers[w].current.value.path != s.readers[r].path
    ensures Untouched(s, Apply(s, step, limits), s.readers[r].path)
    ensures r in Apply(s, step, limits).readers
    ensures step != ReadNext(r) ==> Apply(s, step, limits).readers[r] == s.readers[r]
  {
  }

  /** While a block is claimed, no step but the end of its own reader's scan touches it. */
  lemma ClaimedBlockUntouched(s: Stage, step: Step, limits: DataFiles.Limits, r: nat)
    requires StageInv(s) && Enabled(s, step, limits) && r in s.readers
    requires step != Finish(r) && step != Abort(r)
    ensures Untouched(s, Apply(s, step, limits), s.readers[r].path)
    ensures r in Apply(s, step, limits).readers
    ensures step != ReadNext(r) ==> Apply(s, step, limits).readers[r] == s.readers[r]
  {
    assert ReaderOk(s.blocks, s.docs, s.readers[r]);
    forall w | w in s.writers && s.writers[w].current.Some?
      ensures s.writers[w].current.value.path != s.readers[r].path
    {
      OneUser(s, w, r);
    }
    if step.WriteDoc? {
      WriteLeavesOthers(s, step.w, step.doc, step.path, step.now, limits, s.readers[r].path);
    } else {
      OthersLeave(s, step, limits, r);
    }
  }
}
