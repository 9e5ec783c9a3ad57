/** Nothing written to the stage area is lost or processed twice, scans read blocks in order, and
    blocks stay within their size. */
module StageTheorems {
  import opened CommandTypes
  import DataFiles
  import opened StageBlocks
  import opened StageArea
  import opened StageRuns

  // ---------- sums over blocks ----------

  ghost function Total(m: Docs): multiset<Document>
  {
    if m == map[] then multiset{} else var k :| k in m; multiset(m[k]) + Total(m - {k})
  }

  lemma {:induction false} TotalWithout(m: Docs, k: string)
    requires k in m
    ensures Total(m) == multiset(m[k]) + Total(m - {k})
    decreases |m|
  {
    var j :| j in m && Total(m) == multiset(m[j]) + Total(m - {j});
    if j != k {
      TotalWithout(m - {j}, k);
      TotalWithout(m - {k}, j);
      assert m - {j} - {k} == m - {k} - {j};
    }
  }

  // ---------- documents still to be processed ----------

  predicate ReadBy(readers: map<nat, Reading>, r: nat, p: string) {
    r in readers && readers[r].path == p
  }

  function Drop(docs: seq<Document>, n: nat): seq<Document> {
    if n <= |docs| then docs[n..] else []
  }

  /** What is left of a block: all of it, or what its reader has not reached. */
  ghost function Unread(docs: Docs, readers: map<nat, Reading>, p: string): seq<Document>
    requires p in docs
  {
    if exists r :: ReadBy(readers, r, p)
    then var r :| ReadBy(readers, r, p); Drop(docs[p], |readers[r].seen|)
    else docs[p]
  }

  ghost function Pending(docs: Docs, readers: map<nat, Reading>): Docs
  {
    map p | p in docs :: Unread(docs, readers, p)
  }

  /** Every document written is either still to be processed or has been processed, once, and once
      more for every aborted scan that had reached it. */
  ghost predicate Conserved(s: Stage)
  {
    s.processed + Total(Pending(s.docs, s.readers)) == s.written + s.redone
  }

  ghost predicate OneReaderEach(readers: map<nat, Reading>)
  {
    forall q, r :: q in readers && r in readers && readers[q].path == readers[r].path ==> q == r
  }

  lemma UnreadAt(docs: Docs, readers: map<nat, Reading>, r: nat)
    requires OneReaderEach(readers) && r in readers && readers[r].path in docs
    ensures Unread(docs, readers, readers[r].path) == Drop(docs[readers[r].path], |readers[r].seen|)
  {
    assert ReadBy(readers, r, readers[r].path);
  }

  lemma UnreadOf(s: Stage, r: nat)
    requires StageInv(s) && r in s.readers
    ensures s.readers[r].path in s.docs && |s.readers[r].seen| <= |s.docs[s.readers[r].path]|
    ensures Unread(s.docs, s.readers, s.readers[r].path) == s.docs[s.readers[r].path][|s.readers[r].seen|..]
  {
    assert ReaderOk(s.blocks, s.docs, s.readers[r]);
    UnreadAt(s.docs, s.readers, r);
  }

  /** A change that only concerns one block and its reader leaves all other blocks' rests. */
  lemma PendingElsewhere(docs: Docs, readers: map<nat, Reading>, docs': Docs, readers': map<nat, Reading>, p: string)
    requires OneReaderEach(readers) && docs - {p} == docs' - {p}
    requires forall r :: r in readers && readers[r].path != p ==> r in readers' && readers'[r] == readers[r]
    requires forall r :: r in readers' && readers'[r].path != p ==> r in readers && readers'[r] == readers[r]
    ensures Pending(docs, readers) - {p} == Pending(docs', readers') - {p}
  {
    forall q | q != p && q in docs ensures q in docs' && Unread(docs, readers, q) == Unread(docs', readers', q) {
      assert q in docs - {p} && docs[q] == (docs - {p})[q];
      assert q in docs' - {p} && docs'[q] == (docs' - {p})[q];
      if r :| ReadBy(readers, r, q) {
        assert ReadBy(readers', r, q);
      } else {
        forall r | ReadBy(readers', r, q) ensures false { assert ReadBy(readers, r, q); }
      }
    }
    forall q | q != p && q in docs' ensures q in docs {
      assert q in docs' - {p};
    }
  }

  ghost function Left(s: Stage, p: string): multiset<Document>
  {
    if p in s.docs then multiset(Unread(s.docs, s.readers, p)) else multiset{}
  }

  /** One block and the rest. */
  lemma PendingSplit(s: Stage, p: string)
    ensures Total(Pending(s.docs, s.readers)) == Left(s, p) + Total(Pending(s.docs, s.readers) - {p})
  {
    if p in s.docs {
      TotalWithout(Pending(s.docs, s.readers), p);
    } else {
      assert Pending(s.docs, s.readers) - {p} == Pending(s.docs, s.readers);
    }
  }

  /** All blocks but one, and all their readers, are the same. */
  ghost predicate OnlyAbout(s: Stage, t: Stage, p: string)
  {
    s.docs - {p} == t.docs - {p} &&
    (forall r :: r in s.readers && s.readers[r].path != p ==> r in t.readers && t.readers[r] == s.readers[r]) &&
    (forall r :: r in t.readers && t.readers[r].path != p ==> r in s.readers && t.readers[r] == s.readers[r])
  }

  // ---------- steps ----------

  lemma NotRead(s: Stage, p: string)
    requires StageInv(s) && (p in s.blocks ==> s.blocks[p].state != Processing)
    ensures forall r :: !ReadBy(s.readers, r, p)
  {
    forall r | r in s.readers ensures !ReadBy(s.readers, r, p) {
      assert ReaderOk(s.blocks, s.docs, s.readers[r]);
    }
  }

  /** The documents after a write: perhaps a new block, then one more document in the writer's block. */
  lemma WriteAdds(s: Stage, w: nat, doc: Document, path: string, now: nat, limits: DataFiles.Limits)
    requires Linked(s) && w in s.writers && path !in s.blocks && path !in s.docs
    ensures var t := Write(s, w, doc, path, now, limits);
            t.readers == s.readers && t.processed == s.processed && t.redone == s.redone &&
            t.written == s.written + multiset{doc}
    ensures var t := Write(s, w, doc, path, now, limits);
            var p := if WriterKeepsBlock(s.writers[w], now, limits) then s.writers[w].current.value.path else path;
            t.docs == s.docs[p := (if p in s.docs then s.docs[p] else []) + [doc]]
  {
    if !WriterKeepsBlock(s.writers[w], now, limits) {
      assert s.docs[path := []][path := [] + [doc]] == s.docs[path := [] + [doc]];
    }
  }

  /** Conservation seen from the one block a step concerns. */
  lemma ConservedAt(s: Stage, t: Stage, p: string)
    requires Conserved(s) && OneReaderEach(s.readers) && OnlyAbout(s, t, p)
    requires t.processed + Left(t, p) + (s.written + s.redone) == s.processed + Left(s, p) + (t.written + t.redone)
    ensures Conserved(t)
  {
    PendingElsewhere(s.docs, s.readers, t.docs, t.readers, p);
    PendingSplit(s, p);
    PendingSplit(t, p);
    Balance(s.processed, Left(s, p), s.written + s.redone, t.processed, Left(t, p), t.written + t.redone,
            Total(Pending(s.docs, s.readers) - {p}));
  }

  lemma Balance(a: multiset<Document>, b: multiset<Document>, c: multiset<Document>,
                a': multiset<Document>, b': multiset<Document>, c': multiset<Document>, rest: multiset<Document>)
    requires a' + b' + c == a + b + c' && a + (b + rest) == c
    ensures a' + (b' + rest) == c'
  {
    forall x: Document ensures (a' + (b' + rest))[x] == c'[x] {
      assert (a' + b' + c)[x] == (a + b + c')[x];
      assert (a + (b + rest))[x] == c[x];
    }
  }

  lemma WriteConserves(s: Stage, w: nat, doc: Document, path: string, now: nat, limits: DataFiles.Limits)
    requires StageInv(s) && Linked(s) && Conserved(s) && w in s.writers && path !in s.blocks
    ensures Conserved(Write(s, w, doc, path, now, limits))
  {
    assert WriterOk(s.blocks, s.writers[w]);
    var p := if WriterKeepsBlock(s.writers[w], now, limits) then s.writers[w].current.value.path else path;
    NotRead(s, p);
    WriteAdds(s, w, doc, path, now, limits);
    AddConserves(s, Write(s, w, doc, path, now, limits), p, doc);
  }

  lemma AddConserves(s: Stage, t: Stage, p: string, doc: Document)
    requires Conserved(s) && OneReaderEach(s.readers) && (forall r :: !ReadBy(s.readers, r, p))
    requires t.readers == s.readers && t.docs == s.docs[p := (if p in s.docs then s.docs[p] else []) + [doc]]
    requires t.processed == s.processed && t.redone == s.redone && t.written == s.written + multiset{doc}
    ensures Conserved(t)
  {
    assert t.docs - {p} == s.docs - {p};
    assert Left(t, p) == Left(s, p) + multiset{doc};
    ConservedAt(s, t, p);
  }

  lemma ClaimConserves(s: Stage, r: nat, path: string)
    requires Conserved(s) && OneReaderEach(s.readers) && r !in s.readers && path in s.blocks && path in s.docs
    requires s.blocks[path].state == Free ==> forall q :: !ReadBy(s.readers, q, path)
    ensures Conserved(Claimed(s, r, path))
  {
    if s.blocks[path].state == Free {
      var t := Claimed(s, r, path);
      assert forall q :: q in s.readers ==> ReadBy(s.readers, q, s.readers[q].path);
      UnreadAt(t.docs, t.readers, r);
      assert Left(t, path) == Left(s, path) by { assert s.docs[path][0..] == s.docs[path]; }
      assert OnlyAbout(s, t, path);
      ConservedAt(s, t, path);
    }
  }

  lemma ReadConserves(s: Stage, r: nat)
    requires Conserved(s) && OneReaderEach(s.readers) && r in s.readers
    requires var x := s.readers[r];
             x.path in s.blocks && x.path in s.docs && |x.seen| < |s.docs[x.path]| &&
             FrameAt(s.blocks[x.path].bytes, x.position) == Some(s.docs[x.path][|x.seen|])
    ensures Conserved(Read(s, r))
  {
    AdvanceConserves(s, Read(s, r), r, s.docs[s.readers[r].path][|s.readers[r].seen|]);
  }

  /** The next document of a block moves from its rest to the processed ones. */
  lemma AdvanceConserves(s: Stage, t: Stage, r: nat, doc: Document)
    requires Conserved(s) && OneReaderEach(s.readers) && r in s.readers && s.readers[r].path in s.docs
    requires var x := s.readers[r]; |x.seen| < |s.docs[x.path]| && doc == s.docs[x.path][|x.seen|]
    requires var x := s.readers[r];
             t == s.(readers := s.readers[r := Reading(x.path, x.position + |doc|, x.seen + [doc])],
                     processed := s.processed + multiset{doc})
    ensures Conserved(t)
  {
    var x := s.readers[r];
    var docs, n := s.docs[x.path], |x.seen|;
    UnreadAt(s.docs, s.readers, r);
    UnreadAt(t.docs, t.readers, r);
    assert Left(s, x.path) == Left(t, x.path) + multiset{doc} by {
      assert docs[n..] == [doc] + docs[n + 1..];
    }
    assert OnlyAbout(s, t, x.path);
    ConservedAt(s, t, x.path);
  }

  lemma RemovedConserves(s: Stage, r: nat)
    requires StageInv(s) && Linked(s) && Conserved(s) && r in s.readers
    requires s.readers[r].position == |s.blocks[s.readers[r].path].bytes|
    ensures Conserved(Removed(s, r))
  {
    NextDocument(s, r);
    UnreadOf(s, r);
    assert OnlyAbout(s, Removed(s, r), s.readers[r].path);
    ConservedAt(s, Removed(s, r), s.readers[r].path);
  }

  lemma AbortedConserves(s: Stage, r: nat)
    requires StageInv(s) && Linked(s) && Conserved(s) && r in s.readers
    ensures Conserved(Aborted(s, r))
  {
    var x, t := s.readers[r], Aborted(s, r);
    var docs := s.docs[x.path];
    assert ReaderOk(s.blocks, s.docs, x);
    UnreadOf(s, r);
    assert forall q :: !ReadBy(t.readers, q, x.path);
    assert docs == x.seen + docs[|x.seen|..];
    assert OnlyAbout(s, t, x.path);
    ConservedAt(s, t, x.path);
  }

  lemma StepConserves(s: Stage, step: Step, limits: DataFiles.Limits)
    requires StageInv(s) && Conserved(s) && Enabled(s, step, limits)
    ensures Conserved(Apply(s, step, limits))
    ensures !step.Abort? ==> Apply(s, step, limits).redone == s.redone
  {
    match step
    case WriteDoc(w, doc, path, now) =>
      WriteConserves(s, w, doc, path, now, limits);
      WriteAdds(s, w, doc, path, now, limits);
    case Claim(r, path) =>
      if s.blocks[path].state == Free { NotRead(s, path); }
      ClaimConserves(s, r, path);
    case ReadNext(r) => NextDocument(s, r); ReadConserves(s, r);
    case Finish(r) => RemovedConserves(s, r);
    case Abort(r) => AbortedConserves(s, r);
    case _ =>
  }

  // ---------- whole runs ----------

  /** In every run, with any number of writers and indexers in any interleaving, written documents are
      conserved; without aborted scans each is processed at most once, and exactly once when the
      stage area is empty. */
  lemma {:induction false} StageConservation(states: seq<Stage>, steps: seq<Step>, limits: DataFiles.Limits, i: nat)
    requires IsRun(states, steps, limits) && i <= |steps|
    ensures Conserved(states[i])
    ensures (forall j :: 0 <= j < i ==> !steps[j].Abort?) ==> states[i].redone == multiset{}
    ensures (forall j :: 0 <= j < i ==> !steps[j].Abort?) ==> states[i].processed <= states[i].written
    ensures (forall j :: 0 <= j < i ==> !steps[j].Abort?) && states[i].blocks == map[] ==>
              states[i].processed == states[i].written
  {
    if i > 0 {
      StageConservation(states, steps, limits, i - 1);
      StageRunKeeps(states, steps, limits, i - 1);
      StepConserves(states[i - 1], steps[i - 1], limits);
    }
    StageRunKeeps(states, steps, limits, i);
    var s := states[i];
    if s.redone == multiset{} {
      assert s.processed <= s.processed + Total(Pending(s.docs, s.readers));
    }
    if s.blocks == map[] {
      assert Pending(s.docs, s.readers) == map[];
    }
  }

  /** Reader r has processed the k-th of these documents, and nothing else. */
  ghost predicate ReadsDocument(s: Stage, t: Stage, r: nat, docs: seq<Document>, k: nat)
  {
    k < |docs| && r in t.readers && t.readers == s.readers[r := t.readers[r]] &&
    t.readers[r].seen == docs[..k + 1] && t.processed == s.processed + multiset{docs[k]}
  }

  /** The k-th document a scan processes is the k-th document of its block, which nothing changes
      meanwhile, and the block is removed exactly after its last document. */
  lemma ScansInOrder(states: seq<Stage>, steps: seq<Step>, limits: DataFiles.Limits, i: nat, r: nat)
    requires IsRun(states, steps, limits) && i < |steps| && r in states[i].readers
    ensures states[i].readers[r].path in states[i].docs
    ensures var x := states[i].readers[r]; var docs := states[i].docs[x.path];
            x.seen <= docs &&
            (steps[i] == ReadNext(r) ==> ReadsDocument(states[i], states[i + 1], r, docs, |x.seen|)) &&
            (steps[i] == Finish(r) ==> x.seen == docs && x.path !in states[i + 1].blocks)
    ensures steps[i] != Finish(r) && steps[i] != Abort(r) ==>
              Untouched(states[i], states[i + 1], states[i].readers[r].path)
  {
    StageRunKeeps(states, steps, limits, i);
    var s := states[i];
    NextDocument(s, r);
    assert ReaderOk(s.blocks, s.docs, s.readers[r]);
    if steps[i] == ReadNext(r) {
      var docs, n := s.docs[s.readers[r].path], |s.readers[r].seen|;
      assert docs[..n] + [docs[n]] == docs[..n + 1];
    }
    if steps[i] != Finish(r) && steps[i] != Abort(r) {
      ClaimedBlockUntouched(s, steps[i], limits, r);
    }
  }

  /** At no time do two indexers, two writers, or a writer and an indexer use the same block, and
      documents are never split: each block is a sequence of whole documents. */
  lemma BlocksExclusiveAndWhole(states: seq<Stage>, steps: seq<Step>, limits: DataFiles.Limits, i: nat)
    requires IsRun(states, steps, limits) && i <= |steps|
    ensures var s := states[i];
            forall q, r :: q in s.readers && r in s.readers && q != r ==> s.readers[q].path != s.readers[r].path
    ensures var s := states[i];
            forall v, w :: v in s.writers && w in s.writers && v != w ==> !SameBlock(s.writers[v], s.writers[w])
    ensures var s := states[i];
            forall w, r :: w in s.writers && r in s.readers && s.writers[w].current.Some? ==>
              s.writers[w].current.value.path != s.readers[r].path
    ensures var s := states[i]; forall p :: p in s.blocks ==> p in s.docs && Holds(s.blocks[p], s.docs[p])
  {
    StageRunKeeps(states, steps, limits, i);
    var s := states[i];
    forall w, r | w in s.writers && r in s.readers && s.writers[w].current.Some?
      ensures s.writers[w].current.value.path != s.readers[r].path
    {
      OneUser(s, w, r);
    }
  }

  // ---------- size of blocks ----------

  function Base(limits: DataFiles.Limits): nat {
    if limits.maxSize == 0 then 0 else limits.maxSize - 1
  }

  /** The size a writer's block may have, given how long ago the last real check was. */
  ghost predicate WriterSize(w: Writer, limits: DataFiles.Limits, longest: nat)
  {
    w.current.Some? ==> w.current.value.position <= Base(limits) + (w.counter % 16 + 1) * longest
  }

  ghost predicate SizesOk(s: Stage, limits: DataFiles.Limits, longest: nat)
  {
    (forall w :: w in s.writers ==> WriterSize(s.writers[w], limits, longest)) &&
    (forall p :: p in s.blocks ==> |s.blocks[p].bytes| <= Base(limits) + 16 * longest)
  }

  /** One write, whatever the counter, including when it wraps around. */
  lemma WriteSize(w: Writer, now: nat, limits: DataFiles.Limits, longest: nat, n: nat)
    requires WriterSize(w, limits, longest) && n <= longest && WriterKeepsBlock(w, now, limits)
    ensures w.current.value.position + n <= Base(limits) + ((w.counter + 1) % UINT32 % 16 + 1) * longest
    ensures w.current.value.position + n <= Base(limits) + 16 * longest
  {
    var c := (w.counter + 1) % UINT32 % 16;
    NextCount(w.counter);
    if c != 0 {
      OneMore(w.counter % 16 + 1, longest);
    }
    Scaled(1, c + 1, longest);
    Scaled(c + 1, 16, longest);
  }

  /** The wrap-around of the counter keeps its rest modulo 16. */
  lemma NextCount(counter: nat)
    ensures (counter + 1) % UINT32 % 16 == (counter + 1) % 16
    ensures (counter + 1) % 16 == if counter % 16 == 15 then 0 else counter % 16 + 1
  {
  }

  lemma OneMore(a: nat, x: nat)
    ensures (a + 1) * x == a * x + x
  {
  }

  lemma Scaled(a: nat, b: nat, x: nat)
    requires a <= b
    ensures a * x <= b * x
  {
  }

  /** What a write does to the writer's block. */
  lemma WrittenBlock(s: Stage, w: nat, doc: Document, path: string, now: nat, limits: DataFiles.Limits)
    requires Linked(s) && w in s.writers && path !in s.blocks
    ensures var t := Write(s, w, doc, path, now, limits);
            var keeps := WriterKeepsBlock(s.writers[w], now, limits);
            t.writers.Keys == s.writers.Keys && t.writers[w].current.Some? &&
            t.writers[w].counter == (s.writers[w].counter + 1) % UINT32 &&
            t.writers[w].current.value.position == (if keeps then s.writers[w].current.value.position else 0) + |doc| &&
            (forall v :: v in s.writers && v != w ==> t.writers[v] == s.writers[v])
    ensures var t := Write(s, w, doc, path, now, limits);
            forall p :: p in t.blocks ==>
              if p != t.writers[w].current.value.path then p in s.blocks && t.blocks[p].bytes == s.blocks[p].bytes
              else if WriterKeepsBlock(s.writers[w], now, limits)
              then p == s.writers[w].current.value.path && t.blocks[p].bytes == s.blocks[p].bytes + doc
              else t.blocks[p].bytes == doc
  {
    assert [] + doc == doc;
  }

  lemma WriteSizes(s: Stage, w: nat, doc: Document, path: string, now: nat, limits: DataFiles.Limits, longest: nat)
    requires Linked(s) && w in s.writers && path !in s.blocks && WriterOk(s.blocks, s.writers[w])
    requires SizesOk(s, limits, longest) && |doc| <= longest
    ensures SizesOk(Write(s, w, doc, path, now, limits), limits, longest)
  {
    var x, t := s.writers[w], Write(s, w, doc, path, now, limits);
    WrittenBlock(s, w, doc, path, now, limits);
    var c := (x.counter + 1) % UINT32 % 16;
    Scaled(1, c + 1, longest);
    if WriterKeepsBlock(x, now, limits) {
      WriteSize(x, now, limits, longest, |doc|);
    }
    assert WriterSize(t.writers[w], limits, longest);
  }

  lemma StepSizes(s: Stage, step: Step, limits: DataFiles.Limits, longest: nat)
    requires StageInv(s) && Enabled(s, step, limits) && SizesOk(s, limits, longest)
    requires step.WriteDoc? ==> |step.doc| <= longest
    ensures SizesOk(Apply(s, step, limits), limits, longest)
  {
    if step.WriteDoc? {
      WriteSizes(s, step.w, step.doc, step.path, step.now, limits, longest);
    } else {
      OtherSizes(s, step, limits, longest);
    }
  }

  lemma OtherSizes(s: Stage, step: Step, limits: DataFiles.Limits, longest: nat)
    requires Enabled(s, step, limits) && SizesOk(s, limits, longest) && !step.WriteDoc?
    ensures SizesOk(Apply(s, step, limits), limits, longest)
  {
    var t := Apply(s, step, limits);
    assert forall w :: w in t.writers ==>
             t.writers[w].current.None? || (w in s.writers && t.writers[w] == s.writers[w]);
    assert forall p :: p in t.blocks ==> p in s.blocks && t.blocks[p].bytes == s.blocks[p].bytes;
  }

  /** Stage blocks are checked only every sixteenth write, so a block exceeds its maximum by at most
      sixteen records: for any starting counter and any interleaving with maintenance. */
  lemma {:induction false} StageBlocksBounded(states: seq<Stage>, steps: seq<Step>, limits: DataFiles.Limits,
                                              longest: nat, i: nat)
    requires IsRun(states, steps, limits) && i <= |steps|
    requires forall j :: 0 <= j < |steps| && steps[j].WriteDoc? ==> |steps[j].doc| <= longest
    ensures SizesOk(states[i], limits, longest)
    ensures forall p :: p in states[i].blocks && 0 < limits.maxSize ==>
              |states[i].blocks[p].bytes| < limits.maxSize + 16 * longest
  {
    if i > 0 {
      StageBlocksBounded(states, steps, limits, longest, i - 1);
      StageRunKeeps(states, steps, limits, i - 1);
      StepSizes(states[i - 1], steps[i - 1], limits, longest);
    }
  }

  /** A block that holds j copies of one document, checked last when the first of them was written. */
  ghost predicate Filled(s: Stage, doc: Document, j: nat)
  {
    s.blocks.Keys == {"a"} && |s.blocks["a"].bytes| == j * |doc| && 0 in s.writers &&
    s.writers[0].counter == 15 + j && s.writers[0].current.Some? && s.writers[0].current.value.path == "a"
  }

  lemma FillOne(s: Stage, doc: Document, j: nat, limits: DataFiles.Limits)
    requires Linked(s) && Filled(s, doc, j) && 1 <= j < 16
    ensures "b" !in s.blocks && Filled(Write(s, 0, doc, "b", 0, limits), doc, j + 1)
  {
    assert "b"[0] != "a"[0];
    assert WriterKeepsBlock(s.writers[0], 0, limits);
    KeptBlock(s, 0, doc, "b", 0, limits);
    OneMore(j, |doc|);
  }

  lemma KeptBlock(s: Stage, w: nat, doc: Document, path: string, now: nat, limits: DataFiles.Limits)
    requires Linked(s) && w in s.writers && path !in s.blocks && WriterKeepsBlock(s.writers[w], now, limits)
    ensures var t, b := Write(s, w, doc, path, now, limits), s.writers[w].current.value;
            t.blocks == s.blocks[b.path := s.blocks[b.path].(bytes := s.blocks[b.path].bytes + doc)] &&
            w in t.writers && t.writers[w].current == Some(b.(position := b.position + |doc|)) &&
            t.writers[w].counter == (s.writers[w].counter + 1) % UINT32
  {
  }

  lemma FirstFill(doc: Document, limits: DataFiles.Limits)
    ensures var s := Apply(EmptyStage(), OpenWriter(0, 15), limits);
            Enabled(EmptyStage(), OpenWriter(0, 15), limits) && Linked(s) && 0 in s.writers && s.blocks == map[] &&
            Filled(Write(s, 0, doc, "a", 0, limits), doc, 1)
  {
    assert |[] + doc| == 1 * |doc|;
  }

  lemma {:induction false} FillBlock(doc: Document, j: nat) returns (states: seq<Stage>, steps: seq<Step>)
    requires WellFormed(doc) && 1 <= j <= 16
    ensures IsRun(states, steps, DataFiles.Limits(0, 1)) && |steps| == j + 1 && Filled(states[j + 1], doc, j)
    ensures forall i :: 0 <= i < |steps| && steps[i].WriteDoc? ==> steps[i].doc == doc
  {
    var limits := DataFiles.Limits(0, 1);
    if j == 1 {
      var s1 := Apply(EmptyStage(), OpenWriter(0, 15), limits);
      FirstFill(doc, limits);
      states := [EmptyStage(), s1, Write(s1, 0, doc, "a", 0, limits)];
      steps := [OpenWriter(0, 15), WriteDoc(0, doc, "a", 0)];
    } else {
      var before, taken := FillBlock(doc, j - 1);
      assert Linked(before[j]) by { StageRunKeeps(before, taken, limits, j); }
      FillOne(before[j], doc, j - 1, limits);
      states, steps := OneStepMore(before, taken, WriteDoc(0, doc, "b", 0), limits);
      assert steps == taken + [WriteDoc(0, doc, "b", 0)];
    }
  }

  lemma OneStepMore(before: seq<Stage>, taken: seq<Step>, step: Step, limits: DataFiles.Limits)
      returns (states: seq<Stage>, steps: seq<Step>)
    requires IsRun(before, taken, limits) && Enabled(before[|taken|], step, limits)
    ensures IsRun(states, steps, limits) && steps == taken + [step]
    ensures states == before + [Apply(before[|taken|], step, limits)]
  {
    states, steps := before + [Apply(before[|taken|], step, limits)], taken + [step];
    forall i | 0 <= i < |steps|
      ensures Enabled(states[i], steps[i], limits) && states[i + 1] == Apply(states[i], steps[i], limits)
    {
      if i < |taken| { assert steps[i] == taken[i]; }
    }
  }

  /** With a maximum size of 0 the bound is reached: a block of sixteen documents. */
  lemma SixteenRecordsReached(doc: Document) returns (states: seq<Stage>, steps: seq<Step>)
    requires WellFormed(doc)
    ensures IsRun(states, steps, DataFiles.Limits(0, 1)) && |steps| == 17
    ensures forall i :: 0 <= i < |steps| && steps[i].WriteDoc? ==> steps[i].doc == doc
    ensures "a" in states[17].blocks && |states[17].blocks["a"].bytes| == 16 * |doc|
  {
    states, steps := FillBlock(doc, 16);
  }
}
