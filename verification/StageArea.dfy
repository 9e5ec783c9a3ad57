/** The stage area shared by any number of writers and indexers. Writers append documents to
    their own block and release it now and then; an indexer claims a released block by an atomic
    change of its state, processes it document by document and removes it. */
module StageArea {
  import opened CommandTypes
  import opened DataFiles
  import opened StageBlocks

  datatype BlockState = Free | Acquiring | Processing

  datatype StageBlock = StageBlock(bytes: seq<Byte>, state: BlockState)

  /** A writeable stage file; `counter` counts validity checks and starts anywhere. */
  datatype Writer = Writer(current: Option<Block>, counter: nat)

  /** The block an indexer works on, how far it has read, and the documents processed so far. */
  datatype Reading = Reading(path: string, position: nat, seen: seq<Document>)

  datatype Stage = Stage(
    blocks: map<string, StageBlock>,
    docs: map<string, seq<Document>>,   // what was written to each block
    writers: map<nat, Writer>,
    readers: map<nat, Reading>,
    written: multiset<Document>,
    processed: multiset<Document>,
    redone: multiset<Document>)         // processed, but to be processed again after an aborted scan

  datatype Step =
    | OpenWriter(w: nat, counter: nat)
    | WriteDoc(w: nat, doc: Document, path: string, now: nat)
    | MaintainWriter(w: nat, now: nat)
    | Claim(r: nat, path: string)
    | ReadNext(r: nat)
    | Finish(r: nat)
    | Abort(r: nat)

  function EmptyStage(): Stage
  {
    Stage(map[], map[], map[], map[], multiset{}, multiset{}, multiset{})
  }

  const UINT32 := 0x1_0000_0000

  // ---------- writers ----------

  /** Only every sixteenth check looks at the block. */
  predicate WriterKeepsBlock(w: Writer, now: nat, limits: Limits)
  {
    w.current.Some? && ((w.counter + 1) % UINT32 % 16 != 0 || IsValid(w.current.value, now, limits))
  }

  function Freed(s: Stage, path: string): Stage
    requires path in s.blocks
  {
    s.(blocks := s.blocks[path := s.blocks[path].(state := Free)])
  }

  /** The writer's block released (if it has one) and a new one opened. */
  function Switched(s: Stage, w: nat, path: string, now: nat, limits: Limits): Stage
    requires w in s.writers && (s.writers[w].current.Some? ==> s.writers[w].current.value.path in s.blocks)
  {
    var t := if s.writers[w].current.Some? then Freed(s, s.writers[w].current.value.path) else s;
    t.(blocks := t.blocks[path := StageBlock([], Acquiring)], docs := t.docs[path := []],
       writers := t.writers[w := t.writers[w].(current := Some(Block(path, 0, now + limits.lifetime)))])
  }

  function Appended(s: Stage, w: nat, doc: Document): Stage
    requires w in s.writers && s.writers[w].current.Some?
    requires s.writers[w].current.value.path in s.blocks && s.writers[w].current.value.path in s.docs
  {
    var b := s.writers[w].current.value;
    s.(blocks := s.blocks[b.path := s.blocks[b.path].(bytes := s.blocks[b.path].bytes + doc)],
       docs := s.docs[b.path := s.docs[b.path] + [doc]],
       writers := s.writers[w := s.writers[w].(current := Some(b.(position := b.position + |doc|)))],
       written := s.written + multiset{doc})
  }

  function Counted(s: Stage, w: nat): Stage
    requires w in s.writers
  {
    s.(writers := s.writers[w := s.writers[w].(counter := (s.writers[w].counter + 1) % UINT32)])
  }

  // ---------- steps ----------

  /** Pointers lead to existing blocks. */
  predicate Linked(s: Stage)
  {
    (forall w :: w in s.writers && s.writers[w].current.Some? ==>
       s.writers[w].current.value.path in s.blocks && s.writers[w].current.value.path in s.docs) &&
    (forall r :: r in s.readers ==> s.readers[r].path in s.blocks && s.readers[r].path in s.docs)
  }

  predicate Enabled(s: Stage, step: Step, limits: Limits)
  {
    Linked(s) &&
    match step
    case OpenWriter(w, _) => w !in s.writers
    case WriteDoc(w, doc, path, _) => w in s.writers && WellFormed(doc) && path !in s.blocks
    case MaintainWriter(w, _) => w in s.writers
    case Claim(r, path) => r !in s.readers && path in s.blocks
    case ReadNext(r) => r in s.readers && s.readers[r].position != |s.blocks[s.readers[r].path].bytes|
    case Finish(r) => r in s.readers && s.readers[r].position == |s.blocks[s.readers[r].path].bytes|
    case Abort(r) => r in s.readers
  }

  function Write(s: Stage, w: nat, doc: Document, path: string, now: nat, limits: Limits): Stage
    requires Linked(s) && w in s.writers && path !in s.blocks
  {
    var t := Counted(s, w);
    if WriterKeepsBlock(s.writers[w], now, limits) then Appended(t, w, doc)
    else Appended(Switched(t, w, path, now, limits), w, doc)
  }

  /** Compare and set on the block state: nothing happens unless the block is free. */
  function Claimed(s: Stage, r: nat, path: string): Stage
    requires path in s.blocks
  {
    if s.blocks[path].state != Free then s
    else s.(blocks := s.blocks[path := s.blocks[path].(state := Processing)],
            readers := s.readers[r := Reading(path, 0, [])])
  }

  function Read(s: Stage, r: nat): Stage
    requires r in s.readers && s.readers[r].path in s.blocks
  {
    var x := s.readers[r];
    match FrameAt(s.blocks[x.path].bytes, x.position)
    case None => s
    case Some(doc) =>
      s.(readers := s.readers[r := Reading(x.path, x.position + |doc|, x.seen + [doc])],
         processed := s.processed + multiset{doc})
  }

  function Removed(s: Stage, r: nat): Stage
    requires r in s.readers
  {
    var path := s.readers[r].path;
    s.(blocks := s.blocks - {path}, docs := s.docs - {path}, readers := s.readers - {r})
  }

  /** A scan that stops early gives the block back; it will be scanned again from its start. */
  function Aborted(s: Stage, r: nat): Stage
    requires r in s.readers && s.readers[r].path in s.blocks
  {
    var x := s.readers[r];
    Freed(s, x.path).(readers := s.readers - {r}, redone := s.redone + multiset(x.seen))
  }

  function Apply(s: Stage, step: Step, limits: Limits): Stage
    requires Enabled(s, step, limits)
  {
    match step
    case OpenWriter(w, counter) => s.(writers := s.writers[w := Writer(None, counter % UINT32)])
    case WriteDoc(w, doc, path, now) => Write(s, w, doc, path, now, limits)
    case MaintainWriter(w, now) =>
      var cur := s.writers[w].current;
      if cur.Some? && !IsValid(cur.value, now, limits)
      then Freed(s, cur.value.path).(writers := s.writers[w := s.writers[w].(current := None)])
      else s
    case Claim(r, path) => Claimed(s, r, path)
    case ReadNext(r) => Read(s, r)
    case Finish(r) => Removed(s, r)
    case Abort(r) => Aborted(s, r)
  }
}
