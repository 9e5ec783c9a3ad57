/** The writeable and readable stage files, updating the shared block store in place. */
module StageFiles {
  import opened CommandTypes
  import DataFiles
  import opened StageBlocks
  import opened StageArea
  import opened StageRuns

  /** Block contents on the storage together with the block states in the database. */
  class StageStore {
    var blocks: Blocks
    constructor ()
      ensures blocks == map[]
    {
      blocks := map[];
    }
  }

  class StageWriteableFile {
    const store: StageStore
    const limits: DataFiles.Limits
    var current: Option<DataFiles.Block>
    var checkValidityCounter: nat

    ghost function Me(): Writer
      reads this
    {
      Writer(current, checkValidityCounter)
    }

    /** This file is writer w of the stage area s. */
    ghost predicate Represents(s: Stage, w: nat)
      reads this, store
    {
      w in s.writers && s.writers[w] == Me() && s.blocks == store.blocks
    }

    /** The counter is never initialised. */
    constructor (st: StageStore, l: DataFiles.Limits, counter: nat)
      ensures store == st && limits == l && Me() == Writer(None, counter % UINT32)
    {
      store, limits, current, checkValidityCounter := st, l, None, counter % UINT32;
    }

    /** Only every sixteenth call looks at the block. */
    method IsDataBlockValid(now: nat) returns (valid: bool)
      modifies this`checkValidityCounter
      ensures valid == WriterKeepsBlock(old(Me()), now, limits)
      ensures valid <==> current.Some? && (checkValidityCounter % 16 == 0 ==>
                           now < current.value.validUntil && current.value.position < limits.maxSize)
      ensures checkValidityCounter == (old(checkValidityCounter) + 1) % UINT32
    {
      checkValidityCounter := (checkValidityCounter + 1) % UINT32;
      if current.None? { return false; }
      if checkValidityCounter % 16 != 0 { return true; }
      valid := DataFiles.IsValid(current.value, now, limits);
    }

    method ReleaseDataBlock()
      requires current.Some? ==> current.value.path in store.blocks
      modifies store
      ensures var before := old(store.blocks);
              store.blocks == if current.None? then before
                              else before[current.value.path := before[current.value.path].(state := Free)]
    {
      if current.None? { return; }
      store.blocks := store.blocks[current.value.path := store.blocks[current.value.path].(state := Free)];
    }

    method GetNewDataBlock(path: string, now: nat)
      modifies store, this`current
      ensures current == Some(DataFiles.Block(path, 0, now + limits.lifetime))
      ensures store.blocks == old(store.blocks)[path := StageBlock([], Acquiring)]
    {
      store.blocks := store.blocks[path := StageBlock([], Acquiring)];
      current := Some(DataFiles.Block(path, 0, now + limits.lifetime));
    }

    /** Exactly the writing step of the stage area. */
    method Write(doc: Document, path: string, now: nat, ghost s: Stage, ghost w: nat)
      requires Represents(s, w) && Linked(s) && path !in store.blocks
      modifies this, store
      ensures Represents(StageArea.Write(s, w, doc, path, now, limits), w)
    {
      var valid := IsDataBlockValid(now);
      ghost var t := Counted(s, w);
      assert Represents(t, w);
      if !valid {
        ReleaseDataBlock();
        GetNewDataBlock(path, now);
        t := Switched(t, w, path, now, limits);
        assert Represents(t, w);
      }
      var b := current.value;
      store.blocks := store.blocks[b.path := store.blocks[b.path].(bytes := store.blocks[b.path].bytes + doc)];
      current := Some(b.(position := b.position + |doc|));
      assert Represents(Appended(t, w, doc), w);
    }

    /** Maintenance uses the plain check: it does not count. */
    method Mantain(now: nat, ghost s: Stage, ghost w: nat)
      requires Represents(s, w) && Linked(s)
      modifies this, store
      ensures Represents(Apply(s, MaintainWriter(w, now), limits), w)
      ensures current == if old(current).Some? && old(current).value.validUntil > now &&
                            old(current).value.position < limits.maxSize then old(current) else None
    {
      if current.Some? && !DataFiles.IsValid(current.value, now, limits) {
        ReleaseDataBlock();
        current := None;
      }
    }
  }

  class StageReadableFile {
    const store: StageStore
    var current: Option<string>
    var position: nat

    constructor (st: StageStore)
      ensures store == st && current == None && position == 0
    {
      store, current, position := st, None, 0;
    }

    predicate Valid()
      reads this, store
    {
      current.Some? ==> current.value in store.blocks && position <= |store.blocks[current.value].bytes|
    }

    /** Tries the blocks that successive searches find; a block that another indexer has taken since
        is given up. The block taken, if any, is the first one still free, and it is claimed as one
        step of the stage area. */
    method GetNextAvailableBlock(found: seq<string>, ghost s: Stage, ghost r: nat)
      requires current.None? && s.blocks == store.blocks
      requires forall i :: 0 <= i < |found| ==> found[i] in store.blocks
      modifies this, store
      ensures Valid()
      ensures current.None? <==> forall i :: 0 <= i < |found| ==> old(store.blocks)[found[i]].state != Free
      ensures current.None? ==> store.blocks == old(store.blocks)
      ensures current.Some? ==> current.value in s.blocks && s.blocks[current.value].state == Free && position == 0 &&
                                store.blocks == Claimed(s, r, current.value).blocks
      ensures current.Some? ==> store.blocks[current.value].state == Processing
      ensures current.Some? ==> exists k :: 0 <= k < |found| && found[k] == current.value &&
                                  forall i :: 0 <= i < k ==> old(store.blocks)[found[i]].state != Free
    {
      var i := 0;
      while current.None? && i < |found|
        invariant 0 <= i <= |found| && current.None? && store.blocks == old(store.blocks)
        invariant forall j :: 0 <= j < i ==> store.blocks[found[j]].state != Free
      {
        var success := store.blocks[found[i]].state == Free;
        if success {
          store.blocks := store.blocks[found[i] := store.blocks[found[i]].(state := Processing)];
          current, position := Some(found[i]), 0;
          return;
        }
        i := i + 1;
      }
    }

    /** A block that has been read to its end is removed. */
    method CheckForBlockChange()
      requires Valid() && current.Some?
      modifies this, store
      ensures Valid() && position == old(position)
      ensures if old(position) == |old(store.blocks)[old(current).value].bytes|
              then current.None? && store.blocks == old(store.blocks) - {old(current).value}
              else current == old(current) && store.blocks == old(store.blocks)
    {
      if position == |store.blocks[current.value].bytes| {
        store.blocks := store.blocks - {current.value};
        current := None;
      }
    }

    /** No data at the end of the block, which is then removed, or when fewer bytes are left. */
    method Read(n: nat) returns (data: seq<DataFiles.Byte>)
      requires Valid() && current.Some?
      modifies this, store
      ensures Valid()
      ensures var bytes := old(store.blocks)[old(current).value].bytes;
              if old(position) == |bytes|
              then current.None? && store.blocks == old(store.blocks) - {old(current).value} && data == []
              else current == old(current) && store.blocks == old(store.blocks) &&
                   data == (if old(position) + n <= |bytes| then bytes[old(position)..old(position) + n] else []) &&
                   position == old(position) + |data|
    {
      CheckForBlockChange();
      if current.None? { return []; }
      match ReadAt(store.blocks[current.value].bytes, position, n)
      case None => data := [];
      case Some(d) => data, position := d, position + n;
    }

    /** Header and rest; nothing when either read gives no data, and the block is removed when either
        read starts at its end. */
    method ReadDocument() returns (frame: Option<Document>)
      requires Valid() && current.Some?
      modifies this, store
      ensures Valid()
      ensures frame == FrameAt(old(store.blocks)[old(current).value].bytes, old(position))
      ensures var bytes := old(store.blocks)[old(current).value].bytes;
              if frame.None? && (old(position) == |bytes| || old(position) + 4 == |bytes|)
              then current.None? && store.blocks == old(store.blocks) - {old(current).value}
              else current == old(current) && store.blocks == old(store.blocks)
      ensures frame.Some? ==> position == old(position) + |frame.value|
    {
      var header := Read(4);
      if header == [] { return None; }
      var size := LittleEndian(header);
      var rest := Read((size + UINT32 - 4) % UINT32);
      if |rest| == 0 || |rest| >= INT32_END { return None; }
      frame := Some(header + rest);
    }

    /** The scan loop: until nothing more is read or a document fails. */
    method Scan(failsAt: Option<nat>) returns (processed: seq<Document>)
      requires Valid() && current.Some?
      modifies this, store
      ensures var (docs, removed) := ScanFrom(old(store.blocks)[old(current).value].bytes, old(position), failsAt);
              processed == docs && (removed <==> current.None?) &&
              store.blocks == if removed then old(store.blocks) - {old(current).value} else old(store.blocks)
    {
      var left := failsAt;
      processed := [];
      ghost var path := current.value;
      ghost var bytes := store.blocks[path].bytes;
      ghost var result := ScanFrom(bytes, position, failsAt);
      ScanBegins(bytes, position, failsAt);
      while true
        invariant Valid() && current == Some(path) && store.blocks == old(store.blocks)
        invariant Scanning(bytes, position, left, processed, result)
        decreases |bytes| - position
      {
        ScanTurn(bytes, position, left, processed, result);
        var frame := ReadDocument();
        if frame.None? { return; }
        processed := processed + [frame.value];
        if left == Some(0) { return; }
        left := OneLess(left);
      }
    }
  }
}
