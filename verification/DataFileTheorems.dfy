/** What the index says about the data area, over every run of any number of indexers. */
module DataFileTheorems {
  import opened PackIndex
  import opened DataFiles

  /** The block that is open when the location is taken is still valid when the pack is written. */
  predicate LocationHolds(s: Area, scanner: nat, pack: DataPack, p: Supply, limits: Limits)
  {
    var f := FileKey(scanner, pack.key.did);
    IsValid(if f in s.files then s.files[f] else Block(p.path1, 0, p.now1 + limits.lifetime), p.now2, limits)
  }

  lemma PlaceShape(t: Area, f: FileKey, pack: DataPack, path: string, now: nat, limits: Limits)
    requires f in t.files && t.files[f].path in t.storage
    ensures var valid := IsValid(t.files[f], now, limits); var u := AddEntry(t, pack, t.files[f], valid);
            var r := Place(t, f, pack, path, now, limits);
            r.origin == u.origin && r.misplaced == u.misplaced && r.index.Keys == u.index.Keys
  {
  }

  /** A run goes on with any step whose names are new. */
  lemma AreaOneMore(before: seq<Area>, taken: seq<Step>, step: Step, limits: Limits)
    returns (areas: seq<Area>)
    requires IsRun(before, taken, limits) && Fresh(before[|taken|], step)
    requires forall f :: f in before[|taken|].files ==> before[|taken|].files[f].path in before[|taken|].storage
    ensures IsRun(areas, taken + [step], limits)
    ensures areas == before + [Apply(before[|taken|], step, limits)]
  {
    areas := before + [Apply(before[|taken|], step, limits)];
    var steps := taken + [step];
    forall i | 0 <= i < |steps|
      ensures Fresh(areas[i], steps[i]) &&
              (forall f :: f in areas[i].files ==> areas[i].files[f].path in areas[i].storage) &&
              areas[i + 1] == Apply(areas[i], steps[i], limits)
    {
      if i < |taken| { assert steps[i] == taken[i]; }
    }
  }

  /** A new entry denotes exactly the bytes of its pack if and only if the block whose location it
      records is still valid at the moment of the write. */
  lemma NewEntryDenotesExactlyWhen(s: Area, scanner: nat, pack: DataPack, p: Supply, limits: Limits)
    requires AreaInv(s) && Fresh(s, Process(scanner, pack, p)) && pack.key !in s.index && pack.bytes != []
    ensures forall f :: f in s.files ==> s.files[f].path in s.storage
    ensures var t := ProcessPack(s, scanner, pack, p, limits);
            pack.key in t.index && pack.key in t.origin && t.origin[pack.key] == pack.bytes &&
            (Denotes(t, pack.key) <==> LocationHolds(s, scanner, pack, p, limits))
  {
    assert forall f :: f in s.files ==> BlockOk(s, f);
    ProcessKeeps(s, scanner, pack, p, limits);
    var f := FileKey(scanner, pack.key.did);
    var t := Prefetch(s, f, p.path1, p.now1, limits);
    assert f in s.files ==> BlockOk(s, f);
    PlaceShape(t, f, pack, p.path2, p.now2, limits);
    var r := ProcessPack(s, scanner, pack, p, limits);
    assert EntryOk(r, pack.key);
  }

  /** A pack that arrives when its device's block is full is indexed where it is not written. */
  lemma FullBlockMisplacesNext(scanner: nat, k1: Key, k2: Key)
    requires k1 != k2 && k1.did == k2.did
    ensures var limits := Limits(4, 1000);
            var s := ProcessPack(EmptyArea(), scanner, DataPack(k1, [1, 2, 3, 4]), Supply("a", 0, "b", 0), limits);
            AreaInv(s) && Fresh(s, Process(scanner, DataPack(k2, [5]), Supply("c", 0, "d", 0))) && k2 !in s.index &&
            (forall f :: f in s.files ==> s.files[f].path in s.storage) &&
            var t := ProcessPack(s, scanner, DataPack(k2, [5]), Supply("c", 0, "d", 0), limits);
            k2 in t.index && k2 in t.origin && !Denotes(t, k2)
  {
    var limits := Limits(4, 1000);
    var p1, p2 := Supply("a", 0, "b", 0), Supply("c", 0, "d", 0);
    var first, second := DataPack(k1, [1, 2, 3, 4]), DataPack(k2, [5]);
    assert Fresh(EmptyArea(), Process(scanner, first, p1)) by { assert "a"[0] != "b"[0]; }
    ProcessKeeps(EmptyArea(), scanner, first, p1, limits);
    var s := ProcessPack(EmptyArea(), scanner, first, p1, limits);
    var f := FileKey(scanner, k1.did);
    assert s.files[f] == Block("a", 4, 1000);
    assert s.storage.Keys == {"a"};
    assert "a"[0] != "c"[0] && "a"[0] != "d"[0] && "c"[0] != "d"[0];
    assert Fresh(s, Process(scanner, second, p2));
    NewEntryDenotesExactlyWhen(s, scanner, second, p2, limits);
  }

  /** Whatever is processed, rescanned, maintained or given up later: an entry keeps its place, what it
      denotes never changes, it stays disjoint from all others, and once querable it stays so. */
  lemma EntriesAreForEver(states: seq<Area>, steps: seq<Step>, limits: Limits, i: nat, j: nat, k: Key)
    requires IsRun(states, steps, limits) && i <= j < |states| && k in states[i].index
    ensures var s, t := states[i], states[j];
            k in t.index && k in s.origin && k in t.origin && t.origin[k] == s.origin[k] &&
            t.index[k].(state := Querable) == s.index[k].(state := Querable) &&
            (s.index[k].state == Querable ==> t.index[k].state == Querable) &&
            (Denotes(s, k) ==> Denotes(t, k)) &&
            forall l :: l in t.index && l != k ==> Disjoint(t, k, l)
  {
    RunExtends(states, steps, limits, i, j);
    RunKeepsArea(states, steps, limits, i);
    RunKeepsArea(states, steps, limits, j);
    EntryPersists(states[i], states[j], k);
  }

  lemma EntryPersists(s: Area, t: Area, k: Key)
    requires AreaInv(s) && AreaInv(t) && Extends(s, t) && k in s.index
    ensures k in t.index && k in s.origin && k in t.origin && t.origin[k] == s.origin[k]
    ensures t.index[k].(state := Querable) == s.index[k].(state := Querable)
    ensures s.index[k].state == Querable ==> t.index[k].state == Querable
    ensures Denotes(s, k) ==> Denotes(t, k)
  {
    PlaceKept(s, t, k);
  }

  // ---------- when entries become querable ----------

  /** The block is closed in t and was open, or did not exist yet, in s. */
  predicate ClosedBetween(s: Area, t: Area, path: string)
  {
    path in t.storage && !IsOpen(t, path) && (path in s.storage ==> IsOpen(s, path))
  }

  predicate ClosedAt(states: seq<Area>, i: nat, path: string)
    requires i + 1 < |states|
  {
    ClosedBetween(states[i], states[i + 1], path)
  }

  lemma NeverOpen(s: Area, path: string)
    requires AreaInv(s) && (path in s.released || path in s.abandoned)
    ensures path in s.storage && !IsOpen(s, path)
  {
    assert forall f :: f in s.files ==> BlockOk(s, f);
  }

  /** What one step adds to the released and to the abandoned blocks. */
  lemma StepCloses(s: Area, step: Step, limits: Limits, path: string)
    requires AreaInv(s) && Fresh(s, step)
    ensures forall f :: f in s.files ==> s.files[f].path in s.storage
    ensures var t := Apply(s, step, limits);
            (path in t.released <==> path in s.released || (ClosedBetween(s, t, path) && !step.CloseAll?)) &&
            (path in t.abandoned <==> path in s.abandoned || (ClosedBetween(s, t, path) && step.CloseAll?))
  {
    StepKeepsArea(s, step, limits);
    StepExtends(s, step, limits);
    var t := Apply(s, step, limits);
    StepSets(s, step, limits);
    if path in s.released || path in s.abandoned { NeverOpen(s, path); }
    if path in t.released || path in t.abandoned { NeverOpen(t, path); }
  }

  lemma StepSets(s: Area, step: Step, limits: Limits)
    requires forall f :: f in s.files ==> s.files[f].path in s.storage
    ensures var t := Apply(s, step, limits);
            if step.CloseAll? then t.released == s.released else t.abandoned == s.abandoned
  {
  }

  /** The histories of closed blocks say how each block was closed. */
  lemma {:induction false} HowClosed(states: seq<Area>, steps: seq<Step>, limits: Limits, j: nat, path: string)
    requires IsRun(states, steps, limits) && j < |states|
    ensures path in states[j].released <==> exists i :: 0 <= i < j && !steps[i].CloseAll? && ClosedAt(states, i, path)
    ensures path in states[j].abandoned <==> exists i :: 0 <= i < j && steps[i].CloseAll? && ClosedAt(states, i, path)
  {
    if j > 0 {
      HowClosed(states, steps, limits, j - 1, path);
      RunKeepsArea(states, steps, limits, j - 1);
      StepCloses(states[j - 1], steps[j - 1], limits, path);
      if ClosedBetween(states[j - 1], states[j], path) { assert ClosedAt(states, j - 1, path); }
    }
  }

  /** An entry is querable if and only if its block was closed by a switch or by maintenance. */
  lemma QuerableExactlyWhen(states: seq<Area>, steps: seq<Step>, limits: Limits, j: nat, k: Key)
    requires IsRun(states, steps, limits) && j < |states| && k in states[j].index
    ensures states[j].index[k].state == Querable <==>
            exists i :: 0 <= i < j && !steps[i].CloseAll? && ClosedAt(states, i, states[j].index[k].path)
  {
    RunKeepsArea(states, steps, limits, j);
    assert EntryOk(states[j], k);
    HowClosed(states, steps, limits, j, states[j].index[k].path);
  }

  /** An entry whose block was closed by a failed scan can never be queried, whatever happens later. */
  lemma StrandedForEver(states: seq<Area>, steps: seq<Step>, limits: Limits, i: nat, j: nat, k: Key)
    requires IsRun(states, steps, limits) && i < j < |states| && k in states[i].index
    requires steps[i].CloseAll? && ClosedAt(states, i, states[i].index[k].path)
    ensures k in states[j].index && states[j].index[k] == states[i].index[k] && states[j].index[k].state == Created
  {
    HowClosed(states, steps, limits, j, states[i].index[k].path);
    RunKeepsArea(states, steps, limits, j);
    RunExtends(states, steps, limits, i, j);
    PlaceKept(states[i], states[j], k);
    AbandonedNotQuerable(states[j], k);
  }

  lemma PlaceKept(s: Area, t: Area, k: Key)
    requires Extends(s, t) && k in s.index
    ensures k in t.index && t.index[k].path == s.index[k].path
    ensures t.index[k].(state := Querable) == s.index[k].(state := Querable)
    ensures t.index[k].state == Created ==> t.index[k] == s.index[k]
  {
  }

  lemma AbandonedNotQuerable(t: Area, k: Key)
    requires AreaInv(t) && k in t.index && t.index[k].path in t.abandoned
    ensures t.index[k].state == Created
  {
    assert EntryOk(t, k);
  }

  /** One pack, a failed scan, and the rescan of the same pack: it is written twice and still cannot be
      queried. */
  lemma FailedScanStrandsEntry(scanner: nat, k: Key, bytes: seq<Byte>) returns (states: seq<Area>, steps: seq<Step>)
    requires bytes != []
    ensures var limits := Limits(1000, 1000);
            IsRun(states, steps, limits) && |steps| == 3 &&
            steps[0].Process? && steps[0].pack == DataPack(k, bytes) && steps[1] == CloseAll(scanner) &&
            steps[2].Process? && steps[2].pack == DataPack(k, bytes) &&
            k in states[3].index && states[3].index[k].state == Created &&
            states[3].index[k].path in states[3].abandoned && Denotes(states[3], k)
  {
    var limits := Limits(1000, 1000);
    var first := Process(scanner, DataPack(k, bytes), Supply("a", 0, "b", 0));
    var again := Process(scanner, DataPack(k, bytes), Supply("c", 0, "d", 0));
    var s1 := FirstPack(scanner, k, bytes);
    FirstPackStored(scanner, k, bytes);
    var s2 := Apply(s1, CloseAll(scanner), limits);
    assert s2.files == map[] && s2.abandoned == {"a"};
    assert "a"[0] != "b"[0] && "a"[0] != "c"[0] && "a"[0] != "d"[0] && "c"[0] != "d"[0];
    var s3 := Apply(s2, again, limits);
    SecondPackStored(s2, scanner, k, bytes);
    states, steps := [EmptyArea(), s1, s2, s3], [first, CloseAll(scanner), again];
  }

  function FirstPack(scanner: nat, k: Key, bytes: seq<Byte>): Area
  {
    Area(map["a" := bytes], map[k := IndexEntry("a", 0, |bytes|, Created)],
         map[FileKey(scanner, k.did) := Block("a", |bytes|, 1000)], map[k := bytes], {}, {}, {})
  }

  lemma FirstPackStored(scanner: nat, k: Key, bytes: seq<Byte>)
    ensures ProcessPack(EmptyArea(), scanner, DataPack(k, bytes), Supply("a", 0, "b", 0), Limits(1000, 1000))
         == FirstPack(scanner, k, bytes)
  {
    assert [] + bytes == bytes;
  }

  lemma SecondPackStored(s: Area, scanner: nat, k: Key, bytes: seq<Byte>)
    requires s.files == map[] && k in s.index && "a" in s.storage
    ensures var t := ProcessPack(s, scanner, DataPack(k, bytes), Supply("c", 0, "d", 0), Limits(1000, 1000));
            t.index == s.index && t.origin == s.origin && t.abandoned == s.abandoned &&
            "a" in t.storage && t.storage["a"] == s.storage["a"]
  {
    assert "a"[0] != "c"[0];
  }

  /** In every reachable state the entries that do not denote their pack are exactly the ones made
      while the open block was no longer valid, and they point past the end of a closed block. */
  lemma EntriesDenoteOrPointPastEnd(states: seq<Area>, steps: seq<Step>, limits: Limits, j: nat, k: Key)
    requires IsRun(states, steps, limits) && j < |states| && k in states[j].index
    ensures var t := states[j];
            k in t.origin && t.index[k].size == |t.origin[k]| &&
            (k in t.misplaced ==> PointsPastEnd(t, k)) && (k !in t.misplaced ==> Denotes(t, k))
  {
    RunKeepsArea(states, steps, limits, j);
    assert EntryOk(states[j], k);
  }

  // ---------- size of data blocks ----------

  function MaxBlock(limits: Limits, longest: nat): nat {
    (if limits.maxSize == 0 then 0 else limits.maxSize - 1) + longest
  }

  predicate BlocksBounded(s: Area, limits: Limits, longest: nat)
  {
    forall p :: p in s.storage ==> |s.storage[p]| <= MaxBlock(limits, longest)
  }

  lemma AppendBounded(s: Area, f: FileKey, bytes: seq<Byte>, limits: Limits, longest: nat)
    requires f in s.files && s.files[f].path in s.storage && BlocksBounded(s, limits, longest) && |bytes| <= longest
    requires |s.storage[s.files[f].path]| < limits.maxSize || s.storage[s.files[f].path] == []
    ensures BlocksBounded(Append(s, f, bytes), limits, longest)
  {
  }

  lemma PlaceBounded(t: Area, f: FileKey, pack: DataPack, path: string, now: nat, limits: Limits, longest: nat)
    requires f in t.files && BlockOk(t, f) && path !in t.storage && BlocksBounded(t, limits, longest) &&
             |pack.bytes| <= longest
    ensures BlocksBounded(Place(t, f, pack, path, now, limits), limits, longest)
  {
    var valid := IsValid(t.files[f], now, limits);
    var u := AddEntry(t, pack, t.files[f], valid);
    if valid {
      AppendBounded(u, f, pack.bytes, limits, longest);
    } else {
      AppendBounded(OpenBlock(Release(u, f), f, path, now, limits), f, pack.bytes, limits, longest);
    }
  }

  lemma StepBounded(s: Area, step: Step, limits: Limits, longest: nat)
    requires AreaInv(s) && Fresh(s, step) && BlocksBounded(s, limits, longest)
    requires step.Process? ==> |step.pack.bytes| <= longest
    ensures forall f :: f in s.files ==> s.files[f].path in s.storage
    ensures BlocksBounded(Apply(s, step, limits), limits, longest)
  {
    assert forall f :: f in s.files ==> BlockOk(s, f);
    if step.Process? {
      var f := FileKey(step.scanner, step.pack.key.did);
      var t := Prefetch(s, f, step.supply.path1, step.supply.now1, limits);
      if f !in s.files { OpenKeeps(s, f, step.supply.path1, step.supply.now1, limits); }
      assert BlockOk(t, f) && BlocksBounded(t, limits, longest);
      PlaceBounded(t, f, step.pack, step.supply.path2, step.supply.now2, limits, longest);
    }
  }

  /** Checked before every write, no data block ever reaches max_block_size + the longest pack. */
  lemma {:induction false} DataBlocksBounded(states: seq<Area>, steps: seq<Step>, limits: Limits, longest: nat, k: nat)
    requires IsRun(states, steps, limits) && k < |states|
    requires forall i :: 0 <= i < |steps| && steps[i].Process? ==> |steps[i].pack.bytes| <= longest
    ensures BlocksBounded(states[k], limits, longest)
  {
    if k > 0 {
      DataBlocksBounded(states, steps, limits, longest, k - 1);
      RunKeepsArea(states, steps, limits, k - 1);
      StepBounded(states[k - 1], steps[k - 1], limits, longest);
    }
  }
}
