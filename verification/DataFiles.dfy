/** The data area: packs are indexed and appended to the current block of their device's file;
    full or expired blocks are released, which makes their index entries querable. Several
    indexer threads share the storage and the index, each with its own open files. */
module DataFiles {
  import opened PackIndex

  type Byte = b: nat | b < 256

  /** The open block of a writeable data file. */
  datatype Block = Block(path: string, position: nat, validUntil: nat)

  /** A file is opened by one indexer thread for one device. */
  datatype FileKey = FileKey(scanner: nat, did: string)

  datatype Area = Area(
    storage: map<string, seq<Byte>>,
    index: Index,
    files: map<FileKey, Block>,        // files that have an open block
    origin: map<Key, seq<Byte>>,       // bytes of the pack each entry was made for
    misplaced: set<Key>,               // entries made while the open block was no longer valid
    released: set<string>,             // blocks closed by a switch or by maintenance
    abandoned: set<string>)            // blocks closed because a scan failed

  datatype Limits = Limits(maxSize: nat, lifetime: nat)

  function EmptyArea(): Area
  {
    Area(map[], map[], map[], map[], {}, {}, {})
  }

  /** A scanned data pack that has the mandatory fields. */
  datatype DataPack = DataPack(key: Key, bytes: seq<Byte>)

  predicate IsValid(b: Block, now: nat, limits: Limits) {
    b.validUntil > now && b.position < limits.maxSize
  }

  // ---------- blocks ----------

  function OpenBlock(s: Area, f: FileKey, path: string, now: nat, limits: Limits): Area
  {
    s.(storage := s.storage[path := []], files := s.files[f := Block(path, 0, now + limits.lifetime)])
  }

  function MarkQuerable(index: Index, path: string): Index
  {
    map k | k in index :: if index[k].path == path then index[k].(state := Querable) else index[k]
  }

  function Release(s: Area, f: FileKey): Area
    requires f in s.files
  {
    s.(index := MarkQuerable(s.index, s.files[f].path), files := s.files - {f},
       released := s.released + {s.files[f].path})
  }

  function Append(s: Area, f: FileKey, bytes: seq<Byte>): Area
    requires f in s.files && s.files[f].path in s.storage
  {
    var b := s.files[f];
    s.(storage := s.storage[b.path := s.storage[b.path] + bytes],
       files := s.files[f := b.(position := b.position + |bytes|)])
  }

  // ---------- steps ----------

  /** The two block names and clock readings a pack may need. */
  datatype Supply = Supply(path1: string, now1: nat, path2: string, now2: nat)

  datatype Step =
    | Process(scanner: nat, pack: DataPack, supply: Supply)
    | Maintain(file: FileKey, now: nat)
    | CloseAll(scanner: nat)

  /** Unique block names are generated fresh. */
  predicate Fresh(s: Area, step: Step)
  {
    step.Process? ==>
      step.supply.path1 !in s.storage && step.supply.path2 !in s.storage && step.supply.path1 != step.supply.path2
  }

  function Prefetch(s: Area, f: FileKey, path: string, now: nat, limits: Limits): Area {
    if f in s.files then s else OpenBlock(s, f, path, now, limits)
  }

  /** The entry is inserted with the location taken before the write, unless the key exists. */
  function AddEntry(s: Area, pack: DataPack, b: Block, valid: bool): Area
  {
    if pack.key in s.index then s
    else s.(index := s.index[pack.key := IndexEntry(b.path, b.position, |pack.bytes|, Created)],
            origin := s.origin[pack.key := pack.bytes],
            misplaced := if valid then s.misplaced else s.misplaced + {pack.key})
  }

  function Write(s: Area, f: FileKey, bytes: seq<Byte>, path: string, now: nat, limits: Limits): Area
    requires f in s.files && s.files[f].path in s.storage
  {
    if IsValid(s.files[f], now, limits) then Append(s, f, bytes)
    else Append(OpenBlock(Release(s, f), f, path, now, limits), f, bytes)
  }

  function ProcessPack(s: Area, scanner: nat, pack: DataPack, p: Supply, limits: Limits): Area
    requires forall f :: f in s.files ==> s.files[f].path in s.storage
  {
    var f := FileKey(scanner, pack.key.did);
    Place(Prefetch(s, f, p.path1, p.now1, limits), f, pack, p.path2, p.now2, limits)
  }

  /** Index first, then write: the location is taken before the write looks at the block. */
  function Place(t: Area, f: FileKey, pack: DataPack, path: string, now: nat, limits: Limits): Area
    requires f in t.files && t.files[f].path in t.storage
  {
    Write(AddEntry(t, pack, t.files[f], IsValid(t.files[f], now, limits)), f, pack.bytes, path, now, limits)
  }

  /** After a failed scan all files of the scanner are deleted. The destructor closes their blocks without
      touching the index: it does not reach the release of data files, which makes entries querable. */
  function Abandon(s: Area, scanner: nat): Area
  {
    s.(files := map f | f in s.files && f.scanner != scanner :: s.files[f],
       abandoned := s.abandoned + Blocks(s, scanner))
  }

  function Blocks(s: Area, scanner: nat): set<string> {
    set f | f in s.files && f.scanner == scanner :: s.files[f].path
  }

  function Apply(s: Area, step: Step, limits: Limits): Area
    requires forall f :: f in s.files ==> s.files[f].path in s.storage
  {
    match step
    case Process(scanner, pack, supply) => ProcessPack(s, scanner, pack, supply, limits)
    case Maintain(f, now) => if f in s.files && !IsValid(s.files[f], now, limits) then Release(s, f) else s
    case CloseAll(scanner) => Abandon(s, scanner)
  }

  // ---------- what every step keeps ----------

  predicate IsOpen(s: Area, path: string) {
    exists f :: f in s.files && s.files[f].path == path
  }

  /** The entry denotes exactly the bytes of the pack it was made for. */
  predicate Denotes(s: Area, k: Key)
    requires k in s.index && k in s.origin
  {
    var e := s.index[k];
    e.path in s.storage && e.offset + e.size <= |s.storage[e.path]| &&
    s.storage[e.path][e.offset..e.offset + e.size] == s.origin[k]
  }

  /** The entry points behind the last byte of a block that is not written any more. */
  predicate PointsPastEnd(s: Area, k: Key)
    requires k in s.index
  {
    var e := s.index[k];
    e.path in s.storage && e.offset == |s.storage[e.path]| && !IsOpen(s, e.path)
  }

  predicate EntryOk(s: Area, k: Key)
    requires k in s.index
  {
    var e := s.index[k];
    k in s.origin && e.size == |s.origin[k]| &&
    (if k in s.misplaced then PointsPastEnd(s, k) else Denotes(s, k)) &&
    (e.state == Querable <==> e.path in s.released)
  }

  predicate BlockOk(s: Area, f: FileKey)
    requires f in s.files
  {
    var b := s.files[f];
    b.path in s.storage && |s.storage[b.path]| == b.position && b.path !in s.released && b.path !in s.abandoned &&
    forall g :: g in s.files && g != f ==> s.files[g].path != b.path
  }

  predicate Disjoint(s: Area, k: Key, l: Key)
    requires k in s.index && l in s.index
  {
    s.index[k].path == s.index[l].path ==>
      s.index[k].offset + s.index[k].size <= s.index[l].offset ||
      s.index[l].offset + s.index[l].size <= s.index[k].offset
  }

  ghost predicate AreaInv(s: Area)
  {
    (forall f :: f in s.files ==> BlockOk(s, f)) &&
    (forall k :: k in s.index ==> EntryOk(s, k)) &&
    (forall k, l :: k in s.index && l in s.index && k != l ==> Disjoint(s, k, l)) &&
    s.misplaced <= s.index.Keys && s.origin.Keys == s.index.Keys && ClosedOk(s)
  }

  /** Every block is open, released or abandoned; the last two exclude each other. */
  ghost predicate ClosedOk(s: Area)
  {
    s.released !! s.abandoned && s.released <= s.storage.Keys && s.abandoned <= s.storage.Keys &&
    forall p :: p in s.storage && p !in s.released && p !in s.abandoned ==> IsOpen(s, p)
  }

  lemma OpenKeeps(s: Area, f: FileKey, path: string, now: nat, limits: Limits)
    requires AreaInv(s) && f !in s.files && path !in s.storage
    ensures AreaInv(OpenBlock(s, f, path, now, limits))
  {
    var t := OpenBlock(s, f, path, now, limits);
    forall g | g in t.files ensures BlockOk(t, g) {
      if g != f { assert BlockOk(s, g); }
    }
    forall k | k in t.index ensures EntryOk(t, k) {
      OpenEntryOk(s, f, path, now, limits, k);
    }
    forall k, l | k in t.index && l in t.index && k != l ensures Disjoint(t, k, l) { assert Disjoint(s, k, l); }
    OpenClosedOk(s, f, path, now, limits);
  }

  lemma OpenEntryOk(s: Area, f: FileKey, path: string, now: nat, limits: Limits, k: Key)
    requires f !in s.files && path !in s.storage && k in s.index && EntryOk(s, k)
    ensures EntryOk(OpenBlock(s, f, path, now, limits), k)
  {
    OpenSame(s, OpenBlock(s, f, path, now, limits), f, s.index[k].path);
  }

  lemma OpenClosedOk(s: Area, f: FileKey, path: string, now: nat, limits: Limits)
    requires ClosedOk(s) && f !in s.files && path !in s.storage
    ensures ClosedOk(OpenBlock(s, f, path, now, limits))
  {
    var t := OpenBlock(s, f, path, now, limits);
    forall p | p in t.storage && p !in t.released && p !in t.abandoned ensures IsOpen(t, p) {
      if p != path {
        assert IsOpen(s, p);
        OpenSame(s, t, f, p);
      } else {
        assert t.files[f].path == p;
      }
    }
  }

  /** Opening a fresh block does not change whether another one is open. */
  lemma OpenSame(s: Area, t: Area, f: FileKey, path: string)
    requires f !in s.files && f in t.files && t.files == s.files[f := t.files[f]] && t.files[f].path != path
    ensures IsOpen(t, path) <==> IsOpen(s, path)
  {
    if IsOpen(s, path) {
      var g :| g in s.files && s.files[g].path == path;
      assert t.files[g].path == path;
    }
  }

  lemma ReleaseKeeps(s: Area, f: FileKey)
    requires AreaInv(s) && f in s.files
    ensures AreaInv(Release(s, f)) && !IsOpen(Release(s, f), s.files[f].path)
  {
    var t, path := Release(s, f), s.files[f].path;
    assert BlockOk(s, f);
    forall g | g in t.files ensures BlockOk(t, g) { assert BlockOk(s, g); }
    forall k | k in t.index ensures EntryOk(t, k) {
      assert EntryOk(s, k);
      ReleaseEntryOk(s, f, k);
    }
    forall k, l | k in t.index && l in t.index && k != l ensures Disjoint(t, k, l) { assert Disjoint(s, k, l); }
    forall p | p in t.storage && p !in t.released && p !in t.abandoned ensures IsOpen(t, p) {
      ReleaseSame(s, f, p);
    }
    ReleaseSame(s, f, path);
  }

  lemma ReleaseEntryOk(s: Area, f: FileKey, k: Key)
    requires f in s.files && BlockOk(s, f) && k in s.index && EntryOk(s, k)
    ensures EntryOk(Release(s, f), k)
  {
    ReleaseSame(s, f, s.index[k].path);
    assert IsOpen(s, s.files[f].path);
  }

  lemma ReleaseSame(s: Area, f: FileKey, path: string)
    requires f in s.files && BlockOk(s, f)
    ensures IsOpen(Release(s, f), path) <==> IsOpen(s, path) && path != s.files[f].path
  {
    var t := Release(s, f);
    if IsOpen(s, path) && path != s.files[f].path {
      var g :| g in s.files && s.files[g].path == path;
      assert t.files[g].path == path;
    }
  }

  lemma AppendKeeps(s: Area, f: FileKey, bytes: seq<Byte>)
    requires AreaInv(s) && f in s.files && s.files[f].path in s.storage
    ensures AreaInv(Append(s, f, bytes))
  {
    var t, path := Append(s, f, bytes), s.files[f].path;
    assert BlockOk(s, f);
    forall g | g in t.files ensures BlockOk(t, g) { assert BlockOk(s, g); }
    forall k | k in t.index ensures EntryOk(t, k) {
      assert EntryOk(s, k);
      AppendSame(s, f, bytes, s.index[k].path);
      if k in s.misplaced {
        assert s.index[k].path != path;
      }
    }
    forall k, l | k in t.index && l in t.index && k != l ensures Disjoint(t, k, l) { assert Disjoint(s, k, l); }
    forall p | p in t.storage && p !in t.released && p !in t.abandoned ensures IsOpen(t, p) {
      AppendSame(s, f, bytes, p);
    }
  }

  lemma AppendSame(s: Area, f: FileKey, bytes: seq<Byte>, path: string)
    requires f in s.files && s.files[f].path in s.storage
    ensures IsOpen(Append(s, f, bytes), path) <==> IsOpen(s, path)
  {
    var t := Append(s, f, bytes);
    assert forall g :: g in t.files ==> g in s.files && t.files[g].path == s.files[g].path;
    if IsOpen(s, path) {
      var g :| g in s.files && s.files[g].path == path;
      assert t.files[g].path == path;
    }
  }

  // ---------- inserting an entry ----------

  function Insert(s: Area, k: Key, e: IndexEntry, bytes: seq<Byte>, misplaced: bool): Area
  {
    s.(index := s.index[k := e], origin := s.origin[k := bytes],
       misplaced := if misplaced then s.misplaced + {k} else s.misplaced)
  }

  /** A new entry on a block is disjoint from the old ones if these end before it starts. */
  lemma InsertKeeps(s: Area, k: Key, e: IndexEntry, bytes: seq<Byte>, misplaced: bool)
    requires AreaInv(s) && k !in s.index && e.size == |bytes| && e.path in s.storage
    requires if misplaced then e.offset == |s.storage[e.path]| && !IsOpen(s, e.path)
             else e.offset + e.size <= |s.storage[e.path]| && s.storage[e.path][e.offset..e.offset + e.size] == bytes
    requires e.state == Querable <==> e.path in s.released
    requires forall l :: l in s.index && s.index[l].path == e.path ==> s.index[l].offset + s.index[l].size <= e.offset
    ensures AreaInv(Insert(s, k, e, bytes, misplaced))
  {
    var t := Insert(s, k, e, bytes, misplaced);
    forall f | f in t.files ensures BlockOk(t, f) { assert BlockOk(s, f); }
    forall l | l in t.index ensures EntryOk(t, l) {
      InsertEntryOk(s, k, e, bytes, misplaced, l);
    }
    forall l, m | l in t.index && m in t.index && l != m ensures Disjoint(t, l, m) {
      if l != k && m != k { assert Disjoint(s, l, m); }
    }
    assert forall p :: IsOpen(s, p) ==> IsOpen(t, p);
  }

  lemma InsertEntryOk(s: Area, k: Key, e: IndexEntry, bytes: seq<Byte>, misplaced: bool, l: Key)
    requires k !in s.index && k !in s.misplaced && e.size == |bytes| && e.path in s.storage &&
             (l == k || (l in s.index && EntryOk(s, l)))
    requires if misplaced then e.offset == |s.storage[e.path]| && !IsOpen(s, e.path)
             else e.offset + e.size <= |s.storage[e.path]| && s.storage[e.path][e.offset..e.offset + e.size] == bytes
    requires e.state == Querable <==> e.path in s.released
    ensures EntryOk(Insert(s, k, e, bytes, misplaced), l)
  {
    var t := Insert(s, k, e, bytes, misplaced);
    assert IsOpen(t, t.index[l].path) <==> IsOpen(s, t.index[l].path);
  }

  /** Entries of an open block end before its write position. */
  lemma EntriesBelowPosition(s: Area, f: FileKey, l: Key)
    requires AreaInv(s) && f in s.files && l in s.index && s.index[l].path == s.files[f].path
    ensures s.index[l].offset + s.index[l].size <= s.files[f].position
  {
    assert BlockOk(s, f) && EntryOk(s, l) && IsOpen(s, s.files[f].path);
  }

  lemma WriteValidKeeps(s: Area, f: FileKey, pack: DataPack)
    requires AreaInv(s) && f in s.files && s.files[f].path in s.storage
    ensures AreaInv(Append(AddEntry(s, pack, s.files[f], true), f, pack.bytes))
  {
    var b, u := s.files[f], Append(s, f, pack.bytes);
    AppendKeeps(s, f, pack.bytes);
    if pack.key !in s.index {
      var e := IndexEntry(b.path, b.position, |pack.bytes|, Created);
      assert BlockOk(s, f) && u.files[f].path == b.path && IsOpen(u, b.path);
      forall l | l in u.index && u.index[l].path == b.path ensures u.index[l].offset + u.index[l].size <= b.position {
        EntriesBelowPosition(s, f, l);
      }
      InsertKeeps(u, pack.key, e, pack.bytes, false);
      assert Insert(u, pack.key, e, pack.bytes, false) == Append(AddEntry(s, pack, b, true), f, pack.bytes);
    }
  }

  /** The block is released right after the entry was made: the entry is left pointing past its end. */
  lemma ReleaseInvalidKeeps(s: Area, f: FileKey, pack: DataPack)
    requires AreaInv(s) && f in s.files
    ensures AreaInv(Release(AddEntry(s, pack, s.files[f], false), f))
  {
    var b, r := s.files[f], Release(s, f);
    ReleaseKeeps(s, f);
    if pack.key !in s.index {
      var e := IndexEntry(b.path, b.position, |pack.bytes|, Querable);
      assert BlockOk(s, f);
      forall l | l in r.index && r.index[l].path == b.path ensures r.index[l].offset + r.index[l].size <= b.position {
        EntriesBelowPosition(s, f, l);
      }
      InsertKeeps(r, pack.key, e, pack.bytes, true);
      ReleaseAfterInsert(s, f, pack);
    }
  }

  lemma ReleaseAfterInsert(s: Area, f: FileKey, pack: DataPack)
    requires f in s.files && pack.key !in s.index
    ensures var b := s.files[f];
            Release(AddEntry(s, pack, b, false), f)
            == Insert(Release(s, f), pack.key, IndexEntry(b.path, b.position, |pack.bytes|, Querable), pack.bytes, true)
  {
    var b := s.files[f];
    assert Release(AddEntry(s, pack, b, false), f).index
        == Release(s, f).index[pack.key := IndexEntry(b.path, b.position, |pack.bytes|, Querable)];
  }

  lemma ProcessKeeps(s: Area, scanner: nat, pack: DataPack, p: Supply, limits: Limits)
    requires AreaInv(s) && Fresh(s, Process(scanner, pack, p))
    ensures forall f :: f in s.files ==> s.files[f].path in s.storage
    ensures AreaInv(ProcessPack(s, scanner, pack, p, limits))
  {
    assert forall f :: f in s.files ==> BlockOk(s, f);
    var f := FileKey(scanner, pack.key.did);
    var t := Prefetch(s, f, p.path1, p.now1, limits);
    if f !in s.files { OpenKeeps(s, f, p.path1, p.now1, limits); }
    assert BlockOk(t, f);
    PlaceKeeps(t, f, pack, p.path2, p.now2, limits);
  }

  lemma PlaceKeeps(t: Area, f: FileKey, pack: DataPack, path: string, now: nat, limits: Limits)
    requires AreaInv(t) && f in t.files && t.files[f].path in t.storage && path !in t.storage
    ensures AreaInv(Place(t, f, pack, path, now, limits))
  {
    if IsValid(t.files[f], now, limits) {
      WriteValidKeeps(t, f, pack);
    } else {
      WriteInvalidKeeps(t, f, pack, path, now, limits);
    }
  }

  lemma WriteInvalidKeeps(s: Area, f: FileKey, pack: DataPack, path: string, now: nat, limits: Limits)
    requires AreaInv(s) && f in s.files && path !in s.storage
    ensures AreaInv(Append(OpenBlock(Release(AddEntry(s, pack, s.files[f], false), f), f, path, now, limits), f,
                           pack.bytes))
  {
    ReleaseInvalidKeeps(s, f, pack);
    var r := Release(AddEntry(s, pack, s.files[f], false), f);
    OpenKeeps(r, f, path, now, limits);
    AppendKeeps(OpenBlock(r, f, path, now, limits), f, pack.bytes);
  }

  lemma StepKeepsArea(s: Area, step: Step, limits: Limits)
    requires AreaInv(s) && Fresh(s, step)
    ensures forall f :: f in s.files ==> s.files[f].path in s.storage
    ensures AreaInv(Apply(s, step, limits))
  {
    assert forall f :: f in s.files ==> BlockOk(s, f);
    match step
    case Process(scanner, pack, p) => ProcessKeeps(s, scanner, pack, p, limits);
    case Maintain(f, now) =>
      if f in s.files && !IsValid(s.files[f], now, limits) { ReleaseKeeps(s, f); }
    case CloseAll(scanner) => AbandonKeeps(s, scanner);
  }

  lemma AbandonOpen(s: Area, scanner: nat, path: string)
    requires forall f :: f in s.files ==> BlockOk(s, f)
    ensures IsOpen(Abandon(s, scanner), path) <==> IsOpen(s, path) && path !in Blocks(s, scanner)
  {
    var t := Abandon(s, scanner);
    if IsOpen(s, path) {
      var f :| f in s.files && s.files[f].path == path;
      if f.scanner != scanner {
        assert t.files[f].path == path;
        assert forall g :: g in s.files && g.scanner == scanner ==> BlockOk(s, g) && s.files[g].path != path;
      }
    }
  }

  lemma AbandonKeeps(s: Area, scanner: nat)
    requires AreaInv(s)
    ensures AreaInv(Abandon(s, scanner))
  {
    var t := Abandon(s, scanner);
    forall g | g in t.files ensures BlockOk(t, g) {
      assert BlockOk(s, g);
      assert forall f :: f in s.files && f.scanner == scanner ==> s.files[f].path != s.files[g].path;
    }
    forall k | k in t.index ensures EntryOk(t, k) {
      assert EntryOk(s, k);
      AbandonOpen(s, scanner, s.index[k].path);
    }
    forall k, l | k in t.index && l in t.index && k != l ensures Disjoint(t, k, l) { assert Disjoint(s, k, l); }
    AbandonClosedOk(s, scanner);
  }

  lemma AbandonClosedOk(s: Area, scanner: nat)
    requires ClosedOk(s) && forall f :: f in s.files ==> BlockOk(s, f)
    ensures ClosedOk(Abandon(s, scanner))
  {
    var t := Abandon(s, scanner);
    forall p | p in t.storage && p !in t.released && p !in t.abandoned ensures IsOpen(t, p) {
      AbandonOpen(s, scanner, p);
    }
    forall p | p in Blocks(s, scanner) ensures p in s.storage && p !in s.released {
      var f :| f in s.files && f.scanner == scanner && s.files[f].path == p;
      assert BlockOk(s, f);
    }
  }

  // ---------- what one step changes ----------

  /** Storage only grows, existing entries keep their place, and only become querable. */
  ghost predicate Extends(s: Area, t: Area)
  {
    (forall p :: p in s.storage ==> p in t.storage && s.storage[p] <= t.storage[p]) &&
    (forall p :: p in s.storage && !IsOpen(s, p) ==> t.storage[p] == s.storage[p] && !IsOpen(t, p)) &&
    (forall k :: k in s.index ==>
       k in t.index && (t.index[k] == s.index[k] || t.index[k] == s.index[k].(state := Querable))) &&
    (forall k :: k in s.origin ==> k in t.origin && t.origin[k] == s.origin[k]) &&
    s.misplaced <= t.misplaced && (t.misplaced - s.misplaced) * s.index.Keys == {} &&
    s.released <= t.released && s.abandoned <= t.abandoned
  }

  lemma ExtendsTransitive(s: Area, t: Area, u: Area)
    requires Extends(s, t) && Extends(t, u)
    ensures Extends(s, u)
  {
  }

  lemma ReleaseExtends(s: Area, f: FileKey)
    requires AreaInv(s) && f in s.files
    ensures Extends(s, Release(s, f))
  {
    assert forall p :: IsOpen(Release(s, f), p) ==> IsOpen(s, p);
  }

  lemma OpenExtends(s: Area, f: FileKey, path: string, now: nat, limits: Limits)
    requires f !in s.files && path !in s.storage
    ensures Extends(s, OpenBlock(s, f, path, now, limits))
  {
    var t := OpenBlock(s, f, path, now, limits);
    forall p | p in s.storage && !IsOpen(s, p) ensures !IsOpen(t, p) {
      OpenSame(s, t, f, p);
    }
  }

  lemma AppendExtends(s: Area, f: FileKey, bytes: seq<Byte>)
    requires f in s.files && s.files[f].path in s.storage
    ensures Extends(s, Append(s, f, bytes))
  {
    forall p | p in s.storage && !IsOpen(s, p) ensures !IsOpen(Append(s, f, bytes), p) && p != s.files[f].path {
      AppendSame(s, f, bytes, p);
    }
  }

  lemma AddEntryExtends(s: Area, pack: DataPack, b: Block, valid: bool)
    requires AreaInv(s)
    ensures Extends(s, AddEntry(s, pack, b, valid))
  {
    assert forall p :: IsOpen(AddEntry(s, pack, b, valid), p) <==> IsOpen(s, p);
  }

  lemma ProcessExtends(s: Area, scanner: nat, pack: DataPack, p: Supply, limits: Limits)
    requires AreaInv(s) && Fresh(s, Process(scanner, pack, p))
    ensures forall f :: f in s.files ==> s.files[f].path in s.storage
    ensures Extends(s, ProcessPack(s, scanner, pack, p, limits))
  {
    assert forall f :: f in s.files ==> BlockOk(s, f);
    var f := FileKey(scanner, pack.key.did);
    var t := Prefetch(s, f, p.path1, p.now1, limits);
    if f !in s.files {
      OpenKeeps(s, f, p.path1, p.now1, limits);
      OpenExtends(s, f, p.path1, p.now1, limits);
    }
    assert BlockOk(t, f);
    PlacedExtends(t, f, pack, p.path2, p.now2, limits);
    ExtendsTransitive(s, t, ProcessPack(s, scanner, pack, p, limits));
  }

  lemma PlacedExtends(t: Area, f: FileKey, pack: DataPack, path: string, now: nat, limits: Limits)
    requires AreaInv(t) && f in t.files && t.files[f].path in t.storage && path !in t.storage
    ensures Extends(t, Place(t, f, pack, path, now, limits))
  {
    var valid := IsValid(t.files[f], now, limits);
    var u := AddEntry(t, pack, t.files[f], valid);
    AddEntryExtends(t, pack, t.files[f], valid);
    if valid {
      AppendExtends(u, f, pack.bytes);
      ExtendsTransitive(t, u, Append(u, f, pack.bytes));
    } else {
      SwitchExtends(t, u, f, pack.bytes, path, now, limits);
    }
  }

  lemma SwitchExtends(t: Area, u: Area, f: FileKey, bytes: seq<Byte>, path: string, now: nat, limits: Limits)
    requires Extends(t, u) && f in u.files && path !in u.storage
    ensures Extends(t, Append(OpenBlock(Release(u, f), f, path, now, limits), f, bytes))
  {
    var r := Release(u, f);
    var o := OpenBlock(r, f, path, now, limits);
    assert forall p :: IsOpen(r, p) ==> IsOpen(u, p);
    assert Extends(u, r);
    OpenExtends(r, f, path, now, limits);
    AppendExtends(o, f, bytes);
    ExtendsTransitive(t, u, r);
    ExtendsTransitive(t, r, o);
    ExtendsTransitive(t, o, Append(o, f, bytes));
  }

  lemma StepExtends(s: Area, step: Step, limits: Limits)
    requires AreaInv(s) && Fresh(s, step)
    ensures forall f :: f in s.files ==> s.files[f].path in s.storage
    ensures Extends(s, Apply(s, step, limits))
  {
    assert forall f :: f in s.files ==> BlockOk(s, f);
    match step
    case Process(scanner, pack, p) => ProcessExtends(s, scanner, pack, p, limits);
    case Maintain(f, now) =>
      if f in s.files && !IsValid(s.files[f], now, limits) { ReleaseExtends(s, f); }
    case CloseAll(scanner) =>
      forall p | IsOpen(Abandon(s, scanner), p) ensures IsOpen(s, p) { AbandonOpen(s, scanner, p); }
  }

  // ---------- runs ----------

  ghost predicate IsRun(states: seq<Area>, steps: seq<Step>, limits: Limits)
  {
    |states| == |steps| + 1 && states[0] == EmptyArea() &&
    forall i {:trigger steps[i]} :: 0 <= i < |steps| ==>
      Fresh(states[i], steps[i]) &&
      (forall f :: f in states[i].files ==> states[i].files[f].path in states[i].storage) &&
      states[i + 1] == Apply(states[i], steps[i], limits)
  }

  lemma {:induction false} RunKeepsArea(states: seq<Area>, steps: seq<Step>, limits: Limits, k: nat)
    requires IsRun(states, steps, limits) && k < |states|
    ensures AreaInv(states[k])
  {
    if k > 0 {
      RunKeepsArea(states, steps, limits, k - 1);
      StepKeepsArea(states[k - 1], steps[k - 1], limits);
    }
  }

  lemma {:induction false} RunExtends(states: seq<Area>, steps: seq<Step>, limits: Limits, i: nat, k: nat)
    requires IsRun(states, steps, limits) && i <= k < |states|
    ensures Extends(states[i], states[k])
    decreases k
  {
    if i < k {
      RunExtends(states, steps, limits, i, k - 1);
      RunKeepsArea(states, steps, limits, k - 1);
      StepExtends(states[k - 1], steps[k - 1], limits);
      ExtendsTransitive(states[i], states[k - 1], states[k]);
    }
  }
}
