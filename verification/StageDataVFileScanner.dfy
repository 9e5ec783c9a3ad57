/** The indexing code, updating the data area in place. */
module StageDataVFileScanner {
  import opened PackIndex
  import Spec = DataFiles

  class Scanner {
    var storage: map<string, seq<Spec.Byte>>
    var index: Index
    var dataFiles: map<Spec.FileKey, Spec.Block>
    ghost var origin: map<Key, seq<Spec.Byte>>
    ghost var misplaced: set<Key>
    ghost var released: set<string>
    ghost var abandoned: set<string>
    const limits: Spec.Limits

    ghost function Abs(): Spec.Area
      reads this
    {
      Spec.Area(storage, index, dataFiles, origin, misplaced, released, abandoned)
    }

    constructor (l: Spec.Limits)
      ensures Abs() == Spec.EmptyArea() && limits == l
    {
      storage, index, dataFiles, origin, limits := map[], map[], map[], map[], l;
      misplaced, released, abandoned := {}, {}, {};
    }

    method GetNewDataBlock(f: Spec.FileKey, path: string, now: nat)
      modifies this
      ensures Abs() == Spec.OpenBlock(old(Abs()), f, path, now, limits)
    {
      storage := storage[path := []];
      dataFiles := dataFiles[f := Spec.Block(path, 0, now + limits.lifetime)];
    }

    method ReleaseDataBlock(f: Spec.FileKey)
      requires f in dataFiles
      modifies this
      ensures Abs() == Spec.Release(old(Abs()), f)
    {
      index := Spec.MarkQuerable(index, dataFiles[f].path);
      released := released + {dataFiles[f].path};
      dataFiles := dataFiles - {f};
    }

    method PrefetchData(f: Spec.FileKey, path: string, now: nat)
      modifies this
      ensures Abs() == Spec.Prefetch(old(Abs()), f, path, now, limits)
    {
      if f !in dataFiles {
        GetNewDataBlock(f, path, now);
      }
    }

    /** The write looks at the validity of the block again and may switch to a new one. */
    method Write(f: Spec.FileKey, bytes: seq<Spec.Byte>, path: string, now: nat)
      requires f in dataFiles && dataFiles[f].path in storage
      modifies this
      ensures Abs() == Spec.Write(old(Abs()), f, bytes, path, now, limits)
    {
      if !Spec.IsValid(dataFiles[f], now, limits) {
        ReleaseDataBlock(f);
        GetNewDataBlock(f, path, now);
      }
      var block := dataFiles[f];
      storage := storage[block.path := storage[block.path] + bytes];
      dataFiles := dataFiles[f := block.(position := block.position + |bytes|)];
    }

    method ProcessDataPack(scanner: nat, hasRequiredFields: bool, pack: Spec.DataPack, supply: Spec.Supply)
      requires forall f :: f in dataFiles ==> dataFiles[f].path in storage
      modifies this
      ensures Abs() == if hasRequiredFields then Spec.ProcessPack(old(Abs()), scanner, pack, supply, limits)
                       else old(Abs())
    {
      if !hasRequiredFields { return; }
      var f := Spec.FileKey(scanner, pack.key.did);
      PrefetchData(f, supply.path1, supply.now1);
      ghost var t := Abs();
      var location := dataFiles[f];
      if pack.key !in index {
        index := index[pack.key := IndexEntry(location.path, location.position, |pack.bytes|, Created)];
        origin := origin[pack.key := pack.bytes];
        misplaced := if Spec.IsValid(location, supply.now2, limits) then misplaced else misplaced + {pack.key};
      }
      assert Abs() == Spec.AddEntry(t, pack, location, Spec.IsValid(location, supply.now2, limits));
      Write(f, pack.bytes, supply.path2, supply.now2);
    }

    method Mantain(f: Spec.FileKey, now: nat)
      requires forall g :: g in dataFiles ==> dataFiles[g].path in storage
      modifies this
      ensures Abs() == Spec.Apply(old(Abs()), Spec.Maintain(f, now), limits)
      ensures f in dataFiles <==> f in old(dataFiles) && old(dataFiles)[f].validUntil > now &&
                                  old(dataFiles)[f].position < limits.maxSize
    {
      if f in dataFiles && !Spec.IsValid(dataFiles[f], now, limits) {
        ReleaseDataBlock(f);
      }
    }

    /** The destructor of a file: its block is closed, the index is not touched. */
    method DeleteFile(f: Spec.FileKey)
      requires f in dataFiles
      modifies this`dataFiles, this`abandoned
      ensures dataFiles == old(dataFiles) - {f} && abandoned == old(abandoned) + {old(dataFiles)[f].path}
    {
      abandoned := abandoned + {dataFiles[f].path};
      dataFiles := dataFiles - {f};
    }

    method CloseAllDatafile(scanner: nat)
      modifies this`dataFiles, this`abandoned
      ensures Abs() == Spec.Abandon(old(Abs()), scanner)
    {
      ghost var s := Abs();
      var todo := Own(dataFiles, scanner);
      assert Abs() == Without(s, scanner, todo);
      while todo != {}
        invariant todo <= Own(s.files, scanner) && Abs() == Without(s, scanner, todo)
        decreases |todo|
      {
        var f :| f in todo;
        WithoutStep(s, scanner, todo, f);
        DeleteFile(f);
        todo := todo - {f};
      }
      WithoutAll(s, scanner);
    }

    method MantainAll(scanner: nat, now: nat)
      requires Spec.AreaInv(Abs())
      modifies this
      ensures Swept(old(Abs()), Abs(), scanner, {}, now, limits)
    {
      ghost var s := Abs();
      var todo := Own(dataFiles, scanner);
      SweepStart(s, scanner, now, limits);
      while todo != {}
        invariant Swept(s, Abs(), scanner, todo, now, limits)
        decreases |todo|
      {
        var f :| f in todo;
        SweepStep(s, Abs(), scanner, todo, f, now, limits);
        Mantain(f, now);
        todo := todo - {f};
      }
    }

    /** After a scan without error every file of the scanner is maintained: exactly its blocks that are full
        or expired are released, nothing is written. After a failed scan all its files are given up. */
    method EndScanHandler(scanner: nat, scanError: bool, now: nat)
      requires Spec.AreaInv(Abs())
      modifies this
      ensures Spec.AreaInv(Abs()) && Spec.Extends(old(Abs()), Abs()) && storage == old(storage)
      ensures scanError ==> Abs() == Spec.Abandon(old(Abs()), scanner)
      ensures !scanError ==> abandoned == old(abandoned)
      ensures !scanError ==>
                forall f :: f in dataFiles <==>
                  f in old(dataFiles) &&
                  (f.scanner != scanner ||
                   (old(dataFiles)[f].validUntil > now && old(dataFiles)[f].position < limits.maxSize))
      ensures forall f :: f in dataFiles ==> f in old(dataFiles) && dataFiles[f] == old(dataFiles)[f]
    {
      if scanError {
        Spec.StepKeepsArea(Abs(), Spec.CloseAll(scanner), limits);
        Spec.StepExtends(Abs(), Spec.CloseAll(scanner), limits);
        CloseAllDatafile(scanner);
      } else {
        MantainAll(scanner, now);
      }
    }
  }

  function Own(files: map<Spec.FileKey, Spec.Block>, scanner: nat): set<Spec.FileKey>
  {
    set f | f in files && f.scanner == scanner
  }

  /** All files of the scanner but those in `todo` have been given up. */
  function Without(s: Spec.Area, scanner: nat, todo: set<Spec.FileKey>): Spec.Area
  {
    s.(files := map f | f in s.files && (f.scanner != scanner || f in todo) :: s.files[f],
       abandoned := s.abandoned + set f | f in s.files && f.scanner == scanner && f !in todo :: s.files[f].path)
  }

  lemma WithoutStep(s: Spec.Area, scanner: nat, todo: set<Spec.FileKey>, f: Spec.FileKey)
    requires todo <= Own(s.files, scanner) && f in todo
    ensures var t := Without(s, scanner, todo);
            f in t.files && t.files[f] == s.files[f] &&
            Without(s, scanner, todo - {f}) == t.(files := t.files - {f}, abandoned := t.abandoned + {s.files[f].path})
  {
    var t, u := Without(s, scanner, todo), Without(s, scanner, todo - {f});
    assert u.files == t.files - {f};
    assert u.abandoned == t.abandoned + {s.files[f].path};
  }

  lemma WithoutAll(s: Spec.Area, scanner: nat)
    ensures Without(s, scanner, {}) == Spec.Abandon(s, scanner)
  {
    assert Without(s, scanner, {}).files == Spec.Abandon(s, scanner).files;
    assert Without(s, scanner, {}).abandoned == Spec.Abandon(s, scanner).abandoned;
  }

  /** All files of the scanner but those in `todo` have been maintained. */
  predicate SweptFiles(before: map<Spec.FileKey, Spec.Block>, after: map<Spec.FileKey, Spec.Block>, scanner: nat,
                       todo: set<Spec.FileKey>, now: nat, limits: Spec.Limits)
  {
    (forall f :: f in todo ==> f in before && f.scanner == scanner) &&
    (forall f :: f in after ==> f in before && after[f] == before[f]) &&
    (forall f :: f in before ==>
       (f in after <==> f.scanner != scanner || f in todo || Spec.IsValid(before[f], now, limits)))
  }

  ghost predicate Swept(s: Spec.Area, t: Spec.Area, scanner: nat, todo: set<Spec.FileKey>, now: nat,
                        limits: Spec.Limits)
  {
    Spec.AreaInv(t) && Spec.Extends(s, t) && t.storage == s.storage && t.abandoned == s.abandoned &&
    SweptFiles(s.files, t.files, scanner, todo, now, limits)
  }

  lemma SweepStart(s: Spec.Area, scanner: nat, now: nat, limits: Spec.Limits)
    requires Spec.AreaInv(s)
    ensures Swept(s, s, scanner, Own(s.files, scanner), now, limits)
  {
  }

  lemma SweepStep(s: Spec.Area, t: Spec.Area, scanner: nat, todo: set<Spec.FileKey>, f: Spec.FileKey, now: nat,
                  limits: Spec.Limits)
    requires Swept(s, t, scanner, todo, now, limits) && f in todo
    ensures forall g :: g in t.files ==> t.files[g].path in t.storage
    ensures Swept(s, Spec.Apply(t, Spec.Maintain(f, now), limits), scanner, todo - {f}, now, limits)
  {
    Spec.StepKeepsArea(t, Spec.Maintain(f, now), limits);
    Spec.StepExtends(t, Spec.Maintain(f, now), limits);
    var u := Spec.Apply(t, Spec.Maintain(f, now), limits);
    Spec.ExtendsTransitive(s, t, u);
    SweepFile(s.files, t.files, scanner, todo, f, now, limits);
  }

  lemma SweepFile(before: map<Spec.FileKey, Spec.Block>, after: map<Spec.FileKey, Spec.Block>, scanner: nat,
                  todo: set<Spec.FileKey>, f: Spec.FileKey, now: nat, limits: Spec.Limits)
    requires SweptFiles(before, after, scanner, todo, now, limits) && f in todo
    ensures f in after
    ensures SweptFiles(before, if Spec.IsValid(after[f], now, limits) then after else after - {f},
                       scanner, todo - {f}, now, limits)
  {
  }
}
