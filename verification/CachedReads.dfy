/** Indexers and queries together: the packs queries read through the block cache, while indexers go
    on writing and releasing blocks. */
module CachedReads {
  import opened PackIndex
  import opened DataFiles
  import opened BlockCache

  datatype Service = Service(area: Area, cache: Cache)

  datatype Event =
    | Indexing(step: DataFiles.Step)
    | StartQuery(q: nat)
    | ReadEntry(q: nat, key: Key, id: Pointer)
    | EndQuery(q: nat)
    | CleanTimer

  /** Queries only find querable entries. */
  function UseOf(s: Service, e: Event): Use
    requires !e.Indexing? && (e.ReadEntry? ==> e.key in s.area.index)
  {
    match e
    case StartQuery(q) => OpenQuery(q)
    case ReadEntry(q, k, id) => var x := s.area.index[k]; ReadPack(q, x.path, x.offset, x.size, id, s.area.storage)
    case EndQuery(q) => DisposeQuery(q)
    case CleanTimer => CleanUnused
  }

  predicate EventEnabled(s: Service, e: Event)
  {
    if e.Indexing? then
      Fresh(s.area, e.step) && forall f :: f in s.area.files ==> s.area.files[f].path in s.area.storage
    else
      (e.ReadEntry? ==> e.key in s.area.index && s.area.index[e.key].state == Querable) &&
      BlockCache.Enabled(s.cache, UseOf(s, e))
  }

  function Happen(s: Service, e: Event, limits: Limits): Service
    requires EventEnabled(s, e)
  {
    if e.Indexing? then s.(area := DataFiles.Apply(s.area, e.step, limits))
    else s.(cache := BlockCache.Apply(s.cache, UseOf(s, e)))
  }

  /** What the query gets. */
  function Answer(s: Service, e: Event): Outcome
    requires e.ReadEntry? && EventEnabled(s, e)
  {
    var x := s.area.index[e.key];
    ReadStep(s.cache, e.q, x.path, x.offset, x.size, e.id, s.area.storage).1
  }

  /** Cached blocks are closed for good, and their fetchers know their full size and work. */
  predicate Serves(area: Area, f: Fetcher)
  {
    f.path in area.storage && !IsOpen(area, f.path) && f.good && f.size == |area.storage[f.path]|
  }

  predicate AllServe(area: Area, cache: Cache)
    requires TableOk(cache)
  {
    forall p :: p in cache.table ==> Serves(area, cache.fetchers[cache.table[p]])
  }

  ghost predicate ServiceInv(s: Service)
  {
    AreaInv(s.area) && CacheInv(s.cache) && AllServe(s.area, s.cache)
  }

  lemma IndexingKeeps(s: Service, step: DataFiles.Step, limits: Limits)
    requires ServiceInv(s) && EventEnabled(s, Indexing(step))
    ensures ServiceInv(Happen(s, Indexing(step), limits))
  {
    StepKeepsArea(s.area, step, limits);
    StepExtends(s.area, step, limits);
  }

  /** After acquiring, the query holds a fetcher that serves the block. */
  lemma AcquireServes(area: Area, cache: Cache, q: nat, path: string, id: Pointer)
    requires CacheInv(cache) && AllServe(area, cache) && q in cache.queries && id !in cache.fetchers
    requires path in area.storage && !IsOpen(area, path)
    ensures var t := Acquire(cache, q, path, id, area.storage);
            CacheInv(t) && AllServe(area, t) && path in t.queries[q] && t.queries[q][path] == t.table[path]
  {
    AcquireKeeps(cache, q, path, id, area.storage);
    var t := Acquire(cache, q, path, id, area.storage);
    forall p | p in t.table ensures Serves(area, t.fetchers[t.table[p]]) {
      if p in cache.table { assert Serves(area, cache.fetchers[cache.table[p]]); }
    }
  }

  /** An entry of a closed block is read whole or starts at the end: either way the stream stays good. */
  lemma EntryRead(area: Area, k: Key, f: Fetcher)
    requires AreaInv(area) && k in area.index && area.index[k].size > 0 && f.path == area.index[k].path &&
             Serves(area, f)
    ensures k in area.origin
    ensures var x := area.index[k];
            ReadData(f, x.offset, x.size, area.storage[x.path])
            == (f, if k in area.misplaced then Failed(OFF_FILE) else Data(area.origin[k]))
  {
    assert EntryOk(area, k);
  }

  lemma ReadEntryExact(s: Service, q: nat, k: Key, id: Pointer)
    requires ServiceInv(s) && EventEnabled(s, ReadEntry(q, k, id)) && s.area.index[k].size > 0
    ensures k in s.area.origin
    ensures Answer(s, ReadEntry(q, k, id)) == if k in s.area.misplaced then Failed(OFF_FILE) else Data(s.area.origin[k])
    ensures ServiceInv(s.(cache := BlockCache.Apply(s.cache, UseOf(s, ReadEntry(q, k, id)))))
  {
    assert EntryOk(s.area, k);
    var x := s.area.index[k];
    AcquireServes(s.area, s.cache, q, x.path, id);
    var t := Acquire(s.cache, q, x.path, id, s.area.storage);
    var f := t.queries[q][x.path];
    assert t.fetchers[f].path == x.path;
    EntryRead(s.area, k, t.fetchers[f]);
    assert t.fetchers[f := t.fetchers[f]] == t.fetchers;
  }

  lemma OtherUseKeeps(s: Service, e: Event, limits: Limits)
    requires ServiceInv(s) && EventEnabled(s, e) && !e.Indexing? && !e.ReadEntry?
    ensures ServiceInv(Happen(s, e, limits))
  {
    var t := Happen(s, e, limits);
    UseKeeps(s.cache, UseOf(s, e));
    forall p | p in t.cache.table ensures Serves(t.area, t.cache.fetchers[t.cache.table[p]]) {
      assert p in s.cache.table && t.cache.table[p] == s.cache.table[p];
      assert Serves(s.area, s.cache.fetchers[s.cache.table[p]]);
    }
  }

  /** Packs have at least a length field, so no entry is empty. */
  predicate NoEmptyPacks(e: Event)
  {
    e.Indexing? && e.step.Process? ==> e.step.pack.bytes != []
  }

  ghost predicate Sized(area: Area)
  {
    forall k :: k in area.index ==> area.index[k].size > 0
  }

  lemma ProcessSized(area: Area, scanner: nat, pack: DataPack, p: Supply, limits: Limits)
    requires Sized(area) && pack.bytes != [] && forall f :: f in area.files ==> area.files[f].path in area.storage
    ensures Sized(ProcessPack(area, scanner, pack, p, limits))
  {
    var f := FileKey(scanner, pack.key.did);
    var t := Prefetch(area, f, p.path1, p.now1, limits);
    var u := AddEntry(t, pack, t.files[f], IsValid(t.files[f], p.now2, limits));
    assert Sized(u);
    assert forall k :: k in MarkQuerable(u.index, u.files[f].path) ==> k in u.index;
  }

  lemma EventKeeps(s: Service, e: Event, limits: Limits)
    requires ServiceInv(s) && Sized(s.area) && EventEnabled(s, e) && NoEmptyPacks(e)
    ensures ServiceInv(Happen(s, e, limits)) && Sized(Happen(s, e, limits).area)
  {
    match e
    case Indexing(step) =>
      IndexingKeeps(s, step, limits);
      if step.Process? { ProcessSized(s.area, step.scanner, step.pack, step.supply, limits); }
    case ReadEntry(q, k, id) => ReadEntryExact(s, q, k, id);
    case _ => OtherUseKeeps(s, e, limits);
  }

  // ---------- runs ----------

  ghost predicate IsServiceRun(states: seq<Service>, events: seq<Event>, limits: Limits)
  {
    |states| == |events| + 1 && states[0] == Service(EmptyArea(), EmptyCache()) &&
    forall i {:trigger events[i]} :: 0 <= i < |events| ==>
      EventEnabled(states[i], events[i]) && NoEmptyPacks(events[i]) &&
      states[i + 1] == Happen(states[i], events[i], limits)
  }

  lemma {:induction false} ServiceRunKeeps(states: seq<Service>, events: seq<Event>, limits: Limits, i: nat)
    requires IsServiceRun(states, events, limits) && i <= |events|
    ensures ServiceInv(states[i]) && Sized(states[i].area)
  {
    if i > 0 {
      ServiceRunKeeps(states, events, limits, i - 1);
      EventKeeps(states[i - 1], events[i - 1], limits);
    }
  }

  /** In every run of any number of indexers and queries, with cleans at any time, a querable entry
      read through the cache yields exactly the bytes of the pack it was made for, except for the
      entries made while their block was no longer valid, which always fail. */
  lemma CachedReadsExact(states: seq<Service>, events: seq<Event>, limits: Limits, i: nat)
    requires IsServiceRun(states, events, limits) && i < |events| && events[i].ReadEntry?
    ensures var s, k := states[i], events[i].key;
            EventEnabled(s, events[i]) && k in s.area.index && k in s.area.origin &&
            Answer(s, events[i]) == if k in s.area.misplaced then Failed(OFF_FILE) else Data(s.area.origin[k])
  {
    ServiceRunKeeps(states, events, limits, i);
    var e := events[i];
    ReadEntryExact(states[i], e.q, e.key, e.id);
  }

  /** The cache makes no difference: a successful read is the slice of the block itself. */
  lemma CachedReadIsDirectRead(states: seq<Service>, events: seq<Event>, limits: Limits, i: nat)
    requires IsServiceRun(states, events, limits) && i < |events| && events[i].ReadEntry?
    ensures EventEnabled(states[i], events[i])
    ensures var area := states[i].area; var x := area.index[events[i].key];
            x.path in area.storage &&
            (Answer(states[i], events[i]).Data? <==> x.offset + x.size <= |area.storage[x.path]|) &&
            (Answer(states[i], events[i]).Data? ==>
               Answer(states[i], events[i]).bytes == area.storage[x.path][x.offset..x.offset + x.size])
  {
    CachedReadsExact(states, events, limits, i);
    ServiceRunKeeps(states, events, limits, i);
    assert EntryOk(states[i].area, events[i].key);
  }
}
