/** What each use does to the whole block cache, and the joint runs of indexers and queries seen from either side. */
module CacheEffects {
  import opened PackIndex
  import DataFiles
  import opened DataFileTheorems
  import opened BlockCache
  import opened CachedReads

  lemma UseRunStep(states: seq<Cache>, uses: seq<Use>, i: nat)
    requires IsUseRun(states, uses) && i < |uses|
    ensures CacheInv(states[i]) && Enabled(states[i], uses[i]) && states[i + 1] == BlockCache.Apply(states[i], uses[i])
  {
    UseCountsExact(states, uses, i);
  }

  lemma OpenOutcome(states: seq<Cache>, uses: seq<Use>, i: nat)
    requires IsUseRun(states, uses) && i < |uses| && uses[i].OpenQuery?
    ensures states[i + 1] == states[i].(queries := states[i].queries[uses[i].q := map[]])
  {
    UseRunStep(states, uses, i);
  }

  /** The end of a query gives back what it holds: each of these fetchers has one user less, nothing is deleted. */
  lemma DisposeOutcome(states: seq<Cache>, uses: seq<Use>, i: nat)
    requires IsUseRun(states, uses) && i < |uses| && uses[i].DisposeQuery?
    ensures var s, t, q := states[i], states[i + 1], uses[i].q;
            q in s.queries && t == s.(queries := s.queries - {q}, fetchers := t.fetchers) &&
            t.fetchers.Keys == s.fetchers.Keys &&
            forall f :: f in s.fetchers ==>
              if f in s.queries[q].Values then s.fetchers[f].useCount > 0 &&
                t.fetchers[f] == s.fetchers[f].(useCount := s.fetchers[f].useCount - 1)
              else t.fetchers[f] == s.fetchers[f]
  {
    UseRunStep(states, uses, i);
    var s, t, q := states[i], states[i + 1], uses[i].q;
    forall f | f in s.fetchers
      ensures if f in s.queries[q].Values then s.fetchers[f].useCount > 0 &&
                t.fetchers[f] == s.fetchers[f].(useCount := s.fetchers[f].useCount - 1)
              else t.fetchers[f] == s.fetchers[f]
    {
      HeldByQuery(s, q, f);
    }
  }

  lemma HeldByQuery(s: Cache, q: nat, f: Pointer)
    requires CacheInv(s) && q in s.queries && f in s.fetchers
    ensures f in s.queries[q].Values <==> HeldOn(s.queries[q], s.queries[q].Keys, s.fetchers[f].path, f)
    ensures f in s.queries[q].Values ==> s.fetchers[f].useCount > 0
  {
    if f in s.queries[q].Values {
      var p :| p in s.queries[q] && s.queries[q][p] == f;
      assert p in s.table && s.table[p] == f && s.fetchers[f].path == p;
      assert q in Holders(s.queries, p);
    }
  }

  // ---------- reads ----------

  /** Which fetcher a read uses, if any, and the cache once the query holds it. */
  predicate Gets(s: Cache, q: nat, path: string, id: Pointer, storage: Storage, f: Pointer, t: Cache)
    requires q in s.queries
  {
    var held := s.queries[q];
    if path in held then f == held[path] && t == s
    else if path in s.table then
      f == s.table[path] && f in s.fetchers &&
      t == s.(fetchers := s.fetchers[f := s.fetchers[f].(useCount := s.fetchers[f].useCount + 1)],
              queries := s.queries[q := held[path := f]])
    else
      path in storage && f == id &&
      t == s.(fetchers := s.fetchers[id := Fetcher(path, |storage[path]|, true, 1)], table := s.table[path := id],
              queries := s.queries[q := held[path := id]])
  }

  /** What a read through an open fetcher comes back with and how it leaves the stream. */
  predicate Reads(x: Fetcher, offset: nat, len: nat, content: seq<DataFiles.Byte>, y: Fetcher, r: Outcome) {
    if offset >= x.size then r == Failed(-1000) && y == x
    else if x.good && offset + len <= |content| then r == Data(content[offset..offset + len]) && y == x
    else r == Failed(-1) && y == x.(good := false)
  }

  /** A read of a block that is neither held nor cached nor on the storage fails with -3 and leaves cache and queries
      as they are; any other uses the fetcher the query holds, the shared one, or a new one, in this order. */
  ghost predicate ReadsAs(s: Cache, use: Use, t: Cache, r: Outcome)
    requires use.ReadPack?
  {
    use.q in s.queries &&
    if use.path !in s.queries[use.q] && use.path !in s.table && use.path !in use.storage then
      r == Failed(-3) &&
      t == s.(fetchers := s.fetchers[use.id := Fetcher(use.path, 0, false, 0)], leaked := s.leaked + {use.id})
    else
      exists f, u :: Gets(s, use.q, use.path, use.id, use.storage, f, u) && f in u.fetchers && f in t.fetchers &&
        t == u.(fetchers := u.fetchers[f := t.fetchers[f]]) &&
        Reads(u.fetchers[f], use.offset, use.len,
              if use.path in use.storage then use.storage[use.path] else [], t.fetchers[f], r)
  }

  lemma ReadOutcome(states: seq<Cache>, uses: seq<Use>, i: nat)
    requires IsUseRun(states, uses) && i < |uses| && uses[i].ReadPack?
    ensures var s, u := states[i], uses[i];
            u.q in s.queries && NoDangling(s) &&
            ReadsAs(s, u, states[i + 1], ReadStep(s, u.q, u.path, u.offset, u.len, u.id, u.storage).1)
  {
    UseRunStep(states, uses, i);
    ReadIs(states[i], uses[i]);
  }

  lemma ReadIs(s: Cache, use: Use)
    requires CacheInv(s) && use.ReadPack? && Enabled(s, use)
    ensures use.q in s.queries && NoDangling(s)
    ensures var (t, r) := ReadStep(s, use.q, use.path, use.offset, use.len, use.id, use.storage); ReadsAs(s, use, t, r)
  {
    var (t, r) := ReadStep(s, use.q, use.path, use.offset, use.len, use.id, use.storage);
    var u := Acquire(s, use.q, use.path, use.id, use.storage);
    if use.path in u.queries[use.q] {
      AcquireLinks(s, use.q, use.path, use.id, use.storage);
      var f := u.queries[use.q][use.path];
      assert Gets(s, use.q, use.path, use.id, use.storage, f, u);
    }
  }

  /** A short read spoils the fetcher for all queries that share it, until it is deleted. */
  lemma ShortReadSpoils(x: Fetcher, offset: nat, len: nat, content: seq<DataFiles.Byte>, offset2: nat, len2: nat,
                        content2: seq<DataFiles.Byte>)
    requires offset < x.size && offset + len > |content|
    ensures var y := ReadData(x, offset, len, content).0;
            !y.good && y.size == x.size && ReadData(y, offset2, len2, content2).1.Failed?
  {
  }

  // ---------- joint runs ----------

  function AreaSteps(events: seq<Event>): seq<DataFiles.Step> {
    if events == [] then []
    else
      var last := events[|events| - 1];
      AreaSteps(events[..|events| - 1]) + if last.Indexing? then [last.step] else []
  }

  /** What an event does in the cache; a read asks for the place the entry names. */
  function UsesOf(s: Service, e: Event): seq<Use> {
    match e
    case Indexing(_) => []
    case StartQuery(q) => [OpenQuery(q)]
    case ReadEntry(q, k, id) =>
      if k in s.area.index then
        [ReadPack(q, s.area.index[k].path, s.area.index[k].offset, s.area.index[k].size, id, s.area.storage)]
      else []
    case EndQuery(q) => [DisposeQuery(q)]
    case CleanTimer => [CleanUnused]
  }

  function Uses(states: seq<Service>, events: seq<Event>): seq<Use>
    requires |events| <= |states|
  {
    if events == [] then []
    else
      var n := |events| - 1;
      Uses(states, events[..n]) + UsesOf(states[n], events[n])
  }

  /** Seen from the data area, queries do nothing: a joint run is a run of the indexers alone. */
  lemma {:induction false} ServiceRefinesArea(states: seq<Service>, events: seq<Event>, limits: DataFiles.Limits,
                                              i: nat)
    returns (areas: seq<DataFiles.Area>)
    requires IsServiceRun(states, events, limits) && i <= |events|
    ensures DataFiles.IsRun(areas, AreaSteps(events[..i]), limits)
    ensures areas[|AreaSteps(events[..i])|] == states[i].area
  {
    if i == 0 {
      areas := [DataFiles.EmptyArea()];
    } else {
      areas := ServiceRefinesArea(states, events, limits, i - 1);
      assert events[..i][..i - 1] == events[..i - 1];
      var e := events[i - 1];
      assert EventEnabled(states[i - 1], e) && states[i] == Happen(states[i - 1], e, limits);
      var taken := AreaSteps(events[..i - 1]);
      if e.Indexing? {
        areas := AreaOneMore(areas, taken, e.step, limits);
      } else {
        assert taken + [] == taken;
      }
    }
  }

  lemma CacheOneMore(before: seq<Cache>, taken: seq<Use>, use: Use) returns (caches: seq<Cache>)
    requires IsUseRun(before, taken) && Enabled(before[|taken|], use)
    ensures IsUseRun(caches, taken + [use]) && caches == before + [BlockCache.Apply(before[|taken|], use)]
  {
    caches := before + [BlockCache.Apply(before[|taken|], use)];
    var uses := taken + [use];
    forall i | 0 <= i < |uses|
      ensures Enabled(caches[i], uses[i]) && caches[i + 1] == BlockCache.Apply(caches[i], uses[i]) {
      if i < |taken| { assert uses[i] == taken[i]; }
    }
  }

  /** Seen from the cache, a joint run is a run of opens, reads, ends and cleans. */
  lemma {:induction false} ServiceRefinesCache(states: seq<Service>, events: seq<Event>, limits: DataFiles.Limits,
                                               i: nat)
    returns (caches: seq<Cache>)
    requires IsServiceRun(states, events, limits) && i <= |events|
    ensures IsUseRun(caches, Uses(states, events[..i]))
    ensures caches[|Uses(states, events[..i])|] == states[i].cache
  {
    if i == 0 {
      caches := [EmptyCache()];
    } else {
      caches := ServiceRefinesCache(states, events, limits, i - 1);
      assert events[..i][..i - 1] == events[..i - 1];
      var s, e := states[i - 1], events[i - 1];
      assert EventEnabled(s, e) && states[i] == Happen(s, e, limits);
      caches := CacheFollows(s, e, limits, caches, Uses(states, events[..i - 1]));
    }
  }

  lemma CacheFollows(s: Service, e: Event, limits: DataFiles.Limits, before: seq<Cache>, taken: seq<Use>)
    returns (caches: seq<Cache>)
    requires EventEnabled(s, e) && IsUseRun(before, taken) && before[|taken|] == s.cache
    ensures IsUseRun(caches, taken + UsesOf(s, e))
    ensures caches[|taken + UsesOf(s, e)|] == Happen(s, e, limits).cache
  {
    if e.Indexing? {
      caches := before;
      assert taken + [] == taken;
    } else {
      caches := CacheOneMore(before, taken, UseOf(s, e));
      assert UsesOf(s, e) == [UseOf(s, e)];
    }
  }
}
