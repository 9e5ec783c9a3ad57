/** The block cache and the fetcher handling of queries, updated in place. */
module DataBlockCache {
  import opened DataFiles
  import Spec = BlockCache

  class Cache {
    var fetchers: map<Spec.Pointer, Spec.Fetcher>
    var table: map<string, Spec.Pointer>
    var queries: map<nat, map<string, Spec.Pointer>>
    var leaked: set<Spec.Pointer>

    ghost function Abs(): Spec.Cache
      reads this
    {
      Spec.Cache(fetchers, table, queries, leaked)
    }

    constructor ()
      ensures Abs() == Spec.EmptyCache()
    {
      fetchers, table, queries, leaked := map[], map[], map[], {};
    }

    /** A cached fetcher is shared, otherwise a new one is opened; a failure to open is reported and
        the new fetcher forgotten. */
    method GetFetcherForBlockWithPath(path: string, id: Spec.Pointer, storage: Spec.Storage)
        returns (err: int, fetcher: Spec.Pointer)
      requires Spec.NoDangling(Abs()) && id !in fetchers
      modifies this
      ensures queries == old(queries) && (err == 0 <==> path in old(table) || path in storage)
      ensures forall q :: q in queries && path !in queries[q] ==>
                Abs().(queries := if err == 0 then queries[q := queries[q][path := fetcher]] else queries)
                == Spec.Acquire(old(Abs()), q, path, id, storage)
    {
      if path in table {
        fetcher := table[path];
        fetchers := fetchers[fetcher := fetchers[fetcher].(useCount := fetchers[fetcher].useCount + 1)];
        return 0, fetcher;
      }
      fetcher := id;
      if path !in storage {
        fetchers := fetchers[id := Spec.Fetcher(path, 0, false, 0)];
        leaked := leaked + {id};
        return Spec.OPEN_ERROR, fetcher;
      }
      fetchers := fetchers[id := Spec.Fetcher(path, |storage[path]|, true, 0)];
      table := table[path := id];
      fetchers := fetchers[id := fetchers[id].(useCount := fetchers[id].useCount + 1)];
      return 0, fetcher;
    }

    method GetDatablockFetcherForIndex(q: nat, path: string, id: Spec.Pointer, storage: Spec.Storage) returns (err: int)
      requires Spec.NoDangling(Abs()) && q in queries && id !in fetchers
      modifies this
      ensures Abs() == Spec.Acquire(old(Abs()), q, path, id, storage)
      ensures q in queries && (err == 0 <==> path in queries[q])
    {
      if path in queries[q] { return 0; }
      var fetcher;
      err, fetcher := GetFetcherForBlockWithPath(path, id, storage);
      if err == 0 {
        queries := queries[q := queries[q][path := fetcher]];
      }
    }

    /** Seek and read on the fetcher's stream. */
    method ReadData(f: Spec.Pointer, offset: nat, len: nat, content: seq<Byte>) returns (r: Spec.Outcome)
      requires f in fetchers
      modifies this`fetchers
      ensures fetchers == old(fetchers)[f := Spec.ReadData(old(fetchers)[f], offset, len, content).0]
      ensures r == Spec.ReadData(old(fetchers)[f], offset, len, content).1
    {
      if offset >= fetchers[f].size {
        r := Spec.Failed(Spec.OFF_FILE);
      } else if !fetchers[f].good {
        r := Spec.Failed(Spec.READ_ERROR);
      } else if offset + len <= |content| {
        r := Spec.Data(content[offset..offset + len]);
      } else {
        fetchers := fetchers[f := fetchers[f].(good := false)];
        r := Spec.Failed(Spec.READ_ERROR);
      }
      assert fetchers == old(fetchers)[f := fetchers[f]];
    }

    method GetDataPackForIndex(q: nat, path: string, offset: nat, len: nat, id: Spec.Pointer, storage: Spec.Storage)
      returns (r: Spec.Outcome)
      requires Spec.NoDangling(Abs()) && q in queries && id !in fetchers
      modifies this
      ensures (Abs(), r) == Spec.ReadStep(old(Abs()), q, path, offset, len, id, storage)
    {
      Spec.AcquireLinks(Abs(), q, path, id, storage);
      var err := GetDatablockFetcherForIndex(q, path, id, storage);
      if err != 0 { return Spec.Failed(Spec.OPEN_ERROR); }
      r := ReadData(queries[q][path], offset, len, Spec.Content(storage, path));
    }

    method ReleaseFetcher(f: Spec.Pointer)
      requires f in fetchers
      modifies this`fetchers
      ensures fetchers == old(fetchers)[f := old(fetchers)[f].(useCount := Spec.Decremented(old(fetchers)[f].useCount))]
    {
      fetchers := fetchers[f := fetchers[f].(useCount := Spec.Decremented(fetchers[f].useCount))];
    }

    /** The loop of a query's destructor: every fetcher it holds is released once. */
    method ReleaseAll(q: nat)
      requires q in queries && Paths(fetchers, queries[q])
      modifies this`fetchers
      ensures Abs() == Spec.Released(old(Abs()), q, queries[q].Keys)
    {
      ghost var s := Abs();
      var todo := queries[q].Keys;
      ReleasedNothing(s, q);
      while todo != {}
        invariant todo <= queries[q].Keys
        invariant Abs() == Spec.Released(s, q, queries[q].Keys - todo)
        decreases |todo|
      {
        var path :| path in todo;
        ghost var done := queries[q].Keys - todo;
        ReleaseStep(s, q, done, path);
        ReleaseFetcher(queries[q][path]);
        todo := todo - {path};
        assert queries[q].Keys - todo == done + {path};
      }
      assert queries[q].Keys - {} == queries[q].Keys;
    }

    method DisposeQuery(q: nat)
      requires Spec.CacheInv(Abs()) && q in queries
      modifies this
      ensures Abs() == Spec.Disposed(old(Abs()), q) && Spec.CacheInv(Abs())
    {
      Spec.DisposeKeeps(Abs(), q);
      ReleaseAll(q);
      queries := queries - {q};
    }

    /** The loop of the periodic clean erases while it iterates. */
    method EraseUnused()
      requires Paths(fetchers, table)
      modifies this
      ensures Abs() == Spec.Cleaned(old(Abs()), old(table).Keys)
    {
      ghost var s := Abs();
      var todo := table.Keys;
      CleanedNothing(s);
      while todo != {}
        invariant todo <= s.table.Keys
        invariant Abs() == Spec.Cleaned(s, s.table.Keys - todo)
        decreases |todo|
      {
        var path :| path in todo;
        ghost var done := s.table.Keys - todo;
        CleanStep(s, done, path);
        var f := table[path];
        if fetchers[f].useCount == 0 {
          fetchers := fetchers - {f};
          table := table - {path};
        }
        todo := todo - {path};
        assert s.table.Keys - todo == done + {path};
      }
      assert s.table.Keys - {} == s.table.Keys;
    }

    method Clean()
      requires Spec.CacheInv(Abs())
      modifies this
      ensures Abs() == Spec.Cleaned(old(Abs()), old(table).Keys) && Spec.CacheInv(Abs())
    {
      Spec.CleanKeeps(Abs());
      EraseUnused();
    }
  }

  /** Pointers lead to fetchers of the right path. */
  predicate Paths(fetchers: map<Spec.Pointer, Spec.Fetcher>, m: map<string, Spec.Pointer>)
  {
    forall p :: p in m ==> m[p] in fetchers && fetchers[m[p]].path == p
  }

  lemma ReleasedNothing(s: Spec.Cache, q: nat)
    requires q in s.queries
    ensures Spec.Released(s, q, {}) == s
    ensures s.queries[q].Keys - s.queries[q].Keys == {}
  {
    assert Spec.Released(s, q, {}).fetchers == s.fetchers;
  }

  lemma CleanedNothing(s: Spec.Cache)
    ensures Spec.Cleaned(s, {}) == s
    ensures s.table.Keys - s.table.Keys == {}
  {
    assert Spec.Cleaned(s, {}).fetchers == s.fetchers && Spec.Cleaned(s, {}).table == s.table;
  }

  /** Releasing one more path. */
  lemma ReleaseStep(s: Spec.Cache, q: nat, done: set<string>, path: string)
    requires q in s.queries && path in s.queries[q] && path !in done
    requires s.queries[q][path] in s.fetchers && s.fetchers[s.queries[q][path]].path == path
    ensures var t := Spec.Released(s, q, done); var f := s.queries[q][path];
            f in t.fetchers &&
            Spec.Released(s, q, done + {path})
            == t.(fetchers := t.fetchers[f := t.fetchers[f].(useCount := Spec.Decremented(t.fetchers[f].useCount))])
  {
    var t, u, f := Spec.Released(s, q, done), Spec.Released(s, q, done + {path}), s.queries[q][path];
    var v := t.fetchers[f := t.fetchers[f].(useCount := Spec.Decremented(t.fetchers[f].useCount))];
    forall g | g in s.fetchers ensures u.fetchers[g] == v[g] {
      assert Spec.HeldOn(s.queries[q], done + {path}, s.fetchers[g].path, g)
        <==> g == f || Spec.HeldOn(s.queries[q], done, s.fetchers[g].path, g);
    }
    assert u.fetchers == v;
  }

  /** Looking at one more path. */
  lemma CleanStep(s: Spec.Cache, done: set<string>, path: string)
    requires path in s.table && path !in done && s.table[path] in s.fetchers && s.fetchers[s.table[path]].path == path
    ensures var t := Spec.Cleaned(s, done); var f := s.table[path];
            path in t.table && t.table[path] == f && f in t.fetchers && t.fetchers[f] == s.fetchers[f] &&
            Spec.Cleaned(s, done + {path})
            == if s.fetchers[f].useCount == 0 then t.(fetchers := t.fetchers - {f}, table := t.table - {path}) else t
  {
    var t, u, f := Spec.Cleaned(s, done), Spec.Cleaned(s, done + {path}), s.table[path];
    var unused := s.fetchers[f].useCount == 0;
    assert forall p, g :: Spec.Unused(s, done + {path}, p, g) <==>
             Spec.Unused(s, done, p, g) || (unused && p == path && g == f);
    if unused {
      assert u.fetchers == t.fetchers - {f};
      assert u.table == t.table - {path};
    } else {
      assert u.fetchers == t.fetchers && u.table == t.table;
    }
  }
}
