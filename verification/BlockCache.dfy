/** The cache of open data blocks: one reference-counted fetcher per block path, shared by all live
    queries and deleted by a periodic clean once nobody uses it. */
module BlockCache {
  import opened DataFiles

  /** Address of a fetcher. */
  type Pointer = int

  type Storage = map<string, seq<Byte>>

  /** An open block; `size` is its length when it was opened, `good` the state of its stream. */
  datatype Fetcher = Fetcher(path: string, size: nat, good: bool, useCount: nat)

  datatype Cache = Cache(
    fetchers: map<Pointer, Fetcher>,              // allocated fetchers
    table: map<string, Pointer>,                  // the cache
    queries: map<nat, map<string, Pointer>>,      // what each live query holds
    leaked: set<Pointer>)                         // fetchers whose block could not be opened

  datatype Outcome = Data(bytes: seq<Byte>) | Failed(code: int)

  /** A read sees the storage as it is at that moment. */
  datatype Use =
    | OpenQuery(q: nat)
    | ReadPack(q: nat, path: string, offset: nat, len: nat, id: Pointer, storage: Storage)
    | DisposeQuery(q: nat)
    | CleanUnused

  const OPEN_ERROR := -3
  const OFF_FILE := -1000
  const READ_ERROR := -1

  function EmptyCache(): Cache
  {
    Cache(map[], map[], map[], {})
  }

  // ---------- fetchers ----------

  /** The query gets the fetcher of a path: its own, a shared one, or a new one. */
  function Acquire(s: Cache, q: nat, path: string, id: Pointer, storage: Storage): Cache
    requires q in s.queries && (path in s.table ==> s.table[path] in s.fetchers)
  {
    if path in s.queries[q] then s
    else if path in s.table then
      var f := s.table[path];
      s.(fetchers := s.fetchers[f := s.fetchers[f].(useCount := s.fetchers[f].useCount + 1)],
         queries := s.queries[q := s.queries[q][path := f]])
    else if path !in storage then
      s.(fetchers := s.fetchers[id := Fetcher(path, 0, false, 0)], leaked := s.leaked + {id})
    else
      s.(fetchers := s.fetchers[id := Fetcher(path, |storage[path]|, true, 1)], table := s.table[path := id],
         queries := s.queries[q := s.queries[q][path := id]])
  }

  /** Offsets are checked against the size at opening; a short read spoils the stream for good. */
  function ReadData(f: Fetcher, offset: nat, len: nat, content: seq<Byte>): (Fetcher, Outcome)
  {
    if offset >= f.size then (f, Failed(OFF_FILE))
    else if !f.good then (f, Failed(READ_ERROR))
    else if offset + len <= |content| then (f, Data(content[offset..offset + len]))
    else (f.(good := false), Failed(READ_ERROR))
  }

  function Content(storage: Storage, path: string): seq<Byte>
  {
    if path in storage then storage[path] else []
  }

  function ReadHeld(s: Cache, q: nat, path: string, offset: nat, len: nat, storage: Storage): (Cache, Outcome)
    requires q in s.queries && (path in s.queries[q] ==> s.queries[q][path] in s.fetchers)
  {
    if path !in s.queries[q] then (s, Failed(OPEN_ERROR))
    else
      var f := s.queries[q][path];
      var (g, r) := ReadData(s.fetchers[f], offset, len, Content(storage, path));
      (s.(fetchers := s.fetchers[f := g]), r)
  }

  // ---------- release and clean ----------

  /** The query gives back what it holds on the given paths. */
  function Released(s: Cache, q: nat, paths: set<string>): Cache
    requires q in s.queries
  {
    s.(fetchers := map f | f in s.fetchers ::
         if HeldOn(s.queries[q], paths, s.fetchers[f].path, f)
         then s.fetchers[f].(useCount := Decremented(s.fetchers[f].useCount))
         else s.fetchers[f])
  }

  predicate HeldOn(held: map<string, Pointer>, paths: set<string>, path: string, f: Pointer) {
    path in paths && path in held && held[path] == f
  }

  function Decremented(n: nat): nat {
    if n == 0 then 0xFFFF_FFFF else n - 1
  }

  function Disposed(s: Cache, q: nat): Cache
    requires q in s.queries
  {
    Released(s, q, s.queries[q].Keys).(queries := s.queries - {q})
  }

  /** Unused cached fetchers on the given paths are deleted. */
  function Cleaned(s: Cache, paths: set<string>): Cache
  {
    s.(fetchers := map f | f in s.fetchers && !Unused(s, paths, s.fetchers[f].path, f) :: s.fetchers[f],
       table := map p | p in s.table && !Unused(s, paths, p, s.table[p]) :: s.table[p])
  }

  predicate Unused(s: Cache, paths: set<string>, path: string, f: Pointer) {
    path in paths && path in s.table && s.table[path] == f && f in s.fetchers && s.fetchers[f].useCount == 0
  }

  // ---------- the invariant ----------

  /** The live queries that hold the fetcher of a path. */
  function Holders(queries: map<nat, map<string, Pointer>>, path: string): set<nat>
  {
    set q | q in queries && path in queries[q]
  }

  predicate TableOk(s: Cache)
  {
    (forall p :: p in s.table ==> s.table[p] in s.fetchers && s.fetchers[s.table[p]].path == p) &&
    (forall f :: f in s.fetchers ==>
       f in s.leaked || (s.fetchers[f].path in s.table && s.table[s.fetchers[f].path] == f)) &&
    (forall p :: p in s.table ==> s.table[p] !in s.leaked) && s.leaked <= s.fetchers.Keys
  }

  /** What a query holds is what the cache maps the path to: nothing held has been deleted. */
  predicate HeldOk(s: Cache)
  {
    forall q, p {:trigger s.queries[q][p]} {:trigger p in s.queries[q]} :: q in s.queries && p in s.queries[q] ==>
      p in s.table && s.table[p] == s.queries[q][p] && s.table[p] in s.fetchers
  }

  predicate CountsOk(s: Cache)
    requires TableOk(s)
  {
    forall p :: p in s.table ==> s.fetchers[s.table[p]].useCount == |Holders(s.queries, p)|
  }

  ghost predicate CacheInv(s: Cache)
  {
    TableOk(s) && HeldOk(s) && CountsOk(s)
  }

  lemma HoldersAdd(queries: map<nat, map<string, Pointer>>, q: nat, path: string, f: Pointer)
    requires q in queries && path !in queries[q]
    ensures |Holders(queries[q := queries[q][path := f]], path)| == |Holders(queries, path)| + 1
    ensures forall p :: p != path ==> Holders(queries[q := queries[q][path := f]], p) == Holders(queries, p)
  {
    assert Holders(queries[q := queries[q][path := f]], path) == Holders(queries, path) + {q};
    forall p | p != path ensures Holders(queries[q := queries[q][path := f]], p) == Holders(queries, p) {}
  }

  lemma HoldersRemove(queries: map<nat, map<string, Pointer>>, q: nat, p: string)
    requires q in queries
    ensures Holders(queries - {q}, p) == Holders(queries, p) - {q}
    ensures |Holders(queries - {q}, p)| == |Holders(queries, p)| - if p in queries[q] then 1 else 0
  {
    assert Holders(queries - {q}, p) == Holders(queries, p) - {q};
  }

  lemma NoHolders(s: Cache, path: string)
    requires CacheInv(s) && path !in s.table
    ensures Holders(s.queries, path) == {}
  {
  }

  // ---------- steps ----------

  lemma ShareKeeps(s: Cache, q: nat, path: string, id: Pointer, storage: Storage)
    requires CacheInv(s) && q in s.queries && path !in s.queries[q] && path in s.table
    ensures CacheInv(Acquire(s, q, path, id, storage))
  {
    var t := Acquire(s, q, path, id, storage);
    HoldersAdd(s.queries, q, path, s.table[path]);
    assert forall f :: f in t.fetchers <==> f in s.fetchers;
    assert TableOk(t) && HeldOk(t);
  }

  lemma OpenKeepsInv(s: Cache, q: nat, path: string, id: Pointer, storage: Storage)
    requires CacheInv(s) && q in s.queries && id !in s.fetchers && path !in s.queries[q] && path !in s.table &&
             path in storage
    ensures CacheInv(Acquire(s, q, path, id, storage))
  {
    var t := Acquire(s, q, path, id, storage);
    HoldersAdd(s.queries, q, path, id);
    NoHolders(s, path);
    assert TableOk(t);
    assert HeldOk(t);
  }

  lemma LeakKeeps(s: Cache, q: nat, path: string, id: Pointer, storage: Storage)
    requires CacheInv(s) && q in s.queries && id !in s.fetchers && path !in s.queries[q] && path !in s.table &&
             path !in storage
    ensures CacheInv(Acquire(s, q, path, id, storage))
  {
    var t := Acquire(s, q, path, id, storage);
    assert TableOk(t);
  }

  lemma AcquireKeeps(s: Cache, q: nat, path: string, id: Pointer, storage: Storage)
    requires CacheInv(s) && q in s.queries && id !in s.fetchers
    ensures var t := Acquire(s, q, path, id, storage);
            CacheInv(t) && q in t.queries &&
            (path in t.queries[q] <==> path in s.queries[q] || path in s.table || path in storage)
  {
    if path in s.queries[q] {
    } else if path in s.table {
      ShareKeeps(s, q, path, id, storage);
    } else if path in storage {
      OpenKeepsInv(s, q, path, id, storage);
    } else {
      LeakKeeps(s, q, path, id, storage);
    }
  }

  lemma ReadKeeps(s: Cache, q: nat, path: string, offset: nat, len: nat, storage: Storage)
    requires CacheInv(s) && q in s.queries
    ensures CacheInv(ReadHeld(s, q, path, offset, len, storage).0)
  {
    var t := ReadHeld(s, q, path, offset, len, storage).0;
    assert TableOk(t);
  }

  lemma DisposeKeeps(s: Cache, q: nat)
    requires CacheInv(s) && q in s.queries
    ensures CacheInv(Disposed(s, q))
  {
    var t := Disposed(s, q);
    assert TableOk(t);
    forall p | p in t.table ensures t.fetchers[t.table[p]].useCount == |Holders(t.queries, p)| {
      HoldersRemove(s.queries, q, p);
      if p in s.queries[q] { assert q in Holders(s.queries, p); }
    }
  }

  lemma CleanKeeps(s: Cache)
    requires CacheInv(s)
    ensures CacheInv(Cleaned(s, s.table.Keys))
    ensures forall q, p :: q in s.queries && p in s.queries[q] ==>
              s.queries[q][p] in s.fetchers && s.queries[q][p] in Cleaned(s, s.table.Keys).fetchers &&
              Cleaned(s, s.table.Keys).fetchers[s.queries[q][p]] == s.fetchers[s.queries[q][p]]
    ensures forall p :: p in s.table ==> (p in Cleaned(s, s.table.Keys).table <==> Holders(s.queries, p) != {})
  {
    var t := Cleaned(s, s.table.Keys);
    assert forall p :: p in t.table ==> p in s.table && t.table[p] == s.table[p];
    assert forall f :: f in t.fetchers ==> f in s.fetchers && t.fetchers[f] == s.fetchers[f];
    forall q, p | q in s.queries && p in s.queries[q] ensures s.queries[q][p] in t.fetchers {
      assert q in Holders(s.queries, p);
      assert !Unused(s, s.table.Keys, p, s.table[p]);
    }
  }

  /** Every pointer in use leads to an allocated fetcher. */
  predicate NoDangling(s: Cache)
  {
    (forall p :: p in s.table ==> s.table[p] in s.fetchers) &&
    (forall q, p :: q in s.queries && p in s.queries[q] ==> s.queries[q][p] in s.fetchers)
  }

  predicate Enabled(s: Cache, use: Use)
  {
    NoDangling(s) &&
    match use
    case OpenQuery(q) => q !in s.queries
    case ReadPack(q, _, _, _, id, _) => q in s.queries && id !in s.fetchers
    case DisposeQuery(q) => q in s.queries
    case CleanUnused => true
  }

  function ReadStep(s: Cache, q: nat, path: string, offset: nat, len: nat, id: Pointer,
                    storage: Storage): (Cache, Outcome)
    requires q in s.queries && NoDangling(s)
  {
    AcquireLinks(s, q, path, id, storage);
    ReadHeld(Acquire(s, q, path, id, storage), q, path, offset, len, storage)
  }

  lemma AcquireLinks(s: Cache, q: nat, path: string, id: Pointer, storage: Storage)
    requires q in s.queries && NoDangling(s)
    ensures var t := Acquire(s, q, path, id, storage); path in t.queries[q] ==> t.queries[q][path] in t.fetchers
  {
  }

  function Apply(s: Cache, use: Use): Cache
    requires Enabled(s, use)
  {
    match use
    case OpenQuery(q) => s.(queries := s.queries[q := map[]])
    case ReadPack(q, path, offset, len, id, storage) => ReadStep(s, q, path, offset, len, id, storage).0
    case DisposeQuery(q) => Disposed(s, q)
    case CleanUnused => Cleaned(s, s.table.Keys)
  }

  lemma InvNoDangling(s: Cache)
    requires CacheInv(s)
    ensures NoDangling(s)
  {
  }

  lemma OpenQueryKeeps(s: Cache, q: nat)
    requires CacheInv(s) && q !in s.queries
    ensures CacheInv(s.(queries := s.queries[q := map[]]))
  {
    forall p | p in s.table ensures Holders(s.queries[q := map[]], p) == Holders(s.queries, p) {}
  }

  lemma UseKeeps(s: Cache, use: Use)
    requires CacheInv(s) && Enabled(s, use)
    ensures CacheInv(Apply(s, use))
  {
    match use
    case OpenQuery(q) => OpenQueryKeeps(s, q);
    case ReadPack(q, path, offset, len, id, storage) =>
      AcquireKeeps(s, q, path, id, storage);
      ReadKeeps(Acquire(s, q, path, id, storage), q, path, offset, len, storage);
    case DisposeQuery(q) => DisposeKeeps(s, q);
    case CleanUnused => CleanKeeps(s);
  }

  // ---------- runs ----------

  predicate IsUseRun(states: seq<Cache>, uses: seq<Use>)
  {
    |states| == |uses| + 1 && states[0] == EmptyCache() &&
    forall i {:trigger uses[i]} :: 0 <= i < |uses| ==>
      Enabled(states[i], uses[i]) && states[i + 1] == Apply(states[i], uses[i])
  }

  /** In every run of reads, disposals and cleans, whatever the storage does meanwhile: the use count
      of a cached fetcher is the number of live queries holding it, no pointer dangles, and only
      fetchers whose block could not be opened are allocated outside the cache. */
  lemma {:induction false} UseCountsExact(states: seq<Cache>, uses: seq<Use>, i: nat)
    requires IsUseRun(states, uses) && i <= |uses|
    ensures CacheInv(states[i]) && NoDangling(states[i])
  {
    if i > 0 {
      UseCountsExact(states, uses, i - 1);
      UseKeeps(states[i - 1], uses[i - 1]);
    }
    InvNoDangling(states[i]);
  }

  /** Hence a clean deletes exactly the cached fetchers that no live query holds. */
  lemma CleanDeletesUnheldOnly(states: seq<Cache>, uses: seq<Use>, i: nat, f: Pointer)
    requires IsUseRun(states, uses) && i < |uses| && uses[i] == CleanUnused && f in states[i].fetchers &&
             f !in states[i].leaked
    ensures f !in states[i + 1].fetchers <==> Holders(states[i].queries, states[i].fetchers[f].path) == {}
    ensures f in states[i + 1].fetchers ==> states[i + 1].fetchers[f] == states[i].fetchers[f]
    ensures states[i + 1].queries == states[i].queries && states[i + 1].leaked == states[i].leaked
  {
    UseCountsExact(states, uses, i);
  }

  lemma {:induction false} Largest(s: set<nat>) returns (m: nat)
    requires s != {}
    ensures m in s && forall x :: x in s ==> x <= m
  {
    m :| m in s;
    var rest := s - {m};
    assert forall x :: x in s ==> x == m || x in rest;
    if rest != {} {
      var n := Largest(rest);
      m := if n > m then n else m;
    }
  }

  /** There is always an address not in use. */
  lemma FreshPointer(s: set<Pointer>) returns (id: Pointer)
    ensures id !in s
  {
    var positive: set<nat> := set x: nat | x in s;
    id := 0;
    if positive != {} {
      var m := Largest(positive);
      id := m + 1;
    }
    assert id in s ==> id in positive;
  }
}
