/** What each step does to the whole data area, in clock readings and sizes. */
module DataFileEffects {
  import opened PackIndex
  import opened DataFiles
  import opened DataFileTheorems

  /** When the block of this name was opened: the clock of the last pack that was given the name. */
  function OpenedAt(steps: seq<Step>, path: string): nat
  {
    if steps == [] then 0
    else
      var last := steps[|steps| - 1];
      if last.Process? && last.supply.path1 == path then last.supply.now1
      else if last.Process? && last.supply.path2 == path then last.supply.now2
      else OpenedAt(steps[..|steps| - 1], path)
  }

  /** A block has lived for its lifetime or reached its size. */
  predicate Due(since: nat, size: nat, now: nat, limits: Limits) {
    now >= since + limits.lifetime || size >= limits.maxSize
  }

  /** Every open block is on the storage. */
  predicate Linked(s: Area) {
    forall f :: f in s.files ==> s.files[f].path in s.storage
  }

  /** An open block in terms of its history: what has been written to it and when it was opened. */
  datatype History = History(path: string, content: seq<Byte>, since: nat)

  function HistoryOf(s: Area, before: seq<Step>, f: FileKey): History
    requires f in s.files && s.files[f].path in s.storage
  {
    var p := s.files[f].path;
    History(p, s.storage[p], OpenedAt(before, p))
  }

  function AsBlock(h: History, limits: Limits): Block {
    Block(h.path, |h.content|, h.since + limits.lifetime)
  }

  function DueAt(h: History, now: nat, limits: Limits): bool {
    Due(h.since, |h.content|, now, limits)
  }

  // ---------- one pack ----------

  /** The block a pack finds: the open one of its file, or a new one. */
  function Found(s: Area, before: seq<Step>, f: FileKey, p: Supply): History
    requires Linked(s)
  {
    if f in s.files then HistoryOf(s, before, f) else History(p.path1, [], p.now1)
  }

  /** The block it is written to: the one found, or a new one if that is due. */
  function Home(found: History, p: Supply, limits: Limits): History {
    if DueAt(found, p.now2, limits) then History(p.path2, [], p.now2) else found
  }

  /** The index afterwards: an entry for the block found, unless the key was known, and all entries of a block that
      was due made querable. */
  function IndexWith(index: Index, pack: DataPack, found: History, due: bool): Index {
    map k | k in index.Keys + {pack.key} ::
      var e := if k in index then index[k] else IndexEntry(found.path, |found.content|, |pack.bytes|, Created);
      if due && e.path == found.path then e.(state := Querable) else e
  }

  function Stored(s: Area, f: FileKey, pack: DataPack, found: History, home: History, due: bool, limits: Limits): Area
  {
    var known := pack.key in s.index;
    Area(s.storage[found.path := found.content][home.path := home.content + pack.bytes],
         IndexWith(s.index, pack, found, due),
         s.files[f := AsBlock(home.(content := home.content + pack.bytes), limits)],
         if known then s.origin else s.origin[pack.key := pack.bytes],
         if known || !due then s.misplaced else s.misplaced + {pack.key},
         if due then s.released + {found.path} else s.released,
         s.abandoned)
  }

  /** The pack's bytes come after what its file's open block held, or first in a new block exactly when there is no
      open block or it is due; the entry names the block found, and only a due block is released. */
  ghost predicate Stores(s: Area, step: Step, before: seq<Step>, limits: Limits, t: Area)
    requires step.Process?
  {
    Linked(s) &&
    var f := FileKey(step.scanner, step.pack.key.did);
    var found := Found(s, before, f, step.supply);
    t == Stored(s, f, step.pack, found, Home(found, step.supply, limits), DueAt(found, step.supply.now2, limits),
                limits)
  }

  lemma MarkedIndex(index: Index, pack: DataPack, found: History)
    ensures pack.key in index ==> IndexWith(index, pack, found, false) == index
    ensures pack.key in index ==> IndexWith(index, pack, found, true) == MarkQuerable(index, found.path)
    ensures var e := IndexEntry(found.path, |found.content|, |pack.bytes|, Created);
            pack.key !in index ==> IndexWith(index, pack, found, false) == index[pack.key := e] &&
                                   IndexWith(index, pack, found, true) == MarkQuerable(index[pack.key := e], found.path)
  {
  }

  lemma PlaceIs(t: Area, f: FileKey, pack: DataPack, path: string, now: nat, limits: Limits, found: History)
    requires f in t.files && found.path in t.storage && found.content == t.storage[found.path] && path !in t.storage
    requires t.files[f] == AsBlock(found, limits)
    ensures Place(t, f, pack, path, now, limits) ==
            Stored(t, f, pack, found, Home(found, Supply("", 0, path, now), limits), DueAt(found, now, limits), limits)
  {
    MarkedIndex(t.index, pack, found);
    assert t.storage[found.path := found.content] == t.storage;
    assert IsValid(t.files[f], now, limits) <==> !DueAt(found, now, limits);
    if DueAt(found, now, limits) {
      SwitchIs(t, f, pack, path, now, limits, found);
    } else {
      var u := AddEntry(t, pack, t.files[f], true);
      assert Append(u, f, pack.bytes).storage == t.storage[found.path := found.content + pack.bytes];
    }
  }

  lemma SwitchIs(t: Area, f: FileKey, pack: DataPack, path: string, now: nat, limits: Limits, found: History)
    requires f in t.files && found.path in t.storage && found.content == t.storage[found.path] && path !in t.storage
    requires t.files[f] == AsBlock(found, limits) && !IsValid(t.files[f], now, limits)
    ensures Place(t, f, pack, path, now, limits) ==
            Stored(t, f, pack, found, History(path, [], now), true, limits)
  {
    MarkedIndex(t.index, pack, found);
    var u := Release(AddEntry(t, pack, t.files[f], false), f);
    var v := OpenBlock(u, f, path, now, limits);
    var none: seq<Byte> := [];
    assert none + pack.bytes == pack.bytes;
    assert t.storage[found.path := found.content] == t.storage;
    assert t.storage[path := none][path := pack.bytes] == t.storage[path := pack.bytes];
    assert (t.files - {f})[f := Block(path, |pack.bytes|, now + limits.lifetime)]
           == t.files[f := Block(path, |pack.bytes|, now + limits.lifetime)];
  }

  // ---------- clocks ----------

  /** The time until which an open block may be used is counted from its opening. */
  predicate Timed(s: Area, before: seq<Step>, limits: Limits) {
    forall f :: f in s.files ==> TimedFile(s, f, before, limits)
  }

  lemma PackIs(s: Area, step: Step, before: seq<Step>, limits: Limits)
    requires step.Process? && Fresh(s, step) && Timed(s, before, limits)
    ensures Linked(s) && Stores(s, step, before, limits, Apply(s, step, limits))
  {
    var f, p := FileKey(step.scanner, step.pack.key.did), step.supply;
    var t := Prefetch(s, f, p.path1, p.now1, limits);
    var found := Found(s, before, f, p);
    PlaceIs(t, f, step.pack, p.path2, p.now2, limits, found);
    StoredThere(s, t, f, step.pack, found, Home(found, p, limits), DueAt(found, p.now2, limits), limits);
  }

  lemma StoredThere(s: Area, t: Area, f: FileKey, pack: DataPack, found: History, home: History, due: bool,
                    limits: Limits)
    requires t == s ||
             t == s.(storage := s.storage[found.path := found.content], files := s.files[f := AsBlock(found, limits)])
    ensures Stored(t, f, pack, found, home, due, limits) == Stored(s, f, pack, found, home, due, limits)
  {
    assert s.storage[found.path := found.content][found.path := found.content]
           == s.storage[found.path := found.content];
    var b := AsBlock(home.(content := home.content + pack.bytes), limits);
    assert s.files[f := AsBlock(found, limits)][f := b] == s.files[f := b];
  }

  lemma TimedStep(s: Area, step: Step, before: seq<Step>, limits: Limits)
    requires AreaInv(s) && Fresh(s, step) && Timed(s, before, limits)
    ensures Linked(s) && Timed(Apply(s, step, limits), before + [step], limits)
  {
    var t := Apply(s, step, limits);
    assert (before + [step])[..|before|] == before;
    if step.Process? {
      PackIs(s, step, before, limits);
      forall g | g in t.files ensures TimedFile(t, g, before + [step], limits) {
        PackTimes(s, step, before, limits, t, g);
      }
    } else {
      OtherTimes(s, step, before, limits);
    }
  }

  predicate TimedFile(s: Area, f: FileKey, before: seq<Step>, limits: Limits)
    requires f in s.files
  {
    s.files[f].path in s.storage && s.files[f] == AsBlock(HistoryOf(s, before, f), limits)
  }

  lemma OtherTimes(s: Area, step: Step, before: seq<Step>, limits: Limits)
    requires !step.Process? && Timed(s, before, limits)
    ensures Linked(s) && Timed(Apply(s, step, limits), before + [step], limits)
  {
    assert (before + [step])[..|before|] == before;
    var t := Apply(s, step, limits);
    assert t.storage == s.storage && forall f :: f in t.files ==> f in s.files && t.files[f] == s.files[f];
    forall f | f in t.files ensures TimedFile(t, f, before + [step], limits) {
      assert TimedFile(s, f, before, limits);
    }
  }

  lemma PackTimes(s: Area, step: Step, before: seq<Step>, limits: Limits, t: Area, g: FileKey)
    requires step.Process? && Fresh(s, step) && Timed(s, before, limits) && Stores(s, step, before, limits, t)
    requires g in t.files && forall f :: f in s.files ==> BlockOk(s, f)
    ensures TimedFile(t, g, before + [step], limits)
  {
    assert (before + [step])[..|before|] == before;
    var f := FileKey(step.scanner, step.pack.key.did);
    if g != f {
      assert BlockOk(s, g) && TimedFile(s, g, before, limits);
      assert f in s.files ==> s.files[f].path != s.files[g].path;
    } else if f in s.files {
      assert TimedFile(s, f, before, limits);
    }
  }

  lemma {:induction false} FilesTimed(states: seq<Area>, steps: seq<Step>, limits: Limits, k: nat)
    requires IsRun(states, steps, limits) && k < |states|
    ensures AreaInv(states[k]) && Timed(states[k], steps[..k], limits)
  {
    RunKeepsArea(states, steps, limits, k);
    if k > 0 {
      FilesTimed(states, steps, limits, k - 1);
      assert Timed(states[k], steps[..k - 1] + [steps[k - 1]], limits) by {
        TimedStep(states[k - 1], steps[k - 1], steps[..k - 1], limits);
      }
      assert steps[..k - 1] + [steps[k - 1]] == steps[..k];
    }
  }

  // ---------- outcomes ----------

  lemma RunStep(states: seq<Area>, steps: seq<Step>, limits: Limits, k: nat)
    requires IsRun(states, steps, limits) && k < |steps|
    ensures AreaInv(states[k]) && Fresh(states[k], steps[k]) && Timed(states[k], steps[..k], limits)
    ensures Linked(states[k]) && states[k + 1] == Apply(states[k], steps[k], limits)
  {
    FilesTimed(states, steps, limits, k);
    StepKeepsArea(states[k], steps[k], limits);
  }

  lemma PackOutcome(states: seq<Area>, steps: seq<Step>, limits: Limits, k: nat)
    requires IsRun(states, steps, limits) && k < |steps| && steps[k].Process?
    ensures Stores(states[k], steps[k], steps[..k], limits, states[k + 1])
  {
    RunStep(states, steps, limits, k);
    PackIs(states[k], steps[k], steps[..k], limits);
  }

  /** The area with the block of f closed and its entries querable. */
  function Closed(s: Area, f: FileKey): Area
    requires f in s.files
  {
    var p := s.files[f].path;
    s.(index := map k | k in s.index :: if s.index[k].path == p then s.index[k].(state := Querable) else s.index[k],
       files := s.files - {f}, released := s.released + {p})
  }

  /** An open block is closed exactly when it is due. */
  predicate Maintains(s: Area, f: FileKey, now: nat, before: seq<Step>, limits: Limits, t: Area) {
    Linked(s) && t == if f in s.files && DueAt(HistoryOf(s, before, f), now, limits) then Closed(s, f) else s
  }

  lemma MaintenanceOutcome(states: seq<Area>, steps: seq<Step>, limits: Limits, k: nat)
    requires IsRun(states, steps, limits) && k < |steps| && steps[k].Maintain?
    ensures Maintains(states[k], steps[k].file, steps[k].now, steps[..k], limits, states[k + 1])
  {
    RunStep(states, steps, limits, k);
    MaintainIs(states[k], steps[k].file, steps[k].now, steps[..k], limits);
  }

  lemma MaintainIs(s: Area, f: FileKey, now: nat, before: seq<Step>, limits: Limits)
    requires Timed(s, before, limits)
    ensures Linked(s) && Maintains(s, f, now, before, limits, Apply(s, Maintain(f, now), limits))
  {
    if f in s.files {
      assert TimedFile(s, f, before, limits);
      assert Closed(s, f).index == MarkQuerable(s.index, s.files[f].path);
    }
  }

  /** Hence a block that is open after its maintenance is younger than its lifetime and below its maximum size. */
  lemma OpenAfterMaintenance(states: seq<Area>, steps: seq<Step>, limits: Limits, k: nat)
    requires IsRun(states, steps, limits) && k < |steps| && steps[k].Maintain?
    ensures var t, f := states[k + 1], steps[k].file;
            f in t.files ==> t.files[f].path in t.storage &&
                             steps[k].now < OpenedAt(steps[..k], t.files[f].path) + limits.lifetime &&
                             |t.storage[t.files[f].path]| < limits.maxSize
  {
    MaintenanceOutcome(states, steps, limits, k);
  }

  /** The files of one scanner are closed, and nothing else happens. */
  ghost predicate Closes(s: Area, scanner: nat, t: Area) {
    t == s.(files := t.files, abandoned := t.abandoned) &&
    (forall f :: f in t.files <==> f in s.files && f.scanner != scanner) &&
    (forall f :: f in t.files ==> t.files[f] == s.files[f]) &&
    (forall p :: p in t.abandoned <==>
       p in s.abandoned || exists f :: f in s.files && f.scanner == scanner && s.files[f].path == p)
  }

  lemma CloseOutcome(states: seq<Area>, steps: seq<Step>, limits: Limits, k: nat)
    requires IsRun(states, steps, limits) && k < |steps| && steps[k].CloseAll?
    ensures Closes(states[k], steps[k].scanner, states[k + 1])
  {
    RunStep(states, steps, limits, k);
    assert Closes(states[k], steps[k].scanner, Abandon(states[k], steps[k].scanner));
  }

  function ClockOf(step: Step): nat {
    match step
    case Process(_, _, p) => p.now2
    case Maintain(_, now) => now
    case CloseAll(_) => 0
  }

  /** A block released by a write or by maintenance has lived for its lifetime or reached its size at that moment. */
  lemma ReleasedWhenDue(states: seq<Area>, steps: seq<Step>, limits: Limits, k: nat, path: string)
    requires IsRun(states, steps, limits) && k < |steps| && path in states[k + 1].released &&
             path !in states[k].released
    ensures !steps[k].CloseAll? && path in states[k + 1].storage
    ensures Due(OpenedAt(steps[..k + 1], path), |states[k + 1].storage[path]|, ClockOf(steps[k]), limits)
  {
    var s, step, t := states[k], steps[k], states[k + 1];
    assert steps[..k + 1] == steps[..k] + [step];
    RunStep(states, steps, limits, k);
    match step
    case Process(_, _, _) => ReleasedByPack(s, step, steps[..k], limits, t, path);
    case Maintain(f, now) =>
      MaintainIs(s, f, now, steps[..k], limits);
      assert (steps[..k] + [step])[..k] == steps[..k];
    case CloseAll(_) =>
  }

  lemma ReleasedByPack(s: Area, step: Step, before: seq<Step>, limits: Limits, t: Area, path: string)
    requires step.Process? && Fresh(s, step) && Linked(s) && Timed(s, before, limits) && t == Apply(s, step, limits)
    requires path in t.released && path !in s.released
    ensures path in t.storage
    ensures Due(OpenedAt(before + [step], path), |t.storage[path]|, ClockOf(step), limits)
  {
    assert (before + [step])[..|before|] == before;
    PackIs(s, step, before, limits);
  }
}
