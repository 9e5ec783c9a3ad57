/** Stage and data area together: every document an indexer reads from a stage block goes, if it has the
    mandatory fields, to the data area in the same turn of its scan. */
module Ingest {
  import opened CommandTypes
  import opened PackIndex
  import DataFiles
  import opened DataFileTheorems
  import opened StageBlocks
  import opened StageArea
  import opened StageRuns
  import opened StageTheorems

  datatype Plant = Plant(stage: Stage, area: DataFiles.Area)

  /** The index key of a document that has the mandatory fields. */
  type Parser = Document -> Option<Key>

  datatype Turn =
    | OnStage(step: StageArea.Step)                          // writers, claims, ends of scans
    | Index(r: nat, supply: DataFiles.Supply)                // one document, from stage to data area
    | FailScan(r: nat)                                       // the block is given back, the data files are closed
    | OnData(upkeep: DataFiles.Step)                         // maintenance

  function EmptyPlant(): Plant
  {
    Plant(EmptyStage(), DataFiles.EmptyArea())
  }

  /** The document the indexer is about to read. */
  function NextDoc(s: Stage, r: nat): Option<Document>
    requires r in s.readers && s.readers[r].path in s.blocks
  {
    FrameAt(s.blocks[s.readers[r].path].bytes, s.readers[r].position)
  }

  predicate FilesStored(a: DataFiles.Area)
  {
    forall f :: f in a.files ==> a.files[f].path in a.storage
  }

  /** What the indexer adds to the data area for a document. */
  predicate HasPack(parse: Parser, doc: Option<Document>)
  {
    doc.Some? && parse(doc.value).Some?
  }

  function DataStep(parse: Parser, doc: Document, r: nat, supply: DataFiles.Supply): DataFiles.Step
    requires parse(doc).Some?
  {
    DataFiles.Process(r, DataFiles.DataPack(parse(doc).value, doc), supply)
  }

  predicate TurnEnabled(p: Plant, t: Turn, parse: Parser, limits: DataFiles.Limits)
  {
    FilesStored(p.area) &&
    match t
    case OnStage(step) => !step.ReadNext? && !step.Abort? && StageArea.Enabled(p.stage, step, limits)
    case Index(r, supply) =>
      StageArea.Enabled(p.stage, ReadNext(r), limits) &&
      var doc := NextDoc(p.stage, r);
      HasPack(parse, doc) ==> DataFiles.Fresh(p.area, DataStep(parse, doc.value, r, supply))
    case FailScan(r) => StageArea.Enabled(p.stage, Abort(r), limits)
    case OnData(step) => step.Maintain?
  }

  function Turned(p: Plant, t: Turn, parse: Parser, limits: DataFiles.Limits): Plant
    requires TurnEnabled(p, t, parse, limits)
  {
    match t
    case OnStage(step) => p.(stage := StageArea.Apply(p.stage, step, limits))
    case Index(r, supply) =>
      var doc := NextDoc(p.stage, r);
      Plant(StageArea.Apply(p.stage, ReadNext(r), limits),
            if HasPack(parse, doc) then DataFiles.Apply(p.area, DataStep(parse, doc.value, r, supply), limits)
            else p.area)
    case FailScan(r) =>
      Plant(StageArea.Apply(p.stage, Abort(r), limits), DataFiles.Apply(p.area, DataFiles.CloseAll(r), limits))
    case OnData(step) => p.(area := DataFiles.Apply(p.area, step, limits))
  }

  // ---------- the invariant ----------

  /** Documents in blocks and processed documents were written. */
  ghost predicate FromWriters(s: Stage)
  {
    (forall p, doc :: p in s.docs && doc in s.docs[p] ==> doc in s.written) &&
    (forall doc :: doc in s.processed ==> doc in s.written)
  }

  /** The index holds exactly the keys of the processed documents, each with the bytes of one of them. */
  ghost predicate Indexed(s: Stage, a: DataFiles.Area, parse: Parser)
  {
    (forall doc :: doc in s.processed && parse(doc).Some? ==> parse(doc).value in a.index) &&
    (forall k :: k in a.index ==> k in a.origin && a.origin[k] in s.processed && parse(a.origin[k]) == Some(k))
  }

  ghost predicate PlantInv(p: Plant, parse: Parser)
  {
    StageInv(p.stage) && Conserved(p.stage) && FromWriters(p.stage) && DataFiles.AreaInv(p.area) &&
    Indexed(p.stage, p.area, parse)
  }

  /** Only reading changes what has been processed. */
  lemma ProcessedKept(s: Stage, step: StageArea.Step, limits: DataFiles.Limits)
    requires StageArea.Enabled(s, step, limits) && !step.ReadNext?
    ensures StageArea.Apply(s, step, limits).processed == s.processed
  {
  }

  lemma WrittenKept(s: Stage, step: StageArea.Step, limits: DataFiles.Limits)
    requires StageInv(s) && StageArea.Enabled(s, step, limits) && !step.WriteDoc?
    ensures StageArea.Apply(s, step, limits).written == s.written
    ensures forall p :: p in StageArea.Apply(s, step, limits).docs ==>
              p in s.docs && StageArea.Apply(s, step, limits).docs[p] == s.docs[p]
  {
  }

  lemma WritersStep(s: Stage, step: StageArea.Step, limits: DataFiles.Limits)
    requires StageInv(s) && StageArea.Enabled(s, step, limits) && FromWriters(s) && !step.ReadNext?
    ensures FromWriters(StageArea.Apply(s, step, limits))
  {
    ProcessedKept(s, step, limits);
    if step.WriteDoc? {
      WriteAdds(s, step.w, step.doc, step.path, step.now, limits);
    } else {
      WrittenKept(s, step, limits);
    }
  }

  /** The document a reader is about to process is one of its block. */
  lemma NextWasWritten(s: Stage, r: nat, limits: DataFiles.Limits)
    requires StageInv(s) && FromWriters(s) && StageArea.Enabled(s, ReadNext(r), limits)
    ensures NextDoc(s, r).Some? && NextDoc(s, r).value in s.written
    ensures var t := StageArea.Apply(s, ReadNext(r), limits);
            t.processed == s.processed + multiset{NextDoc(s, r).value} && FromWriters(t)
  {
    NextDocument(s, r);
  }

  lemma IndexStep(s: Stage, t: Stage, a: DataFiles.Area, parse: Parser, doc: Document, r: nat, supply: DataFiles.Supply,
                  limits: DataFiles.Limits)
    requires Indexed(s, a, parse) && FilesStored(a) && t.processed == s.processed + multiset{doc}
    ensures parse(doc).None? ==> Indexed(t, a, parse)
    ensures parse(doc).Some? ==> Indexed(t, DataFiles.Apply(a, DataStep(parse, doc, r, supply), limits), parse)
  {
    if parse(doc).Some? {
      var b := DataFiles.Apply(a, DataStep(parse, doc, r, supply), limits);
      ProcessShape(a, r, DataFiles.DataPack(parse(doc).value, doc), supply, limits);
      IndexedMore(s, t, a, b, parse, doc);
    }
  }

  lemma IndexedMore(s: Stage, t: Stage, a: DataFiles.Area, b: DataFiles.Area, parse: Parser, doc: Document)
    requires Indexed(s, a, parse) && t.processed == s.processed + multiset{doc} && parse(doc).Some?
    requires b.index.Keys == a.index.Keys + {parse(doc).value}
    requires b.origin == if parse(doc).value in a.index then a.origin else a.origin[parse(doc).value := doc]
    ensures Indexed(t, b, parse)
  {
    forall d | d in t.processed && parse(d).Some? ensures parse(d).value in b.index {
      if d != doc { assert d in s.processed; }
    }
    forall k | k in b.index ensures k in b.origin && b.origin[k] in t.processed && parse(b.origin[k]) == Some(k) {
      if k in a.index { assert a.origin[k] in s.processed; }
    }
  }

  lemma ProcessShape(a: DataFiles.Area, r: nat, pack: DataFiles.DataPack, supply: DataFiles.Supply,
                     limits: DataFiles.Limits)
    requires FilesStored(a)
    ensures var b := DataFiles.ProcessPack(a, r, pack, supply, limits);
            b.index.Keys == a.index.Keys + {pack.key} &&
            b.origin == if pack.key in a.index then a.origin else a.origin[pack.key := pack.bytes]
  {
    var f := DataFiles.FileKey(r, pack.key.did);
    var t := DataFiles.Prefetch(a, f, supply.path1, supply.now1, limits);
    PlaceShape(t, f, pack, supply.path2, supply.now2, limits);
  }

  lemma SameIndexed(s: Stage, t: Stage, a: DataFiles.Area, b: DataFiles.Area, parse: Parser)
    requires Indexed(s, a, parse) && t.processed == s.processed && b.index.Keys == a.index.Keys && b.origin == a.origin
    ensures Indexed(t, b, parse)
  {
  }

  lemma TurnKeeps(p: Plant, t: Turn, parse: Parser, limits: DataFiles.Limits)
    requires PlantInv(p, parse) && TurnEnabled(p, t, parse, limits)
    ensures PlantInv(Turned(p, t, parse, limits), parse)
  {
    var q := Turned(p, t, parse, limits);
    match t
    case OnStage(step) =>
      StageStepKeeps(p.stage, step, limits);
      StepConserves(p.stage, step, limits);
      WritersStep(p.stage, step, limits);
      ProcessedKept(p.stage, step, limits);
      SameIndexed(p.stage, q.stage, p.area, q.area, parse);
    case Index(r, supply) =>
      StageStepKeeps(p.stage, ReadNext(r), limits);
      StepConserves(p.stage, ReadNext(r), limits);
      NextWasWritten(p.stage, r, limits);
      var doc := NextDoc(p.stage, r).value;
      IndexStep(p.stage, q.stage, p.area, parse, doc, r, supply, limits);
      if parse(doc).Some? { DataFiles.StepKeepsArea(p.area, DataStep(parse, doc, r, supply), limits); }
    case FailScan(r) =>
      StageStepKeeps(p.stage, Abort(r), limits);
      StepConserves(p.stage, Abort(r), limits);
      WritersStep(p.stage, Abort(r), limits);
      ProcessedKept(p.stage, Abort(r), limits);
      DataFiles.StepKeepsArea(p.area, DataFiles.CloseAll(r), limits);
      SameIndexed(p.stage, q.stage, p.area, q.area, parse);
    case OnData(step) =>
      DataFiles.StepKeepsArea(p.area, step, limits);
      MaintainSame(p.area, step, limits);
      SameIndexed(p.stage, q.stage, p.area, q.area, parse);
  }

  lemma MaintainSame(a: DataFiles.Area, step: DataFiles.Step, limits: DataFiles.Limits)
    requires FilesStored(a) && step.Maintain?
    ensures var b := DataFiles.Apply(a, step, limits); b.index.Keys == a.index.Keys && b.origin == a.origin
  {
  }

  // ---------- runs ----------

  ghost predicate IsPlantRun(states: seq<Plant>, turns: seq<Turn>, parse: Parser, limits: DataFiles.Limits)
  {
    |states| == |turns| + 1 && states[0] == EmptyPlant() &&
    forall i {:trigger turns[i]} :: 0 <= i < |turns| ==>
      TurnEnabled(states[i], turns[i], parse, limits) && states[i + 1] == Turned(states[i], turns[i], parse, limits)
  }

  lemma EmptyPlantInv(parse: Parser)
    ensures PlantInv(EmptyPlant(), parse)
  {
    assert Pending(EmptyStage().docs, EmptyStage().readers) == map[];
  }

  lemma {:induction false} PlantRunKeeps(states: seq<Plant>, turns: seq<Turn>, parse: Parser,
                                         limits: DataFiles.Limits, i: nat)
    requires IsPlantRun(states, turns, parse, limits) && i <= |turns|
    ensures PlantInv(states[i], parse)
  {
    if i == 0 {
      EmptyPlantInv(parse);
    } else {
      PlantRunKeeps(states, turns, parse, limits, i - 1);
      TurnKeeps(states[i - 1], turns[i - 1], parse, limits);
    }
  }

  /** What a sum counts is in one of its parts. */
  lemma {:induction false} TotalMember(m: Docs, doc: Document)
    requires doc in Total(m)
    ensures exists p :: p in m && doc in m[p]
    decreases |m|
  {
    var k :| k in m && Total(m) == multiset(m[k]) + Total(m - {k});
    if doc !in m[k] {
      TotalMember(m - {k}, doc);
      var p :| p in m - {k} && doc in (m - {k})[p];
      assert p in m && doc in m[p];
    }
  }

  /** The document is still to be read in some block of the stage area. */
  ghost predicate StillUnread(s: Stage, doc: Document)
  {
    exists p :: p in s.docs && doc in Unread(s.docs, s.readers, p)
  }

  /** Main result: with any number of writers and indexers, failed scans and maintenance in any interleaving,
      every document ever written is still unread in some stage block or has been processed, and then,
      if it has the mandatory fields, there is an index entry for its key, whose bytes are those of a written
      document with that key. In particular this holds once its block is removed. */
  lemma WrittenDocumentsAreIndexed(states: seq<Plant>, turns: seq<Turn>, parse: Parser, limits: DataFiles.Limits,
                                   i: nat, doc: Document)
    requires IsPlantRun(states, turns, parse, limits) && i <= |turns| && doc in states[i].stage.written
    ensures StillUnread(states[i].stage, doc) || doc in states[i].stage.processed
    ensures !StillUnread(states[i].stage, doc) && parse(doc).Some? ==>
              var k, area := parse(doc).value, states[i].area;
              k in area.index && k in area.origin && area.origin[k] in states[i].stage.written &&
              parse(area.origin[k]) == Some(k)
  {
    PlantRunKeeps(states, turns, parse, limits, i);
    var s := states[i].stage;
    if doc !in s.processed {
      var pending := Pending(s.docs, s.readers);
      assert (s.processed + Total(pending))[doc] == (s.written + s.redone)[doc];
      TotalMember(pending, doc);
    }
  }

  /** Conversely, every index entry is that of a document that was written to the stage area. */
  lemma EntriesComeFromStage(states: seq<Plant>, turns: seq<Turn>, parse: Parser, limits: DataFiles.Limits, i: nat,
                             k: Key)
    requires IsPlantRun(states, turns, parse, limits) && i <= |turns| && k in states[i].area.index
    ensures k in states[i].area.origin && states[i].area.origin[k] in states[i].stage.written
    ensures parse(states[i].area.origin[k]) == Some(k)
  {
    PlantRunKeeps(states, turns, parse, limits, i);
  }
}
