/** The joint runs of stage and data area are runs of each of them, every run of the stage area can be had in a joint
    one, and so whatever has been written can be indexed. */
module PlantProgress {
  import opened CommandTypes
  import opened PackIndex
  import DataFiles
  import opened DataFileTheorems
  import opened StageBlocks
  import opened StageArea
  import StageRuns
  import opened StageTheorems
  import StageProgress
  import opened Ingest

  // ---------- the stage area alone ----------

  /** What a turn does in the stage area. */
  function StageStepOf(t: Turn): seq<StageArea.Step> {
    match t
    case OnStage(step) => [step]
    case Index(r, _) => [ReadNext(r)]
    case FailScan(r) => [Abort(r)]
    case OnData(_) => []
  }

  function StageSteps(turns: seq<Turn>): seq<StageArea.Step> {
    if turns == [] then [] else StageSteps(turns[..|turns| - 1]) + StageStepOf(turns[|turns| - 1])
  }

  lemma PlantRunStep(states: seq<Plant>, turns: seq<Turn>, parse: Parser, limits: DataFiles.Limits, i: nat)
    requires IsPlantRun(states, turns, parse, limits) && i < |turns|
    ensures PlantInv(states[i], parse) && TurnEnabled(states[i], turns[i], parse, limits)
    ensures states[i + 1] == Turned(states[i], turns[i], parse, limits)
  {
    PlantRunKeeps(states, turns, parse, limits, i);
  }

  /** Seen from the stage area, a joint run is a run of the stage area. */
  lemma {:induction false} PlantRefinesStage(states: seq<Plant>, turns: seq<Turn>, parse: Parser,
                                             limits: DataFiles.Limits, i: nat) returns (stages: seq<Stage>)
    requires IsPlantRun(states, turns, parse, limits) && i <= |turns|
    ensures StageRuns.IsRun(stages, StageSteps(turns[..i]), limits)
    ensures stages[|StageSteps(turns[..i])|] == states[i].stage
  {
    if i == 0 {
      stages := [EmptyStage()];
    } else {
      var before := PlantRefinesStage(states, turns, parse, limits, i - 1);
      PlantRunStep(states, turns, parse, limits, i - 1);
      assert turns[..i][..i - 1] == turns[..i - 1];
      stages := StageFollows(states[i - 1], turns[i - 1], parse, limits, before, StageSteps(turns[..i - 1]));
    }
  }

  lemma StageFollows(p: Plant, t: Turn, parse: Parser, limits: DataFiles.Limits, before: seq<Stage>,
                     taken: seq<StageArea.Step>) returns (stages: seq<Stage>)
    requires TurnEnabled(p, t, parse, limits) && StageRuns.IsRun(before, taken, limits) && before[|taken|] == p.stage
    ensures StageRuns.IsRun(stages, taken + StageStepOf(t), limits)
    ensures stages[|taken + StageStepOf(t)|] == Turned(p, t, parse, limits).stage
  {
    if t.OnData? {
      stages := before;
      assert taken + [] == taken;
    } else {
      var more;
      stages, more := OneStepMore(before, taken, StageStepOf(t)[0], limits);
    }
  }

  // ---------- the data area alone ----------

  /** What a turn does in the data area: the next document of the indexer's block is stored if it has the mandatory
      fields, a failed scan closes the indexer's files. */
  function AreaStepOf(p: Plant, t: Turn, parse: Parser): seq<DataFiles.Step> {
    match t
    case OnStage(_) => []
    case Index(r, supply) =>
      if r in p.stage.readers && p.stage.readers[r].path in p.stage.docs &&
         |p.stage.readers[r].seen| < |p.stage.docs[p.stage.readers[r].path]| then
        var doc := p.stage.docs[p.stage.readers[r].path][|p.stage.readers[r].seen|];
        if parse(doc).Some? then [DataFiles.Process(r, DataFiles.DataPack(parse(doc).value, doc), supply)] else []
      else []
    case FailScan(r) => [DataFiles.CloseAll(r)]
    case OnData(step) => [step]
  }

  function AreaSteps(states: seq<Plant>, turns: seq<Turn>, parse: Parser): seq<DataFiles.Step>
    requires |turns| <= |states|
  {
    if turns == [] then []
    else
      var n := |turns| - 1;
      AreaSteps(states, turns[..n], parse) + AreaStepOf(states[n], turns[n], parse)
  }

  lemma AreaFollows(p: Plant, t: Turn, parse: Parser, limits: DataFiles.Limits, before: seq<DataFiles.Area>,
                    taken: seq<DataFiles.Step>) returns (areas: seq<DataFiles.Area>)
    requires StageRuns.StageInv(p.stage) && TurnEnabled(p, t, parse, limits)
    requires DataFiles.IsRun(before, taken, limits) && before[|taken|] == p.area
    ensures DataFiles.IsRun(areas, taken + AreaStepOf(p, t, parse), limits)
    ensures areas[|taken + AreaStepOf(p, t, parse)|] == Turned(p, t, parse, limits).area
  {
    if t.Index? {
      StageRuns.NextDocument(p.stage, t.r);
    }
    var own := AreaStepOf(p, t, parse);
    if own == [] {
      areas := before;
      assert taken + [] == taken;
    } else {
      areas := AreaOneMore(before, taken, own[0], limits);
      assert own == [own[0]];
    }
  }

  /** Seen from the data area, a joint run is a run of the data area. */
  lemma {:induction false} PlantRefinesArea(states: seq<Plant>, turns: seq<Turn>, parse: Parser,
                                            limits: DataFiles.Limits, i: nat) returns (areas: seq<DataFiles.Area>)
    requires IsPlantRun(states, turns, parse, limits) && i <= |turns|
    ensures DataFiles.IsRun(areas, AreaSteps(states, turns[..i], parse), limits)
    ensures areas[|AreaSteps(states, turns[..i], parse)|] == states[i].area
  {
    if i == 0 {
      areas := [DataFiles.EmptyArea()];
    } else {
      var before := PlantRefinesArea(states, turns, parse, limits, i - 1);
      PlantRunStep(states, turns, parse, limits, i - 1);
      assert turns[..i][..i - 1] == turns[..i - 1];
      areas := AreaFollows(states[i - 1], turns[i - 1], parse, limits, before,
                           AreaSteps(states, turns[..i - 1], parse));
    }
  }

  // ---------- new names ----------

  lemma {:induction false} LongerName(names: set<string>) returns (name: string)
    ensures forall n :: n in names ==> |n| < |name|
    decreases |names|
  {
    name := "";
    if names != {} {
      var one :| one in names;
      var rest := names - {one};
      var other := LongerName(rest);
      name := if |one| < |other| then other else one + "x";
      forall n | n in names ensures |n| < |name| { assert n == one || n in rest; }
    }
  }

  lemma FreshSupply(a: DataFiles.Area) returns (supply: DataFiles.Supply)
    ensures forall r, pack :: DataFiles.Fresh(a, DataFiles.Process(r, pack, supply))
  {
    var name := LongerName(a.storage.Keys);
    supply := DataFiles.Supply(name, 0, name + "x", 0);
  }

  // ---------- from the stage area to the whole ----------

  /** Every step of the stage area can be had in a joint run. */
  lemma StepLifts(states: seq<Plant>, turns: seq<Turn>, parse: Parser, limits: DataFiles.Limits, step: StageArea.Step)
    returns (longer: seq<Plant>, more: seq<Turn>)
    requires IsPlantRun(states, turns, parse, limits) && StageArea.Enabled(states[|turns|].stage, step, limits)
    ensures IsPlantRun(longer, more, parse, limits) && states <= longer && turns <= more
    ensures longer[|more|].stage == StageArea.Apply(states[|turns|].stage, step, limits)
  {
    var p := states[|turns|];
    PlantRunKeeps(states, turns, parse, limits, |turns|);
    assert FilesStored(p.area) by {
      assert forall f :: f in p.area.files ==> DataFiles.BlockOk(p.area, f);
    }
    var supply := FreshSupply(p.area);
    var turn := match step
      case ReadNext(r) => Index(r, supply)
      case Abort(r) => FailScan(r)
      case _ => OnStage(step);
    assert TurnEnabled(p, turn, parse, limits);
    longer, more := PlantOneMore(states, turns, parse, limits, turn);
  }

  lemma PlantOneMore(states: seq<Plant>, turns: seq<Turn>, parse: Parser, limits: DataFiles.Limits, turn: Turn)
    returns (longer: seq<Plant>, more: seq<Turn>)
    requires IsPlantRun(states, turns, parse, limits) && TurnEnabled(states[|turns|], turn, parse, limits)
    ensures IsPlantRun(longer, more, parse, limits) && states <= longer && turns <= more
    ensures longer[|more|] == Turned(states[|turns|], turn, parse, limits)
  {
    longer, more := states + [Turned(states[|turns|], turn, parse, limits)], turns + [turn];
    forall i | 0 <= i < |more|
      ensures TurnEnabled(longer[i], more[i], parse, limits) &&
              longer[i + 1] == Turned(longer[i], more[i], parse, limits)
    {
      if i < |turns| { assert more[i] == turns[i]; }
    }
  }

  lemma {:induction false} StageRunLifts(states: seq<Plant>, turns: seq<Turn>, parse: Parser, limits: DataFiles.Limits,
                                         stages: seq<Stage>, steps: seq<StageArea.Step>, k: nat)
    returns (longer: seq<Plant>, more: seq<Turn>)
    requires IsPlantRun(states, turns, parse, limits) && StageRuns.IsRun(stages, steps, limits)
    requires k <= |steps| && states[|turns|].stage == stages[k]
    ensures IsPlantRun(longer, more, parse, limits) && states <= longer && turns <= more
    ensures longer[|more|].stage == stages[|steps|]
    decreases |steps| - k
  {
    longer, more := states, turns;
    if k < |steps| {
      assert StageArea.Enabled(stages[k], steps[k], limits);
      var next, taken := StepLifts(states, turns, parse, limits, steps[k]);
      longer, more := StageRunLifts(next, taken, parse, limits, stages, steps, k + 1);
    }
  }

  /** Progress: from every reachable state of the plant, without writing anything more, the stage area can be emptied,
      and then every document ever written that has the mandatory fields is found under its key. */
  lemma EverythingWrittenCanBeIndexed(states: seq<Plant>, turns: seq<Turn>, parse: Parser, limits: DataFiles.Limits)
    returns (longer: seq<Plant>, more: seq<Turn>)
    requires IsPlantRun(states, turns, parse, limits)
    ensures IsPlantRun(longer, more, parse, limits) && states <= longer && turns <= more
    ensures longer[|more|].stage.blocks == map[] && longer[|more|].stage.written == states[|turns|].stage.written
    ensures forall doc :: doc in states[|turns|].stage.written && parse(doc).Some? ==>
              parse(doc).value in longer[|more|].area.index
  {
    var n := |turns|;
    var stages := PlantRefinesStage(states, turns, parse, limits, n);
    assert turns[..n] == turns;
    var steps := StageSteps(turns);
    var further, all := StageProgress.EverythingCanBeIndexed(stages, steps, limits);
    longer, more := StageRunLifts(states, turns, parse, limits, further, all, |steps|);
    PlantRunKeeps(longer, more, parse, limits, |more|);
    assert longer[|more|].stage.docs == map[];
    forall doc | doc in states[n].stage.written && parse(doc).Some?
      ensures parse(doc).value in longer[|more|].area.index
    {
      WrittenDocumentsAreIndexed(longer, more, parse, limits, |more|, doc);
    }
  }
}
