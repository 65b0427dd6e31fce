/**
 * lib/NuIO/src/ArtIOManifestIO.cxx: the stage inventory of an ArtIO file. A "Stages" tree holds
 * one row per recorded stage, a "RunSubruns" tree one row per (run, subrun) pair tagged with its
 * stage, and the "ArtIO" directory the database path and POT scale used.
 */
module ArtIOManifest {
  import opened Outcomes
  import opened SampleTypes

  datatype RunSubrun = RunSubrun(run: int, subrun: int)

  /** What the SubRun scan of a stage's files found. */
  datatype SubRunInfo = SubRunInfo(potSum: real, nEntries: int, uniquePairs: seq<RunSubrun>)

  /** Beam-database sums over a stage's (run, subrun) pairs. */
  datatype RunInfoSums = RunInfoSums(
    tortgtSum: real, tor101Sum: real, tor860Sum: real, tor875Sum: real,
    ea9cntSum: int, e1dcntSum: int, extTrigSum: int, gate1TrigSum: int, gate2TrigSum: int)

  datatype StageCfg = StageCfg(stageName: string, filelistPath: string)

  /** ArtIOStage (ArtIOManifestIO.h:18-28). */
  datatype ArtIOStage = ArtIOStage(
    cfg: StageCfg, nInputFiles: int, kind: SampleKind, beam: BeamMode,
    subrun: SubRunInfo, runinfo: RunInfoSums)

  /** One row of the "Stages" tree: the seventeen branches, kind and beam stored by name. */
  datatype StageRow = StageRow(
    stageName: string, filelistPath: string, kind: string, beam: string,
    nInputFiles: int, subrunPotSum: real, subrunEntries: int, nUniquePairs: int,
    tortgtSum: real, tor101Sum: real, tor860Sum: real, tor875Sum: real,
    ea9cntSum: int, e1dcntSum: int, extTrigSum: int, gate1TrigSum: int, gate2TrigSum: int)

  /** One row of the "RunSubruns" tree. */
  datatype PairRow = PairRow(stageName: string, run: int, subrun: int)

  /** The "Stages" row filled for one stage (ArtIOManifestIO.cxx:156-176). */
  function MakeStageRow(s: ArtIOStage, kindName: SampleKind -> string, beamName: BeamMode -> string): (row: StageRow)
    ensures row.stageName == s.cfg.stageName && row.filelistPath == s.cfg.filelistPath
    ensures row.kind == kindName(s.kind) && row.beam == beamName(s.beam)
    ensures row.nUniquePairs == |s.subrun.uniquePairs|
    ensures row.subrunPotSum == s.subrun.potSum && row.tortgtSum == s.runinfo.tortgtSum
  {
    StageRow(s.cfg.stageName, s.cfg.filelistPath, kindName(s.kind), beamName(s.beam),
             s.nInputFiles, s.subrun.potSum, s.subrun.nEntries, |s.subrun.uniquePairs|,
             s.runinfo.tortgtSum, s.runinfo.tor101Sum, s.runinfo.tor860Sum, s.runinfo.tor875Sum,
             s.runinfo.ea9cntSum, s.runinfo.e1dcntSum, s.runinfo.extTrigSum,
             s.runinfo.gate1TrigSum, s.runinfo.gate2TrigSum)
  }

  /** The "Stages" rows for a list of stages, in order. */
  function StageRows(stages: seq<ArtIOStage>, kindName: SampleKind -> string, beamName: BeamMode -> string): seq<StageRow> {
    if |stages| == 0 then []
    else StageRows(stages[..|stages| - 1], kindName, beamName) + [MakeStageRow(stages[|stages| - 1], kindName, beamName)]
  }

  /** The pair rows of one stage: its unique pairs, in order, tagged with its name. */
  function TaggedPairs(name: string, pairs: seq<RunSubrun>): seq<PairRow> {
    if |pairs| == 0 then []
    else TaggedPairs(name, pairs[..|pairs| - 1]) + [PairRow(name, pairs[|pairs| - 1].run, pairs[|pairs| - 1].subrun)]
  }

  /** The "RunSubruns" rows for a list of stages: each stage's tagged pairs, stage after stage. */
  function PairRows(stages: seq<ArtIOStage>): seq<PairRow> {
    if |stages| == 0 then []
    else PairRows(stages[..|stages| - 1]) + TaggedPairs(stages[|stages| - 1].cfg.stageName, stages[|stages| - 1].subrun.uniquePairs)
  }

  /** The stage names listed by the rows, in order. */
  function StageNames(rows: seq<StageRow>): (names: seq<string>)
    ensures |names| == |rows|
    ensures forall i :: 0 <= i < |rows| ==> names[i] == rows[i].stageName
  {
    if |rows| == 0 then [] else StageNames(rows[..|rows| - 1]) + [rows[|rows| - 1].stageName]
  }

  /** The names of a list of stages, in order. */
  function ConfigNames(stages: seq<ArtIOStage>): (names: seq<string>)
    ensures |names| == |stages|
    ensures forall i :: 0 <= i < |stages| ==> names[i] == stages[i].cfg.stageName
  {
    if |stages| == 0 then [] else ConfigNames(stages[..|stages| - 1]) + [stages[|stages| - 1].cfg.stageName]
  }

  /** One stage row per stage, in order. */
  lemma {:induction false} StageRowsShape(stages: seq<ArtIOStage>, kindName: SampleKind -> string, beamName: BeamMode -> string)
    ensures |StageRows(stages, kindName, beamName)| == |stages|
    ensures forall i :: 0 <= i < |stages| ==> StageRows(stages, kindName, beamName)[i] == MakeStageRow(stages[i], kindName, beamName)
    decreases |stages|
  {
    if |stages| > 0 {
      StageRowsShape(stages[..|stages| - 1], kindName, beamName);
    }
  }

  /** Appending stage rows appends exactly those stages' names to the listing. */
  lemma StageNamesOfAppend(rows: seq<StageRow>, stages: seq<ArtIOStage>, kindName: SampleKind -> string, beamName: BeamMode -> string)
    ensures StageNames(rows + StageRows(stages, kindName, beamName)) == StageNames(rows) + ConfigNames(stages)
  {
    var added := StageRows(stages, kindName, beamName);
    StageRowsShape(stages, kindName, beamName);
    var lhs := StageNames(rows + added);
    var rhs := StageNames(rows) + ConfigNames(stages);
    assert |lhs| == |rhs|;
    forall i | 0 <= i < |lhs| ensures lhs[i] == rhs[i] {
      if i >= |rows| {
        assert (rows + added)[i] == added[i - |rows|];
      }
    }
  }

  /** Each tagged pair row carries the stage's name and one of its pairs; there is one row per pair. */
  lemma {:induction false} TaggedPairsShape(name: string, pairs: seq<RunSubrun>)
    ensures |TaggedPairs(name, pairs)| == |pairs|
    ensures forall i :: 0 <= i < |pairs| ==> TaggedPairs(name, pairs)[i] == PairRow(name, pairs[i].run, pairs[i].subrun)
    decreases |pairs|
  {
    if |pairs| > 0 {
      TaggedPairsShape(name, pairs[..|pairs| - 1]);
    }
  }

  /** The total of the nUniquePairs column. */
  function PairCount(rows: seq<StageRow>): int {
    if |rows| == 0 then 0 else PairCount(rows[..|rows| - 1]) + rows[|rows| - 1].nUniquePairs
  }

  /**
   * The "RunSubruns" rows written for a list of stages number exactly the n_unique_pairs
   * recorded for them, and each row names a stage that holds its pair.
   */
  lemma {:induction false} PairRowsAgreeWithStages(stages: seq<ArtIOStage>, kindName: SampleKind -> string, beamName: BeamMode -> string)
    ensures |PairRows(stages)| == PairCount(StageRows(stages, kindName, beamName))
    ensures forall row :: row in PairRows(stages) ==>
      exists k :: 0 <= k < |stages| && row.stageName == stages[k].cfg.stageName
        && RunSubrun(row.run, row.subrun) in stages[k].subrun.uniquePairs
    decreases |stages|
  {
    if |stages| > 0 {
      var front := stages[..|stages| - 1];
      var last := stages[|stages| - 1];
      PairRowsAgreeWithStages(front, kindName, beamName);
      TaggedPairsShape(last.cfg.stageName, last.subrun.uniquePairs);
      var rows := StageRows(stages, kindName, beamName);
      assert rows[..|rows| - 1] == StageRows(front, kindName, beamName);
      forall row | row in PairRows(stages)
        ensures exists k :: (0 <= k < |stages| && row.stageName == stages[k].cfg.stageName
          && RunSubrun(row.run, row.subrun) in stages[k].subrun.uniquePairs)
      {
        if row in PairRows(front) {
          var k :| 0 <= k < |front| && row.stageName == front[k].cfg.stageName
            && RunSubrun(row.run, row.subrun) in front[k].subrun.uniquePairs;
          assert stages[k] == front[k];
        } else {
          var tagged := TaggedPairs(last.cfg.stageName, last.subrun.uniquePairs);
          assert row in tagged;
          var i :| 0 <= i < |tagged| && tagged[i] == row;
          assert RunSubrun(row.run, row.subrun) == last.subrun.uniquePairs[i];
        }
      }
    }
  }

  /** The pair-filling loop for one stage (ArtIOManifestIO.cxx:178-184). */
  method FillPairs(tree: seq<PairRow>, name: string, pairs: seq<RunSubrun>) returns (t: seq<PairRow>)
    ensures t == tree + TaggedPairs(name, pairs)
  {
    t := tree;
    var j := 0;
    while j < |pairs|
      invariant j <= |pairs|
      invariant t == tree + TaggedPairs(name, pairs[..j])
    {
      assert pairs[..j + 1][..j] == pairs[..j];
      t := t + [PairRow(name, pairs[j].run, pairs[j].subrun)];
      j := j + 1;
    }
    assert pairs[..j] == pairs;
  }

  /** The stage loop of AppendStages (ArtIOManifestIO.cxx:154-185): one row per stage, then its pairs. */
  method AppendRows(stageTree: seq<StageRow>, pairTree: seq<PairRow>, input: seq<ArtIOStage>,
                    kindName: SampleKind -> string, beamName: BeamMode -> string) returns (st: seq<StageRow>, pt: seq<PairRow>)
    ensures st == stageTree + StageRows(input, kindName, beamName)
    ensures pt == pairTree + PairRows(input)
  {
    st, pt := stageTree, pairTree;
    var k := 0;
    while k < |input|
      invariant k <= |input|
      invariant st == stageTree + StageRows(input[..k], kindName, beamName)
      invariant pt == pairTree + PairRows(input[..k])
    {
      var s := input[k];
      assert input[..k + 1][..k] == input[..k];
      st := st + [MakeStageRow(s, kindName, beamName)];
      pt := FillPairs(pt, s.cfg.stageName, s.subrun.uniquePairs);
      k := k + 1;
    }
    assert input[..k] == input;
  }

  /** The part of an ArtIO file this manifest code touches. */
  class ArtIOFile {
    const path: string
    /** Whether TFile::Open(path, "READ") yields a usable file. */
    var readable: bool
    /** Whether TFile::Open(path, "UPDATE") yields a usable file (it creates a missing one). */
    var updatable: bool
    /** The "Stages" tree, if present. */
    var stages: Option<seq<StageRow>>
    /** The "RunSubruns" tree, if present. */
    var pairs: Option<seq<PairRow>>
    /** "db_path" and "pot_scale" in the "ArtIO" directory, if written. */
    var dbPath: Option<string>
    var potScale: Option<real>

    constructor (path: string, readable: bool, updatable: bool)
      ensures this.path == path && this.readable == readable && this.updatable == updatable
      ensures stages == None && pairs == None && dbPath == None && potScale == None
    {
      this.path := path;
      this.readable := readable;
      this.updatable := updatable;
      stages := None;
      pairs := None;
      dbPath := None;
      potScale := None;
    }

    /** The stage rows currently recorded, none when the tree is absent. */
    function StageRowsOrEmpty(): seq<StageRow>
      reads this
    {
      if stages.Some? then stages.value else []
    }

    /** The stage names a reader of the file sees: none when it cannot be opened or has no "Stages" tree. */
    function Listed(): seq<string>
      reads this
    {
      if readable && stages.Some? then StageNames(stages.value) else []
    }

    /** ListStages (ArtIOManifestIO.cxx:24-46): the recorded stage names in row order. */
    method ListStages() returns (names: seq<string>)
      ensures names == Listed()
      ensures readable && stages.Some? ==> |names| == |stages.value|
    {
      if !readable || stages.None? {
        return [];
      }
      var rows := stages.value;
      names := [];
      var i := 0;
      while i < |rows|
        invariant i <= |rows|
        invariant |names| == i
        invariant forall j :: 0 <= j < i ==> names[j] == rows[j].stageName
      {
        names := names + [rows[i].stageName];
        i := i + 1;
      }
    }

    /**
     * AppendStages (ArtIOManifestIO.cxx:58-198): does nothing for an empty list; fails without
     * change when the file cannot be opened for update; otherwise appends one "Stages" row per
     * stage and its tagged pairs to "RunSubruns" (creating either tree if absent, never
     * de-duplicating) and overwrites the database path and POT scale.
     */
    method AppendStages(db: string, scale: real, input: seq<ArtIOStage>,
                        kindName: SampleKind -> string, beamName: BeamMode -> string) returns (r: Outcome)
      modifies this
      ensures |input| == 0 ==> r == Pass && unchanged(this)
      ensures |input| > 0 && !old(updatable) ==> r == Fail("Failed to open ArtIO file for UPDATE: " + path) && unchanged(this)
      ensures |input| > 0 && old(updatable) ==>
        && r == Pass && readable && updatable
        && stages == Some(old(StageRowsOrEmpty()) + StageRows(input, kindName, beamName))
        && pairs == Some((if old(pairs).Some? then old(pairs).value else []) + PairRows(input))
        && dbPath == Some(db) && potScale == Some(scale)
    {
      if |input| == 0 {
        return Pass;
      }
      if !updatable {
        return Fail("Failed to open ArtIO file for UPDATE: " + path);
      }
      var stageTree, pairTree := AppendRows(StageRowsOrEmpty(), if pairs.Some? then pairs.value else [], input, kindName, beamName);
      stages := Some(stageTree);
      pairs := Some(pairTree);
      dbPath := Some(db);
      potScale := Some(scale);
      readable := true;
      return Pass;
    }
  }

  /** After a successful append, the listing is the previous listing followed by the new names. */
  method AppendThenList(file: ArtIOFile, db: string, scale: real, input: seq<ArtIOStage>,
                        kindName: SampleKind -> string, beamName: BeamMode -> string) returns (names: seq<string>)
    requires file.updatable && |input| > 0
    modifies file
    ensures names == StageNames(old(file.StageRowsOrEmpty())) + ConfigNames(input)
  {
    var r := file.AppendStages(db, scale, input, kindName, beamName);
    StageNamesOfAppend(old(file.StageRowsOrEmpty()), input, kindName, beamName);
    names := file.ListStages();
  }
}
