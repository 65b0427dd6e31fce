/**
 * bin/artIOpartition/artIOpartition.cxx: records one stage ("NAME:FILELIST") in the ArtIO file
 * NAME.root, unless a stage of that name is already recorded there.
 */
module ArtIOPartition {
  import opened Outcomes
  import opened Strings
  import opened Sorting
  import opened SampleTypes
  import opened AppUtils
  import opened ArtIOManifest

  /** The beam database the stage sums are taken from, and the POT scale recorded with them. */
  const DbPath := "/exp/uboone/data/uboonebeam/beamdb/run.db"
  const PotScale: real := 1000000000000.0

  /**
   * Splits "NAME:VALUE" at its first ':' and trims both sides; None when there is no ':'.
   * Both command-line drivers that take such a spec share this split.
   */
  function SplitSpec(spec: string): (r: Option<(string, string)>)
    ensures r.None? <==> ':' !in spec
    ensures r.Some? ==> r.value == (Trimmed(spec[..IndexOf(spec, ':')]), Trimmed(spec[IndexOf(spec, ':') + 1..]))
  {
    var pos := IndexOf(spec, ':');
    if pos == |spec| then None
    else Some((Trimmed(spec[..pos]), Trimmed(spec[pos + 1..])))
  }

  /** A string with no surrounding white space is its own trim. */
  predicate IsTrimmedForm(s: string) {
    s != [] && !IsSpace(s[0]) && !IsSpace(s[|s| - 1])
  }

  /** Joining a name without ':' and a value with ':' splits back into the two. */
  lemma SplitSpecRoundTrip(name: string, value: string)
    requires ':' !in name && IsTrimmedForm(name) && IsTrimmedForm(value)
    ensures SplitSpec(name + ":" + value) == Some((name, value))
  {
    var spec := name + ":" + value;
    IndexOfFirst(spec, ':', |name|);
    assert spec[..|name|] == name;
    assert spec[|name| + 1..] == value;
    TrimmedFixed(name);
    TrimmedFixed(value);
  }

  /** ParseStageSpec (artIOpartition.cxx:114-128). */
  function ParseStageSpec(spec: string): (r: Result<StageCfg>)
    ensures r.Ok? ==> r.value.stageName != "" && r.value.filelistPath != ""
    ensures ':' !in spec ==> r == Err("Bad stage spec (expected NAME:FILELIST): " + spec)
  {
    match SplitSpec(spec)
    case None => Err("Bad stage spec (expected NAME:FILELIST): " + spec)
    case Some((name, list)) =>
      if name == "" || list == "" then Err("Bad stage spec: " + spec)
      else Ok(StageCfg(name, list))
  }

  /** A well-formed spec parses to its own name and file list. */
  lemma ParseStageSpecRoundTrip(name: string, list: string)
    requires ':' !in name && IsTrimmedForm(name) && IsTrimmedForm(list)
    ensures ParseStageSpec(name + ":" + list) == Ok(StageCfg(name, list))
  {
    SplitSpecRoundTrip(name, list);
  }

  /** A spec whose name or file list is blank is refused. */
  lemma ParseStageSpecRejectsBlank(spec: string)
    requires ':' in spec
    requires Trimmed(spec[..IndexOf(spec, ':')]) == "" || Trimmed(spec[IndexOf(spec, ':') + 1..]) == ""
    ensures ParseStageSpec(spec) == Err("Bad stage spec: " + spec)
  {
  }

  /** HasStageName (artIOpartition.cxx:130-133): std::binary_search over sorted names. */
  function HasStageName(sorted: seq<string>, name: string): (r: bool)
    requires SortedBy(sorted, Le)
    ensures r <==> name in sorted
    decreases |sorted|
  {
    if |sorted| == 0 then false
    else
      var mid := |sorted| / 2;
      if sorted[mid] == name then true
      else if Lt(sorted[mid], name) then
        assert forall i :: 0 <= i <= mid ==> sorted[i] != name by {
          forall i | 0 <= i <= mid ensures sorted[i] != name {
            if i < mid {
              assert Le(sorted[i], sorted[mid]);
              if sorted[i] != sorted[mid] { LtTransitive(sorted[i], sorted[mid], name); }
              LtIrreflexive(name);
            }
          }
        }
        assert sorted == sorted[..mid + 1] + sorted[mid + 1..];
        HasStageName(sorted[mid + 1..], name)
      else
        assert Lt(name, sorted[mid]) by { LtTotal(name, sorted[mid]); }
        assert forall i :: mid <= i < |sorted| ==> sorted[i] != name by {
          forall i | mid <= i < |sorted| ensures sorted[i] != name {
            if i > mid {
              assert Le(sorted[mid], sorted[i]);
              if sorted[i] != sorted[mid] { LtTransitive(name, sorted[mid], sorted[i]); }
              LtIrreflexive(name);
            }
          }
        }
        assert sorted == sorted[..mid] + sorted[mid..];
        HasStageName(sorted[..mid], name)
  }

  /** Searching the sorted listing finds exactly the names that are recorded. */
  lemma SortedSearchMatchesListing(existing: seq<string>, name: string)
    ensures SortedBy(Sort(existing, Le), Le)
    ensures HasStageName(Sort(existing, Le), name) <==> name in existing
  {
    LeIsTotalOrder();
    SortSorted(existing, Le);
    assert name in existing <==> name in multiset(existing);
    assert name in Sort(existing, Le) <==> name in multiset(Sort(existing, Le));
  }

  /** The two event-filter flags read from a stage's first file, each possibly absent. */
  datatype FilePeek = FilePeek(isData: Option<bool>, isNuMI: Option<bool>)

  /** The beam a peek implies: NuMI or BNB when the flag is present, unknown otherwise. */
  function PeekBeam(p: FilePeek): (b: BeamMode)
    ensures b == UnknownBeam <==> p.isNuMI.None?
    ensures b == NuMI <==> p.isNuMI == Some(true)
  {
    match p.isNuMI
    case None => UnknownBeam
    case Some(numi) => if numi then NuMI else BNB
  }

  /** The kind a peek implies: data when flagged, otherwise unknown. */
  function PeekKind(p: FilePeek): (k: SampleKind)
    ensures k == Data <==> p.isData == Some(true)
    ensures k != Data ==> k == UnknownKind
  {
    match p.isData
    case Some(true) => Data
    case _ => UnknownKind
  }

  /** The stage record main builds (artIOpartition.cxx:168-179). */
  function MakeStage(cfg: StageCfg, files: seq<string>, p: FilePeek, subrun: SubRunInfo, runinfo: RunInfoSums): (s: ArtIOStage)
    ensures s.cfg == cfg && s.nInputFiles == |files|
    ensures s.kind == PeekKind(p) && s.beam == PeekBeam(p)
    ensures s.subrun == subrun && s.runinfo == runinfo
  {
    ArtIOStage(cfg, |files|, PeekKind(p), PeekBeam(p), subrun, runinfo)
  }

  /** The argument check and spec parse of main (artIOpartition.cxx:146-150). */
  function ParseArgs(argv: seq<string>): (r: Result<StageCfg>)
    ensures |argv| != 2 ==> r == Err("Usage: artIOpartition STAGE:FILELIST")
    ensures |argv| == 2 ==> r == ParseStageSpec(argv[1])
  {
    if |argv| != 2 then Err("Usage: artIOpartition STAGE:FILELIST") else ParseStageSpec(argv[1])
  }

  /** The ArtIO file a stage is recorded in. */
  function ArtioPath(cfg: StageCfg): string {
    cfg.stageName + ".root"
  }

  /**
   * main (artIOpartition.cxx:137-199). `manifest` is the ArtIO file named after the stage;
   * `dbOpens` whether the beam database can be opened; `fileList`, `peek`, `scan` and
   * `sumRuninfo` stand for the file-list file, PeekEventFlags, ScanSubRunTree and the database
   * query (the last two may throw). Exit 0 means the stage was already recorded (nothing
   * changes) or has now been appended; exit 1 means an error, and then nothing changes.
   */
  method Partition(argv: seq<string>, manifest: ArtIOFile, dbOpens: bool, fileList: string -> TextFile,
                   peek: string -> FilePeek, scan: seq<string> -> Result<SubRunInfo>,
                   sumRuninfo: seq<RunSubrun> -> Result<RunInfoSums>,
                   kindName: SampleKind -> string, beamName: BeamMode -> string) returns (code: int)
    requires ParseArgs(argv).Ok? ==> manifest.path == ArtioPath(ParseArgs(argv).value)
    modifies manifest
    ensures code == 0 || code == 1
    ensures code == 1 ==> unchanged(manifest)
    ensures ParseArgs(argv).Err? || !dbOpens ==> code == 1
    ensures ParseArgs(argv).Ok? && dbOpens && ParseArgs(argv).value.stageName in old(manifest.Listed()) ==>
      code == 0 && unchanged(manifest)
    ensures ParseArgs(argv).Ok? && dbOpens && ParseArgs(argv).value.stageName !in old(manifest.Listed()) ==>
      var cfg := ParseArgs(argv).value;
      var fl := fileList(cfg.filelistPath);
      if !fl.Lines? || KeptPaths(fl.lines) == [] then code == 1
      else
        var files := KeptPaths(fl.lines);
        if scan(files).Err? then code == 1
        else if sumRuninfo(scan(files).value.uniquePairs).Err? then code == 1
        else if !old(manifest.updatable) then code == 1
        else
          var subrun := scan(files).value;
          var rec := MakeStage(cfg, files, peek(files[0]), subrun, sumRuninfo(subrun.uniquePairs).value);
          && code == 0
          && manifest.stages == Some(old(manifest.StageRowsOrEmpty()) + [MakeStageRow(rec, kindName, beamName)])
          && manifest.pairs == Some((if old(manifest.pairs).Some? then old(manifest.pairs).value else [])
               + TaggedPairs(cfg.stageName, subrun.uniquePairs))
          && manifest.dbPath == Some(DbPath) && manifest.potScale == Some(PotScale)
  {
    var parsed := ParseArgs(argv);
    if parsed.Err? {
      return 1;
    }
    var cfg := parsed.value;
    var existing := manifest.ListStages();
    var sorted := Sort(existing, Le);
    SortedSearchMatchesListing(existing, cfg.stageName);
    if !dbOpens {
      return 1;
    }
    if HasStageName(sorted, cfg.stageName) {
      return 0;
    }
    var read := ReadPaths(fileList(cfg.filelistPath), cfg.filelistPath);
    if read.Err? {
      return 1;
    }
    var files := read.value;
    var p := peek(files[0]);
    var subrun := scan(files);
    if subrun.Err? {
      return 1;
    }
    var runinfo := sumRuninfo(subrun.value.uniquePairs);
    if runinfo.Err? {
      return 1;
    }
    var rec := MakeStage(cfg, files, p, subrun.value, runinfo.value);
    var r := manifest.AppendStages(DbPath, PotScale, [rec], kindName, beamName);
    if r.Fail? {
      return 1;
    }
    assert [rec][..0] == [];
    assert StageRows([rec], kindName, beamName) == [MakeStageRow(rec, kindName, beamName)];
    assert PairRows([rec]) == TaggedPairs(cfg.stageName, subrun.value.uniquePairs);
    return 0;
  }
}
