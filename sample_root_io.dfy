/**
 * sample/src/SampleRootIO.cc: persists a Sample inside the "nuxsec_sample" directory of a ROOT
 * file (named strings for the text metadata, double parameters for the sums, a "fragments"
 * tree with one row per fragment) and reads it back.
 */
module SampleRootIO {
  import opened Outcomes
  import opened SampleTypes
  import opened Sample

  /** The directory holding the sample record (SampleRootIO.hh:31). */
  const SampleDirName := "nuxsec_sample"

  /** The keys of the five double parameters, in the order read() looks them up. */
  const ParamKeys := ["subrun_pot_sum", "db_tortgt_pot_sum", "db_tor101_pot_sum", "normalization", "normalized_pot_sum"]

  /**
   * An object stored under a key of a ROOT directory: a TNamed (its title), a
   * TParameter<double>, the fragments tree (its rows, one per Fill) or any other class.
   */
  datatype Obj = Named(title: string) | Param(value: real) | FragmentTree(rows: seq<SampleFragment>) | OtherObject

  type Directory = map<string, Obj>

  predicate NamedAt(d: Directory, key: string) {
    key in d && d[key].Named?
  }

  predicate ParamAt(d: Directory, key: string) {
    key in d && d[key].Param?
  }

  predicate TreeAt(d: Directory, key: string) {
    key in d && d[key].FragmentTree?
  }

  /** `keys[i]` is the first of `keys` that does not hold a double parameter. */
  predicate FirstMissingAt(d: Directory, keys: seq<string>, i: int) {
    0 <= i < |keys| && !ParamAt(d, keys[i]) && forall j :: 0 <= j < i ==> ParamAt(d, keys[j])
  }

  /** The first of `keys` that does not hold a double parameter, if any. */
  function FirstMissingParam(d: Directory, keys: seq<string>): (m: Option<string>)
    ensures m.None? <==> forall i :: 0 <= i < |keys| ==> ParamAt(d, keys[i])
    ensures m.Some? ==> exists i :: FirstMissingAt(d, keys, i) && keys[i] == m.value
  {
    if |keys| == 0 then None
    else if !ParamAt(d, keys[0]) then Some(keys[0])
    else
      var m := FirstMissingParam(d, keys[1..]);
      assert m.Some? ==> exists i :: FirstMissingAt(d, keys, i) && keys[i] == m.value by {
        if m.Some? {
          var i :| FirstMissingAt(d, keys[1..], i) && keys[1..][i] == m.value;
          assert FirstMissingAt(d, keys, i + 1) by {
            forall j | 0 <= j < i + 1 ensures ParamAt(d, keys[j]) {
              if j > 0 { assert keys[j] == keys[1..][j - 1]; }
            }
          }
        }
      }
      m
  }

  /** A directory holding every object read() requires, each of the class it casts to. */
  predicate Complete(d: Directory) {
    && NamedAt(d, "sample_name") && NamedAt(d, "sample_kind") && NamedAt(d, "beam_mode")
    && (forall i :: 0 <= i < |ParamKeys| ==> ParamAt(d, ParamKeys[i]))
    && TreeAt(d, "fragments")
  }

  /**
   * The Sample that read() reconstructs from the sample directory, or the error it throws for
   * the first missing or mistyped object (SampleRootIO.cc:98-185).
   */
  function Decode(d: Directory, parseKind: string -> SampleKind, parseBeam: string -> BeamMode): Result<Sample> {
    if !NamedAt(d, "sample_name") then Err("Missing sample_name metadata in sample directory")
    else if !NamedAt(d, "sample_kind") then Err("Missing sample_kind metadata in sample directory")
    else if !NamedAt(d, "beam_mode") then Err("Missing beam_mode metadata in sample directory")
    else match FirstMissingParam(d, ParamKeys)
      case Some(key) => Err("Missing TParameter<double> for key: " + key)
      case None =>
        if !TreeAt(d, "fragments") then Err("Missing fragments tree in sample directory")
        else Ok(Sample(d["sample_name"].title, parseKind(d["sample_kind"].title), parseBeam(d["beam_mode"].title),
                       d["fragments"].rows,
                       d[ParamKeys[0]].value, d[ParamKeys[1]].value, d[ParamKeys[2]].value,
                       d[ParamKeys[3]].value, d[ParamKeys[4]].value))
  }

  /** The directory after write() has stored `s` into `d`, each key overwritten (kOverwrite). */
  function Encode(d: Directory, s: Sample, kindName: SampleKind -> string, beamName: BeamMode -> string): Directory {
    d["sample_name" := Named(s.sampleName)]
     ["sample_kind" := Named(kindName(s.kind))]
     ["beam_mode" := Named(beamName(s.beam))]
     ["subrun_pot_sum" := Param(s.subrunPotSum)]
     ["db_tortgt_pot_sum" := Param(s.dbTortgtPotSum)]
     ["db_tor101_pot_sum" := Param(s.dbTor101PotSum)]
     ["normalization" := Param(s.normalization)]
     ["normalized_pot_sum" := Param(s.normalizedPotSum)]
     ["fragments" := FragmentTree(s.fragments)]
  }

  /** The keys write() stores. */
  predicate IsSampleKey(k: string) {
    k in {"sample_name", "sample_kind", "beam_mode", "fragments"} || k in ParamKeys
  }

  /** read() succeeds exactly on a directory holding every required object. */
  lemma DecodeOkIffComplete(d: Directory, parseKind: string -> SampleKind, parseBeam: string -> BeamMode)
    ensures Decode(d, parseKind, parseBeam).Ok? <==> Complete(d)
  {
  }

  /** The error names the first double parameter that is missing, in read() order. */
  lemma MissingParamNamed(d: Directory, i: nat, parseKind: string -> SampleKind, parseBeam: string -> BeamMode)
    requires NamedAt(d, "sample_name") && NamedAt(d, "sample_kind") && NamedAt(d, "beam_mode")
    requires i < |ParamKeys| && !ParamAt(d, ParamKeys[i])
    requires forall j :: 0 <= j < i ==> ParamAt(d, ParamKeys[j])
    ensures Decode(d, parseKind, parseBeam) == Err("Missing TParameter<double> for key: " + ParamKeys[i])
  {
    var m := FirstMissingParam(d, ParamKeys);
    var i' :| FirstMissingAt(d, ParamKeys, i') && ParamKeys[i'] == m.value;
    assert i' == i;
  }

  /**
   * Reading back what was written yields the same sample, whatever the directory held before,
   * provided the kind and beam names parse back to the values they name.
   */
  lemma RoundTrip(d: Directory, s: Sample, kindName: SampleKind -> string, beamName: BeamMode -> string,
                  parseKind: string -> SampleKind, parseBeam: string -> BeamMode)
    requires forall k :: parseKind(kindName(k)) == k
    requires forall b :: parseBeam(beamName(b)) == b
    ensures Complete(Encode(d, s, kindName, beamName))
    ensures Decode(Encode(d, s, kindName, beamName), parseKind, parseBeam) == Ok(s)
  {
    var e := Encode(d, s, kindName, beamName);
    assert FirstMissingParam(e, ParamKeys) == None;
  }

  /** Writing leaves every other object of the directory as it was. */
  lemma EncodeKeepsOtherKeys(d: Directory, s: Sample, kindName: SampleKind -> string, beamName: BeamMode -> string, k: string)
    requires k in d && !IsSampleKey(k)
    ensures k in Encode(d, s, kindName, beamName) && Encode(d, s, kindName, beamName)[k] == d[k]
  {
  }

  /** A second write replaces the first: only the last sample written is read back. */
  lemma LastWriteWins(d: Directory, s1: Sample, s2: Sample, kindName: SampleKind -> string, beamName: BeamMode -> string,
                      parseKind: string -> SampleKind, parseBeam: string -> BeamMode)
    requires forall k :: parseKind(kindName(k)) == k
    requires forall b :: parseBeam(beamName(b)) == b
    ensures Decode(Encode(Encode(d, s1, kindName, beamName), s2, kindName, beamName), parseKind, parseBeam) == Ok(s2)
  {
    RoundTrip(Encode(d, s1, kindName, beamName), s2, kindName, beamName, parseKind, parseBeam);
  }

  /** A merged output file as far as SampleRootIO sees it. */
  class SampleFile {
    /** The file name, used in error messages. */
    const path: string
    /** Whether TFile::Open(path, "READ") yields a usable file. */
    var readable: bool
    /** Whether TFile::Open(path, "UPDATE") yields a usable file (it creates a missing one). */
    var updatable: bool
    /** The "nuxsec_sample" directory, if the file has one. */
    var sampleDir: Option<Directory>

    constructor (path: string, readable: bool, updatable: bool, sampleDir: Option<Directory>)
      ensures this.path == path && this.readable == readable && this.updatable == updatable
      ensures this.sampleDir == sampleDir
    {
      this.path := path;
      this.readable := readable;
      this.updatable := updatable;
      this.sampleDir := sampleDir;
    }

    /**
     * write (SampleRootIO.cc:17-81): fails without touching the file when it cannot be opened
     * for update; otherwise stores the sample into the (possibly new) sample directory.
     */
    method Write(sample: Sample, kindName: SampleKind -> string, beamName: BeamMode -> string) returns (r: Outcome)
      modifies this
      ensures !old(updatable) ==> r == Fail("Failed to open merged output file for UPDATE: " + path) && unchanged(this)
      ensures old(updatable) ==> r == Pass && readable && updatable
      ensures old(updatable) ==>
        sampleDir == Some(Encode(if old(sampleDir).Some? then old(sampleDir).value else map[], sample, kindName, beamName))
    {
      if !updatable {
        return Fail("Failed to open merged output file for UPDATE: " + path);
      }
      var d: Directory := if sampleDir.Some? then sampleDir.value else map[];
      d := d["sample_name" := Named(sample.sampleName)];
      d := d["sample_kind" := Named(kindName(sample.kind))];
      d := d["beam_mode" := Named(beamName(sample.beam))];
      d := d["subrun_pot_sum" := Param(sample.subrunPotSum)];
      d := d["db_tortgt_pot_sum" := Param(sample.dbTortgtPotSum)];
      d := d["db_tor101_pot_sum" := Param(sample.dbTor101PotSum)];
      d := d["normalization" := Param(sample.normalization)];
      d := d["normalized_pot_sum" := Param(sample.normalizedPotSum)];
      var rows: seq<SampleFragment> := [];
      var i := 0;
      while i < |sample.fragments|
        invariant i <= |sample.fragments|
        invariant rows == sample.fragments[..i]
      {
        rows := rows + [sample.fragments[i]];
        i := i + 1;
      }
      assert rows == sample.fragments;
      d := d["fragments" := FragmentTree(rows)];
      sampleDir := Some(d);
      readable := true;
      return Pass;
    }

    /**
     * read (SampleRootIO.cc:83-186): fails when the file cannot be opened or has no sample
     * directory; otherwise decodes the directory.
     */
    method Read(parseKind: string -> SampleKind, parseBeam: string -> BeamMode) returns (r: Result<Sample>)
      ensures !readable ==> r == Err("Failed to open merged output file for READ: " + path)
      ensures readable && sampleDir.None? ==> r == Err("Missing sample directory in file: " + path)
      ensures readable && sampleDir.Some? ==> r == Decode(sampleDir.value, parseKind, parseBeam)
    {
      if !readable {
        return Err("Failed to open merged output file for READ: " + path);
      }
      if sampleDir.None? {
        return Err("Missing sample directory in file: " + path);
      }
      var d := sampleDir.value;
      var head := Decode(d, parseKind, parseBeam);
      if head.Err? {
        return head;
      }
      var rows := d["fragments"].rows;
      var fragments: seq<SampleFragment> := [];
      var i := 0;
      while i < |rows|
        invariant i <= |rows|
        invariant fragments == rows[..i]
      {
        var row := rows[i];
        fragments := fragments + [SampleFragment(row.fragmentName, row.artioPath, row.subrunPotSum, row.dbTortgtPot,
                                                 row.dbTor101Pot, row.normalization, row.normalizedPotSum)];
        i := i + 1;
      }
      assert fragments == rows;
      return Ok(head.value.(fragments := fragments));
    }
  }

  /** Writing a sample to an updatable file and reading it back returns that sample. */
  method WriteThenRead(file: SampleFile, sample: Sample, kindName: SampleKind -> string, beamName: BeamMode -> string,
                       parseKind: string -> SampleKind, parseBeam: string -> BeamMode) returns (r: Result<Sample>)
    requires file.updatable
    requires forall k :: parseKind(kindName(k)) == k
    requires forall b :: parseBeam(beamName(b)) == b
    modifies file
    ensures r == Ok(sample)
  {
    var w := file.Write(sample, kindName, beamName);
    RoundTrip(if old(file.sampleDir).Some? then old(file.sampleDir).value else map[], sample, kindName, beamName, parseKind, parseBeam);
    r := file.Read(parseKind, parseBeam);
  }
}
