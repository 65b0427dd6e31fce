/**
 * bin/sampleRDFmaker/sampleRDFmaker.cxx: looks one sample up by name in a sample list and
 * opens it as a data frame. Its list reader recognises no header row.
 */
module SampleRdfMaker {
  import opened Outcomes
  import opened AppUtils
  import opened SampleCLI

  /**
   * read_sample_list (sampleRDFmaker.cxx:61-92): like read_samples, but with no header
   * skipping, no tolerance of a missing file and no emptiness check.
   */
  method ReadSampleList(file: TextFile, listPath: string) returns (r: Result<seq<SampleListEntry>>)
    ensures !file.Lines? ==> r == Err("Failed to open sample list: " + listPath)
    ensures file.Lines? ==> r == ParseLines(file.lines, false)
  {
    if !file.Lines? {
      return Err("Failed to open sample list: " + listPath);
    }
    r := ParseList(file.lines, false);
  }

  /** An uncommented "sample_name" row is an ordinary entry here. */
  lemma HeaderRowIsEntry(origin: string, beam: string, path: string, rest: seq<string>)
    requires PlainField(origin) && PlainField(beam) && PlainField(path)
    requires ParseLines(rest, false).Ok?
    ensures ParseLines([Render(SampleListEntry("sample_name", origin, beam, path))] + rest, false)
      == Ok([SampleListEntry("sample_name", origin, beam, path)] + ParseLines(rest, false).value)
  {
    var e := SampleListEntry("sample_name", origin, beam, path);
    assert PlainField("sample_name") by {
      assert "sample_name"[0] == 's';
    }
    RenderParses(e);
    assert ([Render(e)] + rest)[1..] == rest;
  }

  /** The entries named `name`, in list order. */
  function Named(entries: seq<SampleListEntry>, name: string): (m: seq<SampleListEntry>)
    ensures forall e :: e in m <==> e in entries && e.sampleName == name
    ensures |m| <= |entries|
  {
    if |entries| == 0 then []
    else
      var last := entries[|entries| - 1];
      Named(entries[..|entries| - 1], name) + if last.sampleName == name then [last] else []
  }

  /**
   * find_sample_entry (sampleRDFmaker.cxx:94-114): the one entry with that name; an error when
   * there is none or more than one.
   */
  method FindSampleEntry(entries: seq<SampleListEntry>, name: string) returns (r: Result<SampleListEntry>)
    ensures |Named(entries, name)| == 0 ==> r == Err("Sample not found in list: " + name)
    ensures |Named(entries, name)| > 1 ==> r == Err("Sample name is not unique in list: " + name)
    ensures |Named(entries, name)| == 1 ==> r == Ok(Named(entries, name)[0])
    ensures r.Ok? ==> r.value in entries && r.value.sampleName == name
  {
    var matches: seq<SampleListEntry> := [];
    var i := 0;
    while i < |entries|
      invariant i <= |entries|
      invariant matches == Named(entries[..i], name)
    {
      assert entries[..i + 1][..i] == entries[..i];
      if entries[i].sampleName == name {
        matches := matches + [entries[i]];
      }
      i := i + 1;
    }
    assert entries[..i] == entries;
    if |matches| == 0 {
      return Err("Sample not found in list: " + name);
    }
    if |matches| > 1 {
      return Err("Sample name is not unique in list: " + name);
    }
    assert matches[0] in matches;
    return Ok(matches[0]);
  }

  /** The parsed command line. */
  datatype Args = Args(sampleListPath: string, sampleName: string, treeName: string, outputPath: string, writeSnapshot: bool)

  /** parse_args (sampleRDFmaker.cxx:125-150); `argv` includes the program name. */
  function ParseArgs(argv: seq<string>): (r: Result<Args>)
    ensures |argv| != 4 && |argv| != 5 ==> r == Err("Usage: sampleRDFmaker SAMPLE_LIST.tsv SAMPLE_NAME TREE_NAME [OUTPUT.root]")
    ensures r.Ok? <==> (|argv| == 4 || |argv| == 5) && argv[1] != "" && argv[2] != "" && argv[3] != ""
    ensures r.Ok? ==> (r.value.writeSnapshot <==> |argv| == 5)
    ensures r.Ok? ==> r.value.sampleListPath == argv[1] && r.value.sampleName == argv[2] && r.value.treeName == argv[3]
    ensures r.Ok? ==> r.value.outputPath == if |argv| == 5 then argv[4] else ""
  {
    if |argv| != 4 && |argv| != 5 then
      Err("Usage: sampleRDFmaker SAMPLE_LIST.tsv SAMPLE_NAME TREE_NAME [OUTPUT.root]")
    else
      var args := Args(argv[1], argv[2], argv[3], if |argv| == 5 then argv[4] else "", |argv| == 5);
      if args.sampleListPath == "" || args.sampleName == "" || args.treeName == "" then
        Err("Sample list, sample name, and tree name are required")
      else Ok(args)
  }
}
