/**
 * bin/sampleIOaggregator/sampleIOaggregator.cxx: aggregates the art files of a file list into
 * one sample and writes it to ./SampleIO_NAME.root.
 */
module SampleIoAggregator {
  import opened Outcomes
  import opened AppUtils
  import opened ArtIOPartition

  /** The parsed command line. */
  datatype Args = Args(sampleName: string, filelistPath: string, outputPath: string)

  /** parse_args (sampleIOaggregator.cxx:67-93); `argv` includes the program name. */
  function ParseArgs(argv: seq<string>): (r: Result<Args>)
    ensures |argv| != 2 ==> r == Err("Usage: sampleIOaggregator NAME:FILELIST")
    ensures |argv| == 2 && ':' !in argv[1] ==> r == Err("Bad sample spec (expected NAME:FILELIST): " + argv[1])
    ensures r.Ok? ==> r.value.sampleName != "" && r.value.filelistPath != ""
    ensures r.Ok? ==> r.value.outputPath == "./SampleIO_" + r.value.sampleName + ".root"
  {
    if |argv| != 2 then Err("Usage: sampleIOaggregator NAME:FILELIST")
    else
      var spec := argv[1];
      match SplitSpec(spec)
      case None => Err("Bad sample spec (expected NAME:FILELIST): " + spec)
      case Some((name, list)) =>
        if name == "" || list == "" then Err("Bad sample spec: " + spec)
        else Ok(Args(name, list, "./SampleIO_" + name + ".root"))
  }

  /** A well-formed spec keeps its name and file list. */
  lemma ParseArgsRoundTrip(program: string, name: string, list: string)
    requires ':' !in name && IsTrimmedForm(name) && IsTrimmedForm(list)
    ensures ParseArgs([program, name + ":" + list]) == Ok(Args(name, list, "./SampleIO_" + name + ".root"))
  {
    SplitSpecRoundTrip(name, list);
  }

  /**
   * main (sampleIOaggregator.cxx:97-125). `aggregate` and `write` stand for SampleIO::aggregate
   * and SampleIO::write, either of which may throw. Exit 0 exactly when every step succeeds.
   */
  method Run<S>(argv: seq<string>, fileList: string -> TextFile,
                aggregate: (string, seq<string>) -> Result<S>, write: (S, string) -> Outcome) returns (code: int)
    ensures code == 0 || code == 1
    ensures code == 0 <==>
      && ParseArgs(argv).Ok?
      && fileList(ParseArgs(argv).value.filelistPath).Lines?
      && KeptPaths(fileList(ParseArgs(argv).value.filelistPath).lines) != []
      && aggregate(ParseArgs(argv).value.sampleName, KeptPaths(fileList(ParseArgs(argv).value.filelistPath).lines)).Ok?
      && write(aggregate(ParseArgs(argv).value.sampleName, KeptPaths(fileList(ParseArgs(argv).value.filelistPath).lines)).value,
               ParseArgs(argv).value.outputPath) == Pass
  {
    var args := ParseArgs(argv);
    if args.Err? {
      return 1;
    }
    var files := ReadPaths(fileList(args.value.filelistPath), args.value.filelistPath);
    if files.Err? {
      return 1;
    }
    var sample := aggregate(args.value.sampleName, files.value);
    if sample.Err? {
      return 1;
    }
    var w := write(sample.value, args.value.outputPath);
    if w.Fail? {
      return 1;
    }
    return 0;
  }
}
