/** framework/core/src/EventCLI.cc: the arguments of the event-list stage. */
module EventCLI {
  import opened Outcomes
  import opened AppUtils

  /** EventArgs: the sample list, the output file, and the optional selection and column list. */
  datatype EventArgs = EventArgs(listPath: string, outputRoot: string, selection: string, columnsTsvPath: string)

  /** An argument stays as given when it is absolute or names a directory; a bare name has no '/'. */
  predicate IsBareName(p: string) {
    '/' !in p
  }

  /**
   * parse_event_args (EventCLI.cc:53-86). `eventDir` is the resolved event output directory
   * (HERON_EVENT_DIR or its default). Every field is trimmed; a bare output file name is placed
   * under `eventDir`.
   */
  function ParseEventArgs(args: seq<string>, usage: string, eventDir: string): (r: Result<EventArgs>)
    ensures |args| < 2 || |args| > 4 ==> r == Err(usage)
    ensures 2 <= |args| <= 4 ==> (r.Ok? <==> Trimmed(args[0]) != "" && Trimmed(args[1]) != "")
    ensures 2 <= |args| <= 4 && r.Err? ==> r == Err("Invalid arguments (empty path)")
    ensures r.Ok? ==> r.value.listPath == Trimmed(args[0])
    ensures r.Ok? ==> r.value.selection == (if |args| > 2 then Trimmed(args[2]) else "")
    ensures r.Ok? ==> r.value.columnsTsvPath == (if |args| > 3 then Trimmed(args[3]) else "")
    ensures r.Ok? && IsBareName(Trimmed(args[1])) ==> r.value.outputRoot == PathJoin(eventDir, Trimmed(args[1]))
    ensures r.Ok? && !IsBareName(Trimmed(args[1])) ==> r.value.outputRoot == Trimmed(args[1])
  {
    if |args| < 2 || |args| > 4 then Err(usage)
    else
      var listPath := Trimmed(args[0]);
      var outputRoot := Trimmed(args[1]);
      var selection := if |args| > 2 then Trimmed(args[2]) else "";
      var columns := if |args| > 3 then Trimmed(args[3]) else "";
      if listPath == "" || outputRoot == "" then Err("Invalid arguments (empty path)")
      else
        var output := if IsBareName(outputRoot) then PathJoin(eventDir, outputRoot) else outputRoot;
        Ok(EventArgs(listPath, output, selection, columns))
  }

  /** Parsed paths carry no surrounding white space. */
  lemma ParsedFieldsAreTrimmed(args: seq<string>, usage: string, eventDir: string)
    requires ParseEventArgs(args, usage, eventDir).Ok?
    ensures Trimmed(ParseEventArgs(args, usage, eventDir).value.listPath) == ParseEventArgs(args, usage, eventDir).value.listPath
    ensures Trimmed(ParseEventArgs(args, usage, eventDir).value.selection) == ParseEventArgs(args, usage, eventDir).value.selection
  {
    TrimmedIdempotent(args[0]);
    if |args| > 2 {
      TrimmedIdempotent(args[2]);
    }
  }
}
