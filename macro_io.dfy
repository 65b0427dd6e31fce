/** macros/macro/include/MacroIO.hh: the input-path checks shared by the ROOT macros. */
module MacroIO {
  import opened Strings

  /** looks_like_root_file (MacroIO.hh:19-28): a case-insensitive ".root" suffix. */
  function LooksLikeRootFile(path: string): (r: bool)
    ensures |path| < 5 ==> !r
    ensures |path| >= 5 ==> (r <==> Lower(path[|path| - 5..]) == ".root")
  {
    if |path| < 5 then false
    else Lower(path[|path| - 5..]) == ".root"
  }

  /** Any capitalisation of the ".root" suffix passes, the lower-case spelling included. */
  lemma RootSuffixAnyCase(stem: string, suffix: string)
    requires |suffix| == 5 && Lower(suffix) == ".root"
    ensures LooksLikeRootFile(stem + suffix)
    ensures LooksLikeRootFile(stem + ".ROOT") && LooksLikeRootFile(stem + ".root")
  {
    assert (stem + suffix)[|stem + suffix| - 5..] == suffix;
    assert (stem + ".ROOT")[|stem + ".ROOT"| - 5..] == ".ROOT";
    assert (stem + ".root")[|stem + ".root"| - 5..] == ".root";
  }

  /**
   * validate_root_input_path (MacroIO.hh:44-57), with the diagnostic it writes to the stream
   * ("" when none).
   */
  function ValidateRootInputPath(path: string): (r: (bool, string))
    ensures path == "" ==> r == (false, "input path is empty\n")
    ensures path != "" && !LooksLikeRootFile(path) ==>
      r == (false, "input path does not look like a ROOT file: " + path + "\n")
    ensures r.0 ==> r.1 == ""
  {
    if path == "" then (false, "input path is empty\n")
    else if !LooksLikeRootFile(path) then (false, "input path does not look like a ROOT file: " + path + "\n")
    else (true, "")
  }

  /** The validation accepts exactly the paths that look like ROOT files. */
  lemma ValidateMatchesSuffix(path: string)
    ensures ValidateRootInputPath(path).0 == LooksLikeRootFile(path)
  {
  }
}
