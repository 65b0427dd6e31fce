/**
 * framework/io/src/Dataset.cpp: loads every sample named by a sample list. Unlike the other
 * list readers it trims nothing, skips a "sample_name" row wherever it appears and drops
 * malformed rows silently.
 */
module Dataset {
  import opened Outcomes
  import opened Strings
  import opened AppUtils
  import opened SampleCLI

  /**
   * std::getline on the unread rest `s` of a string stream: fails when nothing is left;
   * otherwise yields the text before the first `delim` (which is consumed) or all of `s`.
   */
  function GetLine(s: string, delim: char): (r: Option<(string, string)>)
    ensures r.None? <==> s == ""
    ensures r.Some? ==> delim !in r.value.0 && |r.value.1| < |s|
  {
    if s == "" then None
    else
      var k := IndexOf(s, delim);
      if k == |s| then Some((s, "")) else Some((s[..k], s[k + 1..]))
  }

  /** The four getline calls of a row (Dataset.cpp:35-47): three tab-ended fields, then the rest of the line. */
  function ParseRow(line: string): (r: Option<SampleListEntry>)
    ensures line == "" ==> r.None?
    ensures r.Some? ==> '\t' !in r.value.sampleName && '\t' !in r.value.sampleOrigin && '\t' !in r.value.beamMode
  {
    match GetLine(line, '\t')
    case None => None
    case Some((name, r1)) =>
      match GetLine(r1, '\t')
      case None => None
      case Some((origin, r2)) =>
        match GetLine(r2, '\t')
        case None => None
        case Some((beam, r3)) =>
          match GetLine(r3, '\n')
          case None => None
          case Some((path, _)) => Some(SampleListEntry(name, origin, beam, path))
  }

  /** Three tab-free fields and a non-empty remainder parse to those fields; the remainder may hold tabs. */
  lemma ParseRowFields(name: string, origin: string, beam: string, rest: string)
    requires '\t' !in name && '\t' !in origin && '\t' !in beam
    requires rest != "" && '\n' !in rest
    ensures ParseRow(name + "\t" + origin + "\t" + beam + "\t" + rest) == Some(SampleListEntry(name, origin, beam, rest))
  {
    var r3 := rest;
    var r2 := beam + "\t" + r3;
    var r1 := origin + "\t" + r2;
    var line := name + "\t" + r1;
    assert line == name + "\t" + origin + "\t" + beam + "\t" + rest;
    FieldThenRest(name, r1);
    FieldThenRest(origin, r2);
    FieldThenRest(beam, r3);
    CountZero(rest, '\n');
    assert IndexOf(r3, '\n') == |r3|;
  }

  /** getline up to a tab on "field TAB rest" yields the field and leaves the rest. */
  lemma FieldThenRest(field: string, rest: string)
    requires '\t' !in field
    ensures GetLine(field + "\t" + rest, '\t') == Some((field, rest))
  {
    var s := field + "\t" + rest;
    IndexOfFirst(s, '\t', |field|);
    assert s[..|field|] == field;
    assert s[|field| + 1..] == rest;
  }

  /** A row with fewer than three tabs never yields an entry. */
  lemma ShortRowDropped(line: string)
    requires Count(line, '\t') < 3
    ensures ParseRow(line).None?
  {
    if line != "" {
      var k1 := IndexOf(line, '\t');
      if k1 < |line| {
        SplitCount(line, k1);
        var r1 := line[k1 + 1..];
        if r1 != "" {
          var k2 := IndexOf(r1, '\t');
          if k2 < |r1| {
            SplitCount(r1, k2);
            var r2 := r1[k2 + 1..];
            if r2 != "" {
              var k3 := IndexOf(r2, '\t');
              if k3 < |r2| {
                SplitCount(r2, k3);
                assert false;
              }
            }
          }
        }
      }
    }
  }

  /** Counting separators on either side of the first one. */
  lemma SplitCount(s: string, k: nat)
    requires k < |s| && s[k] == '\t'
    requires forall i :: 0 <= i < k ==> s[i] != '\t'
    ensures Count(s, '\t') == 1 + Count(s[k + 1..], '\t')
  {
    assert s == s[..k] + ([s[k]] + s[k + 1..]);
    CountAppend(s[..k], [s[k]] + s[k + 1..], '\t');
    CountZero(s[..k], '\t');
    assert ([s[k]] + s[k + 1..])[1..] == s[k + 1..];
  }

  /** Whether load_samples loads a sample for `line`, untrimmed (Dataset.cpp:30-52). */
  predicate Accepted(line: string) {
    line != "" && line[0] != '#'
    && ParseRow(line).Some?
    && ParseRow(line).value.sampleName != "sample_name" && ParseRow(line).value.outputPath != ""
  }

  /** The output paths of the accepted lines, in file order. */
  function AcceptedPaths(lines: seq<string>): seq<string> {
    if |lines| == 0 then []
    else
      var last := lines[|lines| - 1];
      AcceptedPaths(lines[..|lines| - 1]) + if Accepted(last) then [ParseRow(last).value.outputPath] else []
  }

  /** At most one path per line, and load_samples never reads an empty output path. */
  lemma {:induction false} AcceptedPathsShape(lines: seq<string>)
    ensures |AcceptedPaths(lines)| <= |lines|
    ensures forall i :: 0 <= i < |AcceptedPaths(lines)| ==> AcceptedPaths(lines)[i] != ""
    decreases |lines|
  {
    if |lines| > 0 {
      AcceptedPathsShape(lines[..|lines| - 1]);
    }
  }

  /** A "sample_name" row is dropped anywhere in the file. */
  lemma HeaderDroppedAnywhere(before: seq<string>, header: string, after: seq<string>)
    requires ParseRow(header).Some? && ParseRow(header).value.sampleName == "sample_name"
    ensures AcceptedPaths(before + [header] + after) == AcceptedPaths(before) + AcceptedPaths(after)
  {
    AcceptedPathsAppend(before + [header], after);
    assert (before + [header])[..|before|] == before;
  }

  lemma {:induction false} AcceptedPathsAppend(a: seq<string>, b: seq<string>)
    ensures AcceptedPaths(a + b) == AcceptedPaths(a) + AcceptedPaths(b)
    decreases |b|
  {
    if |b| == 0 {
      assert a + b == a;
    } else {
      assert (a + b)[..|a + b| - 1] == a + b[..|b| - 1];
      AcceptedPathsAppend(a, b[..|b| - 1]);
    }
  }

  /** Index of the first path whose sample cannot be read, or |paths|. */
  function FirstFailure<S>(paths: seq<string>, read: string -> Result<S>): (i: nat)
    ensures i <= |paths|
    ensures i < |paths| ==> read(paths[i]).Err?
    ensures forall j :: 0 <= j < i ==> read(paths[j]).Ok?
  {
    if |paths| == 0 then 0
    else if read(paths[0]).Err? then 0
    else 1 + FirstFailure(paths[1..], read)
  }

  /** The samples of a loaded list (Dataset). `S` stands for SampleIO::Sample. */
  class Dataset<S> {
    var samples: seq<S>

    constructor ()
      ensures samples == []
    {
      samples := [];
    }

    /** clear (Dataset.cpp:59-62). */
    method Clear()
      modifies this
      ensures samples == []
    {
      samples := [];
    }

    /**
     * load_samples (Dataset.cpp:17-57). `read` stands for SampleIO::read. The old samples are
     * cleared first, even when the list cannot be opened. Then one sample per accepted line is
     * loaded in file order; a read that throws stops the load, keeping what was loaded before.
     */
    method LoadSamples(file: TextFile, listPath: string, read: string -> Result<S>) returns (r: Outcome)
      modifies this
      ensures !file.Lines? ==> samples == [] && r == Fail("Dataset::load_samples: failed to open sample list: " + listPath)
      ensures file.Lines? ==>
        var paths := AcceptedPaths(file.lines);
        var n := FirstFailure(paths, read);
        && |samples| == n
        && (forall j :: 0 <= j < n ==> samples[j] == read(paths[j]).value)
        && r == if n < |paths| then Fail(read(paths[n]).msg) else Pass
    {
      Clear();
      if !file.Lines? {
        return Fail("Dataset::load_samples: failed to open sample list: " + listPath);
      }
      var loaded;
      loaded, r := LoadLines(file.lines, read);
      samples := loaded;
    }
  }

  /** The checks of one line (Dataset.cpp:29-52): the output path to read, or none when the line is skipped. */
  method RowPath(line: string) returns (path: Option<string>)
    ensures path == if Accepted(line) then Some(ParseRow(line).value.outputPath) else None
  {
    if line == "" || line[0] == '#' {
      return None;
    }
    var row := ParseRow(line);
    if row.None? || row.value.sampleName == "sample_name" || row.value.outputPath == "" {
      return None;
    }
    return Some(row.value.outputPath);
  }

  /** The line loop of load_samples (Dataset.cpp:27-55), pushing each loaded sample. */
  method LoadLines<S>(lines: seq<string>, read: string -> Result<S>) returns (loaded: seq<S>, r: Outcome)
    ensures var paths := AcceptedPaths(lines);
      var n := FirstFailure(paths, read);
      && |loaded| == n
      && (forall j :: 0 <= j < n ==> loaded[j] == read(paths[j]).value)
      && r == if n < |paths| then Fail(read(paths[n]).msg) else Pass
  {
    ghost var paths := AcceptedPaths(lines);
    loaded := [];
    var k := 0;
    while k < |lines|
      invariant k <= |lines|
      invariant |loaded| == |AcceptedPaths(lines[..k])| <= |paths|
      invariant forall j :: 0 <= j < |loaded| ==> read(paths[j]) == Ok(loaded[j])
    {
      var path := RowPath(lines[k]);
      AcceptedStep(lines, k);
      if path.None? {
        k := k + 1;
        continue;
      }
      AcceptedAt(lines, k);
      var s := read(path.value);
      if s.Err? {
        FirstFailureAt(paths, read, |loaded|);
        return loaded, Fail(s.msg);
      }
      LoadedStep(paths, read, loaded, s.value);
      loaded := loaded + [s.value];
      k := k + 1;
    }
    assert lines[..k] == lines;
    FirstFailureNone(paths, read);
    return loaded, Pass;
  }

  /** Pushing the sample read from the next path keeps every loaded sample the read of its path. */
  lemma LoadedStep<S>(paths: seq<string>, read: string -> Result<S>, loaded: seq<S>, v: S)
    requires |loaded| < |paths| && read(paths[|loaded|]) == Ok(v)
    requires forall j :: 0 <= j < |loaded| ==> read(paths[j]) == Ok(loaded[j])
    ensures forall j :: 0 <= j < |loaded + [v]| ==> read(paths[j]) == Ok((loaded + [v])[j])
  {
  }

  /** Moving one line from the unread part to the read part of the accepted paths. */
  lemma AcceptedStep(lines: seq<string>, k: nat)
    requires k < |lines|
    ensures AcceptedPaths(lines[..k + 1]) == AcceptedPaths(lines[..k])
      + if Accepted(lines[k]) then [ParseRow(lines[k]).value.outputPath] else []
  {
    assert lines[..k + 1][..k] == lines[..k];
  }

  /** The path of an accepted line sits at its place among all accepted paths. */
  lemma AcceptedAt(lines: seq<string>, k: nat)
    requires k < |lines| && Accepted(lines[k])
    ensures var n := |AcceptedPaths(lines[..k])|;
      n < |AcceptedPaths(lines)| && AcceptedPaths(lines)[n] == ParseRow(lines[k]).value.outputPath
  {
    var p := ParseRow(lines[k]).value.outputPath;
    var pre, rest := AcceptedPaths(lines[..k]), AcceptedPaths(lines[k + 1..]);
    AcceptedStep(lines, k);
    AcceptedPathsAppend(lines[..k + 1], lines[k + 1..]);
    assert lines[..k + 1] + lines[k + 1..] == lines;
    assert AcceptedPaths(lines) == pre + [p] + rest;
    assert (pre + [p] + rest)[|pre|] == p;
  }

  lemma {:induction false} FirstFailureAt<S>(paths: seq<string>, read: string -> Result<S>, i: nat)
    requires i < |paths| && read(paths[i]).Err?
    requires forall j :: 0 <= j < i ==> read(paths[j]).Ok?
    ensures FirstFailure(paths, read) == i
    decreases i
  {
    if i > 0 {
      FirstFailureAt(paths[1..], read, i - 1);
    }
  }

  lemma {:induction false} FirstFailureNone<S>(paths: seq<string>, read: string -> Result<S>)
    requires forall j :: 0 <= j < |paths| ==> read(paths[j]).Ok?
    ensures FirstFailure(paths, read) == |paths|
    decreases |paths|
  {
    if |paths| > 0 {
      FirstFailureNone(paths[1..], read);
    }
  }
}
