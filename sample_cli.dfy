/**
 * framework/core/src/SampleCLI.cc: the tab-separated sample list (name, origin, beam,
 * output path), its reader and sorted writer, the "NAME:FILELIST" sample definition and
 * the upsert of one sample into the list.
 */
module SampleCLI {
  import opened Outcomes
  import opened Strings
  import opened Sorting
  import opened AppUtils
  import opened ArtIOPartition

  /** One row of a sample list (SampleListEntry). */
  datatype SampleListEntry = SampleListEntry(sampleName: string, sampleOrigin: string, beamMode: string, outputPath: string)

  /** split_tabs (SampleCLI.cc:21-37): the tab-separated fields of a line. */
  method SplitTabs(line: string) returns (out: seq<string>)
    ensures out == Split(line, '\t')
  {
    out := [];
    var start := 0;
    var done := false;
    while !done
      invariant start <= |line|
      invariant !done ==> out + Split(line[start..], '\t') == Split(line, '\t')
      invariant done ==> out == Split(line, '\t')
      decreases if done then 0 else 1, |line| - start
    {
      var rest := line[start..];
      var k := IndexOf(rest, '\t');
      if k == |rest| {
        out := out + [rest];
        done := true;
      } else {
        assert line[start + k + 1..] == rest[k + 1..];
        out := out + [rest[..k]];
        start := start + k + 1;
      }
    }
  }

  /** Put one entry in front of a parse result. */
  function Cons(e: SampleListEntry, r: Result<seq<SampleListEntry>>): Result<seq<SampleListEntry>> {
    if r.Ok? then Ok([e] + r.value) else r
  }

  /** Put entries already read in front of a parse result. */
  function Prefix(es: seq<SampleListEntry>, r: Result<seq<SampleListEntry>>): Result<seq<SampleListEntry>> {
    if r.Ok? then Ok(es + r.value) else r
  }

  /**
   * The entries of a sample list. Each line is trimmed; empty and '#' lines are skipped; a line
   * with fewer than four fields is an error; fields 0-3 make the entry. With `skipHeader`, a
   * "sample_name" row is dropped when it is the first non-comment line, and only then.
   */
  function ParseLines(lines: seq<string>, skipHeader: bool): (r: Result<seq<SampleListEntry>>)
    ensures r.Ok? ==> |r.value| <= |lines|
    decreases |lines|
  {
    if |lines| == 0 then Ok([])
    else
      var t := Trimmed(lines[0]);
      if !IsPathLine(t) then ParseLines(lines[1..], skipHeader)
      else
        var f := Split(t, '\t');
        if |f| < 4 then Err("Malformed sample list entry: " + t)
        else if skipHeader && f[0] == "sample_name" then ParseLines(lines[1..], false)
        else Cons(SampleListEntry(f[0], f[1], f[2], f[3]), ParseLines(lines[1..], false))
  }

  /** One step of ParseLines from position k. */
  lemma ParseLinesStep(lines: seq<string>, k: nat, skipHeader: bool)
    requires k < |lines|
    ensures var t := Trimmed(lines[k]); var f := Split(t, '\t');
      ParseLines(lines[k..], skipHeader) ==
        if !IsPathLine(t) then ParseLines(lines[k + 1..], skipHeader)
        else if |f| < 4 then Err("Malformed sample list entry: " + t)
        else if skipHeader && f[0] == "sample_name" then ParseLines(lines[k + 1..], false)
        else Cons(SampleListEntry(f[0], f[1], f[2], f[3]), ParseLines(lines[k + 1..], false))
  {
    assert lines[k..][1..] == lines[k + 1..];
  }

  lemma PrefixCons(es: seq<SampleListEntry>, e: SampleListEntry, r: Result<seq<SampleListEntry>>)
    ensures Prefix(es, Cons(e, r)) == Prefix(es + [e], r)
  {
    if r.Ok? {
      assert es + ([e] + r.value) == (es + [e]) + r.value;
    }
  }

  /**
   * The line loop of read_samples (SampleCLI.cc:54-84), with its first_nonempty flag; with
   * `skipHeader` false it is the loop of sampleRDFmaker's read_sample_list, which has no flag.
   */
  method ParseList(lines: seq<string>, skipHeader: bool) returns (r: Result<seq<SampleListEntry>>)
    ensures r == ParseLines(lines, skipHeader)
  {
    var entries: seq<SampleListEntry> := [];
    var firstNonempty := skipHeader;
    var k := 0;
    assert lines[k..] == lines;
    assert ParseLines(lines, skipHeader).Ok? ==> [] + ParseLines(lines, skipHeader).value == ParseLines(lines, skipHeader).value;
    while k < |lines|
      invariant k <= |lines|
      invariant ParseLines(lines, skipHeader) == Prefix(entries, ParseLines(lines[k..], firstNonempty))
    {
      var line := Trim(lines[k]);
      ParseLinesStep(lines, k, firstNonempty);
      ghost var here := ParseLines(lines[k..], firstNonempty);
      if line == "" || line[0] == '#' {
        assert here == ParseLines(lines[k + 1..], firstNonempty);
        k := k + 1;
        continue;
      }
      var fields := SplitTabs(line);
      if |fields| < 4 {
        assert here == Err("Malformed sample list entry: " + line);
        return Err("Malformed sample list entry: " + line);
      }
      if firstNonempty && fields[0] == "sample_name" {
        assert here == ParseLines(lines[k + 1..], false);
        firstNonempty := false;
        k := k + 1;
        continue;
      }
      var entry := SampleListEntry(fields[0], fields[1], fields[2], fields[3]);
      assert here == Cons(entry, ParseLines(lines[k + 1..], false));
      firstNonempty := false;
      PrefixCons(entries, entry, ParseLines(lines[k + 1..], false));
      entries := entries + [entry];
      k := k + 1;
    }
    assert lines[k..] == [];
    assert entries + [] == entries;
    return Ok(entries);
  }

  /**
   * read_samples (SampleCLI.cc:39-92): a missing file is an empty list only when allowed; any
   * other open failure is an error; an empty result is an error when required non-empty.
   */
  method ReadSamples(file: TextFile, listPath: string, allowMissing: bool, requireNonempty: bool)
    returns (r: Result<seq<SampleListEntry>>)
    ensures file.NotFound? && allowMissing ==> r == Ok([])
    ensures !file.Lines? && !(file.NotFound? && allowMissing) ==> r == Err("Failed to open sample list: " + listPath)
    ensures file.Lines? && ParseLines(file.lines, true).Err? ==> r == ParseLines(file.lines, true)
    ensures file.Lines? && ParseLines(file.lines, true).Ok? ==>
      r == if requireNonempty && ParseLines(file.lines, true).value == [] then Err("Sample list is empty: " + listPath)
           else ParseLines(file.lines, true)
  {
    if !file.Lines? {
      if allowMissing && file.NotFound? {
        return Ok([]);
      }
      return Err("Failed to open sample list: " + listPath);
    }
    r := ParseList(file.lines, true);
    if r.Ok? && requireNonempty && r.value == [] {
      return Err("Sample list is empty: " + listPath);
    }
  }

  /** A lone header row is dropped only as the first non-comment line. */
  lemma HeaderOnlyFirst(header: string, rest: seq<string>)
    requires Trimmed(header) == header && IsPathLine(header)
    requires |Split(header, '\t')| >= 4 && Split(header, '\t')[0] == "sample_name"
    ensures ParseLines([header] + rest, true) == ParseLines(rest, false)
    ensures ParseLines([header] + rest, false).Ok? ==>
      ParseLines([header] + rest, false).value[0].sampleName == "sample_name"
  {
    assert ([header] + rest)[1..] == rest;
  }

  // ---- writing ----

  /** The header line write_samples emits. */
  const Header := "#" + " sample_name\tsample_origin\tbeam_mode\toutput_path"

  /** The sort key of write_samples: (origin, beam, name). */
  function Key(e: SampleListEntry): seq<string> {
    [e.sampleOrigin, e.beamMode, e.sampleName]
  }

  /** Lexicographic order of keys, component by component (std::tie's operator<). */
  predicate KeyLt(a: seq<string>, b: seq<string>)
    decreases |a|
  {
    if |b| == 0 then false
    else if |a| == 0 then true
    else if a[0] != b[0] then Lt(a[0], b[0])
    else KeyLt(a[1..], b[1..])
  }

  /** Two entries in write order: the first's key is not after the second's. */
  predicate EntryLe(a: SampleListEntry, b: SampleListEntry) {
    !KeyLt(Key(b), Key(a))
  }

  lemma {:induction false} KeyLtTrichotomy(a: seq<string>, b: seq<string>)
    ensures a == b || KeyLt(a, b) || KeyLt(b, a)
    ensures !(KeyLt(a, b) && KeyLt(b, a))
    decreases |a|
  {
    if |a| > 0 && |b| > 0 {
      if a[0] != b[0] {
        LtTotal(a[0], b[0]);
        if Lt(a[0], b[0]) { LtAsymmetric(a[0], b[0]); }
      } else {
        KeyLtTrichotomy(a[1..], b[1..]);
        if a[1..] == b[1..] {
          assert a == [a[0]] + a[1..] && b == [b[0]] + b[1..];
        }
      }
    }
  }

  lemma {:induction false} KeyLtTransitive(a: seq<string>, b: seq<string>, c: seq<string>)
    requires KeyLt(a, b) && KeyLt(b, c)
    ensures KeyLt(a, c)
    decreases |a|
  {
    if |a| > 0 {
      if a[0] != b[0] && b[0] != c[0] {
        LtTransitive(a[0], b[0], c[0]);
        LtIrreflexive(a[0]);
      } else if a[0] == b[0] && b[0] == c[0] {
        KeyLtTransitive(a[1..], b[1..], c[1..]);
      }
    }
  }

  /** Write order is total and transitive, as std::sort requires of its comparator. */
  lemma EntryLeIsTotalOrder()
    ensures Total(EntryLe) && Transitive(EntryLe)
  {
    forall a, b ensures EntryLe(a, b) || EntryLe(b, a) {
      KeyLtTrichotomy(Key(a), Key(b));
    }
    forall a, b, c | EntryLe(a, b) && EntryLe(b, c) ensures EntryLe(a, c) {
      KeyLtTrichotomy(Key(a), Key(b));
      KeyLtTrichotomy(Key(b), Key(c));
      if KeyLt(Key(c), Key(a)) {
        KeyLtTrichotomy(Key(a), Key(c));
        if Key(a) == Key(b) {
        } else if Key(b) == Key(c) {
        } else {
          KeyLtTransitive(Key(a), Key(b), Key(c));
        }
      }
    }
  }

  /** One entry as its tab-joined line. */
  function Render(e: SampleListEntry): string {
    Join([e.sampleName, e.sampleOrigin, e.beamMode, e.outputPath], '\t')
  }

  function RenderAll(es: seq<SampleListEntry>): (lines: seq<string>)
    ensures |lines| == |es|
    ensures forall i :: 0 <= i < |es| ==> lines[i] == Render(es[i])
  {
    if |es| == 0 then [] else [Render(es[0])] + RenderAll(es[1..])
  }

  lemma RenderAllSnoc(es: seq<SampleListEntry>, e: SampleListEntry)
    ensures RenderAll(es + [e]) == RenderAll(es) + [Render(e)]
  {
    var l := RenderAll(es + [e]);
    var r := RenderAll(es) + [Render(e)];
    assert |l| == |r|;
    forall i | 0 <= i < |l| ensures l[i] == r[i] {
      assert (es + [e])[i] == if i < |es| then es[i] else e;
    }
  }

  /** Writing one more entry line extends the file by that line. */
  lemma ListingStep(sorted: seq<SampleListEntry>, i: nat)
    requires i < |sorted|
    ensures [Header] + RenderAll(sorted[..i + 1]) == [Header] + RenderAll(sorted[..i]) + [Render(sorted[i])]
  {
    assert sorted[..i + 1] == sorted[..i] + [sorted[i]];
    RenderAllSnoc(sorted[..i], sorted[i]);
  }

  /** The file write_samples produces: the header, then the entries sorted into write order. */
  function Listing(entries: seq<SampleListEntry>): (lines: seq<string>)
    ensures |lines| == |entries| + 1 && lines[0] == Header
  {
    var sorted := Sort(entries, EntryLe);
    assert |sorted| == |multiset(sorted)| == |multiset(entries)| == |entries|;
    [Header] + RenderAll(sorted)
  }

  /** The listed entries are sorted by (origin, beam, name) and are exactly the given ones. */
  lemma ListingIsSortedPermutation(entries: seq<SampleListEntry>)
    ensures SortedBy(Sort(entries, EntryLe), EntryLe)
    ensures multiset(Sort(entries, EntryLe)) == multiset(entries)
  {
    EntryLeIsTotalOrder();
    SortSorted(entries, EntryLe);
  }

  /**
   * write_samples (SampleCLI.cc:94-117): the new file contents, or an error when the file
   * cannot be opened for writing (then nothing is written).
   */
  method WriteSamples(entries: seq<SampleListEntry>, listPath: string, writable: bool) returns (r: Result<seq<string>>)
    ensures !writable ==> r == Err("Failed to open sample list for writing: " + listPath)
    ensures writable ==> r == Ok(Listing(entries))
  {
    var sorted := Sort(entries, EntryLe);
    if !writable {
      return Err("Failed to open sample list for writing: " + listPath);
    }
    var lines := [Header];
    var i := 0;
    while i < |sorted|
      invariant i <= |sorted|
      invariant lines == [Header] + RenderAll(sorted[..i])
    {
      ListingStep(sorted, i);
      lines := lines + [Render(sorted[i])];
      i := i + 1;
    }
    assert sorted[..i] == sorted;
    return Ok(lines);
  }

  /** A field that survives the list format: non-empty, free of tabs and line breaks, not padded with white space. */
  predicate PlainField(s: string) {
    IsTrimmedForm(s) && '\t' !in s && '\n' !in s
  }

  /** An entry the list format can carry unchanged. */
  predicate Writable(e: SampleListEntry) {
    PlainField(e.sampleName) && PlainField(e.sampleOrigin) && PlainField(e.beamMode) && PlainField(e.outputPath)
    && e.sampleName[0] != '#'
  }

  /** A written entry line reads back as that entry. */
  lemma RenderParses(e: SampleListEntry)
    requires Writable(e)
    ensures Trimmed(Render(e)) == Render(e) && IsPathLine(Render(e))
    ensures Split(Render(e), '\t') == [e.sampleName, e.sampleOrigin, e.beamMode, e.outputPath]
  {
    var parts := [e.sampleName, e.sampleOrigin, e.beamMode, e.outputPath];
    SplitJoin(parts, '\t');
    var s := Render(e);
    assert parts[1..] == [e.sampleOrigin, e.beamMode, e.outputPath];
    assert parts[1..][1..] == [e.beamMode, e.outputPath];
    assert parts[1..][1..][1..] == [e.outputPath];
    assert Join(parts[1..][1..][1..], '\t') == e.outputPath;
    assert Join(parts[1..][1..], '\t') == e.beamMode + ['\t'] + e.outputPath;
    assert Join(parts[1..], '\t') == e.sampleOrigin + ['\t'] + (e.beamMode + ['\t'] + e.outputPath);
    assert s == e.sampleName + ['\t'] + (e.sampleOrigin + ['\t'] + (e.beamMode + ['\t'] + e.outputPath));
    assert s[0] == e.sampleName[0];
    assert s[|s| - 1] == e.outputPath[|e.outputPath| - 1];
    TrimmedFixed(s);
  }

  /** A trimmed line with the four fields of `e` reads as `e`, unless it is the header to skip. */
  lemma EntryLineParses(line: string, rest: seq<string>, skipHeader: bool, e: SampleListEntry)
    requires Trimmed(line) == line && IsPathLine(line)
    requires Split(line, '\t') == [e.sampleName, e.sampleOrigin, e.beamMode, e.outputPath]
    requires !(skipHeader && e.sampleName == "sample_name")
    ensures ParseLines([line] + rest, skipHeader) == Cons(e, ParseLines(rest, false))
  {
    assert ([line] + rest)[1..] == rest;
  }

  /** The first entry line reads back in front of what the rest reads back as. */
  lemma RenderAllParsesStep(es: seq<SampleListEntry>, skipHeader: bool)
    requires |es| > 0 && !(skipHeader && es[0].sampleName == "sample_name")
    requires Trimmed(Render(es[0])) == Render(es[0]) && IsPathLine(Render(es[0]))
    requires Split(Render(es[0]), '\t') == [es[0].sampleName, es[0].sampleOrigin, es[0].beamMode, es[0].outputPath]
    requires ParseLines(RenderAll(es[1..]), false) == Ok(es[1..])
    ensures ParseLines(RenderAll(es), skipHeader) == Ok(es)
  {
    var line := Render(es[0]);
    var rest := RenderAll(es[1..]);
    assert RenderAll(es) == [line] + rest;
    EntryLineParses(line, rest, skipHeader, es[0]);
    assert Cons(es[0], Ok(es[1..])) == Ok([es[0]] + es[1..]);
    assert [es[0]] + es[1..] == es;
  }

  /** Entry lines with no header-named first entry read back as their entries. */
  lemma {:induction false} RenderAllParses(es: seq<SampleListEntry>, skipHeader: bool)
    requires forall i :: 0 <= i < |es| ==> Writable(es[i])
    requires skipHeader && |es| > 0 ==> es[0].sampleName != "sample_name"
    ensures ParseLines(RenderAll(es), skipHeader) == Ok(es)
    decreases |es|
  {
    if |es| > 0 {
      assert forall i :: 0 <= i < |es[1..]| ==> es[1..][i] == es[i + 1];
      RenderAllParses(es[1..], false);
      RenderParses(es[0]);
      RenderAllParsesStep(es, skipHeader);
    }
  }

  /** A trimmed '#' line is skipped whatever the header state. */
  lemma CommentSkipped(c: string, rest: seq<string>, skipHeader: bool)
    requires Trimmed(c) == c && c != "" && c[0] == '#'
    ensures ParseLines([c] + rest, skipHeader) == ParseLines(rest, skipHeader)
  {
    assert ([c] + rest)[1..] == rest;
  }

  /** Sorting keeps every entry writable. */
  lemma SortedWritable(entries: seq<SampleListEntry>)
    requires forall e :: e in entries ==> Writable(e)
    ensures forall i :: 0 <= i < |Sort(entries, EntryLe)| ==> Writable(Sort(entries, EntryLe)[i])
  {
    var sorted := Sort(entries, EntryLe);
    forall i | 0 <= i < |sorted| ensures Writable(sorted[i]) {
      assert sorted[i] in multiset(sorted);
    }
  }

  /**
   * Reading back a written list gives the sorted entries, when every field is plain, no name
   * starts with '#', and the first entry in write order is not named "sample_name".
   */
  lemma WriteReadRoundTrip(entries: seq<SampleListEntry>)
    requires forall e :: e in entries ==> Writable(e)
    requires |Sort(entries, EntryLe)| > 0 ==> Sort(entries, EntryLe)[0].sampleName != "sample_name"
    ensures ParseLines(Listing(entries), true) == Ok(Sort(entries, EntryLe))
  {
    var sorted := Sort(entries, EntryLe);
    SortedWritable(entries);
    ListingParses(sorted);
    assert Listing(entries) == [Header] + RenderAll(sorted);
  }

  /** The header line followed by entry lines reads back as the entries. */
  lemma ListingParses(es: seq<SampleListEntry>)
    requires forall i :: 0 <= i < |es| ==> Writable(es[i])
    requires |es| > 0 ==> es[0].sampleName != "sample_name"
    ensures ParseLines([Header] + RenderAll(es), true) == Ok(es)
  {
    HeaderIsComment();
    CommentThenEntries(Header, es);
  }

  lemma HeaderIsComment()
    ensures Trimmed(Header) == Header && Header != "" && Header[0] == '#'
  {
    TrimmedFixed(Header);
  }

  lemma CommentThenEntries(c: string, es: seq<SampleListEntry>)
    requires Trimmed(c) == c && c != "" && c[0] == '#'
    requires forall i :: 0 <= i < |es| ==> Writable(es[i])
    requires |es| > 0 ==> es[0].sampleName != "sample_name"
    ensures ParseLines([c] + RenderAll(es), true) == Ok(es)
  {
    RenderAllParses(es, true);
    CommentSkipped(c, RenderAll(es), true);
  }

  // ---- sample definitions ----

  /** SampleArgs: the parsed definition and the two paths derived from it. */
  datatype SampleArgs = SampleArgs(sampleName: string, filelistPath: string, outputPath: string, sampleListPath: string)

  /**
   * parse_sample_input (SampleCLI.cc:119-142). `sampleDir` is the resolved sample output
   * directory (HERON_SAMPLE_DIR or its default).
   */
  function ParseSampleInput(input: string, sampleDir: string): (r: Result<SampleArgs>)
    ensures ':' !in input ==> r == Err("Bad sample definition (expected NAME:FILELIST): " + input)
    ensures r.Ok? ==> r.value.sampleName != "" && r.value.filelistPath != ""
    ensures r.Ok? ==> r.value.outputPath == PathJoin(sampleDir, "sample_root_" + r.value.sampleName + ".root")
    ensures r.Ok? ==> r.value.sampleListPath == PathJoin(sampleDir, "samples.tsv")
  {
    match SplitSpec(input)
    case None => Err("Bad sample definition (expected NAME:FILELIST): " + input)
    case Some((name, list)) =>
      if name == "" || list == "" then Err("Bad sample definition: " + input)
      else Ok(SampleArgs(name, list, PathJoin(sampleDir, "sample_root_" + name + ".root"), PathJoin(sampleDir, "samples.tsv")))
  }

  /** A well-formed definition keeps its name and file list. */
  lemma ParseSampleInputRoundTrip(name: string, list: string, sampleDir: string)
    requires ':' !in name && IsTrimmedForm(name) && IsTrimmedForm(list)
    ensures ParseSampleInput(name + ":" + list, sampleDir).Ok?
    ensures ParseSampleInput(name + ":" + list, sampleDir).value.sampleName == name
    ensures ParseSampleInput(name + ":" + list, sampleDir).value.filelistPath == list
  {
    SplitSpecRoundTrip(name, list);
  }

  /** parse_sample_args (SampleCLI.cc:144-152): exactly one argument, else the usage text. */
  function ParseSampleArgs(args: seq<string>, usage: string, sampleDir: string): (r: Result<SampleArgs>)
    ensures |args| != 1 ==> r == Err(usage)
    ensures |args| == 1 ==> r == ParseSampleInput(args[0], sampleDir)
  {
    if |args| != 1 then Err(usage) else ParseSampleInput(args[0], sampleDir)
  }

  // ---- upsert ----

  /** The entry is the one identified by (name, origin, beam). */
  predicate Matches(e: SampleListEntry, name: string, origin: string, beam: string) {
    e.sampleName == name && e.sampleOrigin == origin && e.beamMode == beam
  }

  /** Index of the first matching entry, or |entries|. */
  function FirstMatch(entries: seq<SampleListEntry>, name: string, origin: string, beam: string): (i: nat)
    ensures i <= |entries|
    ensures i < |entries| ==> Matches(entries[i], name, origin, beam)
    ensures forall j :: 0 <= j < i ==> !Matches(entries[j], name, origin, beam)
  {
    if |entries| == 0 then 0
    else if Matches(entries[0], name, origin, beam) then 0
    else 1 + FirstMatch(entries[1..], name, origin, beam)
  }

  /**
   * The list update_sample_list writes back: the first entry with the same (name, origin, beam)
   * gets the new path; without one, a new entry is appended.
   */
  function Upserted(entries: seq<SampleListEntry>, name: string, origin: string, beam: string, outputPath: string)
    : seq<SampleListEntry>
  {
    var m := FirstMatch(entries, name, origin, beam);
    if m < |entries| then entries[m := entries[m].(outputPath := outputPath)]
    else entries + [SampleListEntry(name, origin, beam, outputPath)]
  }

  /** The entry loop of update_sample_list (SampleCLI.cc:162-182), with its break at the first match. */
  method Upsert(entries: seq<SampleListEntry>, name: string, origin: string, beam: string, outputPath: string)
    returns (out: seq<SampleListEntry>)
    ensures out == Upserted(entries, name, origin, beam, outputPath)
  {
    out := entries;
    var updated := false;
    var i := 0;
    while i < |out| && !updated
      invariant i <= |entries| && |out| == |entries|
      invariant !updated ==> out == entries && forall j :: 0 <= j < i ==> !Matches(entries[j], name, origin, beam)
      invariant updated ==> (0 < i && FirstMatch(entries, name, origin, beam) == i - 1
        && out == entries[i - 1 := entries[i - 1].(outputPath := outputPath)])
    {
      if out[i].sampleName == name && out[i].sampleOrigin == origin && out[i].beamMode == beam {
        out := out[i := out[i].(outputPath := outputPath)];
        updated := true;
      }
      i := i + 1;
    }
    if !updated {
      out := out + [SampleListEntry(name, origin, beam, outputPath)];
    }
  }

  /**
   * After an upsert the new entry is present, every entry other than the first match is kept in
   * its place, and the list grows by one exactly when no entry had the key.
   */
  lemma UpsertKeepsOthers(entries: seq<SampleListEntry>, name: string, origin: string, beam: string, outputPath: string)
    ensures SampleListEntry(name, origin, beam, outputPath) in Upserted(entries, name, origin, beam, outputPath)
    ensures forall i :: 0 <= i < |entries| && i != FirstMatch(entries, name, origin, beam) ==>
      Upserted(entries, name, origin, beam, outputPath)[i] == entries[i]
    ensures |Upserted(entries, name, origin, beam, outputPath)| ==
      |entries| + (if FirstMatch(entries, name, origin, beam) < |entries| then 0 else 1)
  {
    var m := FirstMatch(entries, name, origin, beam);
    var out := Upserted(entries, name, origin, beam, outputPath);
    if m < |entries| {
      assert out[m] == SampleListEntry(name, origin, beam, outputPath);
    } else {
      assert out[|entries|] == SampleListEntry(name, origin, beam, outputPath);
    }
  }

  /** Upserting the same key again only changes the path: the list keeps one entry for the key. */
  lemma UpsertTwice(entries: seq<SampleListEntry>, name: string, origin: string, beam: string, p1: string, p2: string)
    ensures Upserted(Upserted(entries, name, origin, beam, p1), name, origin, beam, p2)
         == Upserted(entries, name, origin, beam, p2)
  {
    var m := FirstMatch(entries, name, origin, beam);
    var once := Upserted(entries, name, origin, beam, p1);
    UpsertKeepsOthers(entries, name, origin, beam, p1);
    if m < |entries| {
      FirstMatchAt(once, name, origin, beam, m);
    } else {
      FirstMatchAt(once, name, origin, beam, |entries|);
    }
  }

  lemma FirstMatchAt(entries: seq<SampleListEntry>, name: string, origin: string, beam: string, i: nat)
    requires i < |entries| && Matches(entries[i], name, origin, beam)
    requires forall j :: 0 <= j < i ==> !Matches(entries[j], name, origin, beam)
    ensures FirstMatch(entries, name, origin, beam) == i
  {
  }

  /**
   * update_sample_list (SampleCLI.cc:154-185): read the list (a missing file is an empty list,
   * an empty list is fine), upsert, and rewrite it sorted.
   */
  method UpdateSampleList(file: TextFile, listPath: string, writable: bool,
                          name: string, origin: string, beam: string, outputPath: string)
    returns (r: Result<seq<string>>)
    ensures file.OpenFailed? ==> r == Err("Failed to open sample list: " + listPath)
    ensures file.Lines? && ParseLines(file.lines, true).Err? ==> r == Err(ParseLines(file.lines, true).msg)
    ensures file.NotFound? || (file.Lines? && ParseLines(file.lines, true).Ok?) ==>
      var before := if file.Lines? then ParseLines(file.lines, true).value else [];
      r == if writable then Ok(Listing(Upserted(before, name, origin, beam, outputPath)))
           else Err("Failed to open sample list for writing: " + listPath)
  {
    var read := ReadSamples(file, listPath, true, false);
    if read.Err? {
      return Err(read.msg);
    }
    var entries := Upsert(read.value, name, origin, beam, outputPath);
    r := WriteSamples(entries, listPath, writable);
  }
}
