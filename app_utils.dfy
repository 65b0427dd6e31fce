/**
 * The command-line helpers of apps/include/AppUtils.hh: whitespace trimming, argument
 * collection, the exception guard and file-list reading. The same trim and file-list code is
 * repeated verbatim in several drivers; they all use the members below.
 */
module AppUtils {
  import opened Outcomes

  /** std::isspace in the "C" locale. */
  predicate IsSpace(c: char) {
    c == ' ' || c == '\t' || c == '\n' || c == '\U{B}' || c == '\U{C}' || c == '\r'
  }

  /** Index of the first non-space character of `s` (|s| when all are spaces). */
  function TrimStart(s: string): (i: nat)
    ensures i <= |s|
    ensures forall k :: 0 <= k < i ==> IsSpace(s[k])
    ensures i < |s| ==> !IsSpace(s[i])
  {
    if |s| > 0 && IsSpace(s[0]) then 1 + TrimStart(s[1..]) else 0
  }

  /** End of `s` once the trailing spaces after position `i` are dropped. */
  function TrimEnd(s: string, i: nat): (j: nat)
    requires i <= |s|
    ensures i <= j <= |s|
    ensures forall k :: j <= k < |s| ==> IsSpace(s[k])
    ensures j > i ==> !IsSpace(s[j - 1])
    decreases |s|
  {
    if |s| > i && IsSpace(s[|s| - 1]) then TrimEnd(s[..|s| - 1], i) else |s|
  }

  /** The value of trim(s): `s` without its leading and trailing whitespace. */
  function Trimmed(s: string): string {
    var i := TrimStart(s);
    s[i..TrimEnd(s, i)]
  }

  /**
   * trim (AppUtils.hh:22-31): erases the leading whitespace, then the trailing whitespace,
   * by searching for the first non-space from each end.
   */
  method Trim(s: string) returns (r: string)
    ensures r == Trimmed(s)
  {
    var i := 0;
    while i < |s| && IsSpace(s[i])
      invariant i <= |s|
      invariant forall k :: 0 <= k < i ==> IsSpace(s[k])
    {
      i := i + 1;
    }
    var j := |s|;
    while j > i && IsSpace(s[j - 1])
      invariant i <= j <= |s|
      invariant forall k :: j <= k < |s| ==> IsSpace(s[k])
    {
      j := j - 1;
    }
    r := s[i..j];
  }

  /** trim keeps a contiguous infix, drops only whitespace, and leaves no whitespace at either end. */
  lemma TrimmedShape(s: string)
    ensures var i := TrimStart(s); var j := TrimEnd(s, i);
      && Trimmed(s) == s[i..j]
      && (forall k :: 0 <= k < i ==> IsSpace(s[k]))
      && (forall k :: j <= k < |s| ==> IsSpace(s[k]))
    ensures var r := Trimmed(s); r == [] || (!IsSpace(r[0]) && !IsSpace(r[|r| - 1]))
  {
  }

  /** A string with no whitespace at either end is its own trim. */
  lemma TrimmedFixed(s: string)
    requires s == [] || (!IsSpace(s[0]) && !IsSpace(s[|s| - 1]))
    ensures Trimmed(s) == s
  {
  }

  lemma TrimmedIdempotent(s: string)
    ensures Trimmed(Trimmed(s)) == Trimmed(s)
  {
    TrimmedShape(s);
    TrimmedFixed(Trimmed(s));
  }

  /** collect_args (AppUtils.hh:33-46): argv[start..argc) in order, or nothing. */
  method CollectArgs(argv: seq<string>, start: int) returns (args: seq<string>)
    requires 0 <= start
    ensures |argv| <= start ==> args == []
    ensures start < |argv| ==> |args| == |argv| - start
    ensures forall k :: 0 <= k < |args| ==> args[k] == argv[start + k]
  {
    args := [];
    if |argv| <= start {
      return;
    }
    var i := start;
    while i < |argv|
      invariant start <= i <= |argv|
      invariant args == argv[start..i]
    {
      args := args + [argv[i]];
      i := i + 1;
    }
  }

  /** run_guarded (AppUtils.hh:48-59): the callback's status, or 1 when it threw. */
  function RunGuarded(callback: Result<int>): (code: int)
    ensures callback.Ok? ==> code == callback.value
    ensures callback.Err? ==> code == 1
  {
    match callback
    case Ok(v) => v
    case Err(_) => 1
  }

  /**
   * std::filesystem::path's operator/ for a relative right-hand side: the directory, a '/'
   * unless it is empty or already ends in one, then the name.
   */
  function PathJoin(dir: string, name: string): (r: string)
    ensures |r| >= |dir| + |name| && r[|r| - |name|..] == name
    ensures dir != "" ==> r[..|dir|] == dir && r[|r| - |name| - 1] == '/'
  {
    if dir == "" then name
    else if dir[|dir| - 1] == '/' then dir + name
    else dir + "/" + name
  }

  /** A text file as its lines (newlines removed), or why it cannot be opened: absent (ENOENT) or otherwise. */
  datatype TextFile = Lines(lines: seq<string>) | NotFound | OpenFailed

  /** Whether a trimmed line names a path: not empty and not a '#' comment. */
  predicate IsPathLine(t: string) {
    t != "" && t[0] != '#'
  }

  /** The paths read_paths keeps from `lines`: trimmed, non-empty, not comments, in order. */
  function KeptPaths(lines: seq<string>): (paths: seq<string>)
    ensures |paths| <= |lines|
  {
    if |lines| == 0 then []
    else
      var t := Trimmed(lines[|lines| - 1]);
      KeptPaths(lines[..|lines| - 1]) + (if IsPathLine(t) then [t] else [])
  }

  /** Every kept path is a non-comment line, already trimmed, and there are no more of them than lines. */
  lemma {:induction false} KeptPathsWellFormed(lines: seq<string>)
    ensures |KeptPaths(lines)| <= |lines|
    ensures forall p :: p in KeptPaths(lines) ==> IsPathLine(p) && Trimmed(p) == p
  {
    if |lines| > 0 {
      KeptPathsWellFormed(lines[..|lines| - 1]);
      TrimmedIdempotent(lines[|lines| - 1]);
    }
  }

  /** Kept paths of a concatenation are the concatenation of the kept paths. */
  lemma {:induction false} KeptPathsAppend(a: seq<string>, b: seq<string>)
    ensures KeptPaths(a + b) == KeptPaths(a) + KeptPaths(b)
    decreases |b|
  {
    if |b| == 0 {
      assert a + b == a;
    } else {
      assert (a + b)[..|a + b| - 1] == a + b[..|b| - 1];
      KeptPathsAppend(a, b[..|b| - 1]);
    }
  }

  /**
   * read_paths (AppUtils.hh:61-84): fails on an unopenable file and on a list with no
   * paths; otherwise returns the kept lines in order.
   */
  method ReadPaths(file: TextFile, path: string) returns (r: Result<seq<string>>)
    ensures !file.Lines? ==> r == Err("Failed to open filelist: " + path)
    ensures file.Lines? && KeptPaths(file.lines) == [] ==> r == Err("Filelist is empty: " + path)
    ensures file.Lines? && KeptPaths(file.lines) != [] ==> r == Ok(KeptPaths(file.lines))
  {
    if !file.Lines? {
      return Err("Failed to open filelist: " + path);
    }
    var lines := file.lines;
    var files: seq<string> := [];
    var k := 0;
    while k < |lines|
      invariant k <= |lines|
      invariant files == KeptPaths(lines[..k])
    {
      var line := Trim(lines[k]);
      assert lines[..k + 1][..k] == lines[..k];
      if line != "" && line[0] != '#' {
        files := files + [line];
      }
      k := k + 1;
    }
    assert lines[..k] == lines;
    if |files| == 0 {
      return Err("Filelist is empty: " + path);
    }
    return Ok(files);
  }
}
