/**
 * apps/src/nuxsec.cc: the unified `nuxsec` command. It quotes the driver command line for
 * /bin/sh, maps the wait status of the child back to an exit code, and routes sub-commands.
 */
module Nuxsec {
  import opened Outcomes
  import opened Strings
  import opened AppUtils
  import opened Seqs

  const UsageMacro: string :=
    "Usage: nuxsec macro MACRO.C [CALL]\n"
    + "       nuxsec macro list\n"
    + "\nEnvironment:\n"
    + "  NUXSEC_PLOT_DIR     Output directory (default: <repo>/build/plot)\n"
    + "  NUXSEC_PLOT_FORMAT  Output extension (default: pdf)\n"

  /** is_help_arg (nuxsec.cc:34-37). */
  predicate IsHelpArg(arg: string) {
    arg == "-h" || arg == "--help"
  }

  // ---------------------------------------------------------------------------------------
  // Quoting for the shell.

  /** The body of a quoted value: each ' becomes '\'' (close, escaped quote, reopen). */
  function Escape(v: string): (r: string)
    ensures '\'' !in v ==> r == v
  {
    if v == "" then ""
    else (if v[0] == '\'' then "'\\''" else [v[0]]) + Escape(v[1..])
  }

  /** The value of shell_quote(v). */
  function Quoted(v: string): (r: string)
    ensures |r| >= 2 && r[0] == '\'' && r[|r| - 1] == '\''
  {
    if v == "" then "''" else "'" + Escape(v) + "'"
  }

  /**
   * shell_quote (nuxsec.cc:81-103): opens a single quote, copies the characters, replacing each
   * single quote by '\'', and closes the quote.
   */
  method ShellQuote(value: string) returns (quoted: string)
    ensures quoted == Quoted(value)
  {
    if value == "" {
      return "''";
    }
    quoted := "'";
    var i := 0;
    while i < |value|
      invariant 0 <= i <= |value|
      invariant quoted + Escape(value[i..]) == "'" + Escape(value)
    {
      assert value[i..][1..] == value[i + 1..];
      if value[i] == '\'' {
        quoted := quoted + "'\\''";
      } else {
        quoted := quoted + [value[i]];
      }
      i := i + 1;
    }
    assert value[i..] == "";
    quoted := quoted + "'";
  }

  lemma {:induction false} EscapeLength(v: string)
    ensures |Escape(v)| == |v| + 3 * Count(v, '\'')
  {
    if v != "" {
      EscapeLength(v[1..]);
    }
  }

  /** The quoted form is the input plus two quotes plus three characters per single quote. */
  lemma QuotedLength(v: string)
    ensures |Quoted(v)| == |v| + 2 + 3 * Count(v, '\'')
  {
    EscapeLength(v);
  }

  /**
   * A reader of command lines under the quoting rules of the POSIX Shell Command Language
   * (sections 2.2.1 and 2.2.2 of IEEE Std 1003.1-2017), for lines whose words are built only
   * from single-quoted runs and backslash-escaped characters and are separated by one space.
   * Inside single quotes every character but ' stands for itself; outside, a backslash keeps
   * the next character, a quote opens a run, and a space ends the word. Any other unquoted
   * character, a trailing backslash or an unterminated quote is outside this subset (None).
   */
  function ReadWords(s: string, word: string, inQuote: bool): Option<seq<string>>
    decreases |s|
  {
    if s == "" then (if inQuote then None else Some([word]))
    else if inQuote then
      (if s[0] == '\'' then ReadWords(s[1..], word, false) else ReadWords(s[1..], word + [s[0]], true))
    else if s[0] == '\'' then ReadWords(s[1..], word, true)
    else if s[0] == '\\' then
      (if |s| < 2 then None else ReadWords(s[2..], word + [s[1]], false))
    else if s[0] == ' ' then
      (match ReadWords(s[1..], "", false)
       case None => None
       case Some(ws) => Some([word] + ws))
    else None
  }

  /** Inside a quoted run, the escaped body of `v` and the closing quote read back as `v`. */
  lemma {:induction false} ReadEscape(v: string, rest: string, word: string)
    ensures ReadWords(Escape(v) + "'" + rest, word, true) == ReadWords(rest, word + v, false)
  {
    if v == "" {
      assert Escape(v) + "'" + rest == "'" + rest;
      assert ("'" + rest)[1..] == rest;
      assert word + v == word;
    } else {
      var tail := Escape(v[1..]) + "'" + rest;
      ReadEscape(v[1..], rest, word + [v[0]]);
      assert word + [v[0]] + v[1..] == word + v;
      if v[0] == '\'' {
        var s := "'\\''" + tail;
        assert Escape(v) + "'" + rest == s;
        assert s[0] == '\'' && s[1..][0] == '\\' && s[1..][1] == '\'' && s[1..][2..][0] == '\'';
        assert s[1..][2..][1..] == tail;
        calc {
          ReadWords(s, word, true);
          ReadWords(s[1..], word, false);
          ReadWords(s[1..][2..], word + [v[0]], false);
          ReadWords(tail, word + [v[0]], true);
        }
      } else {
        assert Escape(v) + "'" + rest == [v[0]] + tail;
        assert ([v[0]] + tail)[1..] == tail;
      }
    }
  }

  /** Read by the shell, shell_quote's output denotes exactly its input, whatever follows. */
  lemma ReadQuoted(v: string, rest: string, word: string)
    ensures ReadWords(Quoted(v) + rest, word, false) == ReadWords(rest, word + v, false)
  {
    ReadEscape(v, rest, word);
    var e := Escape(v);
    assert Quoted(v) == "'" + e + "'";
    ConcatAssoc("'" + e, "'", rest);
    ConcatAssoc("'", e, "'" + rest);
    ConcatAssoc(e, "'", rest);
    assert ("'" + (e + "'" + rest))[1..] == e + "'" + rest;
  }

  // ---------------------------------------------------------------------------------------
  // The driver command line.

  /** " 'a1' 'a2' ..." for the arguments after the driver path. */
  function QuotedArgs(args: seq<string>): string {
    if args == [] then "" else " " + Quoted(args[0]) + QuotedArgs(args[1..])
  }

  /** The command passed to std::system: the quoted driver path, then each quoted argument. */
  function DriverCommand(driverPath: string, args: seq<string>): string {
    Quoted(driverPath) + QuotedArgs(args)
  }

  lemma {:induction false} QuotedArgsAppend(args: seq<string>, a: string)
    ensures QuotedArgs(args + [a]) == QuotedArgs(args) + " " + Quoted(a)
  {
    if args == [] {
      assert [] + [a] == [a];
    } else {
      var h := " " + Quoted(args[0]);
      var t := QuotedArgs(args[1..]);
      assert (args + [a])[1..] == args[1..] + [a];
      QuotedArgsAppend(args[1..], a);
      ConcatAssoc(h, t + " ", Quoted(a));
      ConcatAssoc(h, t, " ");
    }
  }

  lemma {:induction false} ReadQuotedArgs(args: seq<string>, word: string)
    ensures ReadWords(QuotedArgs(args), word, false) == Some([word] + args)
  {
    if args == [] {
      assert [word] + args == [word];
    } else {
      var after := Quoted(args[0]) + QuotedArgs(args[1..]);
      assert QuotedArgs(args) == " " + after;
      assert (" " + after)[1..] == after;
      ReadQuoted(args[0], QuotedArgs(args[1..]), "");
      assert "" + args[0] == args[0];
      ReadQuotedArgs(args[1..], args[0]);
      assert ReadWords(after, "", false) == Some([args[0]] + args[1..]);
      assert [args[0]] + args[1..] == args;
    }
  }

  /** The shell splits the driver command back into the driver path and the arguments, in order. */
  lemma DriverCommandWords(driverPath: string, args: seq<string>)
    ensures ReadWords(DriverCommand(driverPath, args), "", false) == Some([driverPath] + args)
  {
    ReadQuoted(driverPath, QuotedArgs(args), "");
    assert "" + driverPath == driverPath;
    ReadQuotedArgs(args, driverPath);
  }

  /** Streaming one more quoted argument extends the command by that argument. */
  lemma CommandStep(driverPath: string, args: seq<string>, i: nat)
    requires i < |args|
    ensures Quoted(driverPath) + QuotedArgs(args[..i]) + " " + Quoted(args[i])
         == Quoted(driverPath) + QuotedArgs(args[..i + 1])
  {
    assert args[..i + 1] == args[..i] + [args[i]];
    QuotedArgsAppend(args[..i], args[i]);
  }

  /** Builds the command as the ostringstream does (nuxsec.cc:171-176). */
  method BuildCommand(driverPath: string, args: seq<string>) returns (command: string)
    ensures command == DriverCommand(driverPath, args)
  {
    command := ShellQuote(driverPath);
    var i := 0;
    while i < |args|
      invariant 0 <= i <= |args|
      invariant command == Quoted(driverPath) + QuotedArgs(args[..i])
    {
      var q := ShellQuote(args[i]);
      CommandStep(driverPath, args, i);
      command := command + " " + q;
      i := i + 1;
    }
    assert args[..i] == args;
  }

  // ---------------------------------------------------------------------------------------
  // The exit status of the child.

  /**
   * The exit code returned for the value of std::system (nuxsec.cc:178-193), with the glibc
   * encoding of a wait status: the low seven bits hold the terminating signal (0 for a normal
   * exit, 0x7f for a stopped child) and bits 8-15 hold the exit status. For a two's complement
   * int, `x & 0x7f` is the Euclidean `x % 128` and `(x & 0xff00) >> 8` is `(x / 256) % 256`.
   */
  function ExitCode(driverPath: string, status: int): (r: Result<int>)
    ensures status == -1 <==> r.Err?
    ensures r.Err? ==> r.msg == "Failed to launch driver: " + driverPath
  {
    if status == -1 then Err("Failed to launch driver: " + driverPath)
    else if status % 128 == 0 then Ok((status / 256) % 256)
    else if status % 128 != 127 then Ok(128 + status % 128)
    else Ok(status)
  }

  /** A normal exit with status `code` returns `code`. */
  lemma ExitedReturnsStatus(driverPath: string, code: int)
    requires 0 <= code < 256
    ensures ExitCode(driverPath, code * 256) == Ok(code)
  {
    assert (code * 256) % 128 == 0;
    assert (code * 256) / 256 == code;
  }

  /** Death by signal `sig` (with or without a core dump, bit 7) returns 128 + sig. */
  lemma SignaledReturns128PlusSignal(driverPath: string, sig: int, coreDumped: bool)
    requires 1 <= sig < 127
    ensures ExitCode(driverPath, sig + (if coreDumped then 128 else 0)) == Ok(128 + sig)
  {
    var s := sig + (if coreDumped then 128 else 0);
    assert s % 128 == sig;
  }

  /**
   * dispatch_driver_command (nuxsec.cc:163-194). The resolved driver path, whether it exists and
   * whether it is executable are given; `system` stands for std::system.
   */
  method DispatchDriver(driverPath: string, exists_: bool, executable: bool, args: seq<string>,
                        system: string -> int) returns (r: Result<int>)
    ensures exists_ && !executable ==> r == Err("Driver is not executable: " + driverPath)
    ensures !(exists_ && !executable) ==> r == ExitCode(driverPath, system(DriverCommand(driverPath, args)))
  {
    if exists_ && !executable {
      return Err("Driver is not executable: " + driverPath);
    }
    var command := BuildCommand(driverPath, args);
    r := ExitCode(driverPath, system(command));
  }

  // ---------------------------------------------------------------------------------------
  // Sub-command routing.

  /** The driver executable of each driver command (nuxsec.cc:364-368). */
  const DriverMap: seq<(string, string)> :=
    [("art", "nuxsecArtFileIOdriver"), ("sample", "nuxsecSampleIOdriver"), ("event", "nuxsecEventIOdriver")]

  function LookupDriver(table: seq<(string, string)>, command: string): (r: Option<string>)
    ensures r.None? <==> forall i :: 0 <= i < |table| ==> table[i].0 != command
    ensures r.Some? ==> exists i :: 0 <= i < |table| && table[i] == (command, r.value)
  {
    if table == [] then None
    else if table[0].0 == command then Some(table[0].1)
    else
      var r := LookupDriver(table[1..], command);
      assert r.Some? ==> table[1..][0..] == table[1..];
      r
  }

  /** What main does with its arguments. */
  datatype Action = Exit(code: int) | Driver(driverName: string, args: seq<string>) | Macro(args: seq<string>)

  /** main (nuxsec.cc:344-385); `argv` includes the program name. */
  function Dispatch(argv: seq<string>): (a: Action)
    ensures |argv| < 2 ==> a == Exit(1)
    ensures |argv| >= 2 && argv[1] in ["help", "-h", "--help"] ==> a == Exit(0)
    ensures |argv| >= 2 && argv[1] == "art" ==> a == Driver("nuxsecArtFileIOdriver", argv[2..])
    ensures |argv| >= 2 && argv[1] == "sample" ==> a == Driver("nuxsecSampleIOdriver", argv[2..])
    ensures |argv| >= 2 && argv[1] == "event" ==> a == Driver("nuxsecEventIOdriver", argv[2..])
    ensures |argv| >= 2 && argv[1] == "macro" ==> a == Macro(argv[2..])
    ensures |argv| >= 2 && argv[1] !in ["help", "-h", "--help", "art", "sample", "event", "macro"] ==> a == Exit(1)
  {
    if |argv| < 2 then Exit(1)
    else
      var command := argv[1];
      var args := argv[2..];
      if command == "help" || command == "-h" || command == "--help" then Exit(0)
      else match LookupDriver(DriverMap, command)
        case Some(driver) => Driver(driver, args)
        case None => if command == "macro" then Macro(args) else Exit(1)
  }

  /** What handle_macro_command runs. */
  datatype MacroAction = UsageAndList | ListMacros | RunMacro(macroName: string, call: string)

  /** The argument rules of handle_macro_command (nuxsec.cc:280-340). */
  function MacroPlan(args: seq<string>): (r: Result<MacroAction>)
    ensures args == [] || (|args| == 1 && IsHelpArg(args[0])) ==> r == Ok(UsageAndList)
    ensures r.Err? ==> r.msg == UsageMacro
    ensures |args| > 0 && !(|args| == 1 && IsHelpArg(args[0])) && Trimmed(args[0]) == "list" ==>
      (r.Ok? <==> |args| == 1) && (r.Ok? ==> r.value == ListMacros)
    ensures |args| > 0 && !(|args| == 1 && IsHelpArg(args[0])) && Trimmed(args[0]) == "run" ==>
      (r.Ok? <==> 2 <= |args| <= 3)
      && (r.Ok? ==> r.value == RunMacro(Trimmed(args[1]), if |args| == 3 then Trimmed(args[2]) else ""))
    ensures |args| > 0 && !(|args| == 1 && IsHelpArg(args[0])) && Trimmed(args[0]) !in ["list", "run"] ==>
      (r.Ok? <==> |args| <= 2)
      && (r.Ok? ==> r.value == RunMacro(Trimmed(args[0]), if |args| == 2 then Trimmed(args[1]) else ""))
  {
    if args == [] || (|args| == 1 && IsHelpArg(args[0])) then Ok(UsageAndList)
    else
      var verb := Trimmed(args[0]);
      var rest := args[1..];
      if verb == "list" then
        (if rest != [] then Err(UsageMacro) else Ok(ListMacros))
      else if verb == "run" then
        (if rest == [] || |rest| > 2 then Err(UsageMacro)
         else Ok(RunMacro(Trimmed(rest[0]), if |rest| == 2 then Trimmed(rest[1]) else "")))
      else if |rest| > 1 then Err(UsageMacro)
      else Ok(RunMacro(verb, if rest == [] then "" else Trimmed(rest[0])))
  }
}
