/**
 * framework/modules/plot/src/Plotter.cc: the plot options defaults, the file-name sanitiser and
 * the thousands grouping of formatted numbers.
 */
module Plotter {
  import opened Strings

  /** The plot options that apply_env_defaults fills (the other Options fields are not modelled). */
  class Options {
    var outDir: string
    var imageFormat: string

    constructor(outDir: string, imageFormat: string)
      ensures this.outDir == outDir && this.imageFormat == imageFormat
    {
      this.outDir := outDir;
      this.imageFormat := imageFormat;
    }

    /**
     * apply_env_defaults (Plotter.cc:89-100): fills each empty field from the environment
     * defaults (`plotOutputDir`, `plotImageFormat`) and keeps the caller's non-empty choices.
     */
    method ApplyEnvDefaults(plotOutputDir: string, plotImageFormat: string)
      modifies this
      ensures outDir == (if old(outDir) == "" then plotOutputDir else old(outDir))
      ensures imageFormat == (if old(imageFormat) == "" then plotImageFormat else old(imageFormat))
    {
      if outDir == "" {
        outDir := plotOutputDir;
      }
      if imageFormat == "" {
        imageFormat := plotImageFormat;
      }
    }
  }

  /** Applying the defaults twice is the same as applying them once. */
  method ApplyEnvDefaultsTwice(opt: Options, plotOutputDir: string, plotImageFormat: string)
    modifies opt
    ensures opt.outDir == (if old(opt.outDir) == "" then plotOutputDir else old(opt.outDir))
    ensures opt.imageFormat == (if old(opt.imageFormat) == "" then plotImageFormat else old(opt.imageFormat))
  {
    opt.ApplyEnvDefaults(plotOutputDir, plotImageFormat);
    opt.ApplyEnvDefaults(plotOutputDir, plotImageFormat);
  }

  /** The characters sanitise keeps. */
  predicate IsNameChar(c: char) {
    IsAlnum(c) || c == '_' || c == '-'
  }

  function SanitiseChar(c: char): (r: char)
    ensures IsNameChar(r)
    ensures IsNameChar(c) ==> r == c
  {
    if IsNameChar(c) then c else '_'
  }

  /** The value of sanitise: each character kept or replaced by '_', and "plot" for an empty name. */
  function Sanitised(name: string): (r: string)
    ensures name == "" ==> r == "plot"
    ensures name != "" ==> |r| == |name| && forall i :: 0 <= i < |name| ==> r[i] == SanitiseChar(name[i])
  {
    if name == "" then "plot" else seq(|name|, i requires 0 <= i < |name| => SanitiseChar(name[i]))
  }

  /** sanitise (Plotter.cc:182-202). */
  method Sanitise(name: string) returns (out: string)
    ensures out == Sanitised(name)
  {
    out := "";
    var i := 0;
    while i < |name|
      invariant 0 <= i <= |name|
      invariant |out| == i
      invariant forall k :: 0 <= k < i ==> out[k] == SanitiseChar(name[k])
    {
      if IsNameChar(name[i]) {
        out := out + [name[i]];
      } else {
        out := out + ['_'];
      }
      i := i + 1;
    }
    if out == "" {
      return "plot";
    }
  }

  /** The output uses only letters, digits, '_' and '-', and sanitising it again changes nothing. */
  lemma SanitisedIsClean(name: string)
    ensures forall i :: 0 <= i < |Sanitised(name)| ==> IsNameChar(Sanitised(name)[i])
    ensures Sanitised(Sanitised(name)) == Sanitised(name)
  {
    var r := Sanitised(name);
    assert r != "";
    assert "plot"[0] == 'p' && "plot"[1] == 'l' && "plot"[2] == 'o' && "plot"[3] == 't';
    assert forall i :: 0 <= i < |r| ==> IsNameChar(r[i]);
    assert Sanitised(r) == r;
  }

  // ---------------------------------------------------------------------------------------
  // Thousands grouping in fmt_commas (Plotter.cc:212-235).

  /** Whether a comma goes before integer digit `i` of an `n`-digit integer part. */
  predicate CommaBefore(n: int, i: int) {
    i != 0 && (n - i) % 3 == 0
  }

  /** The first `k` digits of `integer`, with their commas. */
  function GroupedPrefix(integer: string, k: nat): string
    requires k <= |integer|
  {
    if k == 0 then ""
    else GroupedPrefix(integer, k - 1) + (if CommaBefore(|integer|, k - 1) then "," else "") + [integer[k - 1]]
  }

  function Grouped(integer: string): string {
    GroupedPrefix(integer, |integer|)
  }

  /** The text without its commas. */
  function RemoveCommas(s: string): string {
    if s == "" then "" else RemoveCommas(s[..|s| - 1]) + (if s[|s| - 1] == ',' then "" else [s[|s| - 1]])
  }

  lemma {:induction false} RemoveCommasAppend(a: string, b: string)
    ensures RemoveCommas(a + b) == RemoveCommas(a) + RemoveCommas(b)
    decreases |b|
  {
    if b == "" {
      assert a + b == a;
    } else {
      assert (a + b)[..|a + b| - 1] == a + b[..|b| - 1];
      RemoveCommasAppend(a, b[..|b| - 1]);
    }
  }

  /** Removing the commas from the grouped prefix gives the digits back. */
  lemma {:induction false} GroupedPrefixDigits(integer: string, k: nat)
    requires k <= |integer| && ',' !in integer
    ensures RemoveCommas(GroupedPrefix(integer, k)) == integer[..k]
  {
    if k > 0 {
      GroupedPrefixDigits(integer, k - 1);
      var p := GroupedPrefix(integer, k - 1);
      var d := integer[k - 1];
      assert d in integer;
      var sep := if CommaBefore(|integer|, k - 1) then "," else "";
      var t := p + sep + [d];
      assert t[..|t| - 1] == p + sep;
      assert RemoveCommas(t) == RemoveCommas(p + sep) + [d];
      if sep != "" {
        assert (p + sep)[..|p + sep| - 1] == p;
      } else {
        assert p + sep == p;
      }
      assert integer[..k] == integer[..k - 1] + [d];
    }
  }

  /** With k >= 1 digits emitted, the commas so far are those before digits 1 .. k-1. */
  lemma {:induction false} GroupedPrefixCommas(integer: string, k: nat)
    requires 1 <= k <= |integer| && ',' !in integer
    ensures Count(GroupedPrefix(integer, k), ',') == (|integer| - 1) / 3 - (|integer| - k) / 3
  {
    var n := |integer|;
    if k == 1 {
      assert GroupedPrefix(integer, 1) == [integer[0]];
    } else {
      GroupedPrefixCommas(integer, k - 1);
      var sep := if CommaBefore(n, k - 1) then "," else "";
      CountAppend(GroupedPrefix(integer, k - 1) + sep, [integer[k - 1]], ',');
      CountAppend(GroupedPrefix(integer, k - 1), sep, ',');
      assert integer[k - 1] in integer;
      assert Count([integer[k - 1]], ',') == 0;
      if (n - (k - 1)) % 3 == 0 {
        assert (n - (k - 1)) / 3 == (n - k) / 3 + 1;
      } else {
        assert (n - (k - 1)) / 3 == (n - k) / 3;
      }
    }
  }

  /** A non-empty integer part of n digits gets (n - 1) / 3 commas: groups of three from the right. */
  lemma GroupedCommaCount(integer: string)
    requires |integer| > 0 && ',' !in integer
    ensures Count(Grouped(integer), ',') == (|integer| - 1) / 3
    ensures RemoveCommas(Grouped(integer)) == integer
  {
    GroupedPrefixCommas(integer, |integer|);
    GroupedPrefixDigits(integer, |integer|);
    assert integer[..|integer|] == integer;
  }

  /** The comma-grouping loop over the integer digits. */
  method GroupDigits(integer: string) returns (withCommas: string)
    ensures withCommas == Grouped(integer)
  {
    withCommas := "";
    var i := 0;
    while i < |integer|
      invariant 0 <= i <= |integer|
      invariant withCommas == GroupedPrefix(integer, i)
    {
      if i != 0 && (|integer| - i) % 3 == 0 {
        withCommas := withCommas + [','];
      }
      withCommas := withCommas + [integer[i]];
      i := i + 1;
    }
  }

  /** The grouped form of the formatted text: sign, grouped integer digits, then the fraction. */
  function Commas(text: string): string {
    var pos := IndexOf(text, '.');
    var integer := text[..pos];
    var fraction := text[pos..];
    if integer != "" && integer[0] == '-' then "-" + Grouped(integer[1..]) + fraction
    else Grouped(integer) + fraction
  }

  /**
   * The grouping part of fmt_commas (Plotter.cc:212-235), applied to the text the stream
   * formatted: splits at the first '.', sets a leading '-' aside, groups the integer digits and
   * puts the sign and the fraction back.
   */
  method FmtCommasOfText(text: string) returns (r: string)
    ensures r == Commas(text)
  {
    var pos := IndexOf(text, '.');
    var integer := if pos == |text| then text else text[..pos];
    var fraction := if pos == |text| then "" else text[pos..];
    assert integer == text[..pos] && fraction == text[pos..];
    var negative := false;
    if integer != "" && integer[0] == '-' {
      negative := true;
      integer := integer[1..];
    }
    var withCommas := GroupDigits(integer);
    if negative {
      withCommas := "-" + withCommas;
    }
    r := withCommas + fraction;
  }

  /**
   * Deleting the commas from the result gives back the formatted text, and the sign and the
   * fraction are kept as they were.
   */
  lemma CommasRoundTrip(text: string)
    requires ',' !in text
    ensures RemoveCommas(Commas(text)) == text
    ensures Commas(text)[|Commas(text)| - (|text| - IndexOf(text, '.'))..] == text[IndexOf(text, '.')..]
    ensures (|text| > 0 && text[0] == '-') <==> (|Commas(text)| > 0 && Commas(text)[0] == '-')
  {
    var pos := IndexOf(text, '.');
    var integer := text[..pos];
    var fraction := text[pos..];
    assert text == integer + fraction;
    assert ',' !in fraction && ',' !in integer;
    FractionKept(fraction);
    if integer != "" && integer[0] == '-' {
      NegativeRoundTrip(integer, fraction);
    } else {
      var g := Grouped(integer);
      assert Commas(text) == g + fraction;
      if integer != "" {
        GroupedCommaCount(integer);
        GroupedPrefixFirst(integer);
      }
      RemoveCommasAppend(g, fraction);
    }
  }

  lemma NegativeRoundTrip(integer: string, fraction: string)
    requires integer != "" && integer[0] == '-' && ',' !in integer && ',' !in fraction
    requires RemoveCommas(fraction) == fraction
    ensures RemoveCommas("-" + Grouped(integer[1..]) + fraction) == integer + fraction
  {
    var digits := integer[1..];
    assert ',' !in digits by {
      assert forall c :: c in digits ==> c in integer;
    }
    if digits != "" {
      GroupedCommaCount(digits);
    }
    RemoveCommasAppend("-", Grouped(digits));
    RemoveCommasAppend("-" + Grouped(digits), fraction);
    assert RemoveCommas("-") == "-" by {
      assert "-"[..0] == "";
    }
    assert integer == "-" + digits;
  }

  lemma {:induction false} FractionKept(fraction: string)
    requires ',' !in fraction
    ensures RemoveCommas(fraction) == fraction
    decreases |fraction|
  {
    if fraction != "" {
      FractionKept(fraction[..|fraction| - 1]);
      assert fraction == fraction[..|fraction| - 1] + [fraction[|fraction| - 1]];
    }
  }

  /** The grouped digits start with the first digit. */
  lemma {:induction false} GroupedPrefixFirst(integer: string)
    requires |integer| > 0
    ensures |Grouped(integer)| > 0 && Grouped(integer)[0] == integer[0]
  {
    PrefixFirst(integer, |integer|);
  }

  lemma {:induction false} PrefixFirst(integer: string, k: nat)
    requires 1 <= k <= |integer|
    ensures |GroupedPrefix(integer, k)| > 0 && GroupedPrefix(integer, k)[0] == integer[0]
  {
    if k > 1 {
      PrefixFirst(integer, k - 1);
    }
  }
}
