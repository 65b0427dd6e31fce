/**
 * io/macro/make_event_list.C: the choice of the event-list columns and the check that every
 * chosen column exists for a sample.
 */
module MakeEventList {
  import opened Outcomes
  import opened Strings
  import opened Sorting
  import opened AppUtils
  import opened Seqs

  /** The items split_csv keeps from the comma-separated fields: trimmed, non-empty, in order. */
  function CsvItems(fields: seq<string>): (items: seq<string>)
    ensures forall i :: 0 <= i < |items| ==> items[i] != "" && Trimmed(items[i]) == items[i]
  {
    if fields == [] then []
    else
      var t := Trimmed(fields[0]);
      TrimmedIdempotent(fields[0]);
      (if t != "" then [t] else []) + CsvItems(fields[1..])
  }

  lemma {:induction false} CsvItemsAppend(a: seq<string>, b: seq<string>)
    ensures CsvItems(a + b) == CsvItems(a) + CsvItems(b)
  {
    if a == [] {
      assert a + b == b;
    } else {
      var head := if Trimmed(a[0]) != "" then [Trimmed(a[0])] else [];
      assert (a + b)[0] == a[0] && (a + b)[1..] == a[1..] + b;
      assert CsvItems(a + b) == head + CsvItems(a[1..] + b);
      assert CsvItems(a) == head + CsvItems(a[1..]);
      CsvItemsAppend(a[1..], b);
      ConcatAssoc(head, CsvItems(a[1..]), CsvItems(b));
    }
  }

  /** One more field adds its trim, when that is not empty. */
  lemma CsvItemsStep(fields: seq<string>, i: nat)
    requires i < |fields|
    ensures CsvItems(fields[..i + 1]) == CsvItems(fields[..i]) + if Trimmed(fields[i]) != "" then [Trimmed(fields[i])] else []
  {
    CsvItemsAppend(fields[..i], [fields[i]]);
    assert fields[..i + 1] == fields[..i] + [fields[i]];
    assert [fields[i]][1..] == [];
  }

  /**
   * split_csv (make_event_list.C:61-73): reads the fields between commas with getline, trims
   * each and keeps the non-empty ones. A trailing empty field, which getline does not produce,
   * would be dropped anyway.
   */
  method SplitCsv(csv: string) returns (out: seq<string>)
    ensures out == CsvItems(Split(csv, ','))
  {
    var fields := Split(csv, ',');
    out := [];
    var i := 0;
    while i < |fields|
      invariant 0 <= i <= |fields|
      invariant out == CsvItems(fields[..i])
    {
      var item := Trim(fields[i]);
      CsvItemsStep(fields, i);
      if item != "" {
        out := out + [item];
      }
      i := i + 1;
    }
    assert fields[..i] == fields;
  }

  /** Every item is a trimmed, comma-free, non-empty piece of a field of `csv`. */
  lemma {:induction false} CsvItemsOfFields(fields: seq<string>)
    ensures forall x :: x in CsvItems(fields) ==> exists f :: f in fields && Trimmed(f) == x && x != ""
  {
    if fields != [] {
      CsvItemsOfFields(fields[1..]);
    }
  }

  /** Trimming only removes characters, so a character absent from `s` is absent from its trim. */
  lemma TrimmedKeepsOut(s: string, c: char)
    requires c !in s
    ensures c !in Trimmed(s)
  {
    TrimmedShape(s);
    var i := TrimStart(s);
    var j := TrimEnd(s, i);
    assert forall k :: 0 <= k < j - i ==> Trimmed(s)[k] == s[i + k];
  }

  lemma SplitCsvItems(csv: string)
    ensures forall x :: x in CsvItems(Split(csv, ',')) ==> x != "" && ',' !in x && Trimmed(x) == x
  {
    var fields := Split(csv, ',');
    CsvItemsOfFields(fields);
    SplitFields(csv, ',');
    forall x | x in CsvItems(fields)
      ensures ',' !in x
    {
      var f :| f in fields && Trimmed(f) == x && x != "";
      TrimmedKeepsOut(f, ',');
    }
  }

  /** default_event_columns (make_event_list.C:75-106). */
  const DefaultEventColumns: seq<string> := [
    "analysis_channels", "w_nominal",
    "sel_trigger", "sel_slice", "sel_fiducial", "sel_topology", "sel_muon",
    "sel_inclusive_mu_cc", "sel_reco_fv", "sel_triggered_slice", "sel_triggered_muon",
    "reco_neutrino_vertex_sce_x", "reco_neutrino_vertex_sce_y", "reco_neutrino_vertex_sce_z",
    "in_reco_fiducial", "is_signal"]

  /** std::unique: drops each element equal to its predecessor. */
  function Unique(s: seq<string>): (r: seq<string>)
    ensures forall x :: x in r <==> x in s
    ensures |s| > 0 ==> |r| > 0 && r[0] == s[0]
  {
    if |s| <= 1 then s
    else if s[0] == s[1] then
      var r := Unique(s[1..]);
      assert s[1] in s[1..];
      r
    else [s[0]] + Unique(s[1..])
  }

  predicate StrictlyAscending(s: seq<string>) {
    forall i, j :: 0 <= i < j < |s| ==> Lt(s[i], s[j])
  }

  lemma {:induction false} UniqueOfSorted(s: seq<string>)
    requires SortedBy(s, Le)
    ensures StrictlyAscending(Unique(s))
  {
    if |s| > 1 {
      assert SortedBy(s[1..], Le);
      UniqueOfSorted(s[1..]);
      if s[0] != s[1] {
        var r := Unique(s[1..]);
        forall y | y in r
          ensures Lt(s[0], y)
        {
          var k :| 1 <= k < |s| && s[k] == y by {
            assert y in s[1..];
          }
          assert Le(s[1], y) by {
            if k > 1 {
              assert Le(s[1], s[k]);
            }
          }
          if s[1] != y {
            LtTransitive(s[0], s[1], y);
          }
        }
        assert forall j :: 0 < j < |[s[0]] + r| ==> ([s[0]] + r)[j] == r[j - 1];
      }
    }
  }

  /** merge_unique (make_event_list.C:108-114): append, sort, drop duplicates. */
  function MergeUnique(a: seq<string>, b: seq<string>): seq<string> {
    Unique(Sort(a + b, Le))
  }

  /** The merged list is strictly ascending and holds exactly the names of either input. */
  lemma MergeUniqueSpec(a: seq<string>, b: seq<string>)
    ensures StrictlyAscending(MergeUnique(a, b))
    ensures forall x :: x in MergeUnique(a, b) <==> x in a || x in b
  {
    LeIsTotalOrder();
    SortSorted(a + b, Le);
    UniqueOfSorted(Sort(a + b, Le));
    forall x ensures x in Sort(a + b, Le) <==> x in a + b {
      assert x in Sort(a + b, Le) <==> x in multiset(Sort(a + b, Le));
      assert x in a + b <==> x in multiset(a + b);
    }
  }

  /** The snapshot column list (make_event_list.C:166-172). */
  function EventColumns(extraColumnsCsv: string): seq<string> {
    if extraColumnsCsv == "" then DefaultEventColumns
    else MergeUnique(DefaultEventColumns, CsvItems(Split(extraColumnsCsv, ',')))
  }

  /** Every default column is always snapshotted; without extras the list is the default one. */
  lemma EventColumnsContainDefaults(extraColumnsCsv: string)
    ensures extraColumnsCsv == "" ==> EventColumns(extraColumnsCsv) == DefaultEventColumns
    ensures forall c :: c in DefaultEventColumns ==> c in EventColumns(extraColumnsCsv)
    ensures forall c :: c in CsvItems(Split(extraColumnsCsv, ',')) ==> c in EventColumns(extraColumnsCsv)
  {
    if extraColumnsCsv != "" {
      MergeUniqueSpec(DefaultEventColumns, CsvItems(Split(extraColumnsCsv, ',')));
    }
  }

  /** The requested columns a sample lacks, in request order; sample_id is added later. */
  function Missing(have: set<string>, cols: seq<string>): (m: seq<string>)
    ensures forall c :: c in m <==> c in cols && c != "sample_id" && c !in have
  {
    if cols == [] then []
    else
      (if cols[0] != "sample_id" && cols[0] !in have then [cols[0]] else []) + Missing(have, cols[1..])
  }

  lemma {:induction false} MissingAppend(have: set<string>, a: seq<string>, b: seq<string>)
    ensures Missing(have, a + b) == Missing(have, a) + Missing(have, b)
  {
    if a == [] {
      assert a + b == b;
    } else {
      assert (a + b)[1..] == a[1..] + b;
      MissingAppend(have, a[1..], b);
    }
  }

  function MissingLines(missing: seq<string>): string {
    if missing == [] then "" else "  - " + missing[0] + "\n" + MissingLines(missing[1..])
  }

  lemma {:induction false} MissingLinesAppend(a: seq<string>, m: string)
    ensures MissingLines(a + [m]) == MissingLines(a) + "  - " + m + "\n"
  {
    if a == [] {
      assert a + [m] == [m];
    } else {
      assert (a + [m])[1..] == a[1..] + [m];
      MissingLinesAppend(a[1..], m);
    }
  }

  /** The fixed opening and closing text of require_columns' message. */
  const MissingIntro: string := "make_event_list: missing columns after derivation for sample '"
  const MissingFix: string := "Fix: remove these from extra_columns_csv, or ensure they exist/are defined for all sample types.\n"

  /** The message of the exception require_columns throws. */
  function MissingMessage(sampleName: string, missing: seq<string>): string {
    MissingIntro + sampleName + "':\n"
    + MissingLines(missing)
    + MissingFix
  }

  /** The scan of require_columns over the requested columns (make_event_list.C:123-131). */
  method CollectMissing(have: set<string>, cols: seq<string>) returns (missing: seq<string>)
    ensures missing == Missing(have, cols)
  {
    missing := [];
    var i := 0;
    while i < |cols|
      invariant 0 <= i <= |cols|
      invariant missing == Missing(have, cols[..i])
    {
      MissingAppend(have, cols[..i], [cols[i]]);
      assert cols[..i + 1] == cols[..i] + [cols[i]];
      if cols[i] != "sample_id" && cols[i] !in have {
        missing := missing + [cols[i]];
      }
      i := i + 1;
    }
    assert cols[..i] == cols;
  }

  /** The message stream of require_columns (make_event_list.C:135-140). */
  method FormatMissing(sampleName: string, missing: seq<string>) returns (err: string)
    ensures err == MissingMessage(sampleName, missing)
  {
    var head := MissingIntro + sampleName + "':\n";
    var lines := "";
    var k := 0;
    while k < |missing|
      invariant 0 <= k <= |missing|
      invariant lines == MissingLines(missing[..k])
    {
      MissingLinesAppend(missing[..k], missing[k]);
      assert missing[..k + 1] == missing[..k] + [missing[k]];
      lines := lines + "  - " + missing[k] + "\n";
      k := k + 1;
    }
    assert missing[..k] == missing;
    assert lines == MissingLines(missing);
    err := head + lines + MissingFix;
  }

  /**
   * require_columns (make_event_list.C:116-142): fails exactly when some requested column other
   * than sample_id is absent, and then lists every missing column.
   */
  method RequireColumns(names: seq<string>, cols: seq<string>, sampleName: string) returns (r: Outcome)
    ensures r.Pass? <==> forall c :: c in cols && c != "sample_id" ==> c in names
    ensures r.Fail? ==> r.msg == MissingMessage(sampleName, Missing((set n | n in names), cols))
  {
    var have := set n | n in names;
    var missing := CollectMissing(have, cols);
    if missing == [] {
      forall c | c in cols && c != "sample_id"
        ensures c in names
      {
        assert c !in missing;
        assert c in have;
      }
      return Pass;
    }
    var first := missing[0];
    assert first in missing;
    assert first in cols && first != "sample_id" && first !in names;
    var err := FormatMissing(sampleName, missing);
    return Fail(err);
  }
}
