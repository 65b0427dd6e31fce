/** macros/macro/include/MacroColumns.hh: column checks shared by the plotting macros. */
module MacroColumns {

  /** has_column (MacroColumns.hh:17-20): std::find over the column names. */
  function HasColumn(columns: seq<string>, column: string): (r: bool)
    ensures r <==> column in columns
  {
    if columns == [] then false
    else if columns[0] == column then true
    else
      assert columns == [columns[0]] + columns[1..];
      HasColumn(columns[1..], column)
  }

  /** The required names absent from `columns`, in required order. */
  function Absent(columns: seq<string>, required: seq<string>): (m: seq<string>)
    ensures |m| <= |required|
  {
    if required == [] then []
    else (if required[0] in columns then [] else [required[0]]) + Absent(columns, required[1..])
  }

  lemma {:induction false} AbsentAppend(columns: seq<string>, a: seq<string>, b: seq<string>)
    ensures Absent(columns, a + b) == Absent(columns, a) + Absent(columns, b)
  {
    if a == [] {
      assert a + b == b;
    } else {
      assert (a + b)[1..] == a[1..] + b;
      AbsentAppend(columns, a[1..], b);
    }
  }

  /** The absent names are exactly the required names not among the columns, none of them listed. */
  lemma {:induction false} AbsentSpec(columns: seq<string>, required: seq<string>)
    ensures forall x :: x in Absent(columns, required) <==> x in required && x !in columns
    ensures Absent(columns, required) == [] <==> forall x :: x in required ==> x in columns
    ensures |Absent(columns, required)| <= |required|
  {
    if required != [] {
      AbsentSpec(columns, required[1..]);
      assert required == [required[0]] + required[1..];
    }
  }

  /** missing_required_columns (MacroColumns.hh:22-34). */
  method MissingRequiredColumns(columns: seq<string>, required: seq<string>) returns (missing: seq<string>)
    ensures missing == Absent(columns, required)
  {
    missing := [];
    var i := 0;
    while i < |required|
      invariant 0 <= i <= |required|
      invariant missing == Absent(columns, required[..i])
    {
      AbsentAppend(columns, required[..i], [required[i]]);
      assert required[..i + 1] == required[..i] + [required[i]];
      var present := HasColumn(columns, required[i]);
      if !present {
        missing := missing + [required[i]];
      }
      i := i + 1;
    }
    assert required[..i] == required;
  }
}
