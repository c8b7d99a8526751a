/** Heuristic column detection: `detect_column`, `detect_numeric_column`
    and `detect_company_column`. Each scans the keys of the FIRST row, in
    insertion order, and returns the first key some row's cell under which
    passes a test. */
module Detect {
  import opened Wrappers
  import opened Text
  import opened Boards

  /** `detect_company_column` looks only at this many leading rows. */
  const SampleSize: nat := 20

  /** The first of `keys`, in order, that satisfies `p`. */
  function FirstKeyWhere(keys: seq<string>, p: string -> bool): Option<string> {
    if keys == [] then None
    else if p(keys[0]) then Some(keys[0])
    else FirstKeyWhere(keys[1..], p)
  }

  /** The search finds nothing exactly when no key passes, and otherwise
      a passing key with no passing key before it. */
  lemma {:induction false} FirstKeyWhereSpec(keys: seq<string>, p: string -> bool)
    ensures FirstKeyWhere(keys, p).None? <==> forall j :: 0 <= j < |keys| ==> !p(keys[j])
    ensures FirstKeyWhere(keys, p).Some? ==>
      exists j :: 0 <= j < |keys| && keys[j] == FirstKeyWhere(keys, p).value && p(keys[j]) &&
        forall j' :: 0 <= j' < j ==> !p(keys[j'])
  {
    if keys != [] && !p(keys[0]) {
      FirstKeyWhereSpec(keys[1..], p);
      if FirstKeyWhere(keys, p).Some? {
        var j :| 0 <= j < |keys[1..]| && keys[1..][j] == FirstKeyWhere(keys, p).value &&
          p(keys[1..][j]) && forall j' :: 0 <= j' < j ==> !p(keys[1..][j']);
        assert keys[j + 1] == keys[1..][j];
        forall j' | 0 <= j' < j + 1 ensures !p(keys[j']) {
          if j' > 0 {
            assert keys[j'] == keys[1..][j' - 1];
          }
        }
      } else {
        forall j | 0 <= j < |keys| ensures !p(keys[j]) {
          if j > 0 {
            assert keys[j] == keys[1..][j - 1];
          }
        }
      }
    } else if keys != [] {
      assert keys[0] == FirstKeyWhere(keys, p).value;
    }
  }

  /** Skipping a failing key does not change the search. */
  lemma FirstKeyWhereSkip(keys: seq<string>, j: nat, p: string -> bool)
    requires j < |keys|
    ensures FirstKeyWhere(keys[j..], p) ==
      if p(keys[j]) then Some(keys[j]) else FirstKeyWhere(keys[j + 1..], p)
  {
    assert keys[j..][1..] == keys[j + 1..];
  }

  /** The cell of a row under `key`, read as `str(d.get(key, "") or "")`. */
  function CellText(r: Row, key: string): string {
    TextOrEmpty(Get(r, Some(key)))
  }

  // ---------------------------------------------------------------------------
  // detect_column
  // ---------------------------------------------------------------------------

  /** Some row's cell under `key` is exactly one of `possible`. */
  predicate HasValueIn(rows: seq<Row>, key: string, possible: seq<string>) {
    exists i :: 0 <= i < |rows| && CellText(rows[i], key) in possible
  }

  function ColumnWithValueIn(rows: seq<Row>, possible: seq<string>): Option<string> {
    if rows == [] then None
    else FirstKeyWhere(rows[0].keys, k => HasValueIn(rows, k, possible))
  }

  /** `detect_column`: for each key of the first row, each row in turn. */
  method DetectColumn(rows: seq<Row>, possible: seq<string>) returns (col: Option<string>)
    ensures col == ColumnWithValueIn(rows, possible)
  {
    if rows == [] {
      return None;
    }
    var keys := rows[0].keys;
    ghost var p := k => HasValueIn(rows, k, possible);
    var j := 0;
    while j < |keys|
      invariant 0 <= j <= |keys|
      invariant FirstKeyWhere(keys[j..], p) == ColumnWithValueIn(rows, possible)
    {
      var key := keys[j];
      FirstKeyWhereSkip(keys, j, p);
      var i := 0;
      while i < |rows|
        invariant 0 <= i <= |rows|
        invariant forall i' :: 0 <= i' < i ==> CellText(rows[i'], key) !in possible
      {
        var value := TextOrEmpty(Get(rows[i], Some(key)));
        if value in possible {
          return Some(key);
        }
        i := i + 1;
      }
      j := j + 1;
    }
    return None;
  }

  // ---------------------------------------------------------------------------
  // detect_numeric_column
  // ---------------------------------------------------------------------------

  /** `value.replace(".", "").isdigit()`. */
  predicate IsNumericText(v: string) {
    IsDigits(RemoveDots(v))
  }

  /** A cell counts as numeric exactly when it has a character other than
      a dot and every character is a digit or a dot: "1.2.3" and "5."
      count; "", "." and "-3" do not. */
  lemma NumericTextIff(v: string)
    ensures IsNumericText(v) <==>
      (exists i :: 0 <= i < |v| && v[i] != '.') &&
      (forall i :: 0 <= i < |v| ==> IsAsciiDigit(v[i]) || v[i] == '.')
  {
    RemoveDotsSpec(v);
    var r := RemoveDots(v);
    if IsNumericText(v) {
      assert r[0] in r;
      assert r[0] in v;
      forall i | 0 <= i < |v| ensures IsAsciiDigit(v[i]) || v[i] == '.' {
        if v[i] != '.' {
          assert v[i] in r;
        }
      }
    } else if (exists i :: 0 <= i < |v| && v[i] != '.') &&
              (forall i :: 0 <= i < |v| ==> IsAsciiDigit(v[i]) || v[i] == '.') {
      var i :| 0 <= i < |v| && v[i] != '.';
      assert v[i] in r;
      forall k | 0 <= k < |r| ensures IsAsciiDigit(r[k]) {
        assert r[k] in v;
      }
    }
  }

  lemma NumericTextExamples()
    ensures IsNumericText("1.2.3") && IsNumericText("5.") && IsNumericText("250000")
    ensures !IsNumericText("") && !IsNumericText(".") && !IsNumericText("-3")
  {
    NumericTextIff("1.2.3");
    NumericTextIff("5.");
    NumericTextIff("250000");
    NumericTextIff(".");
    assert "-3"[0] == '-';
    NumericTextIff("-3");
  }

  predicate HasNumericValue(rows: seq<Row>, key: string) {
    exists i :: 0 <= i < |rows| && IsNumericText(CellText(rows[i], key))
  }

  function NumericColumn(rows: seq<Row>): Option<string> {
    if rows == [] then None
    else FirstKeyWhere(rows[0].keys, k => HasNumericValue(rows, k))
  }

  /** `detect_numeric_column`: the same scan with the numeric test. */
  method DetectNumericColumn(rows: seq<Row>) returns (col: Option<string>)
    ensures col == NumericColumn(rows)
  {
    if rows == [] {
      return None;
    }
    var keys := rows[0].keys;
    ghost var p := k => HasNumericValue(rows, k);
    var j := 0;
    while j < |keys|
      invariant 0 <= j <= |keys|
      invariant FirstKeyWhere(keys[j..], p) == NumericColumn(rows)
    {
      var key := keys[j];
      FirstKeyWhereSkip(keys, j, p);
      var i := 0;
      while i < |rows|
        invariant 0 <= i <= |rows|
        invariant forall i' :: 0 <= i' < i ==> !IsNumericText(CellText(rows[i'], key))
      {
        var value := TextOrEmpty(Get(rows[i], Some(key)));
        if IsNumericText(value) {
          return Some(key);
        }
        i := i + 1;
      }
      j := j + 1;
    }
    return None;
  }

  // ---------------------------------------------------------------------------
  // detect_company_column
  // ---------------------------------------------------------------------------

  /** `data[:20]`. */
  function Sample(rows: seq<Row>): (s: seq<Row>)
    ensures |s| <= SampleSize
    ensures s <= rows
    ensures |s| == if |rows| < SampleSize then |rows| else SampleSize
  {
    if |rows| <= SampleSize then rows else rows[..SampleSize]
  }

  /** `any("company" in v.lower() for v in sample)`. */
  predicate MentionsCompany(sample: seq<Row>, key: string) {
    exists i :: 0 <= i < |sample| && Contains(Lower(CellText(sample[i], key)), "company")
  }

  function CompanyColumn(rows: seq<Row>): Option<string> {
    if rows == [] then None
    else FirstKeyWhere(rows[0].keys, k => MentionsCompany(Sample(rows), k))
  }

  /** `detect_company_column`: for each key of the first row, the sampled
      cells are searched for "company" in any letter case. */
  method DetectCompanyColumn(rows: seq<Row>) returns (col: Option<string>)
    ensures col == CompanyColumn(rows)
  {
    if rows == [] {
      return None;
    }
    var keys := rows[0].keys;
    ghost var p := k => MentionsCompany(Sample(rows), k);
    var j := 0;
    while j < |keys|
      invariant 0 <= j <= |keys|
      invariant FirstKeyWhere(keys[j..], p) == CompanyColumn(rows)
    {
      var key := keys[j];
      FirstKeyWhereSkip(keys, j, p);
      if MentionsCompany(Sample(rows), key) {
        return Some(key);
      }
      j := j + 1;
    }
    return None;
  }

  /** Only the first twenty rows decide the company column: rows after
      them never change it. */
  lemma CompanyColumnSampled(rows: seq<Row>, later: seq<Row>)
    requires |rows| >= SampleSize
    ensures CompanyColumn(rows + later) == CompanyColumn(rows)
  {
    assert (rows + later)[..SampleSize] == rows[..SampleSize];
    assert Sample(rows + later) == Sample(rows);
    assert (rows + later)[0] == rows[0];
  }

  /** What the three detectors promise: nothing for no rows; otherwise a
      key of the first row whose cells pass that detector's test, with no
      passing key before it in that row, or nothing when no key there
      passes. */
  lemma DetectedColumns(rows: seq<Row>, possible: seq<string>)
    ensures rows == [] ==>
      ColumnWithValueIn(rows, possible) == None && NumericColumn(rows) == None && CompanyColumn(rows) == None
    ensures ColumnWithValueIn(rows, possible).Some? ==>
      rows != [] && ColumnWithValueIn(rows, possible).value in rows[0].keys &&
      HasValueIn(rows, ColumnWithValueIn(rows, possible).value, possible)
    ensures NumericColumn(rows).Some? ==>
      rows != [] && NumericColumn(rows).value in rows[0].keys &&
      HasNumericValue(rows, NumericColumn(rows).value)
    ensures CompanyColumn(rows).Some? ==>
      rows != [] && CompanyColumn(rows).value in rows[0].keys &&
      MentionsCompany(Sample(rows), CompanyColumn(rows).value)
    ensures rows != [] ==>
      (ColumnWithValueIn(rows, possible).None? <==>
         forall j :: 0 <= j < |rows[0].keys| ==> !HasValueIn(rows, rows[0].keys[j], possible)) &&
      (NumericColumn(rows).None? <==>
         forall j :: 0 <= j < |rows[0].keys| ==> !HasNumericValue(rows, rows[0].keys[j])) &&
      (CompanyColumn(rows).None? <==>
         forall j :: 0 <= j < |rows[0].keys| ==> !MentionsCompany(Sample(rows), rows[0].keys[j]))
  {
    if rows != [] {
      FirstKeyWhereSpec(rows[0].keys, k => HasValueIn(rows, k, possible));
      FirstKeyWhereSpec(rows[0].keys, k => HasNumericValue(rows, k));
      FirstKeyWhereSpec(rows[0].keys, k => MentionsCompany(Sample(rows), k));
    }
  }
}
