/**
 * The anonymisation step of the marketplace data set (AI/model.py, lines 17-34).
 *
 * A pandas `DataFrame` is class `DataFrame`: an ordered list of column names, a column of
 * cells per name and a common height. `read_csv` and `to_csv` are not modelled and the data
 * frame read from the file is an input. The step copies the frame, replaces the names,
 * buckets the ages and overwrites the sensitive columns of the copy in a loop. It is proved
 * against the value-level `Anonymised`, and the promised properties are lemmas about that.
 */
module Anonymise {
  import opened Wrappers
  import opened JsValues

  /** A cell as pandas holds it after `read_csv`. `NaNCell` is a missing value. */
  datatype Cell = IntCell(i: int) | FloatCell(x: real) | NaNCell | TextCell(s: string)

  /** The value of a data frame: column order, the cells of each column, and the row count. */
  datatype Table = Table(columns: seq<string>, cells: map<string, seq<Cell>>, height: nat)

  predicate WellFormed(t: Table) {
    (forall i, j :: 0 <= i < j < |t.columns| ==> t.columns[i] != t.columns[j]) &&
    (forall c :: c in t.cells ==> c in t.columns) &&
    (forall i :: 0 <= i < |t.columns| ==> t.columns[i] in t.cells) &&
    (forall c :: c in t.cells ==> |t.cells[c]| == t.height)
  }

  /** `df[name] = values`: an existing column is replaced in place, a new one goes last. */
  function Assign(t: Table, name: string, values: seq<Cell>): (r: Table)
    ensures r.height == t.height && r.cells == t.cells[name := values]
    ensures r.columns == if name in t.columns then t.columns else t.columns + [name]
  {
    Table(if name in t.columns then t.columns else t.columns + [name], t.cells[name := values], t.height)
  }

  lemma AssignWellFormed(t: Table, name: string, values: seq<Cell>)
    requires WellFormed(t) && |values| == t.height
    ensures WellFormed(Assign(t, name, values))
  {
  }

  /** The column a scalar assignment `df[name] = value` broadcasts. */
  function Constant(n: nat, value: Cell): (r: seq<Cell>)
    ensures |r| == n && forall k :: 0 <= k < n ==> r[k] == value
  {
    seq(n, k requires 0 <= k < n => value)
  }

  // ---------------------------------------------------------------- names

  /** `f"PatientX-{str(i+1).zfill(3)}"`. */
  function PatientName(i: nat): string {
    "PatientX-" + Zfill(NatToString(i + 1), 3)
  }

  /** Zero padding keeps a digit string's value. */
  lemma ZfillValue(s: string, width: nat)
    requires AllDigits(s)
    ensures AllDigits(Zfill(s, width)) && DigitsValue(Zfill(s, width)) == DigitsValue(s)
  {
    if |s| < width {
      LeadingZerosValue(width - |s|, s);
    }
  }

  /** Distinct rows get distinct names, however many rows there are. */
  lemma PatientNamesDistinct(i: nat, j: nat)
    requires i != j
    ensures PatientName(i) != PatientName(j)
  {
    PaddedNumbersDistinct(i + 1, j + 1);
    PrefixKeepsDistinct("PatientX-", Zfill(NatToString(i + 1), 3), Zfill(NatToString(j + 1), 3));
  }

  lemma PrefixKeepsDistinct(p: string, a: string, b: string)
    requires a != b
    ensures p + a != p + b
  {
    assert (p + a)[|p|..] == a && (p + b)[|p|..] == b;
  }

  /** The padded decimal texts of different numbers differ. */
  lemma PaddedNumbersDistinct(a: nat, b: nat)
    requires a != b
    ensures Zfill(NatToString(a), 3) != Zfill(NatToString(b), 3)
  {
    ZfillValue(NatToString(a), 3);
    ZfillValue(NatToString(b), 3);
    NatToStringValue(a);
    NatToStringValue(b);
  }

  /** The first row is `PatientX-001`; a thousandth row widens the number instead of cutting it. */
  lemma PatientNameExamples()
    ensures PatientName(0) == "PatientX-001" && PatientName(999) == "PatientX-1000"
  {
    assert NatToString(1) == "1";
    assert Zeros(2) == "00";
    assert Zfill("1", 3) == "001";
    assert NatToString(10) == "10" by { assert NatToString(10) == NatToString(1) + ['0']; }
    assert NatToString(100) == "100" by { assert NatToString(100) == NatToString(10) + ['0']; }
    assert NatToString(1000) == "1000" by { assert NatToString(1000) == NatToString(100) + ['0']; }
    assert Zfill("1000", 3) == "1000";
  }

  /** The list assigned to `df['name']`. */
  function NameColumn(n: nat): (r: seq<Cell>)
    ensures |r| == n && forall k :: 0 <= k < n ==> r[k] == TextCell(PatientName(k))
  {
    seq(n, k requires 0 <= k < n => TextCell(PatientName(k)))
  }

  // ---------------------------------------------------------------- ages

  /** Python's `int(x)` for a real: truncation toward zero. */
  function Trunc(x: real): (n: int)
    ensures x >= 0.0 ==> n as real <= x < n as real + 1.0
    ensures x < 0.0 ==> n as real - 1.0 < x <= n as real
  {
    if x >= 0.0 then x.Floor else -((-x).Floor)
  }

  /** Python's `int(cell)`: `None` where it raises (a NaN, or text that is not an optional sign
      followed by digits). */
  function IntOf(c: Cell): Option<int> {
    match c
    case IntCell(i) => Some(i)
    case FloatCell(x) => Some(Trunc(x))
    case NaNCell => None
    case TextCell(s) =>
      if s != [] && AllDigits(s) then Some(DigitsValue(s))
      else if |s| >= 2 && (s[0] == '-' || s[0] == '+') && AllDigits(s[1..]) then
        var v: int := DigitsValue(s[1..]);
        Some(if s[0] == '-' then -v else v)
      else None
  }

  /** `lower = (int(age) // 10) * 10`. Python's `//` floors, which for the divisor 10 is
      what Dafny's `/` does. */
  function Lower(age: int): int {
    (age / 10) * 10
  }

  /** `age_to_range`, after the `int` conversion. */
  function AgeToRange(age: int): string {
    IntToString(Lower(age)) + "-" + IntToString(Lower(age) + 10)
  }

  /** The bucket holds the age, starts at a multiple of ten and is ten wide. */
  lemma AgeBucket(age: int)
    ensures Lower(age) <= age < Lower(age) + 10 && Lower(age) % 10 == 0
  {
  }

  /** In a digit string followed by '-', the first '-' is the one after the digits. */
  lemma FirstDash(s: string, t: string)
    requires AllDigits(s)
    ensures (s + "-" + t)[|s|] == '-' && forall k :: 0 <= k < |s| ==> (s + "-" + t)[k] != '-'
  {
    assert forall k :: 0 <= k < |s| ==> (s + "-" + t)[k] == s[k];
  }

  /** Two digit strings each followed by '-' agree up to that '-'. */
  lemma DigitsBeforeDash(s1: string, t1: string, s2: string, t2: string)
    requires AllDigits(s1) && AllDigits(s2) && s1 + "-" + t1 == s2 + "-" + t2
    ensures s1 == s2
  {
    var w := s1 + "-" + t1;
    FirstDash(s1, t1);
    FirstDash(s2, t2);
    assert |s1| == |s2|;
    assert s1 == w[..|s1|] == s2;
  }

  /** Non-negative ages get the same label exactly when they share a decade. */
  lemma SameLabelSameDecade(a: nat, b: nat)
    ensures AgeToRange(a) == AgeToRange(b) <==> a / 10 == b / 10
  {
    if AgeToRange(a) == AgeToRange(b) {
      DigitsBeforeDash(NatToString(Lower(a)), IntToString(Lower(a) + 10), NatToString(Lower(b)), IntToString(Lower(b) + 10));
      NatToStringInjective(Lower(a), Lower(b));
    }
  }

  datatype AnonError = NoAgeColumn | AgeNotConvertible(row: nat)

  /** `age_to_range` on one cell: `None` where its `int` raises. */
  function RangeOf(c: Cell): (r: Option<Cell>)
    ensures r.Some? <==> IntOf(c).Some?
    ensures r.Some? ==> r.value == TextCell(AgeToRange(IntOf(c).value))
  {
    match IntOf(c)
    case None => None
    case Some(a) => Some(TextCell(AgeToRange(a)))
  }

  /** `df['age'].apply(age_to_range)`: the first row whose `int` raises stops it. */
  function AgeColumn(ages: seq<Cell>): (r: Result<seq<Cell>, nat>)
    ensures r.Ok? ==> |r.value| == |ages|
  {
    if ages == [] then Ok([])
    else match RangeOf(ages[0])
      case None => Err(0)
      case Some(cell) =>
        match AgeColumn(ages[1..])
        case Err(k) => Err(k + 1)
        case Ok(rest) => Ok([cell] + rest)
  }

  /** `apply` succeeds exactly when every age converts. */
  lemma {:induction false} AgeColumnOk(ages: seq<Cell>)
    ensures AgeColumn(ages).Ok? <==> forall k :: 0 <= k < |ages| ==> RangeOf(ages[k]).Some?
  {
    if ages != [] && RangeOf(ages[0]).Some? {
      var tail := ages[1..];
      AgeColumnOk(tail);
      assert forall k :: 1 <= k < |ages| ==> ages[k] == tail[k - 1];
    }
  }

  /** A successful `apply` gives each row the range of its age. */
  lemma {:induction false} AgeColumnValues(ages: seq<Cell>)
    requires AgeColumn(ages).Ok?
    ensures forall k :: 0 <= k < |ages| ==> RangeOf(ages[k]) == Some(AgeColumn(ages).value[k])
  {
    if ages != [] {
      var tail := ages[1..];
      AgeColumnValues(tail);
      var r := AgeColumn(ages).value;
      var rest := AgeColumn(tail).value;
      assert r == [RangeOf(ages[0]).value] + rest;
      forall k | 1 <= k < |ages|
        ensures RangeOf(ages[k]) == Some(r[k])
      {
        assert ages[k] == tail[k - 1] && r[k] == rest[k - 1];
      }
    }
  }

  /** A failed `apply` names the first row whose age does not convert. */
  lemma {:induction false} AgeColumnFailsAt(ages: seq<Cell>)
    requires AgeColumn(ages).Err?
    ensures var e := AgeColumn(ages).error;
      e < |ages| && RangeOf(ages[e]).None? && forall k :: 0 <= k < e ==> RangeOf(ages[k]).Some?
  {
    if RangeOf(ages[0]).Some? {
      var tail := ages[1..];
      AgeColumnFailsAt(tail);
      var e := AgeColumn(tail).error;
      assert AgeColumn(ages) == Err(e + 1);
      assert ages[e + 1] == tail[e];
      forall k | 1 <= k <= e
        ensures RangeOf(ages[k]).Some?
      {
        assert ages[k] == tail[k - 1];
      }
    }
  }

  /** `apply` succeeds exactly when every age converts, giving each row its range; otherwise it
      fails at the first row that does not. */
  lemma AgeColumnSpec(ages: seq<Cell>)
    ensures var r := AgeColumn(ages);
      (r.Ok? <==> forall k :: 0 <= k < |ages| ==> IntOf(ages[k]).Some?) &&
      (r.Ok? ==> forall k :: 0 <= k < |ages| ==> r.value[k] == TextCell(AgeToRange(IntOf(ages[k]).value))) &&
      (r.Err? ==> r.error < |ages| && IntOf(ages[r.error]).None? && forall k :: 0 <= k < r.error ==> IntOf(ages[k]).Some?)
  {
    AgeColumnOk(ages);
    if AgeColumn(ages).Ok? {
      AgeColumnValues(ages);
    } else {
      AgeColumnFailsAt(ages);
    }
  }

  // ---------------------------------------------------------------- hidden columns

  const HideCols: seq<string> := ["email", "phone", "hospital", "admission_date",
                                  "HbA1c", "Hemoglobin", "Cholesterol", "Blood_Pressure", "Heart_Rate", "BMI"]

  const Hidden: Cell := TextCell("Hidden")

  /** One pass of the loop: a present column is overwritten, an absent one is not added. */
  function HideOne(t: Table, col: string): Table {
    if col in t.columns then Assign(t, col, Constant(t.height, Hidden)) else t
  }

  /** The loop over `cols`, in order. */
  function HideAll(t: Table, cols: seq<string>): Table
    decreases |cols|
  {
    if cols == [] then t else HideOne(HideAll(t, cols[..|cols| - 1]), cols[|cols| - 1])
  }

  /** What the loop does to a well-formed frame: the same columns in the same order, the listed
      ones that are present all `Hidden`, every other one unchanged. */
  lemma {:induction false} HideAllEffect(t: Table, cols: seq<string>)
    requires WellFormed(t)
    ensures var r := HideAll(t, cols);
      WellFormed(r) && r.columns == t.columns && r.height == t.height &&
      (forall c :: c in r.cells <==> c in t.cells) &&
      (forall c :: c in t.cells ==> r.cells[c] == if c in cols then Constant(t.height, Hidden) else t.cells[c])
    decreases |cols|
  {
    if cols != [] {
      var init := cols[..|cols| - 1];
      HideAllEffect(t, init);
      var before := HideAll(t, init);
      var col := cols[|cols| - 1];
      if col in before.columns {
        AssignWellFormed(before, col, Constant(before.height, Hidden));
      }
      assert forall c :: c in cols <==> c in init || c == col;
    }
  }

  // ---------------------------------------------------------------- the whole step

  /** The frame after line 20. */
  function Named(t: Table): Table {
    Assign(t, "name", NameColumn(t.height))
  }

  /** The frame after line 27, with its age column `ranges`. */
  function Aged(t: Table, ranges: seq<Cell>): Table {
    Assign(Named(t), "age", ranges)
  }

  /** Lines 17-34 on the value of the frame. */
  function Anonymised(t: Table): Result<Table, AnonError> {
    var named := Named(t);
    if "age" !in named.cells then Err(NoAgeColumn)
    else match AgeColumn(named.cells["age"])
      case Err(k) => Err(AgeNotConvertible(k))
      case Ok(ranges) => Ok(HideAll(Aged(t, ranges), HideCols))
  }

  /** The step fails exactly without an `age` column or at the first age `int` refuses. */
  lemma AnonymisedFails(t: Table)
    requires WellFormed(t)
    ensures Anonymised(t) == Err(NoAgeColumn) <==> "age" !in t.columns
    ensures Anonymised(t).Err? && "age" in t.columns ==>
      Anonymised(t).error.AgeNotConvertible? && Anonymised(t).error.row < t.height &&
      IntOf(t.cells["age"][Anonymised(t).error.row]).None?
    ensures "age" in t.columns && (forall k :: 0 <= k < t.height ==> IntOf(t.cells["age"][k]).Some?) ==>
      Anonymised(t).Ok?
  {
    RewrittenNotHidden();
    if "age" in t.columns {
      AgeColumnSpec(t.cells["age"]);
    }
  }

  /** The two rewritten columns are not among the hidden ones. */
  lemma RewrittenNotHidden()
    ensures "name" !in HideCols && "age" !in HideCols && "age" != "name"
  {
  }

  /** The frame just before the loop: still well-formed, with the names and the ranges in place. */
  lemma {:induction false} AgedWellFormed(t: Table, ranges: seq<Cell>)
    requires WellFormed(t) && |ranges| == t.height
    ensures var aged := Aged(t, ranges);
      WellFormed(aged) && aged.height == t.height &&
      aged.cells == t.cells["name" := NameColumn(t.height)]["age" := ranges]
  {
    AssignWellFormed(t, "name", NameColumn(t.height));
    AssignWellFormed(Named(t), "age", ranges);
  }

  /** A successful step is the loop applied to the aged frame. */
  lemma AnonymisedIsHidden(t: Table)
    requires Anonymised(t).Ok?
    ensures "age" in t.cells && AgeColumn(t.cells["age"]).Ok?
    ensures Anonymised(t).value == HideAll(Aged(t, AgeColumn(t.cells["age"]).value), HideCols)
  {
    RewrittenNotHidden();
  }

  /** A successful step keeps the rows and the column order, adding `name` last if it was absent. */
  lemma AnonymisedShape(t: Table)
    requires WellFormed(t) && Anonymised(t).Ok?
    ensures var r := Anonymised(t).value;
      WellFormed(r) && r.height == t.height && "age" in t.columns &&
      r.columns == (if "name" in t.columns then t.columns else t.columns + ["name"])
  {
    AnonymisedIsHidden(t);
    RewrittenNotHidden();
    var ranges := AgeColumn(t.cells["age"]).value;
    AgedWellFormed(t, ranges);
    HideAllEffect(Aged(t, ranges), HideCols);
  }

  /** Each column of a successful step: the loop's effect on the aged frame. */
  lemma AnonymisedCell(t: Table, c: string)
    requires WellFormed(t) && Anonymised(t).Ok?
    ensures var r := Anonymised(t).value;
      "age" in t.cells && AgeColumn(t.cells["age"]).Ok? &&
      var cells := t.cells["name" := NameColumn(t.height)]["age" := AgeColumn(t.cells["age"]).value];
      (c in r.cells <==> c in cells) &&
      (c in cells ==> r.cells[c] == if c in HideCols then Constant(t.height, Hidden) else cells[c])
  {
    AnonymisedIsHidden(t);
    var ranges := AgeColumn(t.cells["age"]).value;
    AgedWellFormed(t, ranges);
    HideAllEffect(Aged(t, ranges), HideCols);
  }

  /** Column by column, what a successful step yields: the PatientX names, the age ranges, the
      listed columns `Hidden` where present, and every other column as it was. */
  lemma AnonymisedColumn(t: Table, c: string)
    requires WellFormed(t) && Anonymised(t).Ok?
    ensures var r := Anonymised(t).value;
      (c in r.cells <==> c in t.cells || c == "name") &&
      (c == "name" ==> r.cells[c] == NameColumn(t.height)) &&
      (c == "age" ==> c in t.cells && AgeColumn(t.cells[c]) == Ok(r.cells[c])) &&
      (c in HideCols && c in t.columns ==> r.cells[c] == Constant(t.height, Hidden)) &&
      (c in t.cells && c != "name" && c != "age" && c !in HideCols ==> r.cells[c] == t.cells[c])
  {
    AnonymisedCell(t, c);
    RewrittenNotHidden();
  }

  class DataFrame {
    var columns: seq<string>
    var cells: map<string, seq<Cell>>
    var height: nat

    function Snapshot(): Table
      reads this
    {
      Table(columns, cells, height)
    }

    ghost predicate Valid()
      reads this
    {
      WellFormed(Snapshot())
    }

    /** The frame `read_csv` produced. */
    constructor (t: Table)
      requires WellFormed(t)
      ensures Valid() && Snapshot() == t
    {
      columns, cells, height := t.columns, t.cells, t.height;
    }

    /** `df.copy()`: a new frame with the same contents. */
    constructor Copy(source: DataFrame)
      requires source.Valid()
      ensures Valid() && Snapshot() == source.Snapshot()
    {
      columns, cells, height := source.columns, source.cells, source.height;
    }

    /** `df[name] = values` with one value per row. */
    method SetColumn(name: string, values: seq<Cell>)
      requires Valid() && |values| == height
      modifies this
      ensures Valid() && Snapshot() == Assign(old(Snapshot()), name, values)
    {
      var t := Assign(Snapshot(), name, values);
      AssignWellFormed(Snapshot(), name, values);
      columns, cells := t.columns, t.cells;
    }
  }

  /** The loop of lines 32-34 on the copy. */
  method HideColumns(out: DataFrame)
    requires out.Valid()
    modifies out
    ensures out.Valid() && out.Snapshot() == HideAll(old(out.Snapshot()), HideCols)
  {
    ghost var start := out.Snapshot();
    for i := 0 to |HideCols|
      invariant out.Valid() && out.Snapshot() == HideAll(start, HideCols[..i])
    {
      ghost var done := HideCols[..i + 1];
      assert done[..i] == HideCols[..i] && done[i] == HideCols[i];
      if HideCols[i] in out.columns {
        out.SetColumn(HideCols[i], Constant(out.height, Hidden));
      }
    }
    assert HideCols[..|HideCols|] == HideCols;
  }

  /** Lines 17-34. The source frame is only read; on success the anonymised copy is returned. */
  method AnonymiseForMarketplace(df: DataFrame) returns (r: Result<DataFrame, AnonError>)
    requires df.Valid()
    ensures r.Ok? <==> Anonymised(df.Snapshot()).Ok?
    ensures r.Err? ==> Anonymised(df.Snapshot()) == Err(r.error)
    ensures r.Ok? ==> fresh(r.value) && r.value.Valid() && r.value.Snapshot() == Anonymised(df.Snapshot()).value
  {
    var out := new DataFrame.Copy(df);
    out.SetColumn("name", NameColumn(out.height));
    assert out.Snapshot() == Named(df.Snapshot());
    if "age" !in out.cells {
      return Err(NoAgeColumn);
    }
    var ranges := AgeColumn(out.cells["age"]);
    if ranges.Err? {
      return Err(AgeNotConvertible(ranges.error));
    }
    out.SetColumn("age", ranges.value);
    HideColumns(out);
    r := Ok(out);
  }
}
