/** The statistics helpers: the column guards of the mean, median and pay-gap
    helpers, the pay-gap fill, and the quantile table. Numbers are modelled as
    integers; a value that is missing (NaN) is `None`. The grouping, means,
    medians and rounding are pandas' and are left out; the pay-gap formula is
    a parameter. */
module Stats {
  import opened Common

  /** A cell of a statistics table as it arrives: a number, a missing value,
      or text that `pd.to_numeric` may or may not convert. */
  datatype StatCell = Number(n: int) | Missing | Text(s: string)

  datatype StatTable = StatTable(columns: seq<string>, rows: seq<seq<StatCell>>) {
    predicate Rectangular() {
      forall i :: 0 <= i < |rows| ==> |rows[i]| == |columns|
    }
  }

  type Data = t: StatTable | t.Rectangular() witness StatTable([], [])

  /** `pd.to_numeric` on one text: not convertible (None), NaN (Some(None)),
      or a number. */
  type Numeric = string -> Option<Option<int>>

  const NonNumericMessage: string := "ERROR - Value column contains non-numeric values."

  /** The position of the first `x` in `s`. */
  function IndexOf(s: seq<string>, x: string): (k: Option<nat>)
    ensures k.None? <==> x !in s
    ensures k.Some? ==> k.value < |s| && s[k.value] == x && x !in s[..k.value]
  {
    if s == [] then None
    else if s[0] == x then Some(0)
    else
      var k := IndexOf(s[1..], x);
      if k.Some? then
        assert s[..k.value + 1] == [s[0]] + s[1..][..k.value];
        Some(k.value + 1)
      else None
  }

  /** `df[name]`, the first column of that name, top to bottom. */
  function ColumnNamed(t: Data, name: string): (vs: seq<StatCell>)
    requires name in t.columns
    ensures |vs| == |t.rows|
    ensures forall i :: 0 <= i < |vs| ==> vs[i] == t.rows[i][IndexOf(t.columns, name).value]
  {
    var j := IndexOf(t.columns, name).value;
    seq(|t.rows|, i requires 0 <= i < |t.rows| => t.rows[i][j])
  }

  /** One cell through `pd.to_numeric(errors='raise')`: None when it cannot
      be converted, else the number or NaN. */
  function ToNumber(c: StatCell, parse: Numeric): Option<Option<int>> {
    match c
    case Number(n) => Some(Some(n))
    case Missing => Some(None)
    case Text(s) => parse(s)
  }

  /** A column through `pd.to_numeric(errors='raise')`: every cell converted,
      or the helpers' ValueError when one cannot be. */
  function ToNumeric(cells: seq<StatCell>, parse: Numeric): (r: Result<seq<Option<int>>>)
    ensures r.Ok? <==> forall i :: 0 <= i < |cells| ==> ToNumber(cells[i], parse).Some?
    ensures r.Ok? ==> (|r.value| == |cells| &&
      forall i :: 0 <= i < |cells| ==> r.value[i] == ToNumber(cells[i], parse).value)
    ensures r.Err? ==> r.error == ValueError(NonNumericMessage)
  {
    if cells == [] then Ok([])
    else
      var head := ToNumber(cells[0], parse);
      var rest := ToNumeric(cells[1..], parse);
      assert forall i :: 1 <= i < |cells| ==> cells[i] == cells[1..][i - 1];
      if head.None? || rest.Err? then Err(ValueError(NonNumericMessage))
      else Ok([head.value] + rest.value)
  }

  /** `pd.to_numeric(df[name], errors='raise')` under the helpers' bare
      `except`. A label shared by several columns selects a frame, which
      `to_numeric` rejects, so it fails like a non-numeric column. */
  function ConvertColumn(t: Data, name: string, parse: Numeric): (r: Result<seq<Option<int>>>)
    requires name in t.columns
    ensures r.Ok? <==> (multiset(t.columns)[name] == 1 &&
      forall i :: 0 <= i < |t.rows| ==> ToNumber(t.rows[i][IndexOf(t.columns, name).value], parse).Some?)
    ensures r.Err? ==> r.error == ValueError(NonNumericMessage)
    ensures r.Ok? ==> (|r.value| == |t.rows| &&
      forall i :: 0 <= i < |t.rows| ==> r.value[i] == ToNumber(t.rows[i][IndexOf(t.columns, name).value], parse).value)
  {
    if multiset(t.columns)[name] > 1 then Err(ValueError(NonNumericMessage))
    else ToNumeric(ColumnNamed(t, name), parse)
  }

  /** The error `groupby` raises for a key that labels several columns. */
  function GrouperError(name: string): Exception {
    ValueError("Grouper for '" + name + "' not 1-dimensional")
  }

  /** The first of `keys` that labels more than one of `columns`. */
  function FirstShared(keys: seq<string>, columns: seq<string>): (d: Option<string>)
    ensures d.None? <==> forall i :: 0 <= i < |keys| ==> multiset(columns)[keys[i]] <= 1
    ensures d.Some? ==> exists i :: 0 <= i < |keys| && keys[i] == d.value && multiset(columns)[d.value] > 1 &&
                                    forall j :: 0 <= j < i ==> multiset(columns)[keys[j]] <= 1
  {
    if keys == [] then None
    else if multiset(columns)[keys[0]] > 1 then Some(keys[0])
    else
      var d := FirstShared(keys[1..], columns);
      assert forall i :: 1 <= i < |keys| ==> keys[i] == keys[1..][i - 1];
      if d.Some? then
        var i :| 0 <= i < |keys[1..]| && keys[1..][i] == d.value && multiset(columns)[d.value] > 1 &&
                 forall j :: 0 <= j < i ==> multiset(columns)[keys[1..][j]] <= 1;
        assert keys[i + 1] == d.value;
        d
      else d
  }

  // ---------------------------------------------------------------------
  // Guards

  /** `list.remove(x)`: the list without its first `x`. */
  function RemoveFirst(s: seq<string>, x: string): (r: seq<string>)
    requires x in s
    ensures |r| == |s| - 1
    ensures multiset(r) == multiset(s) - multiset{x}
    ensures var k := IndexOf(s, x).value; r == s[..k] + s[k + 1..]
  {
    var k := IndexOf(s, x).value;
    assert s == s[..k] + [s[k]] + s[k + 1..];
    s[..k] + s[k + 1..]
  }

  /** The checks of `fn_get_mean`: the group columns (every column but the
      first "value"), the converted value column, and `groupby`'s refusal of
      a group label that names several columns. */
  function MeanInputs(t: Data, parse: Numeric): (r: Result<(seq<string>, seq<Option<int>>)>)
    ensures "value" !in t.columns ==> r == Err(KeyError("ERROR - Value column missing."))
    ensures "value" in t.columns && |t.columns| == 1 ==>
      r == Err(KeyError("ERROR - No group columns found in passed dataframe."))
    ensures "value" in t.columns && |t.columns| > 1 && ConvertColumn(t, "value", parse).Err? ==>
      r == Err(ValueError(NonNumericMessage))
    ensures "value" in t.columns && |t.columns| > 1 && ConvertColumn(t, "value", parse).Ok? ==>
      var groups := RemoveFirst(t.columns, "value");
      && (r.Ok? <==> forall i :: 0 <= i < |groups| ==> multiset(t.columns)[groups[i]] <= 1)
      && (r.Err? ==> exists g :: g in groups && multiset(t.columns)[g] > 1 && r.error == GrouperError(g))
      && (r.Ok? ==> r.value == (groups, ConvertColumn(t, "value", parse).value) && |groups| > 0)
  {
    if "value" !in t.columns then Err(KeyError("ERROR - Value column missing."))
    else
      var groups := RemoveFirst(t.columns, "value");
      if |groups| == 0 then Err(KeyError("ERROR - No group columns found in passed dataframe."))
      else
        var values :- ConvertColumn(t, "value", parse);
        var shared := FirstShared(groups, t.columns);
        if shared.Some? then Err(GrouperError(shared.value))
        else Ok((groups, values))
  }

  /** A label shared by several columns: as "value" it fails every helper's
      conversion, and as "group" it fails the median's grouping. */
  lemma SharedLabelFails(t: Data, comparator: StatCell, rangeColumn: string, parse: Numeric)
    ensures multiset(t.columns)["value"] > 1 ==> MeanInputs(t, parse) == Err(ValueError(NonNumericMessage))
    ensures "group" in t.columns && multiset(t.columns)["value"] > 1 ==>
      MedianInputs(t, parse) == Err(ValueError(NonNumericMessage)) &&
      PayGapInputs(t, comparator, parse) == Err(ValueError(NonNumericMessage))
    ensures multiset(t.columns)[rangeColumn] > 1 ==> RangeValues(t, rangeColumn, parse) == Err(ValueError(NonNumericMessage))
    ensures multiset(t.columns)["group"] > 1 && "value" in t.columns && ConvertColumn(t, "value", parse).Ok? ==>
      MedianInputs(t, parse) == Err(GrouperError("group"))
  {
    if multiset(t.columns)["value"] > 1 {
      assert t.columns == t.columns[..IndexOf(t.columns, "value").value] + ["value"] + t.columns[IndexOf(t.columns, "value").value + 1..];
      assert |RemoveFirst(t.columns, "value")| > 0;
    }
  }

  /** The checks of `fn_get_median`: "group" first, then "value", then the
      conversion of the value column, then `groupby(['group'])`, which
      refuses a "group" label naming several columns. */
  function MedianInputs(t: Data, parse: Numeric): (r: Result<seq<Option<int>>>)
    ensures "group" !in t.columns ==> r == Err(KeyError("ERROR - Group column missing"))
    ensures "group" in t.columns && "value" !in t.columns ==> r == Err(KeyError("ERROR - Value column missing."))
    ensures "group" in t.columns && "value" in t.columns ==>
      && (r.Ok? <==> ConvertColumn(t, "value", parse).Ok? && multiset(t.columns)["group"] == 1)
      && (r.Ok? ==> r.value == ConvertColumn(t, "value", parse).value)
      && (r.Err? ==> r.error == (if ConvertColumn(t, "value", parse).Err? then ValueError(NonNumericMessage)
                                 else GrouperError("group")))
  {
    if "group" !in t.columns then Err(KeyError("ERROR - Group column missing"))
    else if "value" !in t.columns then Err(KeyError("ERROR - Value column missing."))
    else
      var values :- ConvertColumn(t, "value", parse);
      if multiset(t.columns)["group"] > 1 then Err(GrouperError("group")) else Ok(values)
  }

  /** A table missing both columns is reported for "group". */
  lemma MedianChecksGroupFirst(t: Data, parse: Numeric)
    requires "group" !in t.columns && "value" !in t.columns
    ensures MedianInputs(t, parse).Err? && MedianInputs(t, parse).error.msg == "ERROR - Group column missing"
  {
  }

  // ---------------------------------------------------------------------
  // Pay gap

  /** `df.group == g` for one row: pandas never matches a missing value. */
  predicate SameGroup(a: StatCell, b: StatCell) {
    a != Missing && a == b
  }

  function CountGroup(groups: seq<StatCell>, g: StatCell): (n: nat)
    ensures n <= |groups|
    ensures n == 0 <==> forall i :: 0 <= i < |groups| ==> !SameGroup(groups[i], g)
  {
    if groups == [] then 0
    else
      assert forall i :: 1 <= i < |groups| ==> groups[i] == groups[1..][i - 1];
      (if SameGroup(groups[0], g) then 1 else 0) + CountGroup(groups[1..], g)
  }

  /** The first row of group `g`, as `df[df.group == g]...values[0]` reads it. */
  function FirstOfGroup(groups: seq<StatCell>, g: StatCell): (k: Option<nat>)
    ensures k.None? <==> forall i :: 0 <= i < |groups| ==> !SameGroup(groups[i], g)
    ensures k.Some? ==> (k.value < |groups| && SameGroup(groups[k.value], g) &&
      forall i :: 0 <= i < k.value ==> !SameGroup(groups[i], g))
  {
    if groups == [] then None
    else if SameGroup(groups[0], g) then Some(0)
    else
      var k := FirstOfGroup(groups[1..], g);
      assert forall i :: 1 <= i < |groups| ==> groups[i] == groups[1..][i - 1];
      if k.Some? then Some(k.value + 1) else None
  }

  /** Rows of the same group have the same first row. */
  lemma SameFirstOfGroup(groups: seq<StatCell>, i: nat, j: nat)
    requires i < |groups| && j < |groups| && SameGroup(groups[i], groups[j])
    ensures FirstOfGroup(groups, groups[i]) == FirstOfGroup(groups, groups[j])
  {
  }

  /** The pay-gap formula, `round((comparator - value) / comparator, 4)`. */
  type GapFormula = (Option<int>, Option<int>) -> real

  /** The checks of `fn_get_pay_gap` and the comparator's row: "group", then
      "value", then conversion, then exactly one comparator row (none and
      several both fall to the same else branch). */
  function PayGapInputs(t: Data, comparator: StatCell, parse: Numeric): (r: Result<(seq<StatCell>, seq<Option<int>>, nat)>)
    ensures "group" !in t.columns ==> r == Err(KeyError("Group column missing"))
    ensures "group" in t.columns && "value" !in t.columns ==> r == Err(KeyError("Value column missing"))
    ensures r.Ok? ==>
      var (groups, values, k) := r.value;
      && "group" in t.columns && "value" in t.columns
      && groups == ColumnNamed(t, "group") && |values| == |groups| && k < |groups|
      && CountGroup(groups, comparator) == 1 && SameGroup(groups[k], comparator)
    ensures "group" in t.columns && "value" in t.columns && ConvertColumn(t, "value", parse).Err? ==>
      r == Err(ValueError(NonNumericMessage))
    ensures "group" in t.columns && "value" in t.columns && ConvertColumn(t, "value", parse).Ok? ==>
      (r.Ok? <==> CountGroup(ColumnNamed(t, "group"), comparator) == 1) &&
      (r.Ok? ==> r.value.1 == ConvertColumn(t, "value", parse).value)
    ensures r.Err? && "group" in t.columns && "value" in t.columns && ConvertColumn(t, "value", parse).Ok? ==>
      r.error == ValueError("ERROR - More than one record in data table relating to the specified comparator group.")
  {
    if "group" !in t.columns then Err(KeyError("Group column missing"))
    else if "value" !in t.columns then Err(KeyError("Value column missing"))
    else
      var values :- ConvertColumn(t, "value", parse);
      var groups := ColumnNamed(t, "group");
      if CountGroup(groups, comparator) == 1 then
        Ok((groups, values, FirstOfGroup(groups, comparator).value))
      else
        Err(ValueError("ERROR - More than one record in data table relating to the specified comparator group."))
  }

  /** A comparator group that is absent is reported by the "more than one
      record" error. */
  lemma AbsentComparatorFails(t: Data, comparator: StatCell, parse: Numeric)
    requires "group" in t.columns && "value" in t.columns && ConvertColumn(t, "value", parse).Ok?
    requires forall i :: 0 <= i < |t.rows| ==> !SameGroup(ColumnNamed(t, "group")[i], comparator)
    ensures PayGapInputs(t, comparator, parse).Err?
    ensures PayGapInputs(t, comparator, parse).error.msg ==
            "ERROR - More than one record in data table relating to the specified comparator group."
  {
  }

  /** The gap every row of a group receives: the formula applied to the
      comparator's value and the value of the group's first row. */
  function GapOf(groups: seq<StatCell>, values: seq<Option<int>>, cv: Option<int>, gap: GapFormula, i: nat): real
    requires |values| == |groups| && i < |groups| && FirstOfGroup(groups, groups[i]).Some?
  {
    gap(cv, values[FirstOfGroup(groups, groups[i]).value])
  }

  /** The row loop of `fn_get_pay_gap`: for each row, the gap of its group's
      first row is written to every row of that group. A row whose group is
      missing matches no row, so reading its first value raises IndexError. */
  method FillPayGap(groups: seq<StatCell>, values: seq<Option<int>>, cv: Option<int>, gap: GapFormula)
    returns (r: Result<seq<real>>)
    requires |values| == |groups|
    ensures r.Ok? <==> forall i :: 0 <= i < |groups| ==> groups[i] != Missing
    ensures r.Err? ==> r.error.IndexError?
    ensures r.Ok? ==> (|r.value| == |groups| &&
      forall i :: 0 <= i < |groups| ==> r.value[i] == GapOf(groups, values, cv, gap, i))
  {
    var payGap: seq<Option<real>> := seq(|groups|, _ => None);
    var i := 0;
    while i < |groups|
      invariant 0 <= i <= |groups| && |payGap| == |groups|
      invariant Filled(payGap, groups, values, cv, gap, i)
    {
      var first := FirstOfGroup(groups, groups[i]);
      if first.None? {
        assert !SameGroup(groups[i], groups[i]);
        return Err(IndexError("index 0 is out of bounds for axis 0 with size 0"));
      }
      var rowGap := gap(cv, values[first.value]);
      FillStep(payGap, groups, values, cv, gap, i, rowGap);
      payGap := FillGroup(payGap, groups, values, cv, gap, i, rowGap);
      i := i + 1;
    }
    FilledAll(payGap, groups, values, cv, gap);
    r := Ok(seq(|groups|, j requires 0 <= j < |groups| => payGap[j].value));
  }

  /** Some row before `i` has the group of row `j`. */
  ghost predicate Covered(groups: seq<StatCell>, i: nat, j: nat)
    requires i <= |groups| && j < |groups|
  {
    exists k :: 0 <= k < i && SameGroup(groups[k], groups[j])
  }

  /** The loop invariant of `FillPayGap` after `i` rows: none of them has a
      missing group, and exactly the rows whose group was met among them hold
      their group's gap. */
  ghost predicate Filled(payGap: seq<Option<real>>, groups: seq<StatCell>, values: seq<Option<int>>,
                         cv: Option<int>, gap: GapFormula, i: nat)
    requires |payGap| == |groups| == |values| && i <= |groups|
  {
    && (forall k :: 0 <= k < i ==> groups[k] != Missing)
    && forall j :: 0 <= j < |groups| ==>
      if Covered(groups, i, j)
      then FirstOfGroup(groups, groups[j]).Some? && payGap[j] == Some(GapOf(groups, values, cv, gap, j))
      else payGap[j] == None
  }

  lemma FillStep(payGap: seq<Option<real>>, groups: seq<StatCell>, values: seq<Option<int>>,
                 cv: Option<int>, gap: GapFormula, i: nat, rowGap: real)
    requires |payGap| == |groups| == |values| && i < |groups|
    requires Filled(payGap, groups, values, cv, gap, i)
    requires FirstOfGroup(groups, groups[i]).Some? && rowGap == GapOf(groups, values, cv, gap, i)
    ensures Filled(FillGroup(payGap, groups, values, cv, gap, i, rowGap), groups, values, cv, gap, i + 1)
  {
    var p := FillGroup(payGap, groups, values, cv, gap, i, rowGap);
    forall j | 0 <= j < |groups|
      ensures if Covered(groups, i + 1, j)
        then FirstOfGroup(groups, groups[j]).Some? && p[j] == Some(GapOf(groups, values, cv, gap, j))
        else p[j] == None
    {
      FillStepAt(p[j], payGap[j], groups, values, cv, gap, i, j);
    }
    assert groups[i] != Missing;
  }

  /** Once every row was visited, every row has a gap and no group is missing. */
  lemma FilledAll(payGap: seq<Option<real>>, groups: seq<StatCell>, values: seq<Option<int>>,
                  cv: Option<int>, gap: GapFormula)
    requires |payGap| == |groups| == |values|
    requires Filled(payGap, groups, values, cv, gap, |groups|)
    ensures forall j :: 0 <= j < |groups| ==>
      groups[j] != Missing && payGap[j] == Some(GapOf(groups, values, cv, gap, j))
  {
    forall j | 0 <= j < |groups|
      ensures groups[j] != Missing && payGap[j] == Some(GapOf(groups, values, cv, gap, j))
    {
      assert SameGroup(groups[j], groups[j]);
      assert Covered(groups, |groups|, j);
    }
  }

  /** `FillStep` at one row `j`, given the row's entries before (`before`)
      and after (`after`) the group of row `i` is filled. */
  lemma FillStepAt(after: Option<real>, before: Option<real>, groups: seq<StatCell>, values: seq<Option<int>>,
                   cv: Option<int>, gap: GapFormula, i: nat, j: nat)
    requires |groups| == |values| && i < |groups| && j < |groups|
    requires FirstOfGroup(groups, groups[i]).Some?
    requires if Covered(groups, i, j)
      then FirstOfGroup(groups, groups[j]).Some? && before == Some(GapOf(groups, values, cv, gap, j))
      else before == None
    requires after == if SameGroup(groups[j], groups[i]) then Some(GapOf(groups, values, cv, gap, j)) else before
    ensures if Covered(groups, i + 1, j)
      then FirstOfGroup(groups, groups[j]).Some? && after == Some(GapOf(groups, values, cv, gap, j))
      else after == None
  {
    if SameGroup(groups[j], groups[i]) {
      assert SameGroup(groups[i], groups[j]);
      assert Covered(groups, i + 1, j);
    } else if Covered(groups, i, j) {
      var k :| 0 <= k < i && SameGroup(groups[k], groups[j]);
      assert Covered(groups, i + 1, j);
    } else {
      forall k | 0 <= k < i + 1 ensures !SameGroup(groups[k], groups[j]) {
        if k < i {
          assert !Covered(groups, i, j);
        }
      }
    }
  }

  /** The masked assignment of the pay-gap loop: every row in the group of
      row `i` gets `rowGap`, and every other row keeps its entry. */
  function FillGroup(payGap: seq<Option<real>>, groups: seq<StatCell>, values: seq<Option<int>>,
                     cv: Option<int>, gap: GapFormula, i: nat, rowGap: real): (p: seq<Option<real>>)
    requires |payGap| == |groups| == |values| && i < |groups|
    requires FirstOfGroup(groups, groups[i]).Some? && rowGap == GapOf(groups, values, cv, gap, i)
    ensures |p| == |payGap|
    ensures forall j :: 0 <= j < |groups| ==>
      p[j] == if SameGroup(groups[j], groups[i]) then Some(GapOf(groups, values, cv, gap, j)) else payGap[j]
  {
    forall j | 0 <= j < |groups| && SameGroup(groups[j], groups[i])
      ensures FirstOfGroup(groups, groups[j]).Some? && GapOf(groups, values, cv, gap, j) == rowGap
    {
      SameFirstOfGroup(groups, i, j);
    }
    seq(|payGap|, j requires 0 <= j < |payGap| => if SameGroup(groups[j], groups[i]) then Some(rowGap) else payGap[j])
  }

  /** Rows of one group receive one gap. */
  lemma GroupsShareGap(groups: seq<StatCell>, values: seq<Option<int>>, cv: Option<int>, gap: GapFormula,
                       i: nat, j: nat)
    requires |values| == |groups| && i < |groups| && j < |groups| && SameGroup(groups[i], groups[j])
    ensures FirstOfGroup(groups, groups[i]).Some? && FirstOfGroup(groups, groups[j]).Some?
    ensures GapOf(groups, values, cv, gap, i) == GapOf(groups, values, cv, gap, j)
  {
    SameFirstOfGroup(groups, i, j);
  }

  /** The comparator's own row is measured against itself: it is the only row
      of its group, so its gap is the formula applied to its value twice. */
  lemma ComparatorAgainstItself(groups: seq<StatCell>, values: seq<Option<int>>, gap: GapFormula,
                                comparator: StatCell, k: nat)
    requires |values| == |groups| && k < |groups|
    requires CountGroup(groups, comparator) == 1 && SameGroup(groups[k], comparator)
    ensures FirstOfGroup(groups, groups[k]) == Some(k)
    ensures GapOf(groups, values, values[k], gap, k) == gap(values[k], values[k])
  {
    var f := FirstOfGroup(groups, groups[k]);
    assert SameGroup(groups[k], groups[k]);
    if f.value != k {
      OnlyOneOfGroup(groups, comparator, f.value, k);
    }
  }

  /** Two different rows of a group make its count at least two. */
  lemma {:induction false} OnlyOneOfGroup(groups: seq<StatCell>, g: StatCell, a: nat, b: nat)
    requires a < |groups| && b < |groups| && a != b
    requires SameGroup(groups[a], g) && SameGroup(groups[b], g)
    ensures CountGroup(groups, g) >= 2
  {
    assert forall i :: 1 <= i < |groups| ==> groups[i] == groups[1..][i - 1];
    if a == 0 {
      assert CountGroup(groups[1..], g) > 0 by {
        assert SameGroup(groups[1..][b - 1], g);
      }
    } else if b == 0 {
      assert CountGroup(groups[1..], g) > 0 by {
        assert SameGroup(groups[1..][a - 1], g);
      }
    } else {
      OnlyOneOfGroup(groups[1..], g, a - 1, b - 1);
    }
  }

  /** `fn_get_pay_gap`: the checks, then the row loop against the comparator's
      value. The result is the `pay_gap` column. */
  method GetPayGap(t: Data, comparator: StatCell, parse: Numeric, gap: GapFormula) returns (r: Result<seq<real>>)
    ensures PayGapInputs(t, comparator, parse).Err? ==> r == Err(PayGapInputs(t, comparator, parse).error)
    ensures PayGapInputs(t, comparator, parse).Ok? ==>
      var (groups, values, k) := PayGapInputs(t, comparator, parse).value;
      && (r.Ok? <==> forall i :: 0 <= i < |groups| ==> groups[i] != Missing)
      && (r.Err? ==> r.error.IndexError?)
      && (r.Ok? ==> (|r.value| == |t.rows| &&
            forall i :: 0 <= i < |groups| ==> r.value[i] == GapOf(groups, values, values[k], gap, i)))
  {
    var inputs :- PayGapInputs(t, comparator, parse);
    var (groups, values, k) := inputs;
    r := FillPayGap(groups, values, values[k], gap);
  }

  // ---------------------------------------------------------------------
  // Quantiles

  /** `sort_values` order on converted values: numbers ascending, NaN last. */
  predicate Le(a: Option<int>, b: Option<int>) {
    b.None? || (a.Some? && a.value <= b.value)
  }

  predicate Ascending(s: seq<Option<int>>) {
    forall i, j :: 0 <= i < j < |s| ==> Le(s[i], s[j])
  }

  function Insert(x: Option<int>, s: seq<Option<int>>): (r: seq<Option<int>>)
    requires Ascending(s)
    ensures Ascending(r)
    ensures multiset(r) == multiset(s) + multiset{x}
  {
    if s == [] then [x]
    else if Le(x, s[0]) then [x] + s
    else
      var rest := Insert(x, s[1..]);
      assert s == [s[0]] + s[1..];
      forall y | y in rest ensures Le(s[0], y) {
        assert y in multiset(rest);
        if y != x {
          assert y in multiset(s[1..]);
          var k :| 0 <= k < |s[1..]| && s[1..][k] == y;
          assert s[k + 1] == y;
        }
      }
      [s[0]] + rest
  }

  /** `sort_values(by=[range_column])` on the converted range column. */
  function SortValues(s: seq<Option<int>>): (r: seq<Option<int>>)
    ensures Ascending(r)
    ensures multiset(r) == multiset(s)
  {
    if s == [] then []
    else
      assert s == [s[0]] + s[1..];
      Insert(s[0], SortValues(s[1..]))
  }

  function Flatten<T>(bins: seq<seq<T>>): seq<T> {
    if bins == [] then [] else bins[0] + Flatten(bins[1..])
  }

  /** `np.array_split(xs, k)` for `k >= 1`, by numpy's documented rule: the
      first part takes the ceiling of `|xs| / k` and the rest is split into
      `k - 1` parts the same way. */
  function Split<T>(xs: seq<T>, k: nat): (bins: seq<seq<T>>)
    requires k >= 1
    ensures |bins| == k
    ensures Flatten(bins) == xs
    decreases k
  {
    if k == 1 then
      assert Flatten([xs]) == xs + Flatten<T>([]);
      [xs]
    else
      var m := (|xs| + k - 1) / k;
      CeilAtMost(|xs|, k);
      var rest := Split(xs[m..], k - 1);
      assert ([xs[..m]] + rest)[1..] == rest;
      [xs[..m]] + rest
  }

  lemma DivUnique(n: int, k: int, q: int, r: int)
    requires k > 0 && 0 <= r < k && n == q * k + r
    ensures n / k == q && n % k == r
  {
    var q', r' := n / k, n % k;
    assert (q' - q) * k == r - r';
    if q' > q {
      MulAtLeast(q' - q, k);
    } else if q' < q {
      MulAtLeast(q - q', k);
    }
  }

  lemma MulAtLeast(a: int, k: int)
    requires a >= 1 && k > 0
    ensures a * k >= k
  {
  }

  /** The first part `Split` cuts off fits in what is left. */
  lemma CeilAtMost(n: nat, k: nat)
    requires k >= 2
    ensures (n + k - 1) / k <= n
  {
    var q, r := (n + k - 1) / k, (n + k - 1) % k;
    assert n + k - 1 == q * k + r;
    if q > n {
      assert q * k >= (n + 1) * k by { MulMono(n + 1, q, k); }
      assert (n + 1) * k == n * k + k;
      assert n * k >= n by { if n > 0 { MulAtLeast(k, n); } }
    }
  }

  lemma MulMono(a: int, b: int, k: nat)
    requires a <= b
    ensures a * k <= b * k
  {
    assert b * k - a * k == (b - a) * k;
  }

  /** The size of the first part `Split` cuts off: the ceiling of `n / k`. */
  lemma CeilFirst(n: nat, k: nat)
    requires k >= 2
    ensures (n + k - 1) / k == n / k + (if n % k > 0 then 1 else 0)
  {
    var q, r := n / k, n % k;
    assert n == q * k + r;
    if r > 0 {
      assert (q + 1) * k == q * k + k;
      DivUnique(n + k - 1, k, q + 1, r - 1);
    } else {
      DivUnique(n + k - 1, k, q, k - 1);
    }
  }

  /** What the first cut leaves has one part fewer and one long part fewer. */
  lemma CeilRest(n: nat, k: nat)
    requires k >= 2
    ensures (n - (n + k - 1) / k) / (k - 1) == n / k
    ensures (n - (n + k - 1) / k) % (k - 1) == (if n % k > 0 then n % k - 1 else 0)
  {
    var q, r := n / k, n % k;
    assert n == q * k + r;
    CeilFirst(n, k);
    assert q * (k - 1) == q * k - q;
    if r > 0 {
      DivUnique(n - (q + 1), k - 1, q, r - 1);
    } else {
      DivUnique(n - q, k - 1, q, 0);
    }
  }

  /** The sizes `Split` gives: the first `|xs| % k` parts one longer than the
      others, which are `|xs| / k` long. */
  lemma {:induction false} SplitSizes<T>(xs: seq<T>, k: nat, i: nat)
    requires k >= 1 && i < k
    ensures |Split(xs, k)[i]| == |xs| / k + (if i < |xs| % k then 1 else 0)
    decreases k
  {
    if k == 1 {
      DivUnique(|xs|, 1, |xs|, 0);
    } else {
      var n, m := |xs|, (|xs| + k - 1) / k;
      CeilAtMost(n, k);
      var rest := Split(xs[m..], k - 1);
      assert Split(xs, k) == [xs[..m]] + rest;
      if i > 0 {
        SplitSizes(xs[m..], k - 1, i - 1);
        assert |xs[m..]| == n - m;
        CeilRest(n, k);
        assert |Split(xs, k)[i]| == |rest[i - 1]|;
      } else {
        CeilFirst(n, k);
        assert |Split(xs, k)[0]| == m;
      }
    }
  }

  /** An element of a part is an element of the whole. */
  lemma {:induction false} InFlatten<T>(bins: seq<seq<T>>, j: nat, x: T)
    requires j < |bins| && x in bins[j]
    ensures x in Flatten(bins)
  {
    if j > 0 {
      InFlatten(bins[1..], j - 1, x);
    }
  }

  /** The parts of an ascending sequence are in order: everything in an
      earlier part sorts no later than everything in a later part. */
  lemma {:induction false} PartsOrdered(bins: seq<seq<Option<int>>>, i: nat, j: nat, x: Option<int>, y: Option<int>)
    requires Ascending(Flatten(bins)) && i < j < |bins| && x in bins[i] && y in bins[j]
    ensures Le(x, y)
  {
    var f := Flatten(bins);
    assert f == bins[0] + Flatten(bins[1..]);
    if i == 0 {
      InFlatten(bins[1..], j - 1, y);
      var a :| 0 <= a < |bins[0]| && bins[0][a] == x;
      var b :| 0 <= b < |Flatten(bins[1..])| && Flatten(bins[1..])[b] == y;
      assert f[a] == x && f[|bins[0]| + b] == y;
    } else {
      assert forall p, q :: 0 <= p < q < |Flatten(bins[1..])| ==>
        Flatten(bins[1..])[p] == f[|bins[0]| + p] && Flatten(bins[1..])[q] == f[|bins[0]| + q];
      PartsOrdered(bins[1..], i - 1, j - 1, x, y);
    }
  }

  /** `.min()` of a part: NaN values are skipped; a part with no number
      gives NaN. */
  function MinOf(s: seq<Option<int>>): (m: Option<int>)
    ensures m.None? <==> forall x :: x in s ==> x.None?
    ensures m.Some? ==> m in s && forall x :: x in s && x.Some? ==> m.value <= x.value
  {
    if s == [] then None
    else
      var rest := MinOf(s[1..]);
      assert s == [s[0]] + s[1..];
      if s[0].None? then rest
      else if rest.None? || s[0].value <= rest.value then s[0]
      else rest
  }

  /** `.max()` of a part, skipping NaN. */
  function MaxOf(s: seq<Option<int>>): (m: Option<int>)
    ensures m.None? <==> forall x :: x in s ==> x.None?
    ensures m.Some? ==> m in s && forall x :: x in s && x.Some? ==> x.value <= m.value
  {
    if s == [] then None
    else
      var rest := MaxOf(s[1..]);
      assert s == [s[0]] + s[1..];
      if s[0].None? then rest
      else if rest.None? || rest.value <= s[0].value then s[0]
      else rest
  }

  /** A row of the quantile table; `None` stands for a NaN minimum or
      maximum. */
  datatype QuantileRow = QuantileRow(quantile: nat, recordCount: nat, rangeMin: Option<int>, rangeMax: Option<int>)

  function BinRow(j: nat, bin: seq<Option<int>>): QuantileRow {
    QuantileRow(j + 1, |bin|, MinOf(bin), MaxOf(bin))
  }

  /** The table the bin loop builds, one row per part in order. */
  function QuantileTable(bins: seq<seq<Option<int>>>): (rows: seq<QuantileRow>)
    ensures |rows| == |bins|
    ensures forall j :: 0 <= j < |bins| ==> rows[j] == BinRow(j, bins[j])
  {
    seq(|bins|, j requires 0 <= j < |bins| => BinRow(j, bins[j]))
  }

  /** `df_results_table.record_count.sum()` */
  function SumCounts(rows: seq<QuantileRow>): nat {
    if rows == [] then 0 else rows[0].recordCount + SumCounts(rows[1..])
  }

  lemma {:induction false} SumCountsIsLength(rows: seq<QuantileRow>, bins: seq<seq<Option<int>>>)
    requires |rows| == |bins| && forall j :: 0 <= j < |bins| ==> rows[j].recordCount == |bins[j]|
    ensures SumCounts(rows) == |Flatten(bins)|
  {
    if rows != [] {
      SumCountsIsLength(rows[1..], bins[1..]);
    }
  }

  /** The converted range column, or the exception the checks raise. */
  function RangeValues(t: Data, rangeColumn: string, parse: Numeric): (r: Result<seq<Option<int>>>)
    ensures rangeColumn !in t.columns ==> r == Err(KeyError(rangeColumn + " column missing"))
    ensures rangeColumn in t.columns ==> r == ConvertColumn(t, rangeColumn, parse)
    ensures r.Ok? ==> |r.value| == |t.rows|
  {
    if rangeColumn !in t.columns then Err(KeyError(rangeColumn + " column missing"))
    else ConvertColumn(t, rangeColumn, parse)
  }

  /** The quantile table of the input as the helper computes it. */
  function Quantiles(values: seq<Option<int>>, binCount: nat): seq<QuantileRow>
    requires binCount >= 1
  {
    QuantileTable(Split(SortValues(values), binCount))
  }

  /** The table has one row per quantile, numbered 1 to `binCount`, and its
      record counts add up to the number of input rows (so the helper's final
      check never fires), with each part's size given by numpy's rule. */
  lemma QuantilesShape(values: seq<Option<int>>, binCount: nat)
    requires binCount >= 1
    ensures var rows := Quantiles(values, binCount);
      && |rows| == binCount
      && (forall j :: 0 <= j < binCount ==> rows[j].quantile == j + 1)
      && SumCounts(rows) == |values|
      && (forall j :: 0 <= j < binCount ==>
            rows[j].recordCount == |values| / binCount + (if j < |values| % binCount then 1 else 0))
  {
    var sorted := SortValues(values);
    var bins := Split(sorted, binCount);
    assert |sorted| == |multiset(sorted)| == |multiset(values)| == |values|;
    SumCountsIsLength(Quantiles(values, binCount), bins);
    forall j | 0 <= j < binCount
      ensures Quantiles(values, binCount)[j].recordCount == |values| / binCount + (if j < |values| % binCount then 1 else 0)
    {
      SplitSizes(sorted, binCount, j);
    }
  }

  /** Each quantile with a number has `range_min <= range_max`, and a later
      quantile with a number starts no lower than an earlier one ends. */
  lemma QuantilesOrdered(values: seq<Option<int>>, binCount: nat, i: nat, j: nat)
    requires binCount >= 1 && i < j < binCount
    ensures var rows := Quantiles(values, binCount);
      && (rows[i].rangeMin.Some? ==> rows[i].rangeMin.value <= rows[i].rangeMax.value)
      && (rows[i].rangeMax.Some? && rows[j].rangeMin.Some? ==> rows[i].rangeMax.value <= rows[j].rangeMin.value)
  {
    var bins := Split(SortValues(values), binCount);
    var rows := Quantiles(values, binCount);
    if rows[i].rangeMax.Some? && rows[j].rangeMin.Some? {
      PartsOrdered(bins, i, j, rows[i].rangeMax, rows[j].rangeMin);
    }
  }

  /** The loop that appends one row per part, in order. */
  method BinRows(bins: seq<seq<Option<int>>>) returns (rows: seq<QuantileRow>)
    ensures rows == QuantileTable(bins)
  {
    rows := [];
    var j := 0;
    while j < |bins|
      invariant 0 <= j <= |bins| && |rows| == j
      invariant forall k :: 0 <= k < j ==> rows[k] == BinRow(k, bins[k])
    {
      rows := rows + [QuantileRow(j + 1, |bins[j]|, MinOf(bins[j]), MaxOf(bins[j]))];
      j := j + 1;
    }
  }

  /** The sum of the record counts, added up row by row. */
  method TotalCount(rows: seq<QuantileRow>) returns (total: int)
    ensures total == SumCounts(rows)
  {
    total := 0;
    var k := 0;
    while k < |rows|
      invariant 0 <= k <= |rows|
      invariant total + SumCounts(rows[k..]) == SumCounts(rows)
    {
      assert rows[k..][1..] == rows[k + 1..];
      total := total + rows[k].recordCount;
      k := k + 1;
    }
  }

  /** `fn_get_quantiles`: the checks, the sort, the split, the row loop and
      the count check. */
  method GetQuantiles(t: Data, rangeColumn: string, binCount: int, parse: Numeric)
    returns (r: Result<seq<QuantileRow>>)
    ensures RangeValues(t, rangeColumn, parse).Err? ==> r == Err(RangeValues(t, rangeColumn, parse).error)
    ensures RangeValues(t, rangeColumn, parse).Ok? && binCount <= 0 ==>
      r == Err(ValueError("number sections must be larger than 0."))
    ensures RangeValues(t, rangeColumn, parse).Ok? && binCount >= 1 ==>
      r == Ok(Quantiles(RangeValues(t, rangeColumn, parse).value, binCount))
  {
    var values :- RangeValues(t, rangeColumn, parse);
    var sorted := SortValues(values);
    if binCount <= 0 {
      return Err(ValueError("number sections must be larger than 0."));
    }
    var bins := Split(sorted, binCount);
    var rows := BinRows(bins);
    var total := TotalCount(rows);
    QuantilesShape(values, binCount);
    assert |sorted| == |multiset(sorted)| == |multiset(values)| == |values|;
    r := if total == |sorted| then Ok(rows)
         else Err(ValueError("ERROR - Record count in quantiles doesn't match input data."));
  }
}
