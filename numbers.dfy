/** The numeric helpers: guarded division, percentage change and the
    per-column aggregate dictionary. */
module Numbers {
  import opened Wrappers
  import opened Errors
  import opened Frames

  /** `safe_division`: the quotient, or `default` when the denominator is zero. */
  function SafeDivision(numerator: real, denominator: real, default: real := 0.0): (r: real)
    ensures denominator == 0.0 ==> r == default
    ensures denominator != 0.0 ==> r * denominator == numerator
  {
    if denominator != 0.0 then numerator / denominator else default
  }

  /** `calculate_percentage_change` over exact reals (the rounding is not
      modelled): 0 when the old value is 0, otherwise the change relative to the
      old value, in percent.  Applying the change to the old value gives back
      the new value. */
  function CalculatePercentageChange(oldValue: real, newValue: real): (r: real)
    ensures oldValue == 0.0 ==> r == 0.0
    ensures oldValue != 0.0 ==> oldValue + oldValue * r / 100.0 == newValue
  {
    if oldValue == 0.0 then 0.0
    else
      var r := (newValue - oldValue) / oldValue * 100.0;
      assert oldValue * r / 100.0 == newValue - oldValue by {
        var q := (newValue - oldValue) / oldValue;
        assert oldValue * q == newValue - oldValue;
        assert oldValue * r == oldValue * q * 100.0;
      }
      r
  }

  /** No change is 0 percent; from a positive old value, growth is positive and
      shrinkage negative. */
  lemma PercentageChangeSign(oldValue: real, newValue: real)
    ensures newValue == oldValue ==> CalculatePercentageChange(oldValue, newValue) == 0.0
    ensures oldValue > 0.0 && newValue > oldValue ==> CalculatePercentageChange(oldValue, newValue) > 0.0
    ensures oldValue > 0.0 && newValue < oldValue ==> CalculatePercentageChange(oldValue, newValue) < 0.0
  {
    if oldValue > 0.0 {
      var q := (newValue - oldValue) / oldValue;
      assert q * oldValue == newValue - oldValue;
      if newValue > oldValue { assert q > 0.0; }
      if newValue < oldValue { assert q < 0.0; }
    }
  }

  // ---- aggregate_metrics ------------------------------------------------------

  const SUM := "sum"
  const MEAN := "mean"
  const MIN := "min"
  const MAX := "max"
  const COUNT := "count"

  const DEFAULT_OPERATIONS := [SUM, MEAN, MIN, MAX]

  predicate IsNumericOperation(op: string) {
    op == SUM || op == MEAN || op == MIN || op == MAX
  }

  predicate IsKnownOperation(op: string) {
    IsNumericOperation(op) || op == COUNT
  }

  /** What a recognised operation yields over a column with at least one row;
      `xs` are the column's numbers when it has no text or missing cell. */
  function OperationValue(cells: seq<Value>, xs: seq<real>, op: string): real
    requires |xs| > 0
  {
    if op == SUM then Sum(xs)
    else if op == MEAN then Mean(xs)
    else if op == MIN then Min(xs)
    else if op == MAX then Max(xs)
    else CountPresent(cells) as real
  }

  /** The dictionary after the loop has handled `ops`, for a table with rows,
      columns and the aggregated column.  A numeric operation over a column with
      a text or missing cell raises, and so ends the whole call. */
  function Folded(t: Table, column: string, ops: seq<string>): (r: Result<map<string, real>, Error>)
    requires !IsEmpty(t) && column in t.columns
    ensures r.Failure? ==> r.error == NotNumeric(column)
    ensures r.Success? ==> forall op :: op in r.value ==> op in ops && IsKnownOperation(op)
    decreases |ops|
  {
    if |ops| == 0 then Success(map[])
    else
      var results :- Folded(t, column, ops[..|ops| - 1]);
      Step(t, column, results, ops[|ops| - 1])
  }

  /** One turn of the loop. */
  function Step(t: Table, column: string, results: map<string, real>, op: string): (r: Result<map<string, real>, Error>)
    requires !IsEmpty(t) && column in t.columns
    ensures r.Failure? <==> IsNumericOperation(op) && NumericCells(Column(t, column)).None?
    ensures r.Failure? ==> r.error == NotNumeric(column)
    ensures r.Success? ==> r.value.Keys == results.Keys + (if IsKnownOperation(op) then {op} else {})
    ensures r.Success? ==> forall k :: k in results && k != op ==> r.value[k] == results[k]
  {
    var cells := Column(t, column);
    if IsNumericOperation(op) then
      match NumericCells(cells)
      case None => Failure(NotNumeric(column))
      case Some(xs) => Success(results[op := OperationValue(cells, xs, op)])
    else if op == COUNT then
      Success(results[op := CountPresent(cells) as real])
    else
      Success(results)
  }

  /** `aggregate_metrics(df, column, operations)` as a value. */
  function Aggregated(t: Table, column: string, ops: seq<string>): (r: Result<map<string, real>, Error>)
    ensures IsEmpty(t) || column !in t.columns ==>
      && r.Success?
      && r.value.Keys == (set op | op in ops)
      && forall op :: op in r.value ==> r.value[op] == 0.0
  {
    if IsEmpty(t) || column !in t.columns then Success(map op | op in ops :: 0.0)
    else Folded(t, column, ops)
  }

  /** `aggregate_metrics`: the loop over the operations, filling the dictionary. */
  method AggregateMetrics(t: Table, column: string, operations: Option<seq<string>> := None)
    returns (r: Result<map<string, real>, Error>)
    ensures r == Aggregated(t, column, operations.GetOr(DEFAULT_OPERATIONS))
  {
    var ops := operations.GetOr(DEFAULT_OPERATIONS);
    if IsEmpty(t) || column !in t.columns {
      return Success(map op | op in ops :: 0.0);
    }
    var cells := Column(t, column);
    var numbers := NumericCells(cells);
    var results: map<string, real> := map[];
    var i := 0;
    while i < |ops|
      invariant 0 <= i <= |ops|
      invariant Folded(t, column, ops[..i]) == Success(results)
    {
      var op := ops[i];
      FoldedNext(t, column, ops, i, results);
      if op == SUM || op == MEAN || op == MIN || op == MAX {
        if numbers.None? {
          FoldedFailureSticks(t, column, ops, i + 1);
          return Failure(NotNumeric(column));
        }
        var xs := numbers.value;
        if op == SUM {
          results := results[op := Sum(xs)];
        } else if op == MEAN {
          results := results[op := Mean(xs)];
        } else if op == MIN {
          results := results[op := Min(xs)];
        } else {
          results := results[op := Max(xs)];
        }
      } else if op == COUNT {
        results := results[op := CountPresent(cells) as real];
      }
      i := i + 1;
    }
    assert ops[..|ops|] == ops;
    r := Success(results);
  }

  /** The fold over one more operation is one more step. */
  lemma FoldedNext(t: Table, column: string, ops: seq<string>, i: nat, results: map<string, real>)
    requires !IsEmpty(t) && column in t.columns && i < |ops|
    requires Folded(t, column, ops[..i]) == Success(results)
    ensures Folded(t, column, ops[..i + 1]) == Step(t, column, results, ops[i])
  {
    assert ops[..i + 1][..i] == ops[..i];
  }

  /** Once an operation has raised, the rest of the list does not matter. */
  lemma {:induction false} FoldedFailureSticks(t: Table, column: string, ops: seq<string>, k: nat)
    requires !IsEmpty(t) && column in t.columns && k <= |ops|
    requires Folded(t, column, ops[..k]).Failure?
    ensures Folded(t, column, ops) == Folded(t, column, ops[..k])
    decreases |ops| - k
  {
    if k < |ops| {
      assert ops[..k + 1][..k] == ops[..k];
      FoldedFailureSticks(t, column, ops, k + 1);
    } else {
      assert ops[..k] == ops;
    }
  }

  /** The call raises exactly when a numeric operation is asked of a column
      that is not numeric. */
  lemma {:induction false} AggregatedFailure(t: Table, column: string, ops: seq<string>)
    requires !IsEmpty(t) && column in t.columns
    ensures Aggregated(t, column, ops).Failure? <==>
      (exists op :: op in ops && IsNumericOperation(op)) && NumericCells(Column(t, column)).None?
    ensures Aggregated(t, column, ops).Failure? ==> Aggregated(t, column, ops).error == NotNumeric(column)
    decreases |ops|
  {
    if |ops| > 0 {
      var init := ops[..|ops| - 1];
      AggregatedFailure(t, column, init);
      assert forall op :: op in ops <==> op in init || op == ops[|ops| - 1];
    }
  }

  /** On success, the keys are exactly the recognised operations asked for, and
      each holds that operation's value over the column. */
  lemma {:induction false} AggregatedContents(t: Table, column: string, ops: seq<string>)
    requires !IsEmpty(t) && column in t.columns
    requires Aggregated(t, column, ops).Success?
    ensures var r := Aggregated(t, column, ops).value;
      && r.Keys == (set op | op in ops && IsKnownOperation(op))
      && forall op :: op in r ==>
        var cells := Column(t, column);
        (IsNumericOperation(op) ==> NumericCells(cells).Some?) &&
        r[op] == if op == COUNT then CountPresent(cells) as real
                 else OperationValue(cells, NumericCells(cells).value, op)
    decreases |ops|
  {
    if |ops| > 0 {
      var init := ops[..|ops| - 1];
      assert Folded(t, column, init).Success?;
      AggregatedContents(t, column, init);
      assert forall op :: op in ops <==> op in init || op == ops[|ops| - 1];
    }
  }

  /** What the recognised operations mean: the sum is the total, the mean is
      the total over the number of values, and every value lies between the
      minimum and the maximum. */
  lemma AggregatedValues(t: Table, column: string, ops: seq<string>)
    requires !IsEmpty(t) && column in t.columns
    requires Aggregated(t, column, ops).Success?
    ensures var r := Aggregated(t, column, ops).value;
      var cells := Column(t, column);
      && (SUM in ops <==> SUM in r)
      && (SUM in r || MEAN in r || MIN in r || MAX in r ==> NumericCells(cells).Some?)
      && (SUM in r ==> r[SUM] == Sum(NumericCells(cells).value))
      && (MEAN in r ==> r[MEAN] == Sum(NumericCells(cells).value) / |t.rows| as real)
      && (MIN in r ==> forall i :: 0 <= i < |t.rows| ==> r[MIN] <= NumericCells(cells).value[i])
      && (MAX in r ==> forall i :: 0 <= i < |t.rows| ==> NumericCells(cells).value[i] <= r[MAX])
      && (COUNT in r ==> r[COUNT] == CountPresent(cells) as real)
  {
    AggregatedContents(t, column, ops);
  }

  /** With no operation list, the four default operations are computed. */
  lemma DefaultOperationsKeys(t: Table, column: string)
    requires !IsEmpty(t) && column in t.columns
    requires Aggregated(t, column, DEFAULT_OPERATIONS).Success?
    ensures Aggregated(t, column, DEFAULT_OPERATIONS).value.Keys == {SUM, MEAN, MIN, MAX}
  {
    AggregatedContents(t, column, DEFAULT_OPERATIONS);
  }
}
