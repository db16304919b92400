/** The holder-table helpers: balance normalisation, filtering by token,
    per-token metrics, the COPM/COPW comparison table and the display
    projection. */
module DuneHelpers {
  import opened Wrappers
  import opened Errors
  import opened Frames

  const BALANCE := "balance"
  const BALANCE_TOKEN := "balance_token"
  const HAS_INITIATED_TRANSFER := "has_initiated_transfer"
  const TOKEN := "token"
  const WALLET_ADDRESS := "wallet_address"
  const FIRST_ACQUIRED := "first_acquired"

  const DEFAULT_DECIMALS := 18
  const DEFAULT_DISPLAY_COLUMNS := [WALLET_ADDRESS, BALANCE, HAS_INITIATED_TRANSFER, FIRST_ACQUIRED]

  // ---- normalize_token_balance ------------------------------------------

  /** Python's `10**d`, exactly: an integer for d >= 0, a fraction for d < 0. */
  function Pow10(d: int): (p: real)
    ensures p > 0.0
    ensures d > 0 ==> p > 1.0
    ensures d < 0 ==> p < 1.0
    decreases if d < 0 then -d else d
  {
    if d == 0 then 1.0 else if d > 0 then 10.0 * Pow10(d - 1) else Pow10(d + 1) / 10.0
  }

  /** `x / 10**decimals` for one balance cell, with `p` the power: booleans
      divide as 0 and 1, NaN stays NaN, and text raises. */
  function DivideCell(v: Value, p: real): Option<Value>
    requires p > 0.0
  {
    match v
    case Text(_) => None
    case Missing => Some(Missing)
    case Number(r) => Some(Number(r / p))
    case Flag(b) => Some(Number((if b then 1.0 else 0.0) / p))
  }

  /** The balance column divided cell by cell, or None if a cell is text. */
  function ScaledCells(cells: seq<Value>, p: real): (r: Option<seq<Value>>)
    requires p > 0.0
    ensures r.Some? <==> forall i :: 0 <= i < |cells| ==> !cells[i].Text?
    ensures r.Some? ==>
      && |r.value| == |cells|
      && forall i :: 0 <= i < |cells| ==> Some(r.value[i]) == DivideCell(cells[i], p)
  {
    if |cells| == 0 then Some([])
    else
      var head := DivideCell(cells[0], p);
      var rest := ScaledCells(cells[1..], p);
      if head.Some? && rest.Some? then Some([head.value] + rest.value) else None
  }

  /** The table `normalize_token_balance` leaves behind: when the table has rows,
      columns and the balance column, the output column holds every balance
      divided by 10^decimals; otherwise the table is unchanged. */
  function Normalized(t: Table, decimals: int := DEFAULT_DECIMALS, balanceCol: string := BALANCE,
                      outputCol: string := BALANCE_TOKEN): (r: Result<Table, Error>)
    ensures IsEmpty(t) || balanceCol !in t.columns ==> r == Success(t)
    ensures !IsEmpty(t) && balanceCol in t.columns ==>
      (r.Success? <==> forall i :: 0 <= i < |t.rows| ==> !t.rows[i][balanceCol].Text?)
    ensures r.Failure? ==> r.error == NotNumeric(balanceCol)
    ensures r.Success? && !IsEmpty(t) && balanceCol in t.columns ==>
      && r.value.columns == (if outputCol in t.columns then t.columns else t.columns + [outputCol])
      && |r.value.rows| == |t.rows|
      && forall i :: 0 <= i < |t.rows| ==>
           RowNormalized(t.rows[i], r.value.rows[i], balanceCol, outputCol, Pow10(decimals))
  {
    if IsEmpty(t) || balanceCol !in t.columns then Success(t)
    else
      match ScaledCells(Column(t, balanceCol), Pow10(decimals))
      case None => Failure(NotNumeric(balanceCol))
      case Some(cells) =>
        ScaledRows(t, balanceCol, outputCol, Pow10(decimals), cells);
        Success(WithColumn(t, outputCol, cells))
  }

  /** One row after normalisation: the output cell holds the balance divided by
      `p` (NaN stays NaN), and every other cell is kept. */
  predicate RowNormalized(before: Row, after: Row, balanceCol: string, outputCol: string, p: real)
    requires p > 0.0
  {
    && balanceCol in before && outputCol in after && !before[balanceCol].Text?
    && (before[balanceCol] == Missing ==> after[outputCol] == Missing)
    && (before[balanceCol] != Missing ==> after[outputCol] == Number(NumericValue(before[balanceCol]).value / p))
    && forall c :: c in before && c != outputCol ==> c in after && after[c] == before[c]
  }

  lemma ScaledRows(t: Table, balanceCol: string, outputCol: string, p: real, cells: seq<Value>)
    requires p > 0.0 && balanceCol in t.columns
    requires ScaledCells(Column(t, balanceCol), p) == Some(cells)
    ensures forall i :: 0 <= i < |t.rows| ==>
      RowNormalized(t.rows[i], WithColumn(t, outputCol, cells).rows[i], balanceCol, outputCol, p)
  {
    var column := Column(t, balanceCol);
    var after := WithColumn(t, outputCol, cells);
    forall i | 0 <= i < |t.rows|
      ensures RowNormalized(t.rows[i], after.rows[i], balanceCol, outputCol, p)
    {
      assert column[i] == t.rows[i][balanceCol];
      assert Some(cells[i]) == DivideCell(column[i], p);
    }
  }

  /** `normalize_token_balance(df, decimals, balance_col, output_col)`: writes the
      output column into the caller's frame and returns that same frame. */
  method NormalizeTokenBalance(df: Frame, decimals: int := DEFAULT_DECIMALS, balanceCol: string := BALANCE,
                               outputCol: string := BALANCE_TOKEN)
    returns (r: Result<Frame, Error>)
    requires df.Valid()
    modifies df
    ensures df.Valid()
    ensures match Normalized(old(df.View()), decimals, balanceCol, outputCol)
      case Success(t) => r == Success(df) && df.View() == t
      case Failure(e) => r == Failure(e) && df.View() == old(df.View())
  {
    var t := df.View();
    if IsEmpty(t) || balanceCol !in t.columns {
      return Success(df);
    }
    var cells := ScaledCells(Column(t, balanceCol), Pow10(decimals));
    if cells.None? {
      return Failure(NotNumeric(balanceCol));
    }
    df.SetColumn(outputCol, cells.value);
    r := Success(df);
  }

  /** Normalising a second time with the same arguments changes nothing: the
      output column is recomputed from the untouched balance column. */
  lemma NormalizeIdempotent(t: Table, decimals: int, balanceCol: string, outputCol: string)
    requires outputCol != balanceCol
    requires Normalized(t, decimals, balanceCol, outputCol).Success?
    ensures Normalized(Normalized(t, decimals, balanceCol, outputCol).value, decimals, balanceCol, outputCol)
         == Normalized(t, decimals, balanceCol, outputCol)
  {
    if !IsEmpty(t) && balanceCol in t.columns {
      var n := Normalized(t, decimals, balanceCol, outputCol).value;
      var p := Pow10(decimals);
      var cells := ScaledCells(Column(t, balanceCol), p).value;
      assert Column(n, balanceCol) == Column(t, balanceCol);
      var again := WithColumn(n, outputCol, cells);
      forall i | 0 <= i < |n.rows| ensures again.rows[i] == n.rows[i] {
        assert n.rows[i][outputCol] == cells[i];
      }
      assert again == n;
    }
  }

  /** When the output column is the balance column itself, a second call divides
      every balance again: normalisation in place compounds. */
  lemma NormalizeInPlaceCompounds(t: Table, decimals: int, col: string, i: nat)
    requires i < |t.rows| && |t.columns| > 0 && col in t.columns
    requires forall k :: 0 <= k < |t.rows| ==> t.rows[k][col].Number?
    ensures Normalized(t, decimals, col, col).Success?
    ensures var once := Normalized(t, decimals, col, col).value;
      && Normalized(once, decimals, col, col).Success?
      && Normalized(once, decimals, col, col).value.rows[i][col]
         == Number(t.rows[i][col].r / Pow10(decimals) / Pow10(decimals))
  {
    var once := Normalized(t, decimals, col, col).value;
    assert once.rows[i][col] == Number(t.rows[i][col].r / Pow10(decimals));
    assert forall k :: 0 <= k < |once.rows| ==> once.rows[k][col].Number?;
  }

  /** 10^18, the default divisor, is the literal 1000000000000000000. */
  lemma Pow10Eighteen()
    ensures Pow10(DEFAULT_DECIMALS) == 1000000000000000000.0
  {
    assert Pow10(3) == 1000.0;
    assert Pow10(6) == 1000000.0;
    assert Pow10(9) == 1000000000.0;
    assert Pow10(12) == 1000000000000.0;
    assert Pow10(15) == 1000000000000000.0;
  }

  // ---- filter_by_token_address ----------------------------------------------

  /** `filter_by_token_address`: the rows whose token cell is the address, or
      `pd.DataFrame()` when the table is empty or has no token column. */
  function FilterByTokenAddress(t: Table, tokenAddress: string, tokenCol: string := TOKEN): (r: Table)
    ensures IsEmpty(t) || tokenCol !in t.columns ==> r == EMPTY_TABLE
    ensures !IsEmpty(t) && tokenCol in t.columns ==> r.columns == t.columns
  {
    if IsEmpty(t) || tokenCol !in t.columns then EMPTY_TABLE
    else
      var rows := RowsWhere(t.rows, tokenCol, Text(tokenAddress));
      forall i | 0 <= i < |rows| ensures rows[i].Keys == ColumnSet(t.columns) {
        assert rows[i] in t.rows;
      }
      RawTable(t.columns, rows)
  }

  /** The filter keeps exactly the rows holding the address, each as often as it
      occurs, in their original order. */
  lemma FilterByTokenAddressRows(t: Table, tokenAddress: string, tokenCol: string, a: seq<Row>, b: seq<Row>)
    requires !IsEmpty(t) && tokenCol in t.columns
    requires t.rows == a + b
    ensures var r := FilterByTokenAddress(t, tokenAddress, tokenCol);
      && (forall i :: 0 <= i < |r.rows| ==> r.rows[i][tokenCol] == Text(tokenAddress))
      && (forall x :: multiset(r.rows)[x] == if x in t.rows && x[tokenCol] == Text(tokenAddress) then multiset(t.rows)[x] else 0)
      && r.rows == RowsWhere(a, tokenCol, Text(tokenAddress)) + RowsWhere(b, tokenCol, Text(tokenAddress))
  {
    var r := FilterByTokenAddress(t, tokenAddress, tokenCol);
    forall x ensures multiset(r.rows)[x] == if x in t.rows && x[tokenCol] == Text(tokenAddress) then multiset(t.rows)[x] else 0 {
      RowsWhereCount(t.rows, tokenCol, Text(tokenAddress), x);
    }
    forall i | 0 <= i < |r.rows| ensures r.rows[i][tokenCol] == Text(tokenAddress) {
      var x := r.rows[i];
      RowsWhereCount(t.rows, tokenCol, Text(tokenAddress), x);
      assert multiset(r.rows)[x] > 0;
    }
    RowsWhereAppend(a, b, tokenCol, Text(tokenAddress));
  }

  // ---- calculate_holder_metrics ---------------------------------------------

  /** The dictionary `calculate_holder_metrics` returns; `averageBalance` is
      None when the dictionary has no `average_balance` key. */
  datatype HolderMetrics = HolderMetrics(totalHolders: nat, activeHolders: real, averageBalance: Option<real>)

  const EMPTY_METRICS := HolderMetrics(0, 0.0, Some(0.0))

  function ColumnSum(t: Table, c: string): Result<real, Error>
    requires c in t.columns
  {
    var xs :- NumericColumn(t, c);
    Success(Sum(xs))
  }

  function ColumnMean(t: Table, c: string): Result<real, Error>
    requires |t.rows| > 0 && c in t.columns
  {
    var xs :- NumericColumn(t, c);
    Success(Mean(xs))
  }

  function CalculateHolderMetrics(t: Table): (r: Result<HolderMetrics, Error>)
    ensures IsEmpty(t) ==> r == Success(EMPTY_METRICS)
    ensures !IsEmpty(t) ==>
      (r.Failure? <==>
        || (HAS_INITIATED_TRANSFER in t.columns && NumericCells(Column(t, HAS_INITIATED_TRANSFER)).None?)
        || (BALANCE_TOKEN in t.columns && NumericCells(Column(t, BALANCE_TOKEN)).None?))
    ensures !IsEmpty(t) && r.Success? ==>
      && r.value.totalHolders == |t.rows|
      && (HAS_INITIATED_TRANSFER !in t.columns ==> r.value.activeHolders == 0.0)
      && (r.value.averageBalance.Some? <==> BALANCE_TOKEN in t.columns)
  {
    if IsEmpty(t) then Success(EMPTY_METRICS)
    else
      var active :- if HAS_INITIATED_TRANSFER in t.columns then ColumnSum(t, HAS_INITIATED_TRANSFER) else Success(0.0);
      if BALANCE_TOKEN in t.columns then
        var average :- ColumnMean(t, BALANCE_TOKEN);
        Success(HolderMetrics(|t.rows|, active, Some(average)))
      else
        Success(HolderMetrics(|t.rows|, active, None))
  }

  /** For a boolean transfer column, the active holders are the rows whose flag
      is true, so there are never more of them than holders. */
  lemma ActiveHoldersAreFlagged(t: Table)
    requires !IsEmpty(t) && HAS_INITIATED_TRANSFER in t.columns
    requires forall i :: 0 <= i < |t.rows| ==> t.rows[i][HAS_INITIATED_TRANSFER].Flag?
    requires CalculateHolderMetrics(t).Success?
    ensures CalculateHolderMetrics(t).value.activeHolders == CountTrue(Column(t, HAS_INITIATED_TRANSFER)) as real
    ensures CalculateHolderMetrics(t).value.activeHolders <= CalculateHolderMetrics(t).value.totalHolders as real
  {
    FlagSum(Column(t, HAS_INITIATED_TRANSFER));
  }

  /** The average balance is the mean of the normalised balance column. */
  lemma AverageBalanceIsMean(t: Table)
    requires !IsEmpty(t) && BALANCE_TOKEN in t.columns
    requires CalculateHolderMetrics(t).Success?
    ensures var xs := NumericCells(Column(t, BALANCE_TOKEN)).value;
      CalculateHolderMetrics(t).value.averageBalance == Some(Sum(xs) / |t.rows| as real)
  {
  }

  // ---- create_comparison_dataframe --------------------------------------------

  datatype ComparisonRow = ComparisonRow(token: string, totalHolders: nat, activeHolders: real)

  /** `create_comparison_dataframe`: the COPM row, then the COPW row, each with
      that token's holder and active-holder counts. */
  function CreateComparisonTable(copm: Table, copw: Table): (r: Result<seq<ComparisonRow>, Error>)
    ensures r.Success? <==> CalculateHolderMetrics(copm).Success? && CalculateHolderMetrics(copw).Success?
    ensures r.Failure? ==> r.error == if CalculateHolderMetrics(copm).Failure?
      then CalculateHolderMetrics(copm).error else CalculateHolderMetrics(copw).error
    ensures r.Success? ==>
      && |r.value| == 2
      && r.value[0].token == "COPM" && r.value[1].token == "COPW"
      && r.value[0].totalHolders == (if IsEmpty(copm) then 0 else |copm.rows|)
      && r.value[1].totalHolders == (if IsEmpty(copw) then 0 else |copw.rows|)
      && r.value[0].activeHolders == CalculateHolderMetrics(copm).value.activeHolders
      && r.value[1].activeHolders == CalculateHolderMetrics(copw).value.activeHolders
  {
    var m :- CalculateHolderMetrics(copm);
    var w :- CalculateHolderMetrics(copw);
    Success([ComparisonRow("COPM", m.totalHolders, m.activeHolders),
             ComparisonRow("COPW", w.totalHolders, w.activeHolders)])
  }

  // ---- prepare_holder_display_columns ----------------------------------------

  /** `[col for col in columns if col in df.columns]`. */
  function AvailableColumns(requested: seq<string>, t: Table): (r: seq<string>)
    ensures forall c :: c in r <==> c in requested && c in t.columns
    ensures |r| <= |requested|
  {
    if |requested| == 0 then []
    else (if requested[0] in t.columns then [requested[0]] else []) + AvailableColumns(requested[1..], t)
  }

  /** The available columns keep the requested order. */
  lemma {:induction false} AvailableColumnsAppend(a: seq<string>, b: seq<string>, t: Table)
    ensures AvailableColumns(a + b, t) == AvailableColumns(a, t) + AvailableColumns(b, t)
  {
    if |a| > 0 {
      assert (a + b)[1..] == a[1..] + b;
      AvailableColumnsAppend(a[1..], b, t);
    } else {
      assert a + b == b;
    }
  }

  /** When every requested column exists, all of them are kept, in order. */
  lemma {:induction false} AvailableColumnsAll(requested: seq<string>, t: Table)
    requires forall c :: c in requested ==> c in t.columns
    ensures AvailableColumns(requested, t) == requested
  {
    if |requested| > 0 {
      AvailableColumnsAll(requested[1..], t);
      assert requested == [requested[0]] + requested[1..];
    }
  }

  /** `prepare_holder_display_columns(df, columns)`; None stands for the
      default column list. */
  function PrepareHolderDisplayColumns(t: Table, columns: Option<seq<string>> := None): (r: Table)
    ensures IsEmpty(t) ==> r == t
    ensures !IsEmpty(t) && AvailableColumns(columns.GetOr(DEFAULT_DISPLAY_COLUMNS), t) == [] ==> r == t
    ensures var available := AvailableColumns(columns.GetOr(DEFAULT_DISPLAY_COLUMNS), t);
      !IsEmpty(t) && available != [] ==>
        && r.columns == available
        && |r.rows| == |t.rows|
        && forall i, c :: 0 <= i < |t.rows| && c in available ==> c in r.rows[i] && r.rows[i][c] == t.rows[i][c]
  {
    var requested := columns.GetOr(DEFAULT_DISPLAY_COLUMNS);
    if IsEmpty(t) then t
    else
      var available := AvailableColumns(requested, t);
      if available != [] then Select(t, available) else t
  }

  /** A table that has the four default columns is shown with exactly those,
      in the default order. */
  lemma DefaultDisplayColumns(t: Table)
    requires !IsEmpty(t)
    requires forall c :: c in DEFAULT_DISPLAY_COLUMNS ==> c in t.columns
    ensures PrepareHolderDisplayColumns(t).columns == DEFAULT_DISPLAY_COLUMNS
  {
    AvailableColumnsAll(DEFAULT_DISPLAY_COLUMNS, t);
  }

  // ---- a worked example ------------------------------------------------------

  const EXAMPLE_ROW: Row := map[WALLET_ADDRESS := Text("0xA"), BALANCE := Number(5000000000000000000.0),
                                 HAS_INITIATED_TRANSFER := Flag(true)]

  /** One holder with 5000000000000000000 raw units normalises, with the
      default arguments, to 5 tokens in `balance_token`. */
  lemma SingleHolderNormalizes(t: Table)
    requires t == RawTable([WALLET_ADDRESS, BALANCE, HAS_INITIATED_TRANSFER], [EXAMPLE_ROW])
    ensures Normalized(t) == Success(RawTable(t.columns + [BALANCE_TOKEN], [EXAMPLE_ROW[BALANCE_TOKEN := Number(5.0)]]))
  {
    Pow10Eighteen();
    assert BALANCE_TOKEN !in t.columns;
    var n := Normalized(t).value;
    assert n.rows[0] == EXAMPLE_ROW[BALANCE_TOKEN := Number(5.0)];
    assert n.rows == [EXAMPLE_ROW[BALANCE_TOKEN := Number(5.0)]];
  }

  /** ... which makes one holder, one active holder and an average balance of 5. */
  lemma SingleHolderMetrics(n: Table)
    requires n == RawTable([WALLET_ADDRESS, BALANCE, HAS_INITIATED_TRANSFER, BALANCE_TOKEN],
                           [EXAMPLE_ROW[BALANCE_TOKEN := Number(5.0)]])
    ensures CalculateHolderMetrics(n) == Success(HolderMetrics(1, 1.0, Some(5.0)))
  {
    var flags := Column(n, HAS_INITIATED_TRANSFER);
    assert flags == [Flag(true)];
    assert flags[1..] == [];
    assert NumericCells(flags[1..]) == Some([]);
    assert NumericCells(flags) == Some([1.0] + []);
    assert Sum([1.0]) == 1.0;
    var balances := Column(n, BALANCE_TOKEN);
    assert balances == [Number(5.0)];
    assert balances[1..] == [];
    assert NumericCells(balances[1..]) == Some([]);
    assert NumericCells(balances) == Some([5.0] + []);
    assert Mean([5.0]) == 5.0;
  }
}
