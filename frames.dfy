/** The part of a pandas DataFrame that the dashboard's helpers rely on: an
    ordered list of column names and a sequence of rows, each row a map from
    column name to cell.  A table is rectangular: every row has exactly the
    table's columns.  The index is not modelled; a row's position is its index. */
module Frames {
  import opened Wrappers
  import opened Errors

  /** One cell, as the JSON holder list delivers it: text, a number, a boolean,
      or missing (a key a record does not have, NaN in pandas). */
  datatype Value = Text(s: string) | Number(r: real) | Flag(b: bool) | Missing

  type Row = map<string, Value>

  datatype RawTable = RawTable(columns: seq<string>, rows: seq<Row>)

  function ColumnSet(columns: seq<string>): set<string> {
    set c | c in columns
  }

  predicate Rectangular(columns: seq<string>, rows: seq<Row>) {
    forall i :: 0 <= i < |rows| ==> rows[i].Keys == ColumnSet(columns)
  }

  type Table = t: RawTable | Rectangular(t.columns, t.rows) witness RawTable([], [])

  /** `pd.DataFrame()`: no columns and no rows. */
  const EMPTY_TABLE: Table := RawTable([], [])

  /** `df.empty`: true when the table has no rows or no columns. */
  predicate IsEmpty(t: Table) {
    |t.rows| == 0 || |t.columns| == 0
  }

  /** A table is empty exactly when it holds no cell at all. */
  lemma EmptyMeansNoCells(t: Table)
    ensures IsEmpty(t) <==> forall i :: 0 <= i < |t.rows| ==> t.rows[i] == map[]
  {
    if !IsEmpty(t) {
      assert t.columns[0] in ColumnSet(t.columns);
      assert t.columns[0] in t.rows[0];
    }
  }

  /** `df[c]`, the cells of one column in row order. */
  function Column(t: Table, c: string): (cells: seq<Value>)
    requires c in t.columns
    ensures |cells| == |t.rows|
  {
    seq(|t.rows|, i requires 0 <= i < |t.rows| => t.rows[i][c])
  }

  /** `df[name] = cells`: overwrites the column if it exists, otherwise appends it
      as the last column. */
  function WithColumn(t: Table, name: string, cells: seq<Value>): (r: Table)
    requires |cells| == |t.rows|
    ensures r.columns == if name in t.columns then t.columns else t.columns + [name]
    ensures |r.rows| == |t.rows|
    ensures forall i :: 0 <= i < |t.rows| ==> r.rows[i] == t.rows[i][name := cells[i]]
  {
    var columns := if name in t.columns then t.columns else t.columns + [name];
    var rows := seq(|t.rows|, i requires 0 <= i < |t.rows| => t.rows[i][name := cells[i]]);
    assert ColumnSet(columns) == ColumnSet(t.columns) + {name};
    RawTable(columns, rows)
  }

  /** `df[cols]` for columns that all exist: the table restricted to `cols`, in
      that order. */
  function Select(t: Table, cols: seq<string>): (r: Table)
    requires forall c :: c in cols ==> c in t.columns
    ensures r.columns == cols && |r.rows| == |t.rows|
    ensures forall i, c :: 0 <= i < |t.rows| && c in cols ==> c in r.rows[i] && r.rows[i][c] == t.rows[i][c]
  {
    var keep := ColumnSet(cols);
    RawTable(cols, seq(|t.rows|, i requires 0 <= i < |t.rows| => Project(t.rows[i], keep)))
  }

  function Project(row: Row, keep: set<string>): (r: Row)
    requires keep <= row.Keys
    ensures r.Keys == keep
    ensures forall c :: c in keep ==> r[c] == row[c]
  {
    map c | c in keep :: row[c]
  }

  /** The rows whose cell in column `col` equals `v`, in their original order:
      the boolean mask `df[df[col] == v]`. */
  function RowsWhere(rows: seq<Row>, col: string, v: Value): (r: seq<Row>)
    ensures |r| <= |rows|
    ensures forall x :: x in r ==> x in rows
  {
    if |rows| == 0 then []
    else (if col in rows[0] && rows[0][col] == v then [rows[0]] else []) + RowsWhere(rows[1..], col, v)
  }

  predicate Matches(row: Row, col: string, v: Value) {
    col in row && row[col] == v
  }

  /** A row is kept exactly when it matches, and as often as it occurs. */
  lemma {:induction false} RowsWhereCount(rows: seq<Row>, col: string, v: Value, x: Row)
    ensures multiset(RowsWhere(rows, col, v))[x] == if Matches(x, col, v) then multiset(rows)[x] else 0
  {
    if |rows| > 0 {
      assert rows == [rows[0]] + rows[1..];
      RowsWhereCount(rows[1..], col, v, x);
    }
  }

  /** Filtering a concatenation filters each part: the kept rows stay in order. */
  lemma {:induction false} RowsWhereAppend(a: seq<Row>, b: seq<Row>, col: string, v: Value)
    ensures RowsWhere(a + b, col, v) == RowsWhere(a, col, v) + RowsWhere(b, col, v)
  {
    if |a| > 0 {
      assert (a + b)[1..] == a[1..] + b;
      RowsWhereAppend(a[1..], b, col, v);
    } else {
      assert a + b == b;
    }
  }

  // ---- numeric columns -------------------------------------------------

  /** The number a cell stands for in arithmetic: booleans count as 0 and 1. */
  function NumericValue(v: Value): Option<real> {
    match v
    case Number(r) => Some(r)
    case Flag(b) => Some(if b then 1.0 else 0.0)
    case _ => None
  }

  /** The numbers of a column, or None if some cell is text or missing. */
  function NumericCells(cells: seq<Value>): (xs: Option<seq<real>>)
    ensures xs.Some? <==> forall i :: 0 <= i < |cells| ==> NumericValue(cells[i]).Some?
    ensures xs.Some? ==> |xs.value| == |cells|
    ensures xs.Some? ==> forall i :: 0 <= i < |cells| ==> xs.value[i] == NumericValue(cells[i]).value
  {
    if |cells| == 0 then Some([])
    else
      var head := NumericValue(cells[0]);
      var rest := NumericCells(cells[1..]);
      if head.Some? && rest.Some? then Some([head.value] + rest.value) else None
  }

  function NumericColumn(t: Table, c: string): (r: Result<seq<real>, Error>)
    requires c in t.columns
    ensures r.Success? ==> |r.value| == |t.rows|
  {
    match NumericCells(Column(t, c))
    case Some(xs) => Success(xs)
    case None => Failure(NotNumeric(c))
  }

  function Sum(xs: seq<real>): real {
    if |xs| == 0 then 0.0 else xs[0] + Sum(xs[1..])
  }

  function Mean(xs: seq<real>): real
    requires |xs| > 0
  {
    Sum(xs) / |xs| as real
  }

  /** Values between `lo` and `hi` sum to between n * lo and n * hi. */
  lemma {:induction false} SumBounds(xs: seq<real>, lo: real, hi: real)
    requires forall i :: 0 <= i < |xs| ==> lo <= xs[i] <= hi
    ensures |xs| as real * lo <= Sum(xs) <= |xs| as real * hi
  {
    if |xs| > 0 {
      SumBounds(xs[1..], lo, hi);
      assert (|xs| - 1) as real * lo + lo == |xs| as real * lo;
      assert (|xs| - 1) as real * hi + hi == |xs| as real * hi;
    }
  }

  /** The mean of a non-empty column lies between its minimum and its maximum. */
  lemma MeanBounds(xs: seq<real>)
    requires |xs| > 0
    ensures Min(xs) <= Mean(xs) <= Max(xs)
  {
    MeanWithin(xs, Min(xs), Max(xs));
  }

  lemma MeanWithin(xs: seq<real>, lo: real, hi: real)
    requires |xs| > 0
    requires forall i :: 0 <= i < |xs| ==> lo <= xs[i] <= hi
    ensures lo <= Mean(xs) <= hi
  {
    SumBounds(xs, lo, hi);
    MeanOfBoundedSum(Sum(xs), |xs| as real, lo, hi);
  }

  lemma MeanOfBoundedSum(s: real, n: real, lo: real, hi: real)
    requires n > 0.0 && n * lo <= s <= n * hi
    ensures lo <= s / n <= hi
  {
    assert (s / n) * n == s;
  }


  /** The smallest number of a non-empty column. */
  function Min(xs: seq<real>): (m: real)
    requires |xs| > 0
    ensures forall i :: 0 <= i < |xs| ==> m <= xs[i]
    ensures exists i :: 0 <= i < |xs| && m == xs[i]
  {
    if |xs| == 1 then xs[0]
    else
      var rest := Min(xs[1..]);
      if xs[0] <= rest then xs[0] else rest
  }

  /** The largest number of a non-empty column. */
  function Max(xs: seq<real>): (m: real)
    requires |xs| > 0
    ensures forall i :: 0 <= i < |xs| ==> xs[i] <= m
    ensures exists i :: 0 <= i < |xs| && m == xs[i]
  {
    if |xs| == 1 then xs[0]
    else
      var rest := Max(xs[1..]);
      if xs[0] >= rest then xs[0] else rest
  }

  /** `Series.count()`: the cells that are not missing. */
  function CountPresent(cells: seq<Value>): (n: nat)
    ensures n <= |cells|
  {
    if |cells| == 0 then 0 else (if cells[0] == Missing then 0 else 1) + CountPresent(cells[1..])
  }

  function CountTrue(cells: seq<Value>): nat {
    if |cells| == 0 then 0 else (if cells[0] == Flag(true) then 1 else 0) + CountTrue(cells[1..])
  }

  /** The sum of a boolean column is the number of true cells, at most the
      number of cells. */
  lemma {:induction false} FlagSum(cells: seq<Value>)
    requires forall i :: 0 <= i < |cells| ==> cells[i].Flag?
    ensures NumericCells(cells).Some?
    ensures Sum(NumericCells(cells).value) == CountTrue(cells) as real
    ensures CountTrue(cells) <= |cells|
  {
    if |cells| > 0 {
      FlagSum(cells[1..]);
      var xs := NumericCells(cells).value;
      assert xs[1..] == NumericCells(cells[1..]).value;
    }
  }

  // ---- building a table from JSON records --------------------------------

  predicate DistinctKeys(entries: seq<(string, Value)>) {
    forall i, j :: 0 <= i < j < |entries| ==> entries[i].0 != entries[j].0
  }

  /** One JSON object as Python parses it: keys in order, each key once. */
  type Record = r: seq<(string, Value)> | DistinctKeys(r) witness []

  function Keys(rec: seq<(string, Value)>): (ks: seq<string>)
    ensures |ks| == |rec| && forall j :: 0 <= j < |rec| ==> ks[j] == rec[j].0
  {
    seq(|rec|, j requires 0 <= j < |rec| => rec[j].0)
  }

  /** The value a record has for key `k`, Missing if it has none. */
  function Lookup(rec: seq<(string, Value)>, k: string): Value {
    if |rec| == 0 then Missing else if rec[0].0 == k then rec[0].1 else Lookup(rec[1..], k)
  }

  lemma {:induction false} LookupEntry(rec: Record, j: nat)
    requires j < |rec|
    ensures Lookup(rec, rec[j].0) == rec[j].1
  {
    if j > 0 {
      var tail: Record := rec[1..];
      assert tail[j - 1] == rec[j];
      LookupEntry(tail, j - 1);
    }
  }

  lemma {:induction false} LookupAbsent(rec: seq<(string, Value)>, k: string)
    requires k !in Keys(rec)
    ensures Lookup(rec, k) == Missing
  {
    if |rec| > 0 {
      assert Keys(rec[1..]) == Keys(rec)[1..];
      LookupAbsent(rec[1..], k);
    }
  }

  /** No label occurs twice. */
  predicate DistinctLabels(labels: seq<string>) {
    forall i, j :: 0 <= i < j < |labels| ==> labels[i] != labels[j]
  }

  /** `acc` followed by the keys of `keys` it does not have yet, in order. */
  function AddKeys(acc: seq<string>, keys: seq<string>): (r: seq<string>)
    ensures forall c :: c in r <==> c in acc || c in keys
    ensures |acc| <= |r| && r[..|acc|] == acc
    ensures DistinctLabels(acc) ==> DistinctLabels(r)
    decreases |keys|
  {
    if |keys| == 0 then acc
    else AddKeys(if keys[0] in acc then acc else acc + [keys[0]], keys[1..])
  }

  /** Keys that are all new are appended as they come, in their own order. */
  lemma {:induction false} AddKeysFresh(acc: seq<string>, keys: seq<string>)
    requires DistinctLabels(keys)
    requires forall k :: k in keys ==> k !in acc
    ensures AddKeys(acc, keys) == acc + keys
    decreases |keys|
  {
    if |keys| > 0 {
      var rest := keys[1..];
      assert keys[0] in keys;
      assert DistinctLabels(rest);
      forall k | k in rest ensures k !in acc + [keys[0]] {
        var i :| 0 <= i < |rest| && rest[i] == k;
        assert keys[i + 1] == k;
      }
      AddKeysFresh(acc + [keys[0]], rest);
      ShiftFirst(acc, keys);
    }
  }

  lemma ShiftFirst(acc: seq<string>, keys: seq<string>)
    requires |keys| > 0
    ensures acc + keys == (acc + [keys[0]]) + keys[1..]
  {
    assert keys == [keys[0]] + keys[1..];
  }

  /** The columns of `pd.DataFrame(records)`: every key of every record, once,
      in order of first appearance. */
  function KeyUnion(records: seq<Record>): (cols: seq<string>)
    ensures forall c :: c in cols <==> exists i :: 0 <= i < |records| && c in Keys(records[i])
    ensures DistinctLabels(cols)
  {
    if |records| == 0 then []
    else
      var last := |records| - 1;
      var r := AddKeys(KeyUnion(records[..last]), Keys(records[last]));
      assert forall i :: 0 <= i < last ==> records[..last][i] == records[i];
      r
  }

  /** A single JSON object's columns are its keys, in its own order. */
  lemma KeyUnionOfOne(rec: Record)
    ensures KeyUnion([rec]) == Keys(rec)
  {
    assert [rec][..0] == [];
    assert DistinctLabels(Keys(rec));
    AddKeysFresh([], Keys(rec));
  }

  /** First appearance decides the order: the columns of the first k records
      begin the columns of all of them. */
  lemma {:induction false} KeyUnionPrefix(records: seq<Record>, k: nat)
    requires k <= |records|
    ensures |KeyUnion(records[..k])| <= |KeyUnion(records)|
    ensures KeyUnion(records)[..|KeyUnion(records[..k])|] == KeyUnion(records[..k])
    decreases |records| - k
  {
    if k == |records| {
      assert records[..k] == records;
    } else {
      KeyUnionPrefix(records, k + 1);
      assert records[..k + 1][..k] == records[..k];
      var a, b, c := KeyUnion(records[..k]), KeyUnion(records[..k + 1]), KeyUnion(records);
      assert b[..|a|] == a;
      assert c[..|a|] == c[..|b|][..|a|] == b[..|a|];
    }
  }

  function RecordRow(rec: Record, columns: seq<string>): Row {
    map c | c in ColumnSet(columns) :: Lookup(rec, c)
  }

  /** `pd.DataFrame(records)`: one row per record; a key a record lacks is a
      missing cell. */
  function FromRecords(records: seq<Record>): (t: Table)
    ensures t.columns == KeyUnion(records) && |t.rows| == |records|
    ensures forall i, j :: 0 <= i < |records| && 0 <= j < |records[i]| ==>
      records[i][j].0 in t.rows[i] && t.rows[i][records[i][j].0] == records[i][j].1
    ensures forall i, c :: 0 <= i < |records| && c in t.columns && c !in Keys(records[i]) ==>
      t.rows[i][c] == Missing
  {
    var columns := KeyUnion(records);
    var rows := seq(|records|, i requires 0 <= i < |records| => RecordRow(records[i], columns));
    forall i, j | 0 <= i < |records| && 0 <= j < |records[i]|
      ensures records[i][j].0 in rows[i] && rows[i][records[i][j].0] == records[i][j].1
    {
      assert records[i][j].0 in Keys(records[i]);
      LookupEntry(records[i], j);
    }
    forall i, c | 0 <= i < |records| && c in columns && c !in Keys(records[i])
      ensures rows[i][c] == Missing
    {
      LookupAbsent(records[i], c);
    }
    RawTable(columns, rows)
  }

  // ---- sorting -----------------------------------------------------------

  /** The number a row is sorted by; rows without a number there sort as 0. */
  function SortKey(row: Row, col: string): real {
    if col in row && NumericValue(row[col]).Some? then NumericValue(row[col]).value else 0.0
  }

  predicate SortedDescending(rows: seq<Row>, col: string) {
    forall i, j :: 0 <= i < j < |rows| ==> SortKey(rows[i], col) >= SortKey(rows[j], col)
  }

  function InsertDescending(x: Row, rows: seq<Row>, col: string): (r: seq<Row>)
    requires SortedDescending(rows, col)
    ensures SortedDescending(r, col)
    ensures multiset(r) == multiset(rows) + multiset{x}
    ensures |rows| > 0 ==> r[0] == x || r[0] == rows[0]
  {
    if |rows| == 0 then [x]
    else if SortKey(x, col) >= SortKey(rows[0], col) then
      ConsSorted(x, rows, col);
      [x] + rows
    else
      assert rows == [rows[0]] + rows[1..];
      var rest := InsertDescending(x, rows[1..], col);
      ConsSorted(rows[0], rest, col);
      [rows[0]] + rest
  }

  lemma ConsSorted(h: Row, s: seq<Row>, col: string)
    requires SortedDescending(s, col)
    requires |s| > 0 ==> SortKey(h, col) >= SortKey(s[0], col)
    ensures SortedDescending([h] + s, col)
  {
    var r := [h] + s;
    forall i, j | 0 <= i < j < |r| ensures SortKey(r[i], col) >= SortKey(r[j], col) {
      if i == 0 {
        assert r[j] == s[j - 1];
        if j > 1 { assert SortKey(s[0], col) >= SortKey(s[j - 1], col); }
      } else {
        assert r[i] == s[i - 1] && r[j] == s[j - 1];
      }
    }
  }

  /** The rows ordered by `col`, largest first (`sort_values(ascending=False)`). */
  function SortDescending(rows: seq<Row>, col: string): (r: seq<Row>)
    ensures SortedDescending(r, col)
    ensures multiset(r) == multiset(rows)
  {
    if |rows| == 0 then []
    else
      assert rows == [rows[0]] + rows[1..];
      InsertDescending(rows[0], SortDescending(rows[1..], col), col)
  }

  function SortValuesDescending(t: Table, col: string): (r: Table)
    ensures r.columns == t.columns
    ensures SortedDescending(r.rows, col)
    ensures multiset(r.rows) == multiset(t.rows)
  {
    var rows := SortDescending(t.rows, col);
    forall i | 0 <= i < |rows| ensures rows[i].Keys == ColumnSet(t.columns) {
      assert rows[i] in multiset(t.rows);
    }
    RawTable(t.columns, rows)
  }

  // ---- a DataFrame object that can be changed in place -----------------------

  /** A DataFrame that callers share: assigning a column changes it for every
      holder of the reference. */
  class Frame {
    var columns: seq<string>
    var rows: seq<Row>

    ghost predicate Valid()
      reads this
    {
      Rectangular(columns, rows)
    }

    function View(): Table
      reads this
      requires Valid()
    {
      RawTable(columns, rows)
    }

    constructor (t: Table)
      ensures Valid() && View() == t
    {
      columns, rows := t.columns, t.rows;
    }

    /** `df[name] = cells`. */
    method SetColumn(name: string, cells: seq<Value>)
      requires Valid() && |cells| == |rows|
      modifies this
      ensures Valid() && View() == WithColumn(old(View()), name, cells)
    {
      var t := WithColumn(View(), name, cells);
      columns, rows := t.columns, t.rows;
    }
  }
}
