/**
 * The column-table helpers: a polars `DataFrame` is modelled as an ordered
 * sequence of named, typed series whose cells may be null, and a filter
 * expression as a predicate on one row.
 */
module Helper {
  import opened Wrappers
  import opened Structs

  // ---- the helper enums ----------------------------------------------------

  datatype ColumnType = Bool | F64 | I64 | String

  /** The non-null values of one column. */
  datatype ColumnValues =
    | Bools(bools: seq<bool>)
    | F64s(floats: seq<Float64>)
    | I64s(ints: seq<i64>)
    | Strings(strs: seq<string>)

  /** The first value of one column, if any. */
  datatype ColumnValue =
    | OneBool(b: Option<bool>)
    | OneF64(f: Option<Float64>)
    | OneI64(i: Option<i64>)
    | OneString(s: Option<string>)

  // ---- tables --------------------------------------------------------------

  /** One cell, as polars' `AnyValue`. */
  datatype AnyValue = Null | BoolV(b: bool) | F64V(f: Float64) | I64V(i: i64) | StrV(s: string)

  /** The values of a series: one type, each cell possibly null. */
  datatype ColumnData =
    | BoolData(bools: seq<Option<bool>>)
    | F64Data(floats: seq<Option<Float64>>)
    | I64Data(ints: seq<Option<i64>>)
    | StrData(strs: seq<Option<string>>)

  datatype Series = Series(name: string, data: ColumnData)

  /** Columns in order. Names may repeat: `DataFrame::new_no_checks` does not
      check them. */
  type DataFrame = seq<Series>

  function DType(d: ColumnData): ColumnType {
    match d
    case BoolData(_) => Bool
    case F64Data(_) => F64
    case I64Data(_) => I64
    case StrData(_) => String
  }

  function Len(d: ColumnData): nat {
    match d
    case BoolData(v) => |v|
    case F64Data(v) => |v|
    case I64Data(v) => |v|
    case StrData(v) => |v|
  }

  /** How a present value of each type reads as a cell. */
  function AsBool(x: bool): AnyValue { BoolV(x) }
  function AsF64(x: Float64): AnyValue { F64V(x) }
  function AsI64(x: i64): AnyValue { I64V(x) }
  function AsStr(x: string): AnyValue { StrV(x) }

  /** A column of optional values read as cells: `None` is `Null`. */
  function LiftAll<T>(v: seq<Option<T>>, lift: T -> AnyValue): (c: seq<AnyValue>)
    ensures |c| == |v|
    ensures forall i :: 0 <= i < |v| ==> c[i] == if v[i].Some? then lift(v[i].value) else Null
  {
    seq(|v|, i requires 0 <= i < |v| => if v[i].Some? then lift(v[i].value) else Null)
  }

  /** A sequence of present values read as cells. */
  function LiftSome<T>(xs: seq<T>, lift: T -> AnyValue): (c: seq<AnyValue>)
    ensures |c| == |xs|
    ensures forall i :: 0 <= i < |xs| ==> c[i] == lift(xs[i])
  {
    seq(|xs|, i requires 0 <= i < |xs| => lift(xs[i]))
  }

  /** Whether a cell may stand in a column of type `t`; null fits every type. */
  predicate HasType(v: AnyValue, t: ColumnType) {
    match v
    case Null => true
    case BoolV(_) => t == Bool
    case F64V(_) => t == F64
    case I64V(_) => t == I64
    case StrV(_) => t == String
  }

  /** The cells of a series in row order. */
  function Cells(d: ColumnData): (c: seq<AnyValue>)
    ensures |c| == Len(d)
    ensures forall i :: 0 <= i < |c| ==> HasType(c[i], DType(d))
  {
    match d
    case BoolData(v) => LiftAll(v, AsBool)
    case F64Data(v) => LiftAll(v, AsF64)
    case I64Data(v) => LiftAll(v, AsI64)
    case StrData(v) => LiftAll(v, AsStr)
  }

  function CellAt(d: ColumnData, i: nat): AnyValue
    requires i < Len(d)
  {
    Cells(d)[i]
  }

  function Names(df: DataFrame): (ns: seq<string>)
    ensures |ns| == |df| && forall i :: 0 <= i < |df| ==> ns[i] == df[i].name
  {
    if df == [] then [] else [df[0].name] + Names(df[1..])
  }

  /** The position of the first occurrence of `x`. */
  function FirstIndex(ns: seq<string>, x: string): (j: nat)
    requires x in ns
    ensures j < |ns| && ns[j] == x
    ensures forall k :: 0 <= k < j ==> ns[k] != x
  {
    if ns[0] == x then 0 else 1 + FirstIndex(ns[1..], x)
  }

  /** `df.column(name)`: the first series with that name. */
  function Column(df: DataFrame, name: string): (r: Option<Series>)
    ensures r.None? <==> name !in Names(df)
    ensures r.Some? ==> r.value in df && r.value.name == name
    ensures r.Some? ==> r.value == df[FirstIndex(Names(df), name)]
  {
    if name in Names(df) then Some(df[FirstIndex(Names(df), name)]) else None
  }

  predicate NoDuplicates(ns: seq<string>) {
    forall i, j :: 0 <= i < j < |ns| ==> ns[i] != ns[j]
  }

  /** With distinct names, looking a column up by its name finds it. */
  lemma ColumnOfDistinct(df: DataFrame, i: nat)
    requires NoDuplicates(Names(df)) && i < |df|
    ensures Column(df, df[i].name) == Some(df[i])
  {
    FirstIndexDistinct(Names(df), i);
  }

  lemma FirstIndexDistinct(ns: seq<string>, i: nat)
    requires NoDuplicates(ns) && i < |ns|
    ensures ns[i] in ns && FirstIndex(ns, ns[i]) == i
  {
    var j := FirstIndex(ns, ns[i]);
    assert ns[j] == ns[i];
  }

  /** Two tables with the same names find a name at the same position. */
  lemma ColumnSamePosition(a: DataFrame, b: DataFrame, name: string)
    requires Names(a) == Names(b) && name in Names(a)
    ensures exists j :: 0 <= j < |a| && Column(a, name) == Some(a[j]) && Column(b, name) == Some(b[j])
  {
    var j := FirstIndex(Names(a), name);
    assert Column(a, name) == Some(a[j]) && Column(b, name) == Some(b[j]);
  }

  /** The number of rows, read off the first column. */
  function Height(df: DataFrame): nat {
    if df == [] then 0 else Len(df[0].data)
  }

  /** polars' shape invariant: every column has the same length. */
  predicate WellFormed(df: DataFrame) {
    forall i :: 0 <= i < |df| ==> Len(df[i].data) == Height(df)
  }

  datatype Field = Field(name: string, value: AnyValue)

  /** One row, as a filter expression sees it: the column names with the
      cells at one position. */
  type Row = seq<Field>

  function RowAt(df: DataFrame, i: nat): (row: Row)
    requires WellFormed(df) && i < Height(df)
    ensures |row| == |df|
  {
    seq(|df|, j requires 0 <= j < |df| => Field(df[j].name, CellAt(df[j].data, i)))
  }

  // ---- filtering -------------------------------------------------------------

  /** The positions whose mask entry is true, in increasing order. */
  function Selected(m: seq<bool>): (r: seq<nat>)
    ensures |r| <= |m|
    ensures forall i :: 0 <= i < |r| ==> r[i] < |m| && m[r[i]]
    ensures forall i, j :: 0 <= i < j < |r| ==> r[i] < r[j]
    ensures forall k :: 0 <= k < |m| && m[k] ==> k in r
  {
    if m == [] then []
    else
      var k := |m| - 1;
      var front := Selected(m[..k]);
      assert forall i :: 0 <= i < |front| ==> front[i] < k && m[front[i]];
      assert forall x :: 0 <= x < k && m[x] ==> m[..k][x];
      front + (if m[k] then [k] else [])
  }

  /** The elements of `s` at the positions the mask selects. */
  function KeepWhere<T>(s: seq<T>, m: seq<bool>): (r: seq<T>)
    requires |s| == |m|
    ensures |r| == |Selected(m)|
    ensures forall i :: 0 <= i < |r| ==> r[i] == s[Selected(m)[i]]
  {
    if s == [] then []
    else
      var k := |s| - 1;
      var front := KeepWhere(s[..k], m[..k]);
      assert Selected(m) == Selected(m[..k]) + (if m[k] then [k] else []);
      front + (if m[k] then [s[k]] else [])
  }

  function KeepData(d: ColumnData, m: seq<bool>): (r: ColumnData)
    requires |m| == Len(d)
    ensures DType(r) == DType(d) && Len(r) == |Selected(m)|
    ensures forall i :: 0 <= i < Len(r) ==> CellAt(r, i) == CellAt(d, Selected(m)[i])
  {
    match d
    case BoolData(v) => KeepWhereCells(v, m, AsBool); BoolData(KeepWhere(v, m))
    case F64Data(v) => KeepWhereCells(v, m, AsF64); F64Data(KeepWhere(v, m))
    case I64Data(v) => KeepWhereCells(v, m, AsI64); I64Data(KeepWhere(v, m))
    case StrData(v) => KeepWhereCells(v, m, AsStr); StrData(KeepWhere(v, m))
  }

  lemma KeepWhereCells<T>(v: seq<Option<T>>, m: seq<bool>, lift: T -> AnyValue)
    requires |v| == |m|
    ensures forall i :: 0 <= i < |Selected(m)| ==>
              Selected(m)[i] < |v| && LiftAll(KeepWhere(v, m), lift)[i] == LiftAll(v, lift)[Selected(m)[i]]
  {
  }

  /** Which rows the predicate accepts. */
  function Mask(df: DataFrame, p: Row -> bool): (m: seq<bool>)
    requires WellFormed(df)
    ensures |m| == Height(df)
    ensures forall i :: 0 <= i < |m| ==> m[i] == p(RowAt(df, i))
  {
    seq(Height(df), i requires 0 <= i < Height(df) => p(RowAt(df, i)))
  }

  /** `df.lazy().filter(p).collect()`: the rows the predicate accepts, in
      their original order, under the same columns. */
  function FilterFrame(df: DataFrame, p: Row -> bool): (r: DataFrame)
    requires WellFormed(df)
    ensures Names(r) == Names(df) && WellFormed(r)
    ensures forall j :: 0 <= j < |r| ==> DType(r[j].data) == DType(df[j].data)
    ensures Height(r) == if df == [] then 0 else |Selected(Mask(df, p))|
    ensures forall i :: 0 <= i < Height(r) ==> RowAt(r, i) == RowAt(df, Selected(Mask(df, p))[i])
  {
    var m := Mask(df, p);
    var r := KeepRows(df, m);
    KeepRowsRows(df, m);
    r
  }

  /** Every column cut down to the rows the mask selects. */
  function KeepRows(df: DataFrame, m: seq<bool>): (r: DataFrame)
    requires WellFormed(df) && |m| == Height(df)
    ensures |r| == |df| && Names(r) == Names(df) && WellFormed(r)
    ensures forall j :: 0 <= j < |r| ==> DType(r[j].data) == DType(df[j].data)
    ensures Height(r) == if df == [] then 0 else |Selected(m)|
  {
    var r := seq(|df|, j requires 0 <= j < |df| => Series(df[j].name, KeepData(df[j].data, m)));
    assert forall j :: 0 <= j < |r| ==> Len(r[j].data) == Height(r);
    r
  }

  lemma KeepRowsRows(df: DataFrame, m: seq<bool>)
    requires WellFormed(df) && |m| == Height(df)
    ensures forall i :: 0 <= i < Height(KeepRows(df, m)) ==>
              RowAt(KeepRows(df, m), i) == RowAt(df, Selected(m)[i])
  {
    var r := KeepRows(df, m);
    forall i | 0 <= i < Height(r) ensures RowAt(r, i) == RowAt(df, Selected(m)[i]) {
      forall j | 0 <= j < |r| ensures RowAt(r, i)[j] == RowAt(df, Selected(m)[i])[j] {
        assert r[j].data == KeepData(df[j].data, m);
      }
    }
  }

  /** A polars filter expression: the columns it refers to, and whether it
      accepts a row. `columns` lists every column `accept` reads; a predicate
      reading a column it does not list stands for no polars expression. */
  datatype FilterExpr = FilterExpr(columns: seq<string>, accept: Row -> bool)

  /** The first of `cols` the table does not have. */
  function MissingColumn(df: DataFrame, cols: seq<string>): (r: Option<string>)
    ensures r.None? <==> forall c :: c in cols ==> c in Names(df)
    ensures r.Some? ==> r.value in cols && r.value !in Names(df)
  {
    if cols == [] then None
    else
      assert forall c :: c in cols <==> c == cols[0] || c in cols[1..];
      assert cols[0] in cols;
      if cols[0] !in Names(df) then Some(cols[0]) else MissingColumn(df, cols[1..])
  }

  /** The optional `df.lazy().filter(filter).collect()?` step shared by the
      extraction helpers: no filter leaves the table as it is; a filter that
      refers to a column the table lacks fails when the plan is collected. */
  function Filtered(df: DataFrame, filter: Option<FilterExpr>): (r: Result<DataFrame, PolarsFailure>)
    requires filter.Some? ==> WellFormed(df)
    ensures filter.None? ==> r == Ok(df)
    ensures filter.Some? ==> (r.Ok? <==> forall c :: c in filter.value.columns ==> c in Names(df))
    ensures filter.Some? && r.Ok? ==> r.value == FilterFrame(df, filter.value.accept)
    ensures r.Err? ==> filter.Some? && r.error.ColumnNotFound? && r.error.name in filter.value.columns && r.error.name !in Names(df)
    ensures r.Ok? ==> Names(r.value) == Names(df)
  {
    match filter
    case None => Ok(df)
    case Some(f) =>
      match MissingColumn(df, f.columns)
      case Some(c) => Err(ColumnNotFound(c))
      case None => Ok(FilterFrame(df, f.accept))
  }

  /** A row survives the filter exactly when the predicate accepts it. */
  lemma FilterKeepsAccepted(df: DataFrame, p: Row -> bool, k: nat)
    requires WellFormed(df) && k < Height(df)
    ensures p(RowAt(df, k)) <==>
      exists i :: 0 <= i < Height(FilterFrame(df, p)) && RowAt(FilterFrame(df, p), i) == RowAt(df, k)
  {
    var m := Mask(df, p);
    var r := FilterFrame(df, p);
    var sel := Selected(m);
    if p(RowAt(df, k)) {
      assert m[k];
      var i :| 0 <= i < |sel| && sel[i] == k;
      assert RowAt(r, i) == RowAt(df, k);
    } else {
      forall i | 0 <= i < Height(r) ensures RowAt(r, i) != RowAt(df, k) {
        assert p(RowAt(df, sel[i]));
      }
    }
  }

  // ---- extraction --------------------------------------------------------------

  /** The non-null entries of a column, in order (`filter_map(|v| v)`). */
  function NonNull<T(!new)>(s: seq<Option<T>>): (r: seq<T>)
    ensures |r| <= |s|
    ensures forall x :: x in r <==> Some(x) in s
  {
    if s == [] then []
    else
      assert forall x :: Some(x) in s <==> Some(x) == s[0] || Some(x) in s[1..];
      (if s[0].Some? then [s[0].value] else []) + NonNull(s[1..])
  }

  /** Dropping nulls commutes with concatenation: kept values stay in order. */
  lemma {:induction false} NonNullAppend<T(!new)>(a: seq<Option<T>>, b: seq<Option<T>>)
    ensures NonNull(a + b) == NonNull(a) + NonNull(b)
  {
    if a != [] {
      assert (a + b)[1..] == a[1..] + b;
      NonNullAppend(a[1..], b);
    } else {
      assert a + b == b;
    }
  }

  /** The non-null cells of a column, in order. */
  function DropNulls(cells: seq<AnyValue>): (r: seq<AnyValue>)
    ensures |r| <= |cells|
    ensures forall v :: v in r <==> v in cells && !v.Null?
  {
    if cells == [] then []
    else (if cells[0].Null? then [] else [cells[0]]) + DropNulls(cells[1..])
  }

  function ValuesType(v: ColumnValues): ColumnType {
    match v
    case Bools(_) => Bool
    case F64s(_) => F64
    case I64s(_) => I64
    case Strings(_) => String
  }

  /** The extracted values seen as cells. */
  function ValuesCells(v: ColumnValues): (c: seq<AnyValue>)
    ensures forall x :: x in c ==> !x.Null? && HasType(x, ValuesType(v))
  {
    match v
    case Bools(xs) => LiftSome(xs, AsBool)
    case F64s(xs) => LiftSome(xs, AsF64)
    case I64s(xs) => LiftSome(xs, AsI64)
    case Strings(xs) => LiftSome(xs, AsStr)
  }

  function TypeName(t: ColumnType): string {
    match t
    case Bool => "Boolean"
    case F64 => "Float64"
    case I64 => "Int64"
    case String => "Utf8"
  }

  /** `series.bool()?` (or `f64()`, `i64()`, `utf8()`), then the non-null values. */
  function ExtractValues(d: ColumnData, t: ColumnType): (r: Result<ColumnValues, GlobleError>)
    ensures r.Ok? <==> DType(d) == t
    ensures r.Ok? ==> ValuesType(r.value) == t && ValuesCells(r.value) == DropNulls(Cells(d))
    ensures r.Err? ==> r.error.PolarsError?
  {
    if DType(d) != t then
      Err(FromPolars(SchemaMismatch("invalid series dtype: expected `" + TypeName(t)
                                    + "`, got `" + TypeName(DType(d)) + "`")))
    else
      match d
      case BoolData(v) =>
        NonNullCells(v, AsBool);
        Ok(Bools(NonNull(v)))
      case F64Data(v) =>
        NonNullCells(v, AsF64);
        Ok(F64s(NonNull(v)))
      case I64Data(v) =>
        NonNullCells(v, AsI64);
        Ok(I64s(NonNull(v)))
      case StrData(v) =>
        NonNullCells(v, AsStr);
        Ok(Strings(NonNull(v)))
  }

  /** Lifting a column to cells and dropping the nulls is lifting its non-null
      values. */
  lemma {:induction false} NonNullCells<T(!new)>(v: seq<Option<T>>, lift: T -> AnyValue)
    requires forall x :: !lift(x).Null?
    ensures DropNulls(LiftAll(v, lift)) == LiftSome(NonNull(v), lift)
  {
    if v != [] {
      var c := LiftAll(v, lift);
      LiftAllTail(v, lift);
      NonNullCells(v[1..], lift);
      var head := if v[0].Some? then [v[0].value] else [];
      assert NonNull(v) == head + NonNull(v[1..]);
      LiftSomeAppend(head, NonNull(v[1..]), lift);
      assert LiftSome(head, lift) == if c[0].Null? then [] else [c[0]];
    }
  }

  lemma LiftAllTail<T>(v: seq<Option<T>>, lift: T -> AnyValue)
    requires v != []
    ensures LiftAll(v, lift)[1..] == LiftAll(v[1..], lift)
  {
    assert forall i :: 0 <= i < |v| - 1 ==> LiftAll(v, lift)[1..][i] == LiftAll(v[1..], lift)[i];
  }

  lemma LiftSomeAppend<T>(a: seq<T>, b: seq<T>, lift: T -> AnyValue)
    ensures LiftSome(a + b, lift) == LiftSome(a, lift) + LiftSome(b, lift)
  {
    assert forall i :: 0 <= i < |a + b| ==> LiftSome(a + b, lift)[i] == (LiftSome(a, lift) + LiftSome(b, lift))[i];
  }

  /** `get_column_values`: filter, look the column up, check its type, keep the
      non-null values in row order. */
  function GetColumnValues(df: DataFrame, filter: Option<FilterExpr>, column: string, colType: ColumnType)
    : (r: Result<ColumnValues, GlobleError>)
    requires filter.Some? ==> WellFormed(df)
    ensures Filtered(df, filter).Err? ==> r == Err(FromPolars(Filtered(df, filter).error))
    ensures Filtered(df, filter).Ok? && column !in Names(df) ==> r == Err(FromPolars(ColumnNotFound(column)))
    ensures r.Ok? <==> && Filtered(df, filter).Ok? && column in Names(df)
                       && DType(Column(Filtered(df, filter).value, column).value.data) == colType
    ensures r.Ok? ==> ValuesType(r.value) == colType
    ensures r.Ok? ==> ValuesCells(r.value) == DropNulls(Cells(Column(Filtered(df, filter).value, column).value.data))
  {
    match Filtered(df, filter)
    case Err(e) => Err(FromPolars(e))
    case Ok(filtered) =>
      match Column(filtered, column)
      case None => Err(FromPolars(ColumnNotFound(column)))
      case Some(series) => ExtractValues(series.data, colType)
  }

  function ValueType(v: ColumnValue): ColumnType {
    match v
    case OneBool(_) => Bool
    case OneF64(_) => F64
    case OneI64(_) => I64
    case OneString(_) => String
  }

  /** The single value seen as a cell, `Null` for none. */
  function ValueCell(v: ColumnValue): AnyValue {
    match v
    case OneBool(x) => if x.Some? then BoolV(x.value) else Null
    case OneF64(x) => if x.Some? then F64V(x.value) else Null
    case OneI64(x) => if x.Some? then I64V(x.value) else Null
    case OneString(x) => if x.Some? then StrV(x.value) else Null
  }

  function First<T>(s: seq<T>): Option<T> {
    if s == [] then None else Some(s[0])
  }

  /** `get_column_value`: the first of `get_column_values`, or none. */
  function GetColumnValue(df: DataFrame, filter: Option<FilterExpr>, column: string, colType: ColumnType)
    : (r: Result<ColumnValue, GlobleError>)
    requires filter.Some? ==> WellFormed(df)
    ensures var all := GetColumnValues(df, filter, column, colType);
            && (r.Err? <==> all.Err?)
            && (r.Err? ==> r.error == all.error)
            && (r.Ok? ==> ValueType(r.value) == colType)
            && (r.Ok? ==> ValueCell(r.value) == if ValuesCells(all.value) == [] then Null else ValuesCells(all.value)[0])
  {
    var values :- GetColumnValues(df, filter, column, colType);
    Ok(Head(values))
  }

  /** `values.get(0).cloned()` under the matching variant. */
  function Head(values: ColumnValues): (v: ColumnValue)
    ensures ValueType(v) == ValuesType(values)
    ensures ValueCell(v) == if ValuesCells(values) == [] then Null else ValuesCells(values)[0]
  {
    match values
    case Bools(xs) => OneBool(First(xs))
    case F64s(xs) => OneF64(First(xs))
    case I64s(xs) => OneI64(First(xs))
    case Strings(xs) => OneString(First(xs))
  }

  // ---- selection -----------------------------------------------------------------

  /** The first requested name that repeats an earlier one. */
  function FirstRepeated(ns: seq<string>): (r: Option<string>)
    ensures r.None? <==> NoDuplicates(ns)
  {
    if ns == [] then None
    else if ns[0] in ns[1..] then Some(ns[0])
    else
      var r := FirstRepeated(ns[1..]);
      assert NoDuplicates(ns) <==> NoDuplicates(ns[1..]) by {
        if NoDuplicates(ns[1..]) {
          forall i, j | 0 <= i < j < |ns| ensures ns[i] != ns[j] {
            if i > 0 { assert ns[i] == ns[1..][i - 1] && ns[j] == ns[1..][j - 1]; }
            else { assert ns[j] == ns[1..][j - 1]; }
          }
        }
      }
      r
  }

  /** The named columns in the requested order; the first missing name fails. */
  function SelectColumns(df: DataFrame, cols: seq<string>): (r: Result<DataFrame, PolarsFailure>)
    ensures r.Ok? <==> forall c :: c in cols ==> c in Names(df)
    ensures r.Ok? ==> |r.value| == |cols|
    ensures r.Ok? ==> forall i :: 0 <= i < |cols| ==> Some(r.value[i]) == Column(df, cols[i])
    ensures r.Err? ==> r.error.ColumnNotFound?
  {
    if cols == [] then Ok([])
    else
      assert cols[0] in cols;
      assert forall c :: c in cols <==> c == cols[0] || c in cols[1..];
      match Column(df, cols[0])
      case None => Err(ColumnNotFound(cols[0]))
      case Some(s) =>
        match SelectColumns(df, cols[1..])
        case Err(e) => Err(e)
        case Ok(rest) => Ok([s] + rest)
  }

  /** `df.lazy().select(cols).collect()`: a missing column fails first, then a
      name requested twice. */
  function Select(df: DataFrame, cols: seq<string>): (r: Result<DataFrame, PolarsFailure>)
    ensures r.Ok? <==> (forall c :: c in cols ==> c in Names(df)) && NoDuplicates(cols)
    ensures r.Ok? ==> Names(r.value) == cols
    ensures r.Ok? ==> forall i :: 0 <= i < |cols| ==> Some(r.value[i]) == Column(df, cols[i])
  {
    match SelectColumns(df, cols)
    case Err(e) => Err(e)
    case Ok(selected) =>
      match FirstRepeated(cols)
      case Some(n) => Err(Duplicate(n))
      case None => Ok(selected)
  }

  const FilterExtractPrefix: string := "Error while filtering and extracting: "

  /** `filter_and_extract`: filter, then select the named columns in the
      requested order. A failed filter is passed on as it is; a failed
      selection becomes `OtherError`. */
  function FilterAndExtract(df: DataFrame, filter: Option<FilterExpr>, selectCols: seq<string>)
    : (r: Result<DataFrame, GlobleError>)
    requires filter.Some? ==> WellFormed(df)
    ensures Filtered(df, filter).Err? ==> r == Err(FromPolars(Filtered(df, filter).error))
    ensures r.Ok? <==> && Filtered(df, filter).Ok?
                       && (forall c :: c in selectCols ==> c in Names(df)) && NoDuplicates(selectCols)
    ensures r.Ok? ==> Names(r.value) == selectCols
    ensures r.Ok? ==> forall i :: 0 <= i < |selectCols| ==>
                        Some(r.value[i]) == Column(Filtered(df, filter).value, selectCols[i])
    ensures Filtered(df, filter).Ok? && r.Err? ==> r.error.OtherError? && FilterExtractPrefix <= r.error.message
  {
    match Filtered(df, filter)
    case Err(e) => Err(FromPolars(e))
    case Ok(filtered) =>
      match Select(filtered, selectCols)
      case Ok(selected) => Ok(selected)
      case Err(e) => Err(OtherError(FilterExtractPrefix + PolarsDebug(e)))
  }

  // ---- sorting -------------------------------------------------------------------

  /** Code-point order of strings. */
  predicate StrLeq(a: string, b: string) {
    a == [] || (b != [] && (a[0] < b[0] || (a[0] == b[0] && StrLeq(a[1..], b[1..]))))
  }

  lemma {:induction false} StrLeqTotal(a: string, b: string)
    ensures StrLeq(a, b) || StrLeq(b, a)
  {
    if a != [] && b != [] && a[0] == b[0] {
      StrLeqTotal(a[1..], b[1..]);
    }
  }

  lemma {:induction false} StrLeqTrans(a: string, b: string, c: string)
    requires StrLeq(a, b) && StrLeq(b, c)
    ensures StrLeq(a, c)
  {
    if a != [] && b != [] && c != [] && a[0] == b[0] == c[0] {
      StrLeqTrans(a[1..], b[1..], c[1..]);
    }
  }

  /** Orders values of different types by type, so that the order is total;
      a column only ever compares values of its own type. */
  function TypeRank(v: AnyValue): nat {
    match v
    case Null => 0
    case BoolV(_) => 1
    case F64V(_) => 2
    case I64V(_) => 3
    case StrV(_) => 4
  }

  /** The natural order of two non-null cells. */
  predicate ValueLeq(a: AnyValue, b: AnyValue) {
    if TypeRank(a) != TypeRank(b) then TypeRank(a) < TypeRank(b)
    else match (a, b)
      case (BoolV(x), BoolV(y)) => !x || y
      case (F64V(x), F64V(y)) => x.ordinal <= y.ordinal
      case (I64V(x), I64V(y)) => x <= y
      case (StrV(x), StrV(y)) => StrLeq(x, y)
      case _ => true
  }

  /** Whether `a` may precede `b` in a column sorted with
      `SortOptions { descending, nulls_last: false }`: nulls come first in
      either direction. */
  predicate InOrder(a: AnyValue, b: AnyValue, descending: bool) {
    a.Null? || (!b.Null? && if descending then ValueLeq(b, a) else ValueLeq(a, b))
  }

  lemma InOrderTotal(a: AnyValue, b: AnyValue, descending: bool)
    ensures InOrder(a, b, descending) || InOrder(b, a, descending)
  {
    if a.StrV? && b.StrV? {
      StrLeqTotal(a.s, b.s);
    }
  }

  lemma InOrderTrans(a: AnyValue, b: AnyValue, c: AnyValue, descending: bool)
    requires InOrder(a, b, descending) && InOrder(b, c, descending)
    ensures InOrder(a, c, descending)
  {
    if a.StrV? && b.StrV? && c.StrV? {
      if descending {
        if StrLeq(c.s, b.s) && StrLeq(b.s, a.s) {
          StrLeqTrans(c.s, b.s, a.s);
        }
      } else {
        if StrLeq(a.s, b.s) && StrLeq(b.s, c.s) {
          StrLeqTrans(a.s, b.s, c.s);
        }
      }
    }
  }

  /** Every entry is a row position of a table of height `n`. */
  predicate Indexes(idx: seq<nat>, n: nat) {
    forall i :: 0 <= i < |idx| ==> idx[i] < n
  }

  /** The rows `idx` lists appear in column order by their keys. */
  predicate SortedBy(idx: seq<nat>, keys: seq<AnyValue>, descending: bool) {
    && Indexes(idx, |keys|)
    && forall i, j :: 0 <= i < j < |idx| ==> InOrder(keys[idx[i]], keys[idx[j]], descending)
  }

  predicate SortedCells(c: seq<AnyValue>, descending: bool) {
    forall i, j :: 0 <= i < j < |c| ==> InOrder(c[i], c[j], descending)
  }

  /** The row positions `lo`, ..., `hi - 1`. */
  function Range(lo: nat, hi: nat): (r: seq<nat>)
    ensures |r| == if lo <= hi then hi - lo else 0
    ensures forall i :: 0 <= i < |r| ==> r[i] == lo + i
    decreases hi - lo
  {
    if lo >= hi then [] else [lo] + Range(lo + 1, hi)
  }

  /** `p` lists every row of a table of height `n` exactly once. */
  predicate IsPermutation(p: seq<nat>, n: nat) {
    multiset(p) == multiset(Range(0, n))
  }

  /** Places row `x` before the first row whose key it may precede. */
  function InsertBy(x: nat, s: seq<nat>, keys: seq<AnyValue>, descending: bool): (r: seq<nat>)
    requires x < |keys| && Indexes(s, |keys|)
    ensures |r| == |s| + 1 && Indexes(r, |keys|)
    ensures multiset(r) == multiset(s) + multiset{x}
  {
    if s == [] then [x]
    else if InOrder(keys[x], keys[s[0]], descending) then [x] + s
    else
      assert s == [s[0]] + s[1..];
      [s[0]] + InsertBy(x, s[1..], keys, descending)
  }

  lemma {:induction false} InsertBySorted(x: nat, s: seq<nat>, keys: seq<AnyValue>, descending: bool)
    requires x < |keys| && SortedBy(s, keys, descending)
    ensures SortedBy(InsertBy(x, s, keys, descending), keys, descending)
  {
    if s != [] {
      if InOrder(keys[x], keys[s[0]], descending) {
        InsertFrontSorted(x, s, keys, descending);
      } else {
        InsertBySorted(x, s[1..], keys, descending);
        InsertLaterSorted(x, s, keys, descending);
      }
    }
  }

  lemma InsertFrontSorted(x: nat, s: seq<nat>, keys: seq<AnyValue>, descending: bool)
    requires x < |keys| && SortedBy(s, keys, descending) && s != []
    requires InOrder(keys[x], keys[s[0]], descending)
    ensures SortedBy([x] + s, keys, descending)
  {
    var r := [x] + s;
    forall i, j | 0 <= i < j < |r| ensures InOrder(keys[r[i]], keys[r[j]], descending) {
      if i == 0 {
        if j > 1 {
          InOrderTrans(keys[x], keys[s[0]], keys[s[j - 1]], descending);
        }
      } else {
        assert r[i] == s[i - 1] && r[j] == s[j - 1];
      }
    }
  }

  lemma InsertLaterSorted(x: nat, s: seq<nat>, keys: seq<AnyValue>, descending: bool)
    requires x < |keys| && SortedBy(s, keys, descending) && s != []
    requires !InOrder(keys[x], keys[s[0]], descending)
    requires SortedBy(InsertBy(x, s[1..], keys, descending), keys, descending)
    ensures SortedBy([s[0]] + InsertBy(x, s[1..], keys, descending), keys, descending)
  {
    var rest := InsertBy(x, s[1..], keys, descending);
    InOrderTotal(keys[x], keys[s[0]], descending);
    forall k | 0 <= k < |rest| ensures InOrder(keys[s[0]], keys[rest[k]], descending) {
      HeadPrecedes(x, s, rest, k, keys, descending);
    }
    var r := [s[0]] + rest;
    forall i, j | 0 <= i < j < |r| ensures InOrder(keys[r[i]], keys[r[j]], descending) {
      if i > 0 {
        assert r[i] == rest[i - 1] && r[j] == rest[j - 1];
      } else {
        assert r[j] == rest[j - 1];
      }
    }
  }

  lemma HeadPrecedes(x: nat, s: seq<nat>, rest: seq<nat>, k: nat, keys: seq<AnyValue>, descending: bool)
    requires x < |keys| && SortedBy(s, keys, descending) && s != []
    requires InOrder(keys[s[0]], keys[x], descending)
    requires Indexes(rest, |keys|) && multiset(rest) == multiset(s[1..]) + multiset{x} && k < |rest|
    ensures InOrder(keys[s[0]], keys[rest[k]], descending)
  {
    assert rest[k] in multiset(rest);
    if rest[k] != x {
      assert rest[k] in multiset(s[1..]);
      var m :| 0 <= m < |s| - 1 && s[1..][m] == rest[k];
      assert s[m + 1] == rest[k];
    }
  }

  /** Insertion sort of the rows `from`, ..., `|keys| - 1` by their keys. */
  function SortFrom(keys: seq<AnyValue>, descending: bool, from: nat): (r: seq<nat>)
    requires from <= |keys|
    ensures |r| == |keys| - from
    ensures multiset(r) == multiset(Range(from, |keys|))
    ensures SortedBy(r, keys, descending)
    decreases |keys| - from
  {
    if from == |keys| then []
    else
      var rest := SortFrom(keys, descending, from + 1);
      InsertBySorted(from, rest, keys, descending);
      assert Range(from, |keys|) == [from] + Range(from + 1, |keys|);
      InsertBy(from, rest, keys, descending)
  }

  /** The order in which the sorted table lists the rows of the original. */
  function SortOrder(keys: seq<AnyValue>, descending: bool): (r: seq<nat>)
    ensures |r| == |keys| && IsPermutation(r, |keys|)
    ensures SortedBy(r, keys, descending)
  {
    SortFrom(keys, descending, 0)
  }

  /** A permutation of a table's rows lists every row. */
  lemma PermutationCoversRows(p: seq<nat>, n: nat, k: nat)
    requires IsPermutation(p, n) && k < n
    ensures k in p
  {
    assert Range(0, n)[k] == k;
    assert k in multiset(Range(0, n));
  }

  /** The cells of one series in the order `p` lists its rows. */
  function PermuteData(d: ColumnData, p: seq<nat>): (r: ColumnData)
    requires Indexes(p, Len(d))
    ensures DType(r) == DType(d) && Len(r) == |p|
    ensures forall i :: 0 <= i < |p| ==> Cells(r)[i] == Cells(d)[p[i]]
  {
    match d
    case BoolData(v) => BoolData(seq(|p|, i requires 0 <= i < |p| => v[p[i]]))
    case F64Data(v) => F64Data(seq(|p|, i requires 0 <= i < |p| => v[p[i]]))
    case I64Data(v) => I64Data(seq(|p|, i requires 0 <= i < |p| => v[p[i]]))
    case StrData(v) => StrData(seq(|p|, i requires 0 <= i < |p| => v[p[i]]))
  }

  /** Every series of a table with its rows in the order `p` lists them. */
  function PermuteFrame(df: DataFrame, p: seq<nat>): (r: DataFrame)
    requires WellFormed(df) && Indexes(p, Height(df))
    ensures |r| == |df| && Names(r) == Names(df) && WellFormed(r)
    ensures Height(r) == if df == [] then 0 else |p|
    ensures forall j :: 0 <= j < |df| ==> r[j] == Series(df[j].name, PermuteData(df[j].data, p))
  {
    seq(|df|, j requires 0 <= j < |df| => Series(df[j].name, PermuteData(df[j].data, p)))
  }

  lemma PermuteFrameRows(df: DataFrame, p: seq<nat>)
    requires WellFormed(df) && df != [] && Indexes(p, Height(df))
    ensures forall i :: 0 <= i < |p| ==> RowAt(PermuteFrame(df, p), i) == RowAt(df, p[i])
  {
    var r := PermuteFrame(df, p);
    forall i | 0 <= i < |p| ensures RowAt(r, i) == RowAt(df, p[i]) {
      forall j | 0 <= j < |df| ensures RowAt(r, i)[j] == RowAt(df, p[i])[j] {
        assert CellAt(r[j].data, i) == CellAt(df[j].data, p[i]);
      }
    }
  }

  /** `sort_dataframe(df, column, ascending)`: the rows reordered by the key
      column. The flag is passed on as `descending`, and nulls come first. */
  function SortDataframe(df: DataFrame, column: string, ascending: bool): (r: Result<DataFrame, GlobleError>)
    requires WellFormed(df)
    ensures r.Err? <==> column !in Names(df)
    ensures r.Err? ==> r.error == FromPolars(ColumnNotFound(column))
    ensures r.Ok? ==> Names(r.value) == Names(df) && WellFormed(r.value) && Height(r.value) == Height(df)
    ensures r.Ok? ==> forall j :: 0 <= j < |df| ==> DType(r.value[j].data) == DType(df[j].data)
    ensures r.Ok? ==> SortedCells(Cells(Column(r.value, column).value.data), ascending)
    ensures r.Ok? ==>
      var order := SortOrder(Cells(Column(df, column).value.data), ascending);
      forall i :: 0 <= i < Height(df) ==> RowAt(r.value, i) == RowAt(df, order[i])
  {
    match Column(df, column)
    case None => Err(FromPolars(ColumnNotFound(column)))
    case Some(key) =>
      var keys := Cells(key.data);
      var order := SortOrder(keys, ascending);
      var sorted := PermuteFrame(df, order);
      PermuteFrameRows(df, order);
      SortedKeyColumn(df, column, ascending);
      Ok(sorted)
  }

  lemma SortedKeyColumn(df: DataFrame, column: string, descending: bool)
    requires WellFormed(df) && column in Names(df)
    ensures var keys := Cells(Column(df, column).value.data);
            var sorted := PermuteFrame(df, SortOrder(keys, descending));
            SortedCells(Cells(Column(sorted, column).value.data), descending)
  {
    var key := Column(df, column).value;
    var keys := Cells(key.data);
    var order := SortOrder(keys, descending);
    var sorted := PermuteFrame(df, order);
    var j := FirstIndex(Names(df), column);
    assert Names(sorted) == Names(df);
    assert Column(sorted, column) == Some(sorted[j]);
    var c := Cells(sorted[j].data);
    assert forall i :: 0 <= i < |c| ==> c[i] == keys[order[i]];
  }

  /** With the source's flag, `ascending = true` yields the larger key first. */
  lemma AscendingFlagSortsDescending()
    ensures var df := [Series("platinum", I64Data([Some(1), Some(2)]))];
            SortDataframe(df, "platinum", true) == Ok([Series("platinum", I64Data([Some(2), Some(1)]))])
  {
    var v: seq<Option<i64>> := [Some(1), Some(2)];
    var df := [Series("platinum", I64Data(v))];
    assert Names(df) == ["platinum"];
    assert Column(df, "platinum") == Some(df[0]);
    var keys := Cells(df[0].data);
    assert keys == [I64V(1), I64V(2)];
    TwoKeysReversed();
    SwapTwo(v);
    assert PermuteFrame(df, [1, 0]) == [Series("platinum", I64Data([Some(2), Some(1)]))];
  }

  /** With the flag set, the larger of two keys comes first. */
  lemma TwoKeysReversed()
    ensures SortOrder([I64V(1), I64V(2)], true) == [1, 0]
  {
    var keys := [I64V(1), I64V(2)];
    assert SortFrom(keys, true, 2) == [];
    assert SortFrom(keys, true, 1) == [1];
    assert !InOrder(keys[0], keys[1], true);
    assert InsertBy(0, [], keys, true) == [0];
    assert InsertBy(0, [1], keys, true) == [1, 0];
  }

  lemma SwapTwo(v: seq<Option<i64>>)
    requires |v| == 2
    ensures PermuteData(I64Data(v), [1, 0]) == I64Data([v[1], v[0]])
  {
    assert seq(2, i requires 0 <= i < 2 => v[[1, 0][i]]) == [v[1], v[0]];
  }

  /** A null key comes before every other key in either direction. */
  lemma NullsFirst(keys: seq<AnyValue>, descending: bool, i: nat, j: nat)
    requires i < j < |keys|
    ensures var order := SortOrder(keys, descending);
            keys[order[j]].Null? ==> keys[order[i]].Null?
  {
  }

  // ---- vertical merge ------------------------------------------------------------

  lemma LiftAllAppend<T>(a: seq<Option<T>>, b: seq<Option<T>>, lift: T -> AnyValue)
    ensures LiftAll(a + b, lift) == LiftAll(a, lift) + LiftAll(b, lift)
  {
    assert forall i :: 0 <= i < |a + b| ==> LiftAll(a + b, lift)[i] == (LiftAll(a, lift) + LiftAll(b, lift))[i];
  }

  /** `series.append(other)`: the other series' cells after this one's; the
      types must agree. */
  function Append(acc: ColumnData, d: ColumnData): (r: Result<ColumnData, PolarsFailure>)
    ensures r.Ok? <==> DType(acc) == DType(d)
    ensures r.Ok? ==> DType(r.value) == DType(acc) && Cells(r.value) == Cells(acc) + Cells(d)
    ensures r.Err? ==> r.error.SchemaMismatch?
  {
    match (acc, d)
    case (BoolData(a), BoolData(b)) => LiftAllAppend(a, b, AsBool); Ok(BoolData(a + b))
    case (F64Data(a), F64Data(b)) => LiftAllAppend(a, b, AsF64); Ok(F64Data(a + b))
    case (I64Data(a), I64Data(b)) => LiftAllAppend(a, b, AsI64); Ok(I64Data(a + b))
    case (StrData(a), StrData(b)) => LiftAllAppend(a, b, AsStr); Ok(StrData(a + b))
    case _ => Err(SchemaMismatch("cannot append series, data types don't match"))
  }

  /** Frame `f` has a column `name` of type `t`. */
  predicate Carries(f: DataFrame, name: string, t: ColumnType) {
    name in Names(f) && DType(Column(f, name).value.data) == t
  }

  /** The cells of column `name` of every frame, one frame after the other; a
      frame without the column contributes nothing. */
  function StackedCells(frames: seq<DataFrame>, name: string): seq<AnyValue> {
    if frames == [] then []
    else
      (match Column(frames[0], name) case Some(s) => Cells(s.data) case None => [])
      + StackedCells(frames[1..], name)
  }

  /** The inner loop: appends column `name` of each frame in `rest` to `acc`. */
  function StackFrom(acc: ColumnData, name: string, rest: seq<DataFrame>): (r: Result<ColumnData, PolarsFailure>)
    ensures r.Ok? ==> DType(r.value) == DType(acc)
    ensures r.Err? ==> r.error == ColumnNotFound(name) || r.error.SchemaMismatch?
    decreases |rest|
  {
    if rest == [] then Ok(acc)
    else
      match Column(rest[0], name)
      case None => Err(ColumnNotFound(name))
      case Some(s) =>
        match Append(acc, s.data)
        case Err(e) => Err(e)
        case Ok(next) => StackFrom(next, name, rest[1..])
  }

  /** The inner loop succeeds iff every frame carries the column at the
      type stacked so far. */
  lemma {:induction false} StackFromOkIff(acc: ColumnData, name: string, rest: seq<DataFrame>)
    ensures StackFrom(acc, name, rest).Ok? <==> forall k :: 0 <= k < |rest| ==> Carries(rest[k], name, DType(acc))
    decreases |rest|
  {
    if rest != [] {
      match Column(rest[0], name)
      case None => assert !Carries(rest[0], name, DType(acc));
      case Some(s) =>
        match Append(acc, s.data)
        case Err(_) => assert !Carries(rest[0], name, DType(acc));
        case Ok(next) =>
          assert Carries(rest[0], name, DType(acc)) && DType(next) == DType(acc);
          StackFromOkIff(next, name, rest[1..]);
          forall k | 1 <= k < |rest|
            ensures Carries(rest[k], name, DType(acc)) <==> Carries(rest[1..][k - 1], name, DType(next))
          {
            assert rest[1..][k - 1] == rest[k];
          }
    }
  }

  /** The stacked series holds `acc`'s cells, then each frame's column in turn. */
  lemma {:induction false} StackFromCells(acc: ColumnData, name: string, rest: seq<DataFrame>)
    requires StackFrom(acc, name, rest).Ok?
    ensures Cells(StackFrom(acc, name, rest).value) == Cells(acc) + StackedCells(rest, name)
    decreases |rest|
  {
    if rest != [] {
      var s := Column(rest[0], name).value;
      var next := Append(acc, s.data).value;
      StackFromCells(next, name, rest[1..]);
      assert Cells(next) == Cells(acc) + Cells(s.data);
    }
  }

  /** Column `name` of the first frame can be stacked with every later frame. */
  predicate Stackable(frames: seq<DataFrame>, name: string) {
    && frames != []
    && name in Names(frames[0])
    && forall k :: 1 <= k < |frames| ==> Carries(frames[k], name, DType(Column(frames[0], name).value.data))
  }

  /** The inner loop succeeds exactly on a stackable column. */
  lemma StackableIff(frames: seq<DataFrame>, name: string)
    requires frames != [] && name in Names(frames[0])
    ensures Stackable(frames, name) <==> StackFrom(Column(frames[0], name).value.data, name, frames[1..]).Ok?
  {
    StackFromOkIff(Column(frames[0], name).value.data, name, frames[1..]);
    assert forall k :: 1 <= k < |frames| ==> frames[1..][k - 1] == frames[k];
  }

  /** The outer loop: one stacked series per name, after those in `acc`; a
      name the first frame lacks fails the lookup in the first frame. */
  function MergeFrom(acc: seq<Series>, names: seq<string>, frames: seq<DataFrame>): (r: Result<seq<Series>, PolarsFailure>)
    requires frames != []
    ensures r.Err? ==> r.error.ColumnNotFound? || r.error.SchemaMismatch?
    decreases |names|
  {
    if names == [] then Ok(acc)
    else
      var name := names[0];
      match Column(frames[0], name)
      case None => Err(ColumnNotFound(name))
      case Some(first) =>
        match StackFrom(first.data, name, frames[1..])
        case Err(e) => Err(e)
        case Ok(stacked) =>
          MergeFrom(acc + [Series(name, stacked)], names[1..], frames)
  }

  /** The outer loop succeeds iff every name can be stacked. */
  lemma {:induction false} MergeFromOkIff(acc: seq<Series>, names: seq<string>, frames: seq<DataFrame>)
    requires frames != []
    ensures MergeFrom(acc, names, frames).Ok? <==> forall n :: n in names ==> Stackable(frames, n)
    decreases |names|
  {
    if names != [] {
      var name := names[0];
      assert name in names;
      assert forall n :: n in names <==> n == name || n in names[1..];
      if name in Names(frames[0]) {
        StackableIff(frames, name);
        var first := Column(frames[0], name).value;
        match StackFrom(first.data, name, frames[1..])
        case Err(_) =>
        case Ok(stacked) => MergeFromOkIff(acc + [Series(name, stacked)], names[1..], frames);
      }
    }
  }

  /** The outer loop keeps the series already built and adds one per name. */
  lemma {:induction false} MergeFromPrefix(acc: seq<Series>, names: seq<string>, frames: seq<DataFrame>)
    requires frames != []
    requires MergeFrom(acc, names, frames).Ok?
    ensures var r := MergeFrom(acc, names, frames).value;
            |r| == |acc| + |names| && r[..|acc|] == acc
    decreases |names|
  {
    if names != [] {
      var name := names[0];
      assert name in names;
      var first := Column(frames[0], name).value;
      var stacked := StackFrom(first.data, name, frames[1..]).value;
      var acc' := acc + [Series(name, stacked)];
      MergeFromPrefix(acc', names[1..], frames);
      var r := MergeFrom(acc', names[1..], frames).value;
      assert r[..|acc|] == r[..|acc'|][..|acc|];
    }
  }

  /** One step of the outer loop: stack the first name, then go on with the rest. */
  lemma MergeFromStep(acc: seq<Series>, names: seq<string>, frames: seq<DataFrame>)
    requires frames != []
    requires MergeFrom(acc, names, frames).Ok? && names != []
    ensures names[0] in Names(frames[0])
    ensures var first := Column(frames[0], names[0]).value;
            && StackFrom(first.data, names[0], frames[1..]).Ok?
            && MergeFrom(acc, names, frames)
               == MergeFrom(acc + [Series(names[0], StackFrom(first.data, names[0], frames[1..]).value)], names[1..], frames)
  {
    assert names[0] in names;
  }

  /** Stacking a column of the first frame onto the rest keeps its type and
      gives the cells of that column of every frame. */
  lemma StackedFirst(frames: seq<DataFrame>, name: string)
    requires frames != [] && name in Names(frames[0])
    requires StackFrom(Column(frames[0], name).value.data, name, frames[1..]).Ok?
    ensures var first := Column(frames[0], name).value.data;
            var stacked := StackFrom(first, name, frames[1..]).value;
            DType(stacked) == DType(first) && Cells(stacked) == StackedCells(frames, name)
  {
    StackFromCells(Column(frames[0], name).value.data, name, frames[1..]);
  }

  /** The `i`-th series the outer loop adds is named `names[i]` and holds
      that column of the first frame with the others appended. */
  lemma {:induction false} MergeFromStacked(acc: seq<Series>, names: seq<string>, frames: seq<DataFrame>, i: nat)
    requires frames != []
    requires MergeFrom(acc, names, frames).Ok? && i < |names|
    ensures names[i] in Names(frames[0])
    ensures var first := Column(frames[0], names[i]).value.data;
            && StackFrom(first, names[i], frames[1..]).Ok?
            && |acc| + i < |MergeFrom(acc, names, frames).value|
            && MergeFrom(acc, names, frames).value[|acc| + i]
               == Series(names[i], StackFrom(first, names[i], frames[1..]).value)
    decreases |names|
  {
    MergeFromStep(acc, names, frames);
    var first := Column(frames[0], names[0]).value;
    var stacked := StackFrom(first.data, names[0], frames[1..]).value;
    var acc' := acc + [Series(names[0], stacked)];
    if i == 0 {
      MergeFromPrefix(acc', names[1..], frames);
      var r := MergeFrom(acc', names[1..], frames).value;
      assert r[|acc|] == r[..|acc'|][|acc|];
    } else {
      MergeFromStacked(acc', names[1..], frames, i - 1);
      assert names[1..][i - 1] == names[i] && |acc'| + (i - 1) == |acc| + i;
    }
  }

  /** The `i`-th series the outer loop adds is column `names[i]` of every
      frame stacked, with the first frame's type. */
  lemma MergeFromColumn(acc: seq<Series>, names: seq<string>, frames: seq<DataFrame>, i: nat)
    requires frames != []
    requires MergeFrom(acc, names, frames).Ok? && i < |names|
    ensures names[i] in Names(frames[0])
    ensures var r := MergeFrom(acc, names, frames).value;
            && |acc| + i < |r|
            && r[|acc| + i].name == names[i]
            && DType(r[|acc| + i].data) == DType(Column(frames[0], names[i]).value.data)
            && Cells(r[|acc| + i].data) == StackedCells(frames, names[i])
  {
    MergeFromStacked(acc, names, frames, i);
    StackedFirst(frames, names[i]);
  }

  /** Column `k` is as long as the first column. */
  predicate SameHeight(cols: seq<Series>, k: nat)
    requires k < |cols|
  {
    Len(cols[k].data) == Height(cols)
  }

  /** No column before `k` has column `k`'s name. */
  predicate NewName(cols: seq<Series>, k: nat)
    requires k < |cols|
  {
    cols[k].name !in Names(cols[..k])
  }

  /** Distinct names are exactly names that are each new when reached. */
  lemma {:induction false} DistinctByNewNames(cols: seq<Series>)
    ensures NoDuplicates(Names(cols)) <==> forall k :: 0 <= k < |cols| ==> NewName(cols, k)
  {
    var ns := Names(cols);
    forall k | 0 <= k < |cols| ensures Names(cols[..k]) == ns[..k] {
      assert forall j :: 0 <= j < k ==> Names(cols[..k])[j] == cols[j].name;
    }
    if NoDuplicates(ns) {
      forall k | 0 <= k < |cols| ensures NewName(cols, k) {
        assert forall j :: 0 <= j < k ==> ns[..k][j] == ns[j];
      }
    }
    if forall k :: 0 <= k < |cols| ==> NewName(cols, k) {
      forall i, j | 0 <= i < j < |ns| ensures ns[i] != ns[j] {
        assert NewName(cols, j);
        assert ns[i] == ns[..j][i];
      }
    }
  }

  /** The checks of `DataFrame::new`, column by column from `i`: each column
      first must be as long as the first one, then must bring a new name. */
  function CheckColumns(cols: seq<Series>, i: nat): (r: Option<PolarsFailure>)
    requires i <= |cols|
    decreases |cols| - i
    ensures r.None? <==> forall k :: i <= k < |cols| ==> SameHeight(cols, k) && NewName(cols, k)
    ensures r.Some? ==> r.value.Duplicate? || r.value.ShapeMismatch?
    ensures r.Some? && (forall k :: i <= k < |cols| ==> SameHeight(cols, k)) ==> r.value.Duplicate?
    ensures r.Some? && (forall k :: i <= k < |cols| ==> NewName(cols, k)) ==> r.value.ShapeMismatch?
  {
    if i == |cols| then None
    else if Len(cols[i].data) != Len(cols[0].data) then
      assert !SameHeight(cols, i);
      Some(ShapeMismatch("could not create a new DataFrame: series lengths differ"))
    else if cols[i].name in Names(cols[..i]) then
      assert SameHeight(cols, i) && !NewName(cols, i);
      Some(Duplicate(cols[i].name))
    else CheckColumns(cols, i + 1)
  }

  /** `DataFrame::new(columns)`: names must be distinct and lengths equal;
      the first column that breaks either rule decides the error. */
  function NewFrame(cols: seq<Series>): (r: Result<DataFrame, PolarsFailure>)
    ensures r.Ok? <==> NoDuplicates(Names(cols)) && WellFormed(cols)
    ensures r.Ok? ==> r.value == cols
    ensures r.Err? ==> r.error.Duplicate? || r.error.ShapeMismatch?
    ensures r.Err? && WellFormed(cols) ==> r.error.Duplicate?
    ensures r.Err? && NoDuplicates(Names(cols)) ==> r.error.ShapeMismatch?
  {
    DistinctByNewNames(cols);
    assert forall k :: 0 <= k < |cols| ==> (SameHeight(cols, k) <==> Len(cols[k].data) == Height(cols));
    match CheckColumns(cols, 0)
    case Some(e) => Err(e)
    case None => Ok(cols)
  }

  /** A shape error in an early column is reported even when a later column
      repeats a name. */
  lemma NewFrameShapeFirst()
    ensures var a := Series("a", BoolData([Some(true)]));
            var b := Series("b", BoolData([]));
            NewFrame([a, b, a]) == Err(ShapeMismatch("could not create a new DataFrame: series lengths differ"))
  {
    var a := Series("a", BoolData([Some(true)]));
    var b := Series("b", BoolData([]));
    assert Len(b.data) != Len(a.data);
  }

  /** The outer loop builds one series per name of the first frame, in order. */
  lemma MergedNames(frames: seq<DataFrame>)
    requires frames != [] && MergeFrom([], Names(frames[0]), frames).Ok?
    ensures Names(MergeFrom([], Names(frames[0]), frames).value) == Names(frames[0])
  {
    var names := Names(frames[0]);
    var cols := MergeFrom([], names, frames).value;
    MergeFromPrefix([], names, frames);
    forall j | 0 <= j < |names| ensures cols[j].name == names[j] {
      MergeFromColumn([], names, frames, j);
    }
  }

  /** What `merge_dataframes` returns. */
  function MergeSpec(frames: seq<DataFrame>): (r: Result<DataFrame, GlobleError>)
    ensures frames == [] ==> r == Err(OtherError("No frames to merge"))
    ensures frames != [] && r.Err? ==> r.error.PolarsError?
    ensures r.Ok? ==> frames != [] && Names(r.value) == Names(frames[0]) && WellFormed(r.value)
    ensures r.Ok? ==> NoDuplicates(Names(frames[0])) && forall n :: n in Names(frames[0]) ==> Stackable(frames, n)
    ensures r.Ok? ==> forall j :: 0 <= j < |r.value| ==>
      && DType(r.value[j].data) == DType(frames[0][j].data)
      && Cells(r.value[j].data) == StackedCells(frames, r.value[j].name)
  {
    if frames == [] then Err(OtherError("No frames to merge"))
    else
      var names := Names(frames[0]);
      match MergeFrom([], names, frames)
      case Err(e) => Err(FromPolars(e))
      case Ok(cols) =>
        MergeFromOkIff([], names, frames);
        MergedNames(frames);
        match NewFrame(cols)
        case Err(e) => Err(FromPolars(e))
        case Ok(df) =>
          forall j | 0 <= j < |df|
            ensures DType(df[j].data) == DType(frames[0][j].data)
            ensures Cells(df[j].data) == StackedCells(frames, df[j].name)
          {
            MergeFromColumn([], names, frames, j);
            ColumnOfDistinct(frames[0], j);
          }
          Ok(df)
  }

  /** `merge_dataframes`: for each column name of the first frame, stack that
      column of every frame in order; then build the table. */
  method MergeDataframes(frames: seq<DataFrame>) returns (r: Result<DataFrame, GlobleError>)
    ensures r == MergeSpec(frames)
  {
    if |frames| == 0 {
      return Err(OtherError("No frames to merge"));
    }
    var columnNames := Names(frames[0]);
    var combined: seq<Series> := [];
    var i := 0;
    while i < |columnNames|
      invariant 0 <= i <= |columnNames|
      invariant MergeFrom(combined, columnNames[i..], frames) == MergeFrom([], columnNames, frames)
    {
      var colName := columnNames[i];
      assert columnNames[i..][0] == colName && columnNames[i..][1..] == columnNames[i + 1..];
      var stacked := StackColumn(frames, colName);
      if stacked.Err? {
        return Err(FromPolars(stacked.error));
      }
      combined := combined + [Series(colName, stacked.value)];
      i := i + 1;
    }
    var built := NewFrame(combined);
    if built.Err? {
      return Err(FromPolars(built.error));
    }
    r := Ok(built.value);
  }

  /** The inner loop of `merge_dataframes`: column `name` of the first frame,
      with the same column of each later frame appended in turn. */
  method StackColumn(frames: seq<DataFrame>, name: string) returns (r: Result<ColumnData, PolarsFailure>)
    requires frames != [] && name in Names(frames[0])
    ensures r == StackFrom(Column(frames[0], name).value.data, name, frames[1..])
  {
    var firstSeries := Column(frames[0], name).value;
    var stacked := firstSeries.data;
    var j := 1;
    while j < |frames|
      invariant 1 <= j <= |frames|
      invariant StackFrom(stacked, name, frames[j..]) == StackFrom(firstSeries.data, name, frames[1..])
    {
      assert frames[j..][0] == frames[j] && frames[j..][1..] == frames[j + 1..];
      var series := Column(frames[j], name);
      if series.None? {
        return Err(ColumnNotFound(name));
      }
      var appended := Append(stacked, series.value.data);
      if appended.Err? {
        return Err(appended.error);
      }
      stacked := appended.value;
      j := j + 1;
    }
    r := Ok(stacked);
  }

  // ---- what the merge promises ------------------------------------------------------

  predicate AllWellFormed(frames: seq<DataFrame>) {
    forall k :: 0 <= k < |frames| ==> WellFormed(frames[k])
  }

  /** The number of rows of all frames together. */
  function TotalHeight(frames: seq<DataFrame>): nat {
    if frames == [] then 0 else Height(frames[0]) + TotalHeight(frames[1..])
  }

  lemma {:induction false} StackedCellsLength(frames: seq<DataFrame>, name: string)
    requires AllWellFormed(frames)
    requires forall k :: 0 <= k < |frames| ==> name in Names(frames[k])
    ensures |StackedCells(frames, name)| == TotalHeight(frames)
  {
    if frames != [] {
      var s := Column(frames[0], name).value;
      var j :| 0 <= j < |frames[0]| && frames[0][j] == s;
      assert forall k :: 1 <= k < |frames| ==> frames[1..][k - 1] == frames[k];
      StackedCellsLength(frames[1..], name);
    }
  }

  lemma {:induction false} StackedCellsAppend(frames: seq<DataFrame>, last: DataFrame, name: string)
    ensures StackedCells(frames + [last], name) == StackedCells(frames, name) + StackedCells([last], name)
  {
    if frames != [] {
      assert (frames + [last])[1..] == frames[1..] + [last];
      StackedCellsAppend(frames[1..], last, name);
    }
  }

  /** A lifting that never yields null and tells values apart loses nothing. */
  lemma LiftAllInjective<T>(a: seq<Option<T>>, b: seq<Option<T>>, lift: T -> AnyValue)
    requires forall x :: !lift(x).Null?
    requires forall x, y :: lift(x) == lift(y) ==> x == y
    requires LiftAll(a, lift) == LiftAll(b, lift)
    ensures a == b
  {
    forall i | 0 <= i < |a| ensures a[i] == b[i] {
      assert LiftAll(a, lift)[i] == LiftAll(b, lift)[i];
    }
  }

  /** A series' type and cells determine its data. */
  lemma CellsDetermineData(a: ColumnData, b: ColumnData)
    requires DType(a) == DType(b) && Cells(a) == Cells(b)
    ensures a == b
  {
    match (a, b)
    case (BoolData(x), BoolData(y)) => LiftAllInjective(x, y, AsBool);
    case (F64Data(x), F64Data(y)) => LiftAllInjective(x, y, AsF64);
    case (I64Data(x), I64Data(y)) => LiftAllInjective(x, y, AsI64);
    case (StrData(x), StrData(y)) => LiftAllInjective(x, y, AsStr);
  }

  /** The inner loop's series is as long as `acc` and the frames in `rest`
      together. */
  lemma {:induction false} StackFromLength(acc: ColumnData, name: string, rest: seq<DataFrame>)
    requires AllWellFormed(rest) && StackFrom(acc, name, rest).Ok?
    ensures Len(StackFrom(acc, name, rest).value) == Len(acc) + TotalHeight(rest)
    decreases |rest|
  {
    if rest != [] {
      var s := Column(rest[0], name).value;
      var next := Append(acc, s.data).value;
      var j :| 0 <= j < |rest[0]| && rest[0][j] == s;
      assert Len(s.data) == Height(rest[0]);
      assert Len(next) == |Cells(next)| == Len(acc) + Len(s.data);
      assert AllWellFormed(rest[1..]) by {
        forall k | 0 <= k < |rest| - 1 ensures WellFormed(rest[1..][k]) {
          assert rest[1..][k] == rest[k + 1];
        }
      }
      StackFromLength(next, name, rest[1..]);
    }
  }

  lemma MergedColumnLength(frames: seq<DataFrame>, j: nat)
    requires frames != [] && AllWellFormed(frames) && j < |frames[0]|
    requires MergeFrom([], Names(frames[0]), frames).Ok?
    ensures var cols := MergeFrom([], Names(frames[0]), frames).value;
            && j < |cols|
            && cols[j].name == frames[0][j].name
            && Len(cols[j].data) == TotalHeight(frames)
  {
    var names := Names(frames[0]);
    var n := names[j];
    MergeFromStacked([], names, frames, j);
    var first := Column(frames[0], n).value;
    var k :| 0 <= k < |frames[0]| && frames[0][k] == first;
    assert Len(first.data) == Height(frames[0]);
    assert AllWellFormed(frames[1..]) by {
      forall k | 0 <= k < |frames| - 1 ensures WellFormed(frames[1..][k]) {
        assert frames[1..][k] == frames[k + 1];
      }
    }
    StackFromLength(first.data, n, frames[1..]);
  }

  /** For proper tables the merge succeeds exactly when the first frame's
      names are distinct and every later frame has each of its columns with
      the same type. */
  lemma MergeSucceedsIff(frames: seq<DataFrame>)
    requires frames != [] && AllWellFormed(frames)
    ensures MergeSpec(frames).Ok? <==>
      NoDuplicates(Names(frames[0])) && forall n :: n in Names(frames[0]) ==> Stackable(frames, n)
  {
    var names := Names(frames[0]);
    MergeFromOkIff([], names, frames);
    if NoDuplicates(names) && forall n :: n in names ==> Stackable(frames, n) {
      var cols := MergeFrom([], names, frames).value;
      MergeFromPrefix([], names, frames);
      forall j | 0 <= j < |cols| ensures cols[j].name == names[j] && Len(cols[j].data) == TotalHeight(frames) {
        MergedColumnLength(frames, j);
      }
      assert Names(cols) == names;
      assert WellFormed(cols);
      assert NewFrame(cols) == Ok(cols);
    }
  }

  /** Each merged column is as long as all frames together. */
  lemma MergeLengths(frames: seq<DataFrame>)
    requires AllWellFormed(frames) && MergeSpec(frames).Ok?
    ensures forall j :: 0 <= j < |MergeSpec(frames).value| ==>
              Len(MergeSpec(frames).value[j].data) == TotalHeight(frames)
  {
    var r := MergeSpec(frames).value;
    assert r == MergeFrom([], Names(frames[0]), frames).value;
    forall j | 0 <= j < |r| ensures Len(r[j].data) == TotalHeight(frames) {
      MergedColumnLength(frames, j);
    }
  }

  /** A later frame without one of the first frame's columns, or with it at a
      different type, makes the merge fail. */
  lemma MergeMismatchFails(frames: seq<DataFrame>, k: nat, name: string)
    requires 1 <= k < |frames| && name in Names(frames[0])
    requires !Carries(frames[k], name, DType(Column(frames[0], name).value.data))
    ensures MergeSpec(frames).Err? && MergeSpec(frames).error.PolarsError?
  {
  }

  lemma StackedCellsSingle(t: DataFrame, name: string)
    requires name in Names(t)
    ensures StackedCells([t], name) == Cells(Column(t, name).value.data)
  {
    assert [t][1..] == [];
  }

  lemma MergeSingleColumn(t: DataFrame, j: nat)
    requires WellFormed(t) && NoDuplicates(Names(t)) && MergeSpec([t]).Ok? && j < |t|
    ensures |MergeSpec([t]).value| == |t| && MergeSpec([t]).value[j] == t[j]
  {
    var r := MergeSpec([t]).value;
    assert Names(r) == Names(t);
    assert Names(r)[j] == t[j].name;
    assert Names(t)[j] == t[j].name;
    ColumnOfDistinct(t, j);
    StackedCellsSingle(t, t[j].name);
    assert Cells(r[j].data) == Cells(t[j].data);
    CellsDetermineData(r[j].data, t[j].data);
  }

  /** Merging one proper table gives it back: the inner loop skips it. */
  lemma MergeSingle(t: DataFrame)
    requires WellFormed(t) && NoDuplicates(Names(t))
    ensures MergeSpec([t]) == Ok(t)
  {
    assert AllWellFormed([t]);
    MergeSucceedsIff([t]);
    var r := MergeSpec([t]).value;
    assert |r| == |t|;
    forall j | 0 <= j < |t| ensures r[j] == t[j] {
      MergeSingleColumn(t, j);
    }
    assert r == t;
  }

  /** The merged table finds each name where the first frame does, with the
      first frame's type. */
  lemma MergedColumnAt(frames: seq<DataFrame>, n: string)
    requires MergeSpec(frames).Ok? && n in Names(frames[0])
    ensures var m := MergeSpec(frames).value;
            var j := FirstIndex(Names(frames[0]), n);
            && j < |m| && Column(m, n) == Some(m[j]) && Column(frames[0], n) == Some(frames[0][j])
            && DType(m[j].data) == DType(frames[0][j].data)
            && Cells(m[j].data) == StackedCells(frames, n)
  {
    var m := MergeSpec(frames).value;
    var j := FirstIndex(Names(frames[0]), n);
    assert Names(m) == Names(frames[0]);
    assert m[j].name == Names(m)[j];
  }

  lemma StackableAfterMerge(frames: seq<DataFrame>, last: DataFrame, n: string)
    requires MergeSpec(frames).Ok? && n in Names(frames[0])
    ensures Stackable(frames + [last], n) <==> Stackable([MergeSpec(frames).value, last], n)
  {
    var all := frames + [last];
    var m := MergeSpec(frames).value;
    MergedColumnAt(frames, n);
    assert Stackable(frames, n);
    assert all[0] == frames[0] && all[|frames|] == last;
    assert forall k :: 1 <= k < |frames| ==> all[k] == frames[k];
    assert Names(m) == Names(frames[0]);
    var t := DType(Column(frames[0], n).value.data);
    assert DType(Column(m, n).value.data) == t;
    assert Stackable(all, n) <==> Carries(last, n, t) by {
      if Carries(last, n, t) {
        forall k | 1 <= k < |all| ensures Carries(all[k], n, t) {
          if k < |frames| {
            assert Carries(frames[k], n, t);
          }
        }
      }
    }
    assert Stackable([m, last], n) <==> Carries(last, n, t) by {
      assert [m, last][1] == last;
    }
  }

  /** Column j of a merge: the first frame's name and type, and the stacked
      cells of that name. */
  lemma MergedColumn(frames: seq<DataFrame>, j: nat)
    requires MergeSpec(frames).Ok? && j < |frames[0]|
    ensures var r := MergeSpec(frames).value;
            && j < |r| && r[j].name == frames[0][j].name
            && DType(r[j].data) == DType(frames[0][j].data)
            && Cells(r[j].data) == StackedCells(frames, frames[0][j].name)
  {
    var r := MergeSpec(frames).value;
    assert Names(r)[j] == r[j].name;
    assert Names(frames[0])[j] == frames[0][j].name;
  }

  lemma MergeAssociativeColumn(frames: seq<DataFrame>, last: DataFrame, j: nat)
    requires MergeSpec(frames).Ok?
    requires MergeSpec(frames + [last]).Ok? && MergeSpec([MergeSpec(frames).value, last]).Ok?
    requires j < |frames[0]|
    ensures var r1 := MergeSpec(frames + [last]).value;
            var r2 := MergeSpec([MergeSpec(frames).value, last]).value;
            j < |r1| && j < |r2| && r1[j] == r2[j]
  {
    var all := frames + [last];
    var m := MergeSpec(frames).value;
    var n := frames[0][j].name;
    MergedColumn(frames, j);
    assert all[0] == frames[0];
    MergedColumn(all, j);
    var r1 := MergeSpec(all).value;
    assert [m, last][0] == m;
    MergedColumn([m, last], j);
    var r2 := MergeSpec([m, last]).value;
    assert Column(m, n) == Some(m[j]) by {
      ColumnOfDistinct(m, j);
    }
    StackedCellsAppend(frames, last, n);
    assert [m, last][1..] == [last];
    assert StackedCells([m, last], n) == Cells(m[j].data) + StackedCells([last], n);
    CellsDetermineData(r1[j].data, r2[j].data);
  }

  lemma MergeAssociativeOk(frames: seq<DataFrame>, last: DataFrame)
    requires frames != [] && AllWellFormed(frames) && WellFormed(last)
    requires MergeSpec(frames).Ok?
    ensures MergeSpec(frames + [last]).Ok? <==> MergeSpec([MergeSpec(frames).value, last]).Ok?
  {
    var m := MergeSpec(frames).value;
    var all := frames + [last];
    var names := Names(frames[0]);
    assert all[0] == frames[0];
    assert AllWellFormed(all) by {
      assert forall k :: 0 <= k < |frames| ==> all[k] == frames[k];
    }
    assert AllWellFormed([m, last]);
    assert Names(m) == names;
    MergeSucceedsIff(all);
    MergeSucceedsIff([m, last]);
    forall n | n in names ensures Stackable(all, n) <==> Stackable([m, last], n) {
      StackableAfterMerge(frames, last, n);
    }
  }

  /** Merging is associative: adding one more frame to a merge is the same as
      merging the merged table with it. */
  lemma MergeAssociative(frames: seq<DataFrame>, last: DataFrame)
    requires frames != [] && AllWellFormed(frames) && WellFormed(last)
    requires MergeSpec(frames).Ok?
    ensures MergeSpec(frames + [last]).Ok? <==> MergeSpec([MergeSpec(frames).value, last]).Ok?
    ensures MergeSpec(frames + [last]).Ok? ==>
              MergeSpec(frames + [last]).value == MergeSpec([MergeSpec(frames).value, last]).value
  {
    MergeAssociativeOk(frames, last);
    var m := MergeSpec(frames).value;
    var all := frames + [last];
    if MergeSpec(all).Ok? {
      var r1 := MergeSpec(all).value;
      var r2 := MergeSpec([m, last]).value;
      assert all[0] == frames[0];
      assert |r1| == |frames[0]| == |m| == |r2|;
      forall j | 0 <= j < |r1| ensures r1[j] == r2[j] {
        MergeAssociativeColumn(frames, last, j);
      }
      assert r1 == r2;
    }
  }

  /** Two tables with the same distinct column names and the same column
      types always merge. */
  lemma SameSchemaMerges(x: DataFrame, y: DataFrame)
    requires WellFormed(x) && WellFormed(y) && Names(x) == Names(y) && NoDuplicates(Names(x))
    requires forall j :: 0 <= j < |x| ==> DType(x[j].data) == DType(y[j].data)
    ensures MergeSpec([x, y]).Ok?
  {
    var frames := [x, y];
    forall n | n in Names(x) ensures Stackable(frames, n) {
      var j :| 0 <= j < |x| && Names(x)[j] == n;
      ColumnOfDistinct(x, j);
      ColumnOfDistinct(y, j);
      assert y[j].name == n by { assert Names(y)[j] == y[j].name; }
      assert Carries(frames[1], n, DType(Column(frames[0], n).value.data));
    }
    MergeSucceedsIff(frames);
  }

  /** A successful merge of two tables has the rows of both. */
  lemma MergedHeight(x: DataFrame, y: DataFrame)
    requires WellFormed(x) && WellFormed(y) && x != [] && MergeSpec([x, y]).Ok?
    ensures Height(MergeSpec([x, y]).value) == Height(x) + Height(y)
  {
    var frames := [x, y];
    assert AllWellFormed(frames);
    MergeLengths(frames);
    assert frames[1..] == [y];
    assert [y][1..] == [];
    assert TotalHeight([y]) == Height(y);
    assert TotalHeight(frames) == Height(x) + Height(y);
  }
}
