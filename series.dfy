/**
 * Column arithmetic with the semantics of a table library's numeric series:
 * a missing value (NaN) is `None`, arithmetic on a missing value is missing,
 * and every comparison that involves a missing value is false.
 *
 * The element-wise operations below are the table library's semantics, not
 * code of the processors; their `ensures` clauses only spell out, row by row,
 * the value each one computes, so that callers can reason about single rows.
 */
module Series {
  import opened Wrappers

  /** One numeric column of a candle table. */
  type Column = seq<Option<real>>

  /** Element-wise `a > b`; false when either side is missing. */
  predicate Gt(a: Option<real>, b: Option<real>) {
    a.Some? && b.Some? && a.value > b.value
  }

  /** Element-wise `a < b`; false when either side is missing. */
  predicate Lt(a: Option<real>, b: Option<real>) {
    a.Some? && b.Some? && a.value < b.value
  }

  /** Element-wise `a != b` as the series `ne` method computes it: a missing value is unequal to everything. */
  predicate Ne(a: Option<real>, b: Option<real>) {
    !(a.Some? && b.Some? && a.value == b.value)
  }

  function Plus(a: Option<real>, b: Option<real>): Option<real> {
    if a.Some? && b.Some? then Some(a.value + b.value) else None
  }

  function Minus(a: Option<real>, b: Option<real>): Option<real> {
    if a.Some? && b.Some? then Some(a.value - b.value) else None
  }

  function Times(a: Option<real>, m: real): Option<real> {
    if a.Some? then Some(a.value * m) else None
  }

  /** `s.shift(k)`: every value moves k rows down; the first k rows become missing. */
  function Shift(s: Column, k: nat): (r: Column)
    ensures |r| == |s|
    ensures forall i :: 0 <= i < |s| && i < k ==> r[i] == None
    ensures forall i :: k <= i < |s| ==> r[i] == s[i - k]
  {
    seq(|s|, i requires 0 <= i < |s| => if i < k then None else s[i - k])
  }

  /** `s.shift(fill_value=False)` on a boolean series: one row down, `false` in row 0. */
  function ShiftBool(s: seq<bool>): (r: seq<bool>)
    ensures |r| == |s|
    ensures |s| > 0 ==> !r[0]
    ensures forall i :: 1 <= i < |s| ==> r[i] == s[i - 1]
  {
    if s == [] then [] else [false] + s[..|s| - 1]
  }

  function GtCol(a: Column, b: Column): (r: seq<bool>)
    requires |a| == |b|
    ensures |r| == |a| && forall i :: 0 <= i < |a| ==> r[i] == Gt(a[i], b[i])
  {
    seq(|a|, i requires 0 <= i < |a| => Gt(a[i], b[i]))
  }

  function LtCol(a: Column, b: Column): (r: seq<bool>)
    requires |a| == |b|
    ensures |r| == |a| && forall i :: 0 <= i < |a| ==> r[i] == Lt(a[i], b[i])
  {
    seq(|a|, i requires 0 <= i < |a| => Lt(a[i], b[i]))
  }

  function NeCol(a: Column, b: Column): (r: seq<bool>)
    requires |a| == |b|
    ensures |r| == |a| && forall i :: 0 <= i < |a| ==> r[i] == Ne(a[i], b[i])
  {
    seq(|a|, i requires 0 <= i < |a| => Ne(a[i], b[i]))
  }

  /** `a > c` against a scalar. */
  function GtScalar(a: Column, c: real): (r: seq<bool>)
    ensures |r| == |a| && forall i :: 0 <= i < |a| ==> r[i] == Gt(a[i], Some(c))
  {
    seq(|a|, i requires 0 <= i < |a| => Gt(a[i], Some(c)))
  }

  /** `a < c` against a scalar. */
  function LtScalar(a: Column, c: real): (r: seq<bool>)
    ensures |r| == |a| && forall i :: 0 <= i < |a| ==> r[i] == Lt(a[i], Some(c))
  {
    seq(|a|, i requires 0 <= i < |a| => Lt(a[i], Some(c)))
  }

  function PlusCol(a: Column, b: Column): (r: Column)
    requires |a| == |b|
    ensures |r| == |a| && forall i :: 0 <= i < |a| ==> r[i] == Plus(a[i], b[i])
  {
    seq(|a|, i requires 0 <= i < |a| => Plus(a[i], b[i]))
  }

  function MinusCol(a: Column, b: Column): (r: Column)
    requires |a| == |b|
    ensures |r| == |a| && forall i :: 0 <= i < |a| ==> r[i] == Minus(a[i], b[i])
  {
    seq(|a|, i requires 0 <= i < |a| => Minus(a[i], b[i]))
  }

  /** `m * a` (or `a * m`) for a scalar m. */
  function TimesCol(a: Column, m: real): (r: Column)
    ensures |r| == |a| && forall i :: 0 <= i < |a| ==> r[i] == Times(a[i], m)
  {
    seq(|a|, i requires 0 <= i < |a| => Times(a[i], m))
  }

  /** Element-wise `a & b` on boolean series. */
  function And(a: seq<bool>, b: seq<bool>): (r: seq<bool>)
    requires |a| == |b|
    ensures |r| == |a| && forall i :: 0 <= i < |a| ==> r[i] == (a[i] && b[i])
  {
    seq(|a|, i requires 0 <= i < |a| => a[i] && b[i])
  }

  /** Element-wise `~a`. */
  function Not(a: seq<bool>): (r: seq<bool>)
    ensures |r| == |a| && forall i :: 0 <= i < |a| ==> r[i] == !a[i]
  {
    seq(|a|, i requires 0 <= i < |a| => !a[i])
  }

  /** A column holding the constant c in every one of n rows (`df[col] = c`). */
  function Constant(n: nat, c: real): (r: Column)
    ensures |r| == n && forall i :: 0 <= i < n ==> r[i] == Some(c)
  {
    seq(n, i requires 0 <= i < n => Some(c))
  }

  /** `s.where(keep, c)`: the value of s where keep holds, c elsewhere. */
  function Where(s: Column, keep: seq<bool>, c: real): (r: Column)
    requires |s| == |keep|
    ensures |r| == |s|
    ensures forall i :: 0 <= i < |s| ==> r[i] == if keep[i] then s[i] else Some(c)
  {
    seq(|s|, i requires 0 <= i < |s| => if keep[i] then s[i] else Some(c))
  }

  /** `s.fillna(c)`: missing values become c. */
  function FillNa(s: Column, c: real): (r: Column)
    ensures |r| == |s|
    ensures forall i :: 0 <= i < |s| ==> r[i] == if s[i].Some? then s[i] else Some(c)
  {
    seq(|s|, i requires 0 <= i < |s| => if s[i].Some? then s[i] else Some(c))
  }

  /** The masked write `df.loc[mask, col] = v`: rows under the mask get v, the others keep their value. */
  function Assign(s: Column, mask: seq<bool>, v: real): (r: Column)
    requires |s| == |mask|
    ensures |r| == |s|
    ensures forall i :: 0 <= i < |s| ==> r[i] == if mask[i] then Some(v) else s[i]
  {
    seq(|s|, i requires 0 <= i < |s| => if mask[i] then Some(v) else s[i])
  }

  /**
   * Assigning a series to a table column aligns it on the table's n rows:
   * rows the series does not cover become missing, extra values are dropped.
   */
  function Align(s: Column, n: nat): (r: Column)
    ensures |r| == n
    ensures forall i :: 0 <= i < n ==> r[i] == if i < |s| then s[i] else None
  {
    seq(n, i requires 0 <= i < n => if i < |s| then s[i] else None)
  }

  /** The largest of a non-empty list of values. */
  function MaxOf(xs: seq<real>): (m: real)
    requires |xs| > 0
    ensures m in xs
    ensures forall j :: 0 <= j < |xs| ==> xs[j] <= m
  {
    if |xs| == 1 then xs[0]
    else
      var rest := MaxOf(xs[1..]);
      if xs[0] >= rest then xs[0] else rest
  }

  /** True when no value of the column is missing. */
  predicate Complete(s: Column) {
    forall j :: 0 <= j < |s| ==> s[j].Some?
  }

  /** The values of a column without missing entries. */
  function Values(s: Column): (r: seq<real>)
    requires Complete(s)
    ensures |r| == |s| && forall j :: 0 <= j < |s| ==> r[j] == s[j].value
  {
    seq(|s|, j requires 0 <= j < |s| => s[j].value)
  }

  /**
   * `s.rolling(window=w).max()` with the default minimum count (the whole window):
   * row i holds the maximum of rows i-w+1 .. i, or is missing when that window
   * reaches above row 0 or holds a missing value.
   */
  function RollingMax(s: Column, w: nat): (r: Column)
    requires w >= 1
    ensures |r| == |s|
  {
    seq(|s|, i requires 0 <= i < |s| =>
      if i + 1 >= w && Complete(s[i + 1 - w .. i + 1]) then Some(MaxOf(Values(s[i + 1 - w .. i + 1])))
      else None)
  }

  /**
   * Row i of a rolling maximum is defined exactly when the w rows ending at i
   * lie inside the column and none of them is missing; it is then one of those
   * values and no smaller than any of them.
   */
  lemma RollingMaxAt(s: Column, w: nat, i: nat)
    requires w >= 1 && i < |s|
    ensures RollingMax(s, w)[i].Some? <==> i + 1 >= w && forall j :: i + 1 - w <= j <= i ==> s[j].Some?
    ensures RollingMax(s, w)[i].Some? ==>
      && (exists j :: i + 1 - w <= j <= i && RollingMax(s, w)[i] == s[j])
      && (forall j :: i + 1 - w <= j <= i ==> s[j].value <= RollingMax(s, w)[i].value)
  {
    if i + 1 >= w {
      var lo := i + 1 - w;
      var win := s[lo .. i + 1];
      assert forall j :: lo <= j <= i ==> s[j] == win[j - lo];
      if Complete(win) {
        var m := MaxOf(Values(win));
        var k :| 0 <= k < |win| && Values(win)[k] == m;
        assert s[lo + k] == Some(m);
      }
    }
  }

  /** `after` is `before` with the columns named in `written` added or replaced and every other column kept. */
  ghost predicate Overwrites(before: map<string, Column>, after: map<string, Column>, written: set<string>) {
    && (forall c :: c in after <==> c in before || c in written)
    && (forall c :: c in before && c !in written ==> after[c] == before[c])
  }

  /** Two successive rounds of writes overwrite the union of what each wrote. */
  lemma OverwritesTrans(a: map<string, Column>, b: map<string, Column>, c: map<string, Column>, w1: set<string>, w2: set<string>)
    requires Overwrites(a, b, w1) && Overwrites(b, c, w2)
    ensures Overwrites(a, c, w1 + w2)
  {
  }

  /** The error a table operation raises. */
  datatype TableError =
    | MissingColumns(required: seq<string>)  // the explicit ValueError of a column guard
    | KeyError(column: string)               // reading a column the table does not have
    | IndexError                             // positional access past the end
    | NotSubscriptable                       // indexing a library result that is missing (a TypeError)
    | MissingResultColumn                    // a column name a library result does not have (a KeyError)

  /**
   * A candle table: a fixed number of rows and named numeric columns that
   * processing adds to or overwrites in place.
   */
  class Candles {
    const rows: nat
    var columns: map<string, Column>

    /** Every column spans the table's rows. */
    ghost predicate Valid()
      reads this
    {
      forall c :: c in columns ==> |columns[c]| == rows
    }

    constructor (rows: nat, columns: map<string, Column>)
      requires forall c :: c in columns ==> |columns[c]| == rows
      ensures this.rows == rows && this.columns == columns && Valid()
    {
      this.rows := rows;
      this.columns := columns;
    }

    /** `df[name] = s` for a column s that spans the table's rows. */
    method SetColumn(name: string, s: Column)
      requires Valid() && |s| == rows
      modifies this
      ensures Valid()
      ensures columns == old(columns)[name := s]
    {
      columns := columns[name := s];
    }
  }
}
