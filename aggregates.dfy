/** The reductions of app.py: `df['Date'].min()` and `.max()` (line 39) and
    `df[col].sum(numeric_only=True)` (lines 46 and 50). */
module Aggregates {
  import opened Wrappers
  import opened Table

  /** `col.min()` over a datetime column: NaT cells are skipped, and the
      minimum of no timestamps is NaT. */
  function Earliest(col: seq<Cell>): (r: Option<Timestamp>)
    ensures r.None? <==> forall k :: 0 <= k < |col| ==> !col[k].Time?
    ensures r.Some? ==> Time(r.value) in col
    ensures r.Some? ==> forall k :: 0 <= k < |col| && col[k].Time? ==> r.value <= col[k].stamp
  {
    if col == [] then None
    else
      var rest := Earliest(col[1..]);
      if !col[0].Time? then rest
      else if rest.Some? && rest.value < col[0].stamp then rest
      else Some(col[0].stamp)
  }

  /** `col.max()`, likewise. */
  function Latest(col: seq<Cell>): (r: Option<Timestamp>)
    ensures r.None? <==> forall k :: 0 <= k < |col| ==> !col[k].Time?
    ensures r.Some? ==> Time(r.value) in col
    ensures r.Some? ==> forall k :: 0 <= k < |col| && col[k].Time? ==> col[k].stamp <= r.value
  {
    if col == [] then None
    else
      var rest := Latest(col[1..]);
      if !col[0].Time? then rest
      else if rest.Some? && rest.value > col[0].stamp then rest
      else Some(col[0].stamp)
  }

  /** The printed range is a real range: both ends are present together, the
      first is not after the second, and each is a date of the column. */
  lemma RangeOrdered(col: seq<Cell>)
    ensures Earliest(col).Some? <==> Latest(col).Some?
    ensures Earliest(col).Some? ==> Earliest(col).value <= Latest(col).value
  {
    if Earliest(col).Some? {
      var k :| 0 <= k < |col| && col[k] == Time(Earliest(col).value);
    }
  }

  /** A column that `sum(numeric_only=True)` accepts: numbers and NaN only. */
  predicate IsNumeric(col: seq<Cell>)
  {
    forall k :: 0 <= k < |col| ==> col[k].Empty? || col[k].Number?
  }

  /** The sum of the present numbers, NaN counting as nothing. */
  function SumPresent(col: seq<Cell>): int
  {
    if col == [] then 0
    else (if col[0].Number? then col[0].amount else 0) + SumPresent(col[1..])
  }

  /** What a total line of the script can come to. */
  datatype Total =
    | NoColumn           // no column name contains the keyword: nothing is printed
    | Amount(value: int) // the printed total
    | NonNumeric         // the sum raises; the script's handler takes over
    | NotReached         // an earlier line raised, so this one never ran

  /** `df[col].sum(numeric_only=True)` on one column. */
  function ColumnTotal(col: seq<Cell>): (r: Total)
    ensures r.Amount? || r.NonNumeric?
    ensures r.NonNumeric? <==> exists k :: 0 <= k < |col| && !col[k].Empty? && !col[k].Number?
  {
    if IsNumeric(col) then Amount(SumPresent(col)) else NonNumeric
  }

  /** Sums add up over the halves of a column. */
  lemma {:induction false} SumPresentAppend(a: seq<Cell>, b: seq<Cell>)
    ensures SumPresent(a + b) == SumPresent(a) + SumPresent(b)
  {
    if a != [] {
      assert (a + b)[0] == a[0];
      assert (a + b)[1..] == a[1..] + b;
      SumPresentAppend(a[1..], b);
    } else {
      assert a + b == b;
    }
  }

  /** Missing cells contribute nothing: adding or removing a row whose cell is
      NaN, anywhere in the column, leaves the total as it was. */
  lemma MissingCellIsNeutral(a: seq<Cell>, b: seq<Cell>)
    ensures ColumnTotal(a + [Empty] + b) == ColumnTotal(a + b)
  {
    SumPresentAppend(a + [Empty], b);
    SumPresentAppend(a, [Empty]);
    SumPresentAppend(a, b);
    var with, without := a + [Empty] + b, a + b;
    if IsNumeric(without) {
      forall k | 0 <= k < |with| ensures with[k].Empty? || with[k].Number? {
        if k > |a| { assert with[k] == without[k - 1]; }
        else if k < |a| { assert with[k] == without[k]; }
      }
    }
    if IsNumeric(with) {
      forall k | 0 <= k < |without| ensures without[k].Empty? || without[k].Number? {
        if k >= |a| { assert without[k] == with[k + 1]; }
        else { assert without[k] == with[k]; }
      }
    }
  }

  /** A column of NaN alone sums to zero. */
  lemma {:induction false} AllMissingSumsToZero(col: seq<Cell>)
    requires forall k :: 0 <= k < |col| ==> col[k] == Empty
    ensures ColumnTotal(col) == Amount(0)
  {
    if col != [] {
      AllMissingSumsToZero(col[1..]);
    }
  }

  /** The total is the sum of the amounts of the rows that hold a number. */
  lemma {:induction false} TotalCountsEveryNumber(col: seq<Cell>, k: nat)
    requires IsNumeric(col) && k < |col|
    ensures ColumnTotal(col).value
              == SumPresent(col[..k]) + (if col[k].Number? then col[k].amount else 0) + SumPresent(col[k + 1..])
  {
    assert col == col[..k] + [col[k]] + col[k + 1..];
    SumPresentAppend(col[..k] + [col[k]], col[k + 1..]);
    SumPresentAppend(col[..k], [col[k]]);
  }
}
