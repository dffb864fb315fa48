/** Date normalisation (app.py lines 22-33): the canonical `Date` column is
    the first date-like column passed through `pd.to_datetime(...,
    errors='coerce', dayfirst=True)`, or all NaT when there is none. */
module Dates {
  import opened Wrappers
  import opened Table
  import opened Detection

  /** The day-first parser of pandas is a parameter of the model: it gives a
      timestamp, or nothing for a value it cannot read. */
  type Parser = Cell -> Option<Timestamp>

  /** One cell of `to_datetime` with `errors='coerce'`: NaN stays NaT, an
      unreadable value becomes NaT, never an error. */
  function ParseCell(parse: Parser, c: Cell): Cell
  {
    if c.Empty? then Empty
    else match parse(c)
      case None => Empty
      case Some(t) => Time(t)
  }

  /** `to_datetime` applied to a whole column, modelled cell by cell (see README). */
  function ParseColumn(parse: Parser, cells: seq<Cell>): seq<Cell>
  {
    seq(|cells|, k requires 0 <= k < |cells| => ParseCell(parse, cells[k]))
  }

  /** `df['Date'] = pd.NaT`: the scalar is broadcast to every row. */
  function AbsentColumn(rows: nat): seq<Cell>
  {
    seq(rows, k => Empty)
  }

  /** The values assigned to `df['Date']` on line 27 or line 33. */
  function DateColumn(f: Frame, parse: Parser): (r: seq<Cell>)
    requires f.Valid()
    ensures |r| == f.rows
    ensures forall k :: 0 <= k < |r| ==> r[k].Empty? || r[k].Time?
  {
    var candidates := Matching(f.columns, DateKeyword);
    if candidates != [] then ParseColumn(parse, f.data[candidates[0]])
    else AbsentColumn(f.rows)
  }

  /** The frame after lines 22-33. */
  function Normalized(f: Frame, parse: Parser): (r: Frame)
    requires f.Valid()
    ensures r.Valid() && r.rows == f.rows
    ensures "Date" in r.data && r.data["Date"] == DateColumn(f, parse)
    ensures forall c :: c in f.data && c != "Date" ==> c in r.data && r.data[c] == f.data[c]
    ensures r.data.Keys == f.data.Keys + {"Date"}
    ensures r.columns == if "Date" in f.columns then f.columns else f.columns + ["Date"]
  {
    Assign(f, "Date", DateColumn(f, parse))
  }

  /** Row `k` of the Date column is row `k` of the first column (in source
      order) whose lower-cased name contains "date", read by the parser; with
      no such column, every row is NaT. */
  lemma DateColumnFromFirstMatch(f: Frame, parse: Parser)
    requires f.Valid()
    ensures match FirstMatch(f.columns, DateKeyword)
      case Some(i) =>
        forall k :: 0 <= k < f.rows ==>
          DateColumn(f, parse)[k] == ParseCell(parse, f.data[f.columns[i]][k])
      case None =>
        forall k :: 0 <= k < f.rows ==> DateColumn(f, parse)[k] == Empty
  {
    DetectedIsFirstMatch(f.columns, DateKeyword);
  }

  /** Without a date-like column name, no row gets a date. */
  lemma NoDateColumnNoDates(f: Frame, parse: Parser)
    requires f.Valid()
    requires forall i :: 0 <= i < |f.columns| ==> !Matches(f.columns[i], DateKeyword)
    ensures forall k :: 0 <= k < f.rows ==> Normalized(f, parse).data["Date"][k] == Empty
  {
    DateColumnFromFirstMatch(f, parse);
  }

  /** A cell that does not parse affects its own row only: changing one raw
      cell changes that one row of the result and nothing else. */
  lemma ParseIsRowLocal(parse: Parser, cells: seq<Cell>, j: nat, c: Cell)
    requires j < |cells|
    ensures ParseColumn(parse, cells[j := c]) == ParseColumn(parse, cells)[j := ParseCell(parse, c)]
    ensures parse(c).None? ==> ParseColumn(parse, cells[j := c])[j] == Empty
  {
    var left := ParseColumn(parse, cells[j := c]);
    var right := ParseColumn(parse, cells)[j := ParseCell(parse, c)];
    assert forall k :: 0 <= k < |left| ==> left[k] == right[k];
  }
}
