/** The analysis step of app.py (lines 22-51) on an uploaded statement that
    has already been read into a frame: normalise the Date column in place,
    then report the row count, the date range and the debit and credit
    totals. */
module Analyzer {
  import opened Wrappers
  import opened Strings
  import opened Detection
  import opened Table
  import opened Dates
  import opened Aggregates

  /** The figures the script writes, in the order it writes them. */
  datatype Summary = Summary(
    rowCount: nat,                // line 37
    earliest: Option<Timestamp>,  // line 39, NaT when None
    latest: Option<Timestamp>,    // line 39, NaT when None
    debit: Total,                 // lines 42, 45-47
    credit: Total)                // lines 43, 49-51

  /** Lines 42-51 for one keyword: the first matching column's total, or
      nothing printed when no column name contains the keyword. */
  function DetectTotal(f: Frame, keyword: string): (r: Total)
    requires f.Valid()
    ensures r.NoColumn? <==> forall i :: 0 <= i < |f.columns| ==> !Matches(f.columns[i], keyword)
    ensures match FirstMatch(f.columns, keyword)
      case None => r == NoColumn
      case Some(i) => r == ColumnTotal(f.data[f.columns[i]])
  {
    var candidates := Matching(f.columns, keyword);
    DetectedIsFirstMatch(f.columns, keyword);
    if candidates != [] then ColumnTotal(f.data[candidates[0]]) else NoColumn
  }

  /** The name "Date" holds neither amount keyword. */
  lemma DateIsNoAmountColumn()
    ensures !Matches("Date", DebitKeyword) && !Matches("Date", CreditKeyword)
  {
    assert |LowerCase("Date")| == 4;
  }

  /** Detection of the amount columns runs after the Date column has been
      assigned (lines 42-43 read the edited `df.columns`), yet it finds the
      same column with the same cells as on the frame that was read. */
  lemma TotalsIgnoreDateColumn(f: Frame, parse: Parser, keyword: string)
    requires f.Valid()
    requires keyword == DebitKeyword || keyword == CreditKeyword
    ensures DetectTotal(Normalized(f, parse), keyword) == DetectTotal(f, keyword)
  {
    var n := Normalized(f, parse);
    DateIsNoAmountColumn();
    if "Date" in f.columns {
      assert n.columns == f.columns;
    } else {
      assert n.columns == f.columns + ["Date"];
      DateColumnInvisibleToAmounts(f.columns);
    }
    var candidates := Matching(f.columns, keyword);
    if candidates != [] {
      assert candidates[0] in candidates;
      assert candidates[0] != "Date";
    }
  }

  /** The whole step, as a function of the frame that was read. */
  function Summarize(f: Frame, parse: Parser): (s: Summary)
    requires f.Valid()
    ensures s.rowCount == f.rows
    ensures s.earliest.Some? <==> s.latest.Some?
    ensures s.earliest.None? <==> forall k :: 0 <= k < f.rows ==> !DateColumn(f, parse)[k].Time?
    ensures s.earliest.Some? ==> s.earliest.value <= s.latest.value
    ensures s.debit == DetectTotal(f, DebitKeyword)
    ensures s.credit == if s.debit.NonNumeric? then NotReached else DetectTotal(f, CreditKeyword)
  {
    var n := Normalized(f, parse);
    var dates := n.data["Date"];
    RangeOrdered(dates);
    TotalsIgnoreDateColumn(f, parse, DebitKeyword);
    TotalsIgnoreDateColumn(f, parse, CreditKeyword);
    var debit := DetectTotal(n, DebitKeyword);
    var credit := if debit.NonNumeric? then NotReached else DetectTotal(n, CreditKeyword);
    Summary(n.rows, Earliest(dates), Latest(dates), debit, credit)
  }

  /** Both ends of a reported range are dates of the Date column, and every
      date of the column lies between them. */
  lemma RangeBoundsAreDates(f: Frame, parse: Parser)
    requires f.Valid()
    ensures var s := Summarize(f, parse);
      s.earliest.Some? ==>
        && Time(s.earliest.value) in DateColumn(f, parse)
        && Time(s.latest.value) in DateColumn(f, parse)
        && forall k :: 0 <= k < f.rows && DateColumn(f, parse)[k].Time? ==>
             s.earliest.value <= DateColumn(f, parse)[k].stamp <= s.latest.value
  {
    var dates := Normalized(f, parse).data["Date"];
    assert dates == DateColumn(f, parse);
    assert Summarize(f, parse).earliest == Earliest(dates);
    assert Summarize(f, parse).latest == Latest(dates);
  }

  /** When no column name contains "date", the range is undefined. */
  lemma NoDateColumnNoRange(f: Frame, parse: Parser)
    requires f.Valid()
    requires forall i :: 0 <= i < |f.columns| ==> !Matches(f.columns[i], DateKeyword)
    ensures Summarize(f, parse).earliest.None? && Summarize(f, parse).latest.None?
  {
    DateColumnFromFirstMatch(f, parse);
  }

  /** The pandas DataFrame of the script, edited in place. */
  class DataFrame {
    var columns: seq<string>
    var data: map<string, seq<Cell>>
    var rows: nat

    /** The frame's current value. */
    function View(): Frame
      reads this
    {
      Frame(columns, data, rows)
    }

    /** The frame as `pd.read_csv` or `pd.read_excel` produced it. */
    constructor (f: Frame)
      requires f.Valid()
      ensures View() == f
    {
      columns, data, rows := f.columns, f.data, f.rows;
    }

    /** `df[name] = values` */
    method SetColumn(name: string, values: seq<Cell>)
      requires View().Valid() && |values| == rows
      modifies this
      ensures View() == Assign(old(View()), name, values)
    {
      if name !in columns {
        columns := columns + [name];
      }
      data := data[name := values];
    }

    /** Lines 22-33: detect the date column and assign `df['Date']`. */
    method NormalizeDates(parse: Parser)
      requires View().Valid()
      modifies this
      ensures View() == Normalized(old(View()), parse)
    {
      var dateCols := Matching(columns, DateKeyword);
      if dateCols != [] {
        SetColumn("Date", ParseColumn(parse, data[dateCols[0]]));
      } else {
        SetColumn("Date", AbsentColumn(rows));
      }
    }

    /** Lines 22-51: the frame keeps its new Date column, and the figures
        written are those of `Summarize` on the frame as it was read. */
    method Analyze(parse: Parser) returns (s: Summary)
      requires View().Valid()
      modifies this
      ensures View() == Normalized(old(View()), parse)
      ensures s == Summarize(old(View()), parse)
    {
      NormalizeDates(parse);
      var rowCount := rows;
      var earliest, latest := Earliest(data["Date"]), Latest(data["Date"]);
      var debitCols := Matching(columns, DebitKeyword);
      var creditCols := Matching(columns, CreditKeyword);
      var debit := NoColumn;
      if debitCols != [] {
        debit := ColumnTotal(data[debitCols[0]]);
      }
      var credit := NotReached;
      if !debit.NonNumeric? {
        credit := NoColumn;
        if creditCols != [] {
          credit := ColumnTotal(data[creditCols[0]]);
        }
      }
      s := Summary(rowCount, earliest, latest, debit, credit);
    }
  }
}
