/** A two-row statement worked through the model: a salary credit and a
    card debit, each with the other amount column left blank. */
module Sample {
  import opened Wrappers
  import opened Strings
  import opened Detection
  import opened Table
  import opened Dates
  import opened Aggregates
  import opened Analyzer

  /** A two-row statement with a blank Debit cell and a blank Credit cell. */
  const TwoRowsColumns: seq<string> := ["Date", "Narration", "Debit", "Credit"]
  const TwoRows: Frame := Frame(
    TwoRowsColumns,
    map["Date" := [Text("01/02/2024"), Text("03/02/2024")],
        "Narration" := [Text("SALARY CREDIT"), Text("TO AMAZON")],
        "Debit" := [Empty, Number(1200)],
        "Credit" := [Number(50000), Empty]],
    2)

  /** "Narration" holds neither amount keyword. */
  lemma NarrationIsNoAmountColumn()
    ensures !Matches("Narration", DebitKeyword) && !Matches("Narration", CreditKeyword)
  {
    var lowered := LowerCase("Narration");
    assert lowered == "narration";
    MissingLetter(lowered, DebitKeyword);
    MissingLetter(lowered, CreditKeyword);
  }

  lemma TwoRowsValid()
    ensures TwoRows.Valid()
  {
    assert TwoRows.data.Keys == set c | c in TwoRows.columns;
  }

  /** On the sample, "Date" is the date column. */
  lemma TwoRowsDateDetection()
    ensures FirstMatch(TwoRowsColumns, DateKeyword) == Some(0)
  {
    assert LowerCase("Date") == DateKeyword;
  }

  /** On the sample, "Debit" (the third column) is the debit column. */
  lemma TwoRowsDebitDetection()
    ensures FirstMatch(TwoRowsColumns, DebitKeyword) == Some(2)
  {
    var cols := TwoRowsColumns;
    DateIsNoAmountColumn();
    NarrationIsNoAmountColumn();
    assert cols[1..][1..] == cols[2..];
    assert Matches("Debit", DebitKeyword) by {
      assert LowerCase("Debit") == DebitKeyword;
    }
    assert FirstMatch(cols[2..], DebitKeyword) == Some(0);
    assert FirstMatch(cols[1..], DebitKeyword) == Some(1);
  }

  /** On the sample, "Credit" (the fourth column) is the credit column. */
  lemma TwoRowsCreditDetection()
    ensures FirstMatch(TwoRowsColumns, CreditKeyword) == Some(3)
  {
    var cols := TwoRowsColumns;
    DateIsNoAmountColumn();
    NarrationIsNoAmountColumn();
    assert cols[1..][1..] == cols[2..] && cols[2..][1..] == cols[3..];
    assert Matches("Credit", CreditKeyword) by {
      assert LowerCase("Credit") == CreditKeyword;
    }
    assert !Matches("Debit", CreditKeyword) by {
      assert |LowerCase("Debit")| < |CreditKeyword|;
    }
    assert FirstMatch(cols[3..], CreditKeyword) == Some(0);
    assert FirstMatch(cols[2..], CreditKeyword) == Some(1);
    assert FirstMatch(cols[1..], CreditKeyword) == Some(2);
  }

  /** The cells of the sample, column by column. */
  lemma TwoRowsCells()
    ensures TwoRows.data["Date"] == [Text("01/02/2024"), Text("03/02/2024")]
    ensures TwoRows.data["Debit"] == [Empty, Number(1200)]
    ensures TwoRows.data["Credit"] == [Number(50000), Empty]
  {
  }

  /** The two amount columns of the sample, summed. */
  lemma TwoRowsColumnTotals()
    ensures ColumnTotal([Empty, Number(1200)]) == Amount(1200)
    ensures ColumnTotal([Number(50000), Empty]) == Amount(50000)
  {
    assert SumPresent([Empty, Number(1200)]) == 1200;
    assert SumPresent([Number(50000), Empty]) == 50000;
  }

  /** On the sample the blank Debit cell is skipped. */
  lemma TwoRowsDebit()
    ensures DetectTotal(TwoRows, DebitKeyword) == Amount(1200)
  {
    TwoRowsValid();
    TwoRowsDebitDetection();
    TwoRowsCells();
    TwoRowsColumnTotals();
    assert TwoRowsColumns[2] == "Debit";
  }

  /** On the sample the blank Credit cell is skipped. */
  lemma TwoRowsCredit()
    ensures DetectTotal(TwoRows, CreditKeyword) == Amount(50000)
  {
    TwoRowsValid();
    TwoRowsCreditDetection();
    TwoRowsCells();
    TwoRowsColumnTotals();
    assert TwoRowsColumns[3] == "Credit";
  }

  /** The date column detected on the sample is "Date". */
  lemma TwoRowsDateSource(parse: Parser)
    ensures TwoRows.Valid()
    ensures DateColumn(TwoRows, parse) == ParseColumn(parse, [Text("01/02/2024"), Text("03/02/2024")])
  {
    TwoRowsValid();
    TwoRowsDateDetection();
    DetectedIsFirstMatch(TwoRowsColumns, DateKeyword);
    assert Matching(TwoRowsColumns, DateKeyword)[0] == "Date";
    TwoRowsCells();
  }

  /** Both dates of the sample are read. */
  lemma TwoRowsParsed(parse: Parser, d1: Timestamp, d2: Timestamp)
    requires parse(Text("01/02/2024")) == Some(d1) && parse(Text("03/02/2024")) == Some(d2)
    ensures ParseColumn(parse, [Text("01/02/2024"), Text("03/02/2024")]) == [Time(d1), Time(d2)]
  {
    var r := ParseColumn(parse, [Text("01/02/2024"), Text("03/02/2024")]);
    assert r[0] == Time(d1) && r[1] == Time(d2) && |r| == 2;
  }

  /** On the sample the summary counts both rows, reports both totals, and
      gives the range of the two dates. */
  lemma TwoRowsSummary(parse: Parser, d1: Timestamp, d2: Timestamp)
    requires parse(Text("01/02/2024")) == Some(d1) && parse(Text("03/02/2024")) == Some(d2)
    requires d1 <= d2
    ensures TwoRows.Valid()
    ensures DateColumn(TwoRows, parse) == [Time(d1), Time(d2)]
    ensures Summarize(TwoRows, parse) == Summary(2, Some(d1), Some(d2), Amount(1200), Amount(50000))
  {
    TwoRowsValid();
    TwoRowsDebit();
    TwoRowsCredit();
    TwoRowsDateSource(parse);
    TwoRowsParsed(parse, d1, d2);
    RangeBoundsAreDates(TwoRows, parse);
    var s := Summarize(TwoRows, parse);
    var dates := DateColumn(TwoRows, parse);
    assert dates[0] == Time(d1) && dates[1] == Time(d2);
    assert s.earliest.Some? && s.latest.Some?;
    assert s.earliest.value <= d1 && d2 <= s.latest.value;
    assert s.earliest.value == d1 by {
      assert Time(s.earliest.value) in dates;
    }
    assert s.latest.value == d2 by {
      assert Time(s.latest.value) in dates;
    }
  }
}
