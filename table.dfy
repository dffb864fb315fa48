/** The DataFrame that app.py reads (lines 14-17) and then edits, as a value:
    named columns in order, one cell per row in each. */
module Table {

  /** A pandas Timestamp, as nanoseconds since the epoch. */
  type Timestamp = int

  /** One value of the table. `Empty` stands for NaN and NaT alike; amounts
      are integers in the smallest currency unit. */
  datatype Cell = Empty | Text(text: string) | Number(amount: int) | Time(stamp: Timestamp)

  datatype Frame = Frame(columns: seq<string>, data: map<string, seq<Cell>>, rows: nat)
  {
    /** Column names are distinct (the readers rename duplicates), each one
        has its data, and every column has one cell per row. */
    predicate Valid()
    {
      && (forall i, j :: 0 <= i < j < |columns| ==> columns[i] != columns[j])
      && data.Keys == set c | c in columns
      && (forall c :: c in data ==> |data[c]| == rows)
    }
  }

  /** `df[name] = values`: an existing column is replaced where it stands, a
      new one is appended after the others. */
  function Assign(f: Frame, name: string, values: seq<Cell>): (r: Frame)
    requires f.Valid() && |values| == f.rows
    ensures r.Valid() && r.rows == f.rows
    ensures name in r.data && r.data[name] == values
    ensures forall c :: c in f.data && c != name ==> c in r.data && r.data[c] == f.data[c]
    ensures r.data.Keys == f.data.Keys + {name}
    ensures |f.columns| <= |r.columns| <= |f.columns| + 1 && r.columns[..|f.columns|] == f.columns
  {
    if name in f.columns then Frame(f.columns, f.data[name := values], f.rows)
    else Frame(f.columns + [name], f.data[name := values], f.rows)
  }
}
