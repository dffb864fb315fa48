# Bank Statement Analyzer: column detection and summary

This project models the analysis step of the Streamlit script `app.py`.
The script reads an uploaded bank statement into a pandas DataFrame and
then does four things:

- It finds the date column: the first column, in source order, whose
  lower-cased name contains `"date"`.
- It assigns a canonical `Date` column to the frame, in place. This column
  is the detected column read by `pd.to_datetime(..., errors='coerce',
  dayfirst=True)`, or NaT in every row when no column matched.
- It writes the row count and the date range (`min` and `max` of `Date`).
- For the keywords `"debit"` and `"credit"`, it finds the first matching
  column by the same rule and writes that column's sum.

Layout:

- `wrappers.dfy`: `Option`.
- `strings.dfy`: `Strings`, which gives `str.lower()` and the substring test `w in s`.
- `detection.dfy`: `Detection`, the list comprehension and its first-match rule.
- `table.dfy`: `Table`. Cells (`Empty` stands for NaN/NaT), the frame as a
  value, and column assignment `df[name] = values`.
- `dates.dfy`: `Dates`, the construction of the Date column.
- `aggregates.dfy`: `Aggregates`, holding `min`/`max` over timestamps and
  `sum(numeric_only=True)`.
- `analyzer.dfy`: `Analyzer`. The summary as a function of the frame that
  was read, and the class `DataFrame`, whose methods edit the frame in place
  the way the script does.
- `sample.dfy`: `Sample`, a two-row statement worked through the model.

Amounts are integers in the smallest currency unit. Timestamps are integers
(nanoseconds since the epoch). The day-first date parser is a parameter of
type `Cell -> Option<Timestamp>`. The model fixes only what the script fixes:
a NaN cell and a value the parser rejects both become NaT, and neither is an
error.

The `'Date' in df` guard on line 38 is always true, because both branches
assign `df['Date']`. `Normalized` ensures `"Date" in r.data`, so the model
always reports the range.

## Model

| member | source | states |
|---|---|---|
| Strings.ContainsIff | app.py:23 | `Strings.Contains`, the recursive model of Python's `keyword in text`, holds exactly when some window of the text equals the keyword |
| Detection.Matching | app.py:23 | the comprehension keeps only columns whose lower-cased name contains the keyword, keeps every such column, and is no longer than the column list |
| Detection.FirstMatch | app.py:28 | the index found holds a matching name and no earlier column matches; None only when no column matches |
| Detection.DetectedIsFirstMatch | app.py:23-28 | `cols[0]` of the comprehension is the column at the first matching index; the comprehension is empty exactly when no index matches |
| Detection.EarlierColumnWins | app.py:23-28 | when columns i < j both match, the detected index is at most i; with distinct names the chosen column is never column j, whatever the names' lengths or alphabetical order |
| Detection.CaseInsensitive | app.py:23 | `Detection.Matches` (the comprehension's condition `keyword in col.lower()`, built from `Strings.LowerCase` and `Strings.Contains`) holds exactly when some window of the name spells the keyword in any mix of cases |
| Detection.DateSpellingsMatch | app.py:23 | "VALUE DATE" and "Txn date" match "date"; "Amount" does not |
| Detection.MatchingAppend | app.py:42-43 | the comprehension over two concatenated column lists is the concatenation of the two comprehensions |
| Detection.DateColumnInvisibleToAmounts | app.py:27-43 | appending the column "Date" does not change which columns match "debit" or "credit" |
| Table.Assign | app.py:27 | `df[name] = values` keeps the frame well formed: the named column holds the values, every other column is unchanged, the old column order is a prefix of the new one, and at most one name is added |
| Dates.DateColumn | app.py:25-33 | the Date column has one entry per row of the frame, and each entry is a timestamp or NaT |
| Dates.Normalized | app.py:25-33 | after the assignment the frame is well formed with the same row count; it has a `Date` column holding the Date column, every other column is unchanged, "Date" is the only name that may be added, and it is appended after the existing columns unless already present |
| Dates.DateColumnFromFirstMatch | app.py:23-33 | row k of Date is row k of the first date-like column coerced by `Dates.ParseCell` (NaN and rejected values become NaT); with no such column every row is NaT (`Dates.AbsentColumn`) |
| Dates.NoDateColumnNoDates | app.py:32-33 | when no column name contains "date", every row's Date is NaT |
| Dates.ParseIsRowLocal | app.py:27-31 | changing one raw cell changes only that row of `Dates.ParseColumn`; a value the parser rejects gives NaT in its own row only |
| Aggregates.Earliest | app.py:39 | `min` skips NaT: it is NaT exactly when no timestamp is present; otherwise it is a present timestamp no later than any other |
| Aggregates.Latest | app.py:39 | `max` skips NaT: it is NaT exactly when no timestamp is present; otherwise it is a present timestamp no earlier than any other |
| Aggregates.RangeOrdered | app.py:39 | the two ends of the range are defined together, and then the minimum is not after the maximum |
| Aggregates.ColumnTotal | app.py:46 | a sum is always an amount or a failure, and it fails exactly when some cell is neither NaN nor a number (`Aggregates.IsNumeric` fails); otherwise the amount is `Aggregates.SumPresent`, the NaN-skipping sum |
| Aggregates.SumPresentAppend | app.py:46 | the sum over two halves of a column is the sum of the two halves' sums |
| Aggregates.MissingCellIsNeutral | app.py:46 | inserting or removing a NaN cell anywhere in a column leaves its total unchanged |
| Aggregates.AllMissingSumsToZero | app.py:46 | a column of NaN only sums to 0 |
| Aggregates.TotalCountsEveryNumber | app.py:46 | the total of a numeric column is the amount of any row k plus the sums of the rows before and after it |
| Analyzer.DetectTotal | app.py:42-51 | there is no total exactly when no column name contains the keyword; otherwise the total is that of the first matching column |
| Analyzer.DateIsNoAmountColumn | app.py:42-43 | the name "Date" matches neither "debit" nor "credit" |
| Analyzer.TotalsIgnoreDateColumn | app.py:27-43 | debit and credit detection on the edited frame gives the same total as on the frame as read |
| Analyzer.Summarize | app.py:22-51 | the row count is the frame's row count; the range ends are defined together and ordered, and undefined exactly when no row has a date; the debit total is the first debit column's; the credit total is the first credit column's, unless the debit sum raised |
| Analyzer.RangeBoundsAreDates | app.py:39 | both ends of a defined range are dates of the Date column, and every date of the column lies between them |
| Analyzer.NoDateColumnNoRange | app.py:32-39 | when no column name contains "date", the range is undefined |
| Analyzer.DataFrame.constructor | app.py:15-17 | the frame object holds the frame that was read |
| Analyzer.DataFrame.SetColumn | app.py:27 | the frame object's new value is the old one with the column assigned |
| Analyzer.DataFrame.NormalizeDates | app.py:22-33 | the frame object's new value is the normalized old value |
| Analyzer.DataFrame.Analyze | app.py:22-51 | the frame keeps its new Date column, and the figures returned are the summary of the frame as read |
| Sample.TwoRowsDateDetection | app.py:23 | on the sample, the date column is column 0 |
| Sample.TwoRowsDebitDetection | app.py:42 | on the sample, the debit column is column 2 |
| Sample.TwoRowsCreditDetection | app.py:43 | on the sample, the credit column is column 3 |
| Sample.TwoRowsDebit | app.py:42-47 | on the sample, the blank Debit cell is skipped and the debit total is 1200 |
| Sample.TwoRowsCredit | app.py:43-51 | on the sample, the blank Credit cell is skipped and the credit total is 50000 |
| Sample.TwoRowsSummary | app.py:22-51 | on the sample the summary is two rows, the two parsed dates as the range, debit 1200 and credit 50000 |

## Left out

- Streamlit (page set-up, title, upload widget, subheaders, `st.write`, `st.error`, lines 4-9, 19-20, 36-54): this is presentation. The model returns the figures the script writes, as a `Summary`.
- File decoding with `pd.read_csv` / `pd.read_excel` (lines 14-17): this is I/O in foreign code. The model starts from the decoded frame. It assumes the column names are distinct, because the readers rename duplicates.
- The internals of `pd.to_datetime(..., dayfirst=True)`: they are foreign code, so the parser is a parameter. Only its coercion of NaN and of refused values to NaT is modelled.
- Dates.ParseColumn: applies the parser to each cell on its own. pandas 2 without `format=` guesses one format from the first non-null value, and with `errors='coerce'` every row not in that format becomes NaT, so in pandas one row's value can change what another row becomes. The row-local property (ParseIsRowLocal) holds of the model's per-cell parser only.
- Detection.Matching: column names are strings. `pd.read_excel` can produce integer or datetime headers; then `col.lower()` on line 23 raises and the handler on lines 53-54 ends the analysis. The model does not represent such headers.
- `Strings.ToLower` handles ASCII letters only. Python's `str.lower()` also lower-cases non-ASCII letters, which this model leaves as they are.
- Aggregates.ColumnTotal: floating-point sums are replaced by exact integer sums. pandas' dtype rules behind `sum(numeric_only=True)` are approximated: a column holding any cell that is neither NaN nor a number is treated as non-numeric, and its sum raises. A column with no rows totals 0 in the model; in pandas a header-only CSV reads as object-dtype columns, whose `sum(numeric_only=True)` raises.
- The `except` handler (lines 53-54) is not modelled as output. Its effect on control flow is: when the debit sum raises, the credit lines never run (`NotReached`), and the error message itself is left out.
- The Date column is always reported to the script's range line, because the `'Date' in df` guard (line 38) always holds.
