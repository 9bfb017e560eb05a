# Personal finance ledger: the transaction file and its date-range query

This project models, in Dafny, the core of a small personal finance tracker.
The tracker records dated transactions in a CSV file (`CSV` in
`FinanceTracker.py`). It answers date-range queries over that file with
income, expense and net totals. It reads each new transaction through
retrying prompts (`data_entry.py`).

Modules, one per concern of the source:

- `Wrappers` (`wrappers.dfy`): `Option` and `Result`.
- `Dates` (`dates.dfy`): the date format `%m/%d/%Y` that both files use. `Parse` is
  `datetime.strptime` with that format. It follows the field patterns of Python's
  `_strptime`: month `1[0-2]|0[1-9]|[1-9]`, day `3[01]|[12]\d|0[1-9]|[1-9]| [1-9]`,
  year four digits. The whole string must be consumed, and the date must exist in the
  Gregorian calendar (years 1 to 9999). `Format` is `strftime` with that format, every
  field zero-padded. `Le` is the order of dates, field by field. `Ordinal` numbers the
  days from 1 January of year 1; it is the order pandas timestamps compare in.
- `DataEntry` (`data_entry.py`): `get_date`, `get_amount`, `get_category` and
  `get_description`. All of them read from one sequence of input lines; each `input()`
  call takes the next line. A validator that rejects a line calls itself again, which is
  `Retry`. Running out of lines (`EOFError`) is `None`. `datetime.today()` is the
  parameter `today`. `float()` on a line is the parameter `toFloat`, which returns
  `None` where `float()` raises.
- `FinanceTracker` (`FinanceTracker.py`):
  - The class `Csv` holds the backing file as three fields: `fileExists`, `header`
    (whether the file starts with the `COLUMNS` line) and `rows`.
  - `InitializeCsv` and `AddEntry` change those fields.
  - `GetTransactions` is a function of them. It loads the rows, coercing dates that do
    not parse to null (`Load`). It parses both bounds strictly, keeps the rows with
    `start <= date <= end` in file order (`Filter`), and sums `Amount` for the labels
    `"Credit"` and `"Debit"`.
  - `ReadEntry` and `Add` model `add`: initialize the file, read one entry through the
    four prompts, append it.

Behaviour the model keeps on purpose:

- The prompts ask for `dd-mm-yyyy`, but the format that is enforced is `%m/%d/%Y`. The
  model follows the format.
- `get_category` writes `"Income"` or `"Expense"`, but the summary sums `"Credit"` and
  `"Debit"`. Rows entered through `add` therefore count toward neither total
  (`EnteredEntryLeavesTotals`).
- Single-digit months and days, and a space-padded day, are accepted (`1/5/2024`,
  `01/ 5/2024`); a space-padded month is not (`%m` has no space alternative).
  `get_date` rewrites accepted text zero-padded (`AcceptsShortFields`, `FormatPadsFields`).
- `add_entry` on an absent file creates it without the header line. `read_csv` then
  takes the first row as the header, so the query fails with `MissingDateColumn`. The
  method `AppendWithoutInitialize` walks through this case. `add` always calls
  `initialize_csv` first, so the interactive program never reaches it.
- `read_csv` on an existing file with no line at all raises `EmptyDataError`.
  `initialize_csv` does not catch it, since it only catches `FileNotFoundError`. In the
  model `InitializeCsv` returns `ok == false`, and `Add` returns `EmptyFileError`.
- An empty filtered table gives the "no transactions" outcome: `summary == None`, with
  no totals computed. The filtered table is returned in both cases.
- The query sums the labels `Credit` and `Debit`; entry never writes either of them.
- The header line is `Processed Date,Amount,Credit or Debit,Description`.
- No daily series is produced; that belongs to `plot_transactions`.


## Model

| member | source | states |
|---|---|---|
| `Dates.DaysInMonth` | data_entry.py:15 | month lengths of the Gregorian calendar: 29 exactly for February of a leap year, 28 for February otherwise, 30 or 31 for the rest |
| `Dates.Parse` | data_entry.py:14-15 | a date that parses is a real calendar date in years 1 to 9999 |
| `Dates.Format` | data_entry.py:16 | the output is ten characters `MM/DD/YYYY`: digits, with `/` at positions 2 and 5 |
| `Dates.MonthField` | data_entry.py:15 | the `%m` field (`1` then `0`-`2`, `0` then a non-zero digit, or one non-zero digit): an accepted month is 1 to 12, written in one or two characters |
| `Dates.DayField` | data_entry.py:15 | the `%d` field (`30`, `31`, `1` or `2` then a digit, `0` or a space then a non-zero digit, or one non-zero digit): an accepted day is 1 to 31, in one or two characters, and a day written with a leading space is a single digit |
| `Dates.YearField` | data_entry.py:15 | the `%Y` field: an accepted year is 0 to 9999, written in exactly four characters |
| `Dates.FromFields` | data_entry.py:15 | the three fields together give only dates of the calendar (year 0 and days past the month's end refused) |
| `Dates.FieldsReadPaddedForms` | data_entry.py:15-16 | each field reads back the zero-padded text `strftime` writes for it, and the three together give back the date |
| `Dates.LeIffOrdinalLe` | FinanceTracker.py:41 | on valid dates, comparing field by field (Python `datetime`) agrees with comparing day numbers (pandas timestamps), in both directions |
| `Dates.ParseFormat` | data_entry.py:15-16 | formatting a valid date and parsing the text back gives the same date |
| `Dates.NormalFormIsCanonical` | data_entry.py:15-16 | the text a parsed string is normalised to parses back and re-formats to itself |
| `Dates.FullWidthIsCanonical` | data_entry.py:15-16 | a ten-character string that parses, with no space before the day, is already in normal form |
| `Dates.RejectsMonth13` | data_entry.py:14-19 | `13/05/2024` is refused |
| `Dates.RejectsMonth13Day40` | FinanceTracker.py:37 | `13/40/2024` is refused, so a stored row with that date is coerced to null |
| `Dates.RejectsDay40` | data_entry.py:14-19 | `04/40/2024` is refused |
| `Dates.RejectsLeapDayOfCommonYear` | data_entry.py:14-19 | `02/29/2023` is refused |
| `Dates.RejectsYearZero` | data_entry.py:14-19 | `01/01/0000` is refused (there is no year 0) |
| `Dates.RejectsDashes` | data_entry.py:14-19 | the `dd-mm-yyyy` text of the prompts, `15-06-2024`, is refused |
| `Dates.RejectsWithoutSlash` | data_entry.py:14-19 | any text without a `/` is refused, whatever the prompt suggests |
| `Dates.RejectsTwoDigitYear` | data_entry.py:14-19 | `06/01/24` is refused |
| `Dates.AcceptsLeapDay` | data_entry.py:14-16 | `02/29/2024` parses as 29 February 2024 |
| `Dates.AcceptsShortFields` | data_entry.py:14-16 | `1/5/2024` parses, as 5 January 2024 |
| `Dates.FormatPadsFields` | data_entry.py:16 | 5 January 2024 is written `01/05/2024` |
| `DataEntry.Retry` | data_entry.py:17-19 | no answer exactly when every line is rejected; otherwise the answer comes from the first accepted line, every earlier line was rejected, and the rest of the input is what follows that line |
| `DataEntry.ReadDate` | data_entry.py:10-16 | one attempt: accepted iff (default allowed and the line is empty) or the line parses; an empty line gives today's date, a parsed line gives its date written back; whatever is returned is in normal form |
| `DataEntry.GetDate` | data_entry.py:7-19 | no answer iff every line is rejected; the answer is in normal form and comes from the first accepted line |
| `DataEntry.GetDateDefaultsToToday` | data_entry.py:11-12 | with `allow_default`, an empty line answers today's date formatted `MM/DD/YYYY` and consumes one line |
| `DataEntry.GetDateAcceptsFirst` | data_entry.py:10-16 | a first line that `get_date` accepts is its answer, and only that line is consumed |
| `DataEntry.GetDateRejectsEmptyLine` | data_entry.py:11-19 | without `allow_default`, an empty line is skipped and the next line is read |
| `DataEntry.GetDateIdempotent` | data_entry.py:15-16 | feeding an answer of `get_date` back to it returns the identical string |
| `DataEntry.ReadAmount` | data_entry.py:23-26 | one attempt: accepted iff `float()` succeeds and the value is strictly positive; the value is returned unchanged |
| `DataEntry.GetAmount` | data_entry.py:21-29 | only ever answers an amount strictly greater than 0; no answer iff every line is non-numeric or non-positive; the answer comes from the first accepted line |
| `DataEntry.UpperChar` | data_entry.py:34 | lower-case ASCII letters become their capitals; a character upper-cases to `I` exactly when it is `I`, `i` or dotless `ı`, and to `E` exactly when it is `E` or `e` |
| `DataEntry.Upper` | data_entry.py:34 | upper-casing keeps the length and maps each character on its own |
| `DataEntry.GetAmountAcceptsFirst` | data_entry.py:21-26 | a first line that `get_amount` accepts is its answer, and only that line is consumed |
| `DataEntry.ReadCategory` | data_entry.py:34-36 | one attempt: accepted iff the upper-cased line is a key of `CATEGORIES`; the answer is the label for that key |
| `DataEntry.CategoryTokens` | data_entry.py:34-38 | the lines answered `"Income"` are exactly `I`, `i` and dotless `ı`; those answered `"Expense"` are exactly `E` and `e`; every other line is rejected |
| `DataEntry.GetCategory` | data_entry.py:32-39 | only ever answers `"Income"` or `"Expense"`, from the first accepted line; no answer iff every line is rejected |
| `DataEntry.GetCategoryAcceptsFirst` | data_entry.py:32-36 | a first line that `get_category` accepts is its answer, and only that line is consumed |
| `DataEntry.GetDescription` | data_entry.py:42-43 | answers the next line exactly as typed, the empty line included, without retrying; no answer only at the end of input |
| `FinanceTracker.LoadRow` | FinanceTracker.py:37 | a row's date is kept exactly when it parses (and is then a calendar date), null otherwise; the other columns are unchanged |
| `FinanceTracker.Load` | FinanceTracker.py:36-37 | the coercion applied to the column keeps one record per stored row |
| `FinanceTracker.InRange` | FinanceTracker.py:41 | the mask holds only for a non-null date, and only when start is not after end |
| `FinanceTracker.InRangeIffOrdinalBetween` | FinanceTracker.py:41 | on valid dates the mask holds exactly when the day number lies between those of the bounds, the way pandas timestamps compare |
| `FinanceTracker.Filter` | FinanceTracker.py:43 | the filtered table is never longer than the stored one |
| `FinanceTracker.FilterCounts` | FinanceTracker.py:41-43 | the filtered table holds each in-range record exactly as often as it is stored, and no other record; membership iff stored and in range |
| `FinanceTracker.FilterKeepsOrder` | FinanceTracker.py:43 | the filtered table is a subsequence of the stored records: file order, no re-sorting |
| `FinanceTracker.FilterConcat` | FinanceTracker.py:41-43 | filtering a concatenation is the concatenation of the filtered parts |
| `FinanceTracker.FilterNoneInRange` | FinanceTracker.py:41-43 | when no record satisfies the mask the filtered table is empty |
| `FinanceTracker.ReversedRangeIsEmpty` | FinanceTracker.py:41 | a start after the end matches nothing |
| `FinanceTracker.SingleDayRange` | FinanceTracker.py:41-43 | the range from a day to itself holds exactly the stored records of that day (both ends inclusive): each as often as it is stored, in file order |
| `FinanceTracker.NullDateNeverMatches` | FinanceTracker.py:37-41 | no record with a null date is ever returned, whatever the bounds |
| `FinanceTracker.SumAmount` | FinanceTracker.py:51-56 | the sum of `Amount` over one label is never negative when the amounts are not |
| `FinanceTracker.SumAmountConcat` | FinanceTracker.py:51-56 | the sum of `Amount` over one label splits over a concatenation |
| `FinanceTracker.SumAmountOtherLabels` | FinanceTracker.py:51-56 | records whose label differs in any way from the one summed contribute nothing |
| `FinanceTracker.Summarize` | FinanceTracker.py:45-61 | no summary exactly when the filtered table is empty; otherwise total income is the sum over `"Credit"` records, total expense the sum over `"Debit"` records, and net savings their difference |
| `FinanceTracker.LoadAppend` | FinanceTracker.py:29-37 | loading the file after one append gives the old records followed by the new row's record |
| `FinanceTracker.FilterAfterAppend` | FinanceTracker.py:22-43 | after `add_entry`, the same query returns the old result followed by the new row if its date is in range |
| `FinanceTracker.UnparsableRowIsInvisible` | FinanceTracker.py:37-41 | appending a row whose date does not parse changes no query result |
| `FinanceTracker.MalformedDateRow` | FinanceTracker.py:37-41 | a stored row dated `13/40/2024` is returned by no query |
| `FinanceTracker.CreditAndDebitAtTheBounds` | FinanceTracker.py:41-61 | a `Credit` row dated on the start bound and a `Debit` row dated on the end bound are both returned, in file order (both bounds are inclusive); income is the credit, expense the debit, net their difference |
| `FinanceTracker.CreditAndDebitRecords` | FinanceTracker.py:41-56 | two records dated on the bounds, labelled `Credit` then `Debit`, are both kept in order, with the credit as income and the debit as expense |
| `FinanceTracker.EnteredLabelsNeverCounted` | FinanceTracker.py:51-56 | records labelled `"Income"` or `"Expense"` add nothing to either total |
| `FinanceTracker.EnteredRowLeavesTotals` | FinanceTracker.py:51-56 | appending an `"Income"` or `"Expense"` row leaves both totals of every query unchanged |
| `FinanceTracker.Csv.InitializeCsv` | FinanceTracker.py:14-19 | an absent file becomes a header-only file with zero rows; an existing file keeps its header and rows; afterwards the file exists; it fails only on an existing file with no line |
| `FinanceTracker.InitializeTwice` | FinanceTracker.py:14-19 | calling `initialize_csv` twice leaves the same file, and the same result, as calling it once |
| `FinanceTracker.Csv.AddEntry` | FinanceTracker.py:22-31 | exactly one row is appended, `(date, amount, category, description)` in `COLUMNS` order; earlier rows and the header state are unchanged; the file exists afterwards |
| `FinanceTracker.Csv.GetTransactions` | FinanceTracker.py:35-63 | it fails on an absent file, on an empty or headerless file, and on a start or end bound that does not parse (start checked first); otherwise every returned record is stored and in the inclusive range, every in-range record is returned as often as stored, file order is kept, and the summary is absent iff nothing matched, else the `"Credit"` sum, the `"Debit"` sum and their difference |
| `FinanceTracker.ReadEntry` | FinanceTracker.py:67-73 | no entry exactly when one of the four prompts, each run on the lines the previous one left, runs out of input; an entry has a date in normal form, an amount above 0 and the label `"Income"` or `"Expense"`, and consumes at least four lines |
| `FinanceTracker.ReadEntryOnFourLines` | FinanceTracker.py:67-73 | when the date, amount and category prompts accept the first three lines, the entry is their three answers with the fourth line as description, and only four lines are consumed |
| `FinanceTracker.EnteredEntryHasDate` | FinanceTracker.py:67-70 | an entry read by `add` never has a null date once stored |
| `FinanceTracker.EnteredEntryLeavesTotals` | FinanceTracker.py:65-74 | storing an entry read by `add` changes neither total of any query |
| `FinanceTracker.AppendWithoutInitialize` | FinanceTracker.py:22-37 | appending to an absent file without `initialize_csv` leaves a file without its header, and every query on it then fails with `MissingDateColumn` |
| `FinanceTracker.Add` | FinanceTracker.py:65-74 | on an empty existing file it fails before reading; otherwise the file is initialized, and either the entry read is appended or, at the end of input, nothing is |

## Left out

- `plot_transactions`, the `main` menu loop, every `print`, and the `:.2f` rounding of
  the printed totals. These are display code. The daily resampled series belongs to
  the plot.
- The mechanics of pandas and the `csv` module: quoting, escaping, newlines, and how
  `read_csv` types the `Amount` and `Description` columns. For example, an empty
  description is read back as NaN. The file is its header flag plus its row sequence.
- Float arithmetic. Amounts are `real`, and the totals are exact sums.
- `DataEntry.ReadAmount`: `toFloat` takes the place of `float()`. That function can also
  return `nan` and `inf`. Since `nan <= 0` is false, `get_amount` accepts `nan`. A real
  number cannot represent it.
- `Dates.Parse`: only ASCII digits are modelled. Python's `\d` in the day and year
  patterns also matches other Unicode decimal digits.
- `Dates.Format`: `%Y` is always padded to four digits. On some platforms `strftime`
  does not pad years below 1000.
- `FinanceTracker.LoadRow`: pandas keeps dates as nanosecond timestamps. Stored dates
  outside their range (1677 to 2262 in pandas 2) are also coerced to null. The model
  coerces only text that does not parse.
- `FinanceTracker.Csv.GetTransactions`: the model treats every headerless file as lacking
  the date column. It does not model the case where the first row's date text is
  literally `Processed Date`. Structurally corrupt rows (missing or extra fields) are
  not modelled either.
- `DataEntry.Retry`: the recursion depth limit is not modelled. The source retries by
  recursing, so after about 1000 rejected lines Python raises `RecursionError`. That is
  not a `ValueError`, so it propagates out of `get_date`, `get_amount` and
  `get_category`. The model goes on reading any number of rejected lines. This also
  holds for `DataEntry.GetDate`, `DataEntry.GetAmount` and `DataEntry.GetCategory`.
- `DataEntry.Upper`: only ASCII letters and the dotless i (U+0131) are case-mapped.
  Other non-ASCII case mappings are not modelled.
- The unused `global net_savings`. Concurrency: there is none.
- The prompt texts. They are not modelled, since no behaviour depends on them.
