/**
 * The transaction ledger: the `CSV` class that owns the backing file, its
 * date-range query with income/expense totals, and `add`, which reads one
 * transaction from the prompts and appends it.
 *
 * The file is state: whether it exists, whether it starts with the
 * `COLUMNS` header line, and its data rows in file order.
 */
module FinanceTracker {
  import opened Wrappers
  import opened Dates
  import opened DataEntry

  /** `COLUMNS`: the header line, in the order a row's fields are written. */
  const Columns: seq<string> := ["Processed Date", "Amount", "Credit or Debit", "Description"]

  /** The two labels the query sums by. */
  const CreditLabel: string := "Credit"
  const DebitLabel: string := "Debit"

  /** One stored row, its fields in `Columns` order. */
  datatype Row = Row(date: string, amount: real, category: string, description: string)

  /**
   * A row once its date column has been converted; `None` is the null date
   * (`NaT`) that `errors='coerce'` puts where the text does not parse.
   */
  datatype Record = Record(date: Option<Date>, amount: real, category: string, description: string)

  /** What `get_transactions` raises before it gets to filter. */
  datatype QueryError =
    | FileNotFound       // `read_csv` on an absent file
    | EmptyFile          // `read_csv` on a file with no line at all
    | MissingDateColumn  // a file without the header: its first row is read as the header
    | StartDateInvalid   // `strptime` on the start bound
    | EndDateInvalid     // `strptime` on the end bound

  /** The printed summary of a non-empty result. */
  datatype Summary = Summary(totalIncome: real, totalExpense: real, netSavings: real)

  /** The returned table, and the summary, `None` when nothing matched. */
  datatype Transactions = Transactions(filtered: seq<Record>, summary: Option<Summary>)

  // ---------------------------------------------------------------------
  // The query, over a read-only snapshot of the rows
  // ---------------------------------------------------------------------

  /**
   * `pd.to_datetime(df["Processed Date"], format=..., errors="coerce")` on one
   * row: the date is kept when it parses and becomes null otherwise; the
   * other columns are untouched.
   */
  function LoadRow(row: Row): (rec: Record)
    ensures rec.date.Some? <==> Parse(row.date).Some?
    ensures rec.date.Some? ==> ValidDate(rec.date.value)
    ensures rec.amount == row.amount && rec.category == row.category && rec.description == row.description
  {
    Record(Parse(row.date), row.amount, row.category, row.description)
  }

  /** The same coercion on the whole column: one record per row, in file order. */
  function Load(rows: seq<Row>): (recs: seq<Record>)
    ensures |recs| == |rows|
  {
    seq(|rows|, i requires 0 <= i < |rows| => LoadRow(rows[i]))
  }

  /**
   * The mask `(df["Processed Date"] >= start) & (df["Processed Date"] <= end)`;
   * a null date compares false.
   */
  predicate InRange(rec: Record, start: Date, end: Date)
    ensures InRange(rec, start, end) ==> rec.date.Some? && Le(start, end)
  {
    rec.date.Some? && Le(start, rec.date.value) && Le(rec.date.value, end)
  }

  /**
   * On valid dates the mask is the comparison of day numbers, which is how
   * pandas timestamps compare.
   */
  lemma InRangeIffOrdinalBetween(rec: Record, start: Date, end: Date)
    requires rec.date.Some? && ValidDate(rec.date.value) && ValidDate(start) && ValidDate(end)
    ensures InRange(rec, start, end) <==> Ordinal(start) <= Ordinal(rec.date.value) <= Ordinal(end)
  {
    LeIffOrdinalLe(start, rec.date.value);
    LeIffOrdinalLe(rec.date.value, end);
  }

  /** `df.loc[mask]`: the records in range, in file order. */
  function Filter(recs: seq<Record>, start: Date, end: Date): (kept: seq<Record>)
    ensures |kept| <= |recs|
  {
    if recs == [] then []
    else (if InRange(recs[0], start, end) then [recs[0]] else []) + Filter(recs[1..], start, end)
  }

  /**
   * The filtered table holds each record in range as often as it is stored,
   * and nothing else.
   */
  lemma {:induction false} FilterCounts(recs: seq<Record>, start: Date, end: Date)
    ensures forall x :: multiset(Filter(recs, start, end))[x] == if InRange(x, start, end) then multiset(recs)[x] else 0
    ensures forall x :: x in Filter(recs, start, end) <==> x in recs && InRange(x, start, end)
  {
    if recs != [] {
      FilterCounts(recs[1..], start, end);
      assert recs == [recs[0]] + recs[1..];
    }
  }

  /** `xs` can be obtained from `ys` by deleting elements. */
  ghost predicate IsSubsequence<T>(xs: seq<T>, ys: seq<T>)
    decreases |ys|
  {
    if xs == [] then true
    else if ys == [] then false
    else (xs[0] == ys[0] && IsSubsequence(xs[1..], ys[1..])) || IsSubsequence(xs, ys[1..])
  }

  /** The filtered table keeps file order: nothing is re-sorted. */
  lemma {:induction false} FilterKeepsOrder(recs: seq<Record>, start: Date, end: Date)
    ensures IsSubsequence(Filter(recs, start, end), recs)
  {
    if recs != [] {
      var kept, rest := Filter(recs, start, end), Filter(recs[1..], start, end);
      FilterKeepsOrder(recs[1..], start, end);
      if InRange(recs[0], start, end) {
        assert kept[0] == recs[0] && kept[1..] == rest;
      } else {
        assert kept == rest;
      }
    }
  }

  /** Filtering a concatenation filters each part. */
  lemma {:induction false} FilterConcat(a: seq<Record>, b: seq<Record>, start: Date, end: Date)
    ensures Filter(a + b, start, end) == Filter(a, start, end) + Filter(b, start, end)
  {
    if a != [] {
      var c := a + b;
      assert c[0] == a[0] && c[1..] == a[1..] + b;
      FilterConcat(a[1..], b, start, end);
    } else {
      assert a + b == b;
    }
  }

  /** When no record is in range the filtered table is empty. */
  lemma {:induction false} FilterNoneInRange(recs: seq<Record>, start: Date, end: Date)
    requires forall i :: 0 <= i < |recs| ==> !InRange(recs[i], start, end)
    ensures Filter(recs, start, end) == []
  {
    if recs != [] {
      FilterNoneInRange(recs[1..], start, end);
    }
  }

  /** A range whose start is after its end matches nothing. */
  lemma ReversedRangeIsEmpty(recs: seq<Record>, start: Date, end: Date)
    requires !Le(start, end)
    ensures Filter(recs, start, end) == []
  {
    FilterNoneInRange(recs, start, end);
  }

  /**
   * A one-day range returns exactly the records on that day: each as often
   * as it is stored, in file order.
   */
  lemma SingleDayRange(recs: seq<Record>, day: Date)
    ensures forall x :: x in Filter(recs, day, day) <==> x in recs && x.date == Some(day)
    ensures forall x :: multiset(Filter(recs, day, day))[x] == if x.date == Some(day) then multiset(recs)[x] else 0
    ensures IsSubsequence(Filter(recs, day, day), recs)
  {
    FilterCounts(recs, day, day);
    FilterKeepsOrder(recs, day, day);
  }

  /** A record whose date is null is outside every range. */
  lemma NullDateNeverMatches(recs: seq<Record>, start: Date, end: Date)
    ensures forall x :: x in Filter(recs, start, end) ==> x.date.Some?
  {
    FilterCounts(recs, start, end);
  }

  /**
   * `df[df["Credit or Debit"] == category]["Amount"].sum()`: the sum of
   * `Amount` over the records labelled exactly `category`; amounts entered
   * through `get_amount` are positive, so such a sum is never negative.
   */
  function SumAmount(recs: seq<Record>, category: string): (total: real)
    ensures (forall i :: 0 <= i < |recs| ==> recs[i].amount >= 0.0) ==> total >= 0.0
  {
    if recs == [] then 0.0
    else (if recs[0].category == category then recs[0].amount else 0.0) + SumAmount(recs[1..], category)
  }

  /** Sums over a concatenation add up. */
  lemma {:induction false} SumAmountConcat(a: seq<Record>, b: seq<Record>, category: string)
    ensures SumAmount(a + b, category) == SumAmount(a, category) + SumAmount(b, category)
  {
    if a != [] {
      var c := a + b;
      assert c[0] == a[0] && c[1..] == a[1..] + b;
      SumAmountConcat(a[1..], b, category);
      var head := if a[0].category == category then a[0].amount else 0.0;
      assert SumAmount(c, category) == head + SumAmount(a[1..] + b, category);
      assert SumAmount(a, category) == head + SumAmount(a[1..], category);
    } else {
      assert a + b == b;
    }
  }

  /** Records with any other category contribute nothing. */
  lemma {:induction false} SumAmountOtherLabels(recs: seq<Record>, category: string)
    requires forall i :: 0 <= i < |recs| ==> recs[i].category != category
    ensures SumAmount(recs, category) == 0.0
  {
    if recs != [] {
      SumAmountOtherLabels(recs[1..], category);
    }
  }

  /**
   * The summary branch of `get_transactions`: no summary for an empty
   * table; otherwise income over `"Credit"` rows, expense over `"Debit"`
   * rows, net the difference.
   */
  function Summarize(filtered: seq<Record>): (r: Option<Summary>)
    ensures r.None? <==> filtered == []
    ensures r.Some? ==> r.value.totalIncome == SumAmount(filtered, CreditLabel)
    ensures r.Some? ==> r.value.totalExpense == SumAmount(filtered, DebitLabel)
    ensures r.Some? ==> r.value.netSavings == r.value.totalIncome - r.value.totalExpense
  {
    if filtered == [] then None
    else
      var income := SumAmount(filtered, CreditLabel);
      var expense := SumAmount(filtered, DebitLabel);
      Some(Summary(income, expense, income - expense))
  }

  /** Appending a row and loading gives the old records followed by the new one. */
  lemma LoadAppend(rows: seq<Row>, row: Row)
    ensures Load(rows + [row]) == Load(rows) + [LoadRow(row)]
  {
  }

  /** After one more row, the same query returns the old result plus that row if it is in range. */
  lemma FilterAfterAppend(rows: seq<Row>, row: Row, start: Date, end: Date)
    ensures Filter(Load(rows + [row]), start, end)
         == Filter(Load(rows), start, end) + (if InRange(LoadRow(row), start, end) then [LoadRow(row)] else [])
  {
    LoadAppend(rows, row);
    FilterConcat(Load(rows), [LoadRow(row)], start, end);
  }

  /** A row whose date does not parse changes no query result. */
  lemma UnparsableRowIsInvisible(rows: seq<Row>, row: Row)
    requires Parse(row.date).None?
    ensures forall start, end :: Filter(Load(rows + [row]), start, end) == Filter(Load(rows), start, end)
  {
    forall start, end
      ensures Filter(Load(rows + [row]), start, end) == Filter(Load(rows), start, end)
    {
      FilterAfterAppend(rows, row, start, end);
    }
  }

  /**
   * The labels that `add` writes, `"Income"` and `"Expense"`, are not the
   * labels the summary sums by, so such rows count toward neither total.
   */
  lemma EnteredLabelsNeverCounted(recs: seq<Record>)
    requires forall i :: 0 <= i < |recs| ==> recs[i].category == "Income" || recs[i].category == "Expense"
    ensures SumAmount(recs, CreditLabel) == 0.0 && SumAmount(recs, DebitLabel) == 0.0
  {
    SumAmountOtherLabels(recs, CreditLabel);
    SumAmountOtherLabels(recs, DebitLabel);
  }

  /** Appending an `"Income"` or `"Expense"` row leaves both totals of every query as they were. */
  lemma EnteredRowLeavesTotals(rows: seq<Row>, row: Row, start: Date, end: Date)
    requires row.category == "Income" || row.category == "Expense"
    ensures SumAmount(Filter(Load(rows + [row]), start, end), CreditLabel) == SumAmount(Filter(Load(rows), start, end), CreditLabel)
    ensures SumAmount(Filter(Load(rows + [row]), start, end), DebitLabel) == SumAmount(Filter(Load(rows), start, end), DebitLabel)
  {
    FilterAfterAppend(rows, row, start, end);
    var tail := if InRange(LoadRow(row), start, end) then [LoadRow(row)] else [];
    SumAmountConcat(Filter(Load(rows), start, end), tail, CreditLabel);
    SumAmountConcat(Filter(Load(rows), start, end), tail, DebitLabel);
    EnteredLabelsNeverCounted(tail);
  }

  /** The record-level half of `CreditAndDebitAtTheBounds`, once the dates are parsed. */
  lemma CreditAndDebitRecords(c: Record, d: Record, start: Date, end: Date)
    requires c.date == Some(start) && d.date == Some(end) && Le(start, end)
    requires c.category == CreditLabel && d.category == DebitLabel
    ensures Filter([c, d], start, end) == [c, d]
    ensures Summarize([c, d]) == Some(Summary(c.amount, d.amount, c.amount - d.amount))
  {
    assert [c, d][1..] == [d] && [d][1..] == [];
    assert InRange(c, start, end) && InRange(d, start, end);
    assert Filter([d], start, end) == [d];
    assert SumAmount([d], CreditLabel) == 0.0 && SumAmount([d], DebitLabel) == d.amount;
  }

  /**
   * A `"Credit"` row dated on the start bound and a `"Debit"` row dated on
   * the end bound are both returned, in file order; income is the credit,
   * expense the debit, net their difference.
   */
  lemma CreditAndDebitAtTheBounds(credit: Row, debit: Row, start: Date, end: Date)
    requires Parse(credit.date) == Some(start) && Parse(debit.date) == Some(end) && Le(start, end)
    requires credit.category == CreditLabel && debit.category == DebitLabel
    ensures Filter(Load([credit, debit]), start, end) == Load([credit, debit])
    ensures Summarize(Load([credit, debit])) == Some(Summary(credit.amount, debit.amount, credit.amount - debit.amount))
  {
    var c, d := LoadRow(credit), LoadRow(debit);
    assert c.date == Some(start) && d.date == Some(end);
    var recs := Load([credit, debit]);
    assert |recs| == 2 && recs[0] == c && recs[1] == d;
    assert recs == [c, d];
    CreditAndDebitRecords(c, d, start, end);
  }

  /** A row dated `13/40/2024` is kept in the file but returned by no query. */
  lemma MalformedDateRow(rows: seq<Row>, row: Row)
    requires row.date == "13/40/2024"
    ensures forall start, end :: Filter(Load(rows + [row]), start, end) == Filter(Load(rows), start, end)
  {
    RejectsMonth13Day40(row.date);
    UnparsableRowIsInvisible(rows, row);
  }

  // ---------------------------------------------------------------------
  // The backing file
  // ---------------------------------------------------------------------

  class Csv {
    var fileExists: bool
    var header: bool
    var rows: seq<Row>

    /** An absent file has neither a header nor rows. */
    ghost predicate Valid()
      reads this
    {
      !fileExists ==> !header && rows == []
    }

    /** The file as found on disk. */
    constructor (fileExists: bool, header: bool, rows: seq<Row>)
      requires !fileExists ==> !header && rows == []
      ensures Valid()
      ensures this.fileExists == fileExists && this.header == header && this.rows == rows
    {
      this.fileExists := fileExists;
      this.header := header;
      this.rows := rows;
    }

    /**
     * `initialize_csv`: creates a header-only file when there is none and
     * leaves an existing file untouched. Probing an existing file that has
     * no line at all raises (`ok` is false) and changes nothing.
     */
    method InitializeCsv() returns (ok: bool)
      requires Valid()
      modifies this
      ensures Valid() && fileExists
      ensures ok <==> !old(fileExists) || old(header) || old(rows) != []
      ensures old(fileExists) ==> header == old(header) && rows == old(rows)
      ensures !old(fileExists) ==> header && rows == []
    {
      if !fileExists {
        fileExists, header, rows := true, true, [];
        ok := true;
      } else {
        ok := header || rows != [];
      }
    }

    /**
     * `add_entry`: appends exactly one row at the end. Appending creates an
     * absent file, but without the header line.
     */
    method AddEntry(date: string, amount: real, category: string, description: string)
      requires Valid()
      modifies this
      ensures Valid() && fileExists
      ensures header == old(header)
      ensures rows == old(rows) + [Row(date, amount, category, description)]
    {
      fileExists := true;
      rows := rows + [Row(date, amount, category, description)];
    }

    /**
     * `get_transactions(start_date, end_date)`: the rows whose parsed date
     * lies in the inclusive range, in file order, with the summary.
     */
    function GetTransactions(startDate: string, endDate: string): (r: Result<Transactions, QueryError>)
      reads this
      ensures !fileExists ==> r == Failure(FileNotFound)
      ensures fileExists && !header ==> r == Failure(if rows == [] then EmptyFile else MissingDateColumn)
      ensures fileExists && header && Parse(startDate).None? ==> r == Failure(StartDateInvalid)
      ensures fileExists && header && Parse(startDate).Some? && Parse(endDate).None? ==> r == Failure(EndDateInvalid)
      ensures r.Success? <==> fileExists && header && Parse(startDate).Some? && Parse(endDate).Some?
      ensures r.Success? ==>
        var start, end, filtered := Parse(startDate).value, Parse(endDate).value, r.value.filtered;
        && (forall x :: x in filtered <==> x in Load(rows) && InRange(x, start, end))
        && (forall x :: multiset(filtered)[x] == if InRange(x, start, end) then multiset(Load(rows))[x] else 0)
        && IsSubsequence(filtered, Load(rows))
        && (r.value.summary.None? <==> filtered == [])
        && (r.value.summary.Some? ==>
              r.value.summary.value == Summary(SumAmount(filtered, CreditLabel), SumAmount(filtered, DebitLabel),
                                             SumAmount(filtered, CreditLabel) - SumAmount(filtered, DebitLabel)))
    {
      if !fileExists then Failure(FileNotFound)
      else if !header then Failure(if rows == [] then EmptyFile else MissingDateColumn)
      else
        match Parse(startDate)
        case None => Failure(StartDateInvalid)
        case Some(start) =>
          match Parse(endDate)
          case None => Failure(EndDateInvalid)
          case Some(end) =>
            var filtered := Filter(Load(rows), start, end);
            FilterKeepsOrder(Load(rows), start, end);
            FilterCounts(Load(rows), start, end);
            Success(Transactions(filtered, Summarize(filtered)))
    }
  }

  /** Walking `initialize_csv` twice leaves the file as walking it once does. */
  method InitializeTwice(csv: Csv) returns (first: bool, second: bool)
    requires csv.Valid()
    modifies csv
    ensures second == first
    ensures csv.fileExists
    ensures old(csv.fileExists) ==> csv.header == old(csv.header) && csv.rows == old(csv.rows)
    ensures !old(csv.fileExists) ==> csv.header && csv.rows == []
  {
    first := csv.InitializeCsv();
    ghost var header, rows := csv.header, csv.rows;
    second := csv.InitializeCsv();
    assert csv.header == header && csv.rows == rows;
  }

  // ---------------------------------------------------------------------
  // add
  // ---------------------------------------------------------------------

  /** How a call of `add` ends. */
  datatype AddOutcome =
    | Added(rest: seq<string>)  // one row appended; the unread input lines
    | InputExhausted            // a prompt hit the end of input
    | EmptyFileError            // `initialize_csv` raised on an empty file

  /**
   * The last three prompts of `add`, once the date has been answered: the
   * amount, the category and the description.
   */
  function ReadAfterDate(date: string, lines: seq<string>, toFloat: string -> Option<real>): (r: Option<Prompted<Row>>)
    ensures r.None? <==>
      var amount := GetAmount(lines, toFloat);
      || amount.None?
      || var category := GetCategory(amount.value.rest);
         || category.None?
         || GetDescription(category.value.rest).None?
    ensures r.Some? ==> r.value.value.date == date && r.value.value.amount > 0.0
    ensures r.Some? ==> r.value.value.category == "Income" || r.value.value.category == "Expense"
    ensures r.Some? ==> |r.value.rest| + 3 <= |lines|
  {
    match GetAmount(lines, toFloat)
    case None => None
    case Some(amount) =>
      match GetCategory(amount.rest)
      case None => None
      case Some(category) =>
        match GetDescription(category.rest)
        case None => None
        case Some(description) =>
          Some(Prompted(Row(date, amount.value, category.value, description.value), description.rest))
  }

  /**
   * The four prompts of `add`, in order, on one stream of input lines: the
   * date (enter for today), the amount, the category and the description.
   */
  function ReadEntry(lines: seq<string>, today: Date, toFloat: string -> Option<real>): (r: Option<Prompted<Row>>)
    requires ValidDate(today)
    ensures r.None? <==>
      var date := GetDate(lines, true, today);
      || date.None?
      || var amount := GetAmount(date.value.rest, toFloat);
         || amount.None?
         || var category := GetCategory(amount.value.rest);
            || category.None?
            || GetDescription(category.value.rest).None?
    ensures r.Some? ==> IsCanonical(r.value.value.date)
    ensures r.Some? ==> r.value.value.amount > 0.0
    ensures r.Some? ==> r.value.value.category == "Income" || r.value.value.category == "Expense"
    ensures r.Some? ==> |r.value.rest| + 4 <= |lines|
  {
    match GetDate(lines, true, today)
    case None => None
    case Some(date) => ReadAfterDate(date.value, date.rest, toFloat)
  }

  /**
   * When the first three lines are accepted by the date, amount and
   * category prompts, the entry is those three answers and the fourth line
   * as the description; the lines after it are left unread.
   */
  lemma ReadEntryOnFourLines(lines: seq<string>, today: Date, toFloat: string -> Option<real>)
    requires ValidDate(today) && |lines| >= 4
    requires ReadDate(lines[0], true, today).Some? && ReadAmount(lines[1], toFloat).Some? && ReadCategory(lines[2]).Some?
    ensures ReadEntry(lines, today, toFloat)
      == Some(Prompted(Row(ReadDate(lines[0], true, today).value, ReadAmount(lines[1], toFloat).value,
                           ReadCategory(lines[2]).value, lines[3]), lines[4..]))
  {
    var afterDate, afterAmount, afterCategory := lines[1..], lines[2..], lines[3..];
    GetDateAcceptsFirst(lines, true, today);
    assert afterDate[0] == lines[1] && afterDate[1..] == afterAmount;
    GetAmountAcceptsFirst(afterDate, toFloat);
    assert afterAmount[0] == lines[2] && afterAmount[1..] == afterCategory;
    GetCategoryAcceptsFirst(afterAmount);
    assert afterCategory[0] == lines[3] && afterCategory[1..] == lines[4..];
    var date := GetDate(lines, true, today).value;
    var amount := GetAmount(afterDate, toFloat).value;
    var category := GetCategory(afterAmount).value;
    var description := GetDescription(afterCategory).value;
    assert date.rest == afterDate && amount.rest == afterAmount && category.rest == afterCategory;
    assert description == Prompted(lines[3], lines[4..]);
  }

  /** No entry read by `add` ever changes the income or expense total of a query. */
  lemma EnteredEntryLeavesTotals(rows: seq<Row>, lines: seq<string>, today: Date, toFloat: string -> Option<real>, start: Date, end: Date)
    requires ValidDate(today) && ReadEntry(lines, today, toFloat).Some?
    ensures var row := ReadEntry(lines, today, toFloat).value.value;
      && SumAmount(Filter(Load(rows + [row]), start, end), CreditLabel) == SumAmount(Filter(Load(rows), start, end), CreditLabel)
      && SumAmount(Filter(Load(rows + [row]), start, end), DebitLabel) == SumAmount(Filter(Load(rows), start, end), DebitLabel)
  {
    EnteredRowLeavesTotals(rows, ReadEntry(lines, today, toFloat).value.value, start, end);
  }

  /** An entry read by `add` has a date that parses, so it is visible to the queries that cover it. */
  lemma EnteredEntryHasDate(lines: seq<string>, today: Date, toFloat: string -> Option<real>)
    requires ValidDate(today) && ReadEntry(lines, today, toFloat).Some?
    ensures LoadRow(ReadEntry(lines, today, toFloat).value.value).date.Some?
  {
  }

  /** `add`: initialize the file, read one entry, append it. */
  method Add(csv: Csv, lines: seq<string>, today: Date, toFloat: string -> Option<real>) returns (outcome: AddOutcome)
    requires csv.Valid() && ValidDate(today)
    modifies csv
    ensures csv.Valid()
    ensures outcome == EmptyFileError <==> old(csv.fileExists) && !old(csv.header) && old(csv.rows) == []
    ensures outcome == EmptyFileError ==> csv.fileExists && !csv.header && csv.rows == []
    ensures outcome != EmptyFileError ==>
      && csv.fileExists
      && csv.header == (!old(csv.fileExists) || old(csv.header))
      && match ReadEntry(lines, today, toFloat)
         case None => outcome == InputExhausted && csv.rows == old(csv.rows)
         case Some(entry) => outcome == Added(entry.rest) && csv.rows == old(csv.rows) + [entry.value]
  {
    var ok := csv.InitializeCsv();
    if !ok {
      return EmptyFileError;
    }
    match ReadEntry(lines, today, toFloat)
    case None =>
      outcome := InputExhausted;
    case Some(entry) =>
      csv.AddEntry(entry.value.date, entry.value.amount, entry.value.category, entry.value.description);
      outcome := Added(entry.rest);
  }

  /**
   * `add_entry` on an absent file, without `initialize_csv` first: the file
   * is created without its header, so the query cannot find its date column.
   */
  method AppendWithoutInitialize(row: Row, startDate: string, endDate: string) returns (r: Result<Transactions, QueryError>)
    ensures r == Failure(MissingDateColumn)
  {
    var csv := new Csv(false, false, []);
    csv.AddEntry(row.date, row.amount, row.category, row.description);
    r := csv.GetTransactions(startDate, endDate);
  }
}
