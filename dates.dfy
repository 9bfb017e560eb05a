/**
 * Calendar dates in the one textual format both source files use,
 * `%m/%d/%Y`: parsing as Python's `datetime.strptime` does it, formatting
 * as `strftime` does it, and the order in which dates compare.
 */
module Dates {
  import opened Wrappers

  /** A calendar day; the time of day is always midnight in the source. */
  datatype Date = Date(year: int, month: int, day: int)

  /** The year range of Python's `datetime` (`MINYEAR`, `MAXYEAR`). */
  const MinYear: int := 1
  const MaxYear: int := 9999

  /** Gregorian leap years. */
  predicate IsLeapYear(y: int) {
    y % 4 == 0 && (y % 100 != 0 || y % 400 == 0)
  }

  function DaysInMonth(y: int, m: int): (n: int)
    requires 1 <= m <= 12
    ensures 28 <= n <= 31
    ensures n == 29 <==> m == 2 && IsLeapYear(y)
    ensures n == 28 <==> m == 2 && !IsLeapYear(y)
  {
    if m == 2 then (if IsLeapYear(y) then 29 else 28)
    else if m == 4 || m == 6 || m == 9 || m == 11 then 30
    else 31
  }

  /** The dates a `datetime` can hold. */
  predicate ValidDate(d: Date) {
    MinYear <= d.year <= MaxYear && 1 <= d.month <= 12 && 1 <= d.day <= DaysInMonth(d.year, d.month)
  }

  /** `a <= b` as `datetime` compares dates: by year, then month, then day. */
  predicate Le(a: Date, b: Date) {
    a.year < b.year || (a.year == b.year && (a.month < b.month || (a.month == b.month && a.day <= b.day)))
  }

  // ---------------------------------------------------------------------
  // Day numbers: the order pandas uses once dates are timestamps
  // ---------------------------------------------------------------------

  function DaysInYear(y: int): int {
    if IsLeapYear(y) then 366 else 365
  }

  function DaysBeforeYear(y: int): (n: int)
    ensures n >= 0
  {
    if y <= 1 then 0 else DaysBeforeYear(y - 1) + DaysInYear(y - 1)
  }

  function DaysBeforeMonth(y: int, m: int): (n: int)
    requires 1 <= m <= 12
    ensures n >= 0
  {
    if m == 1 then 0 else DaysBeforeMonth(y, m - 1) + DaysInMonth(y, m - 1)
  }

  /** Days counted from 1 January of year 1, which is day 1 (`date.toordinal`). */
  function Ordinal(d: Date): int
    requires ValidDate(d)
  {
    DaysBeforeYear(d.year) + DaysBeforeMonth(d.year, d.month) + d.day
  }

  /** A month ends no later than the next one starts. */
  lemma {:induction false} MonthsBefore(y: int, m1: int, m2: int)
    requires 1 <= m1 < m2 <= 12
    ensures DaysBeforeMonth(y, m1) + DaysInMonth(y, m1) <= DaysBeforeMonth(y, m2)
    decreases m2
  {
    if m1 < m2 - 1 {
      MonthsBefore(y, m1, m2 - 1);
    }
  }

  /** December ends the year. */
  lemma YearEndsWithDecember(y: int)
    ensures DaysBeforeMonth(y, 12) + DaysInMonth(y, 12) == DaysInYear(y)
  {
    assert DaysBeforeMonth(y, 2) == 31;
    assert DaysBeforeMonth(y, 3) == 31 + DaysInMonth(y, 2);
    assert DaysBeforeMonth(y, 4) == 62 + DaysInMonth(y, 2);
    assert DaysBeforeMonth(y, 5) == 92 + DaysInMonth(y, 2);
    assert DaysBeforeMonth(y, 6) == 123 + DaysInMonth(y, 2);
    assert DaysBeforeMonth(y, 7) == 153 + DaysInMonth(y, 2);
    assert DaysBeforeMonth(y, 8) == 184 + DaysInMonth(y, 2);
    assert DaysBeforeMonth(y, 9) == 215 + DaysInMonth(y, 2);
    assert DaysBeforeMonth(y, 10) == 245 + DaysInMonth(y, 2);
    assert DaysBeforeMonth(y, 11) == 276 + DaysInMonth(y, 2);
    assert DaysBeforeMonth(y, 12) == 306 + DaysInMonth(y, 2);
  }

  /** Every month of a year ends within that year. */
  lemma MonthWithinYear(y: int, m: int)
    requires 1 <= m <= 12
    ensures DaysBeforeMonth(y, m) + DaysInMonth(y, m) <= DaysInYear(y)
  {
    YearEndsWithDecember(y);
    if m < 12 {
      MonthsBefore(y, m, 12);
    }
  }

  /** A year ends no later than a later year starts. */
  lemma {:induction false} YearsBefore(y1: int, y2: int)
    requires 1 <= y1 < y2
    ensures DaysBeforeYear(y1) + DaysInYear(y1) <= DaysBeforeYear(y2)
    decreases y2
  {
    if y1 < y2 - 1 {
      YearsBefore(y1, y2 - 1);
    }
  }

  /**
   * Comparing dates field by field (Python's `datetime`) and comparing
   * their day numbers (pandas timestamps) agree on every pair of dates.
   */
  lemma LeIffOrdinalLe(a: Date, b: Date)
    requires ValidDate(a) && ValidDate(b)
    ensures Le(a, b) <==> Ordinal(a) <= Ordinal(b)
  {
    MonthWithinYear(a.year, a.month);
    MonthWithinYear(b.year, b.month);
    if a.year < b.year {
      YearsBefore(a.year, b.year);
    } else if b.year < a.year {
      YearsBefore(b.year, a.year);
    } else if a.month < b.month {
      MonthsBefore(a.year, a.month, b.month);
    } else if b.month < a.month {
      MonthsBefore(a.year, b.month, a.month);
    }
  }

  // ---------------------------------------------------------------------
  // strptime(s, "%m/%d/%Y")
  // ---------------------------------------------------------------------

  predicate IsDigit(c: char) {
    '0' <= c <= '9'
  }

  function DigitValue(c: char): (n: int)
    requires IsDigit(c)
    ensures 0 <= n <= 9
  {
    c as int - '0' as int
  }

  /** The position of the first `c` in `s`, or `|s|` when `s` has none. */
  function IndexOf(s: string, c: char): (i: nat)
    ensures i <= |s|
    ensures i < |s| ==> s[i] == c
    ensures forall j :: 0 <= j < i ==> s[j] != c
  {
    if s == [] then 0
    else if s[0] == c then 0
    else 1 + IndexOf(s[1..], c)
  }

  /** The `%m` field: the pattern `1[0-2]|0[1-9]|[1-9]`. */
  function MonthField(t: string): (r: Option<int>)
    ensures r.Some? ==> 1 <= r.value <= 12 && 1 <= |t| <= 2
  {
    if |t| == 1 && '1' <= t[0] <= '9' then Some(DigitValue(t[0]))
    else if |t| == 2 && ((t[0] == '0' && '1' <= t[1] <= '9') || (t[0] == '1' && '0' <= t[1] <= '2'))
    then Some(10 * DigitValue(t[0]) + DigitValue(t[1]))
    else None
  }

  /** The `%d` field: the pattern `3[01]|[12]\d|0[1-9]|[1-9]| [1-9]`. */
  function DayField(t: string): (r: Option<int>)
    ensures r.Some? ==> 1 <= r.value <= 31 && 1 <= |t| <= 2
    ensures r.Some? && |t| == 2 && t[0] == ' ' ==> r.value <= 9
  {
    if |t| == 1 && '1' <= t[0] <= '9' then Some(DigitValue(t[0]))
    else if |t| == 2 && t[0] == ' ' && '1' <= t[1] <= '9' then Some(DigitValue(t[1]))
    else if |t| == 2 && ((t[0] == '0' && '1' <= t[1] <= '9')
                         || ((t[0] == '1' || t[0] == '2') && IsDigit(t[1]))
                         || (t[0] == '3' && (t[1] == '0' || t[1] == '1')))
    then Some(10 * DigitValue(t[0]) + DigitValue(t[1]))
    else None
  }

  /** The `%Y` field: exactly four digits. */
  function YearField(t: string): (r: Option<int>)
    ensures r.Some? ==> 0 <= r.value <= 9999 && |t| == 4
  {
    if |t| == 4 && IsDigit(t[0]) && IsDigit(t[1]) && IsDigit(t[2]) && IsDigit(t[3])
    then Some(1000 * DigitValue(t[0]) + 100 * DigitValue(t[1]) + 10 * DigitValue(t[2]) + DigitValue(t[3]))
    else None
  }

  /**
   * `datetime.strptime(s, "%m/%d/%Y")`; `None` stands for the `ValueError`.
   * None of the three field patterns matches a `/`, and the whole string must
   * be consumed, so the month is the text before the first `/`, the day the
   * text between the first and second, and the year everything after it.
   * A date outside the calendar (month 2, day 30) or in year 0 is refused.
   */
  function Parse(s: string): (r: Option<Date>)
    ensures r.Some? ==> ValidDate(r.value)
  {
    var i := IndexOf(s, '/');
    if i == |s| then None
    else
      var tail := s[i + 1..];
      var j := IndexOf(tail, '/');
      if j == |tail| then None
      else FromFields(s[..i], tail[..j], tail[j + 1..])
  }

  /** The date the three field texts denote, if they match their patterns and the calendar. */
  function FromFields(month: string, day: string, year: string): (r: Option<Date>)
    ensures r.Some? ==> ValidDate(r.value)
  {
    var m := MonthField(month);
    var d := DayField(day);
    var y := YearField(year);
    if m.Some? && d.Some? && y.Some? && ValidDate(Date(y.value, m.value, d.value))
    then Some(Date(y.value, m.value, d.value))
    else None
  }

  // ---------------------------------------------------------------------
  // strftime("%m/%d/%Y")
  // ---------------------------------------------------------------------

  function DigitChar(n: int): (c: char)
    requires 0 <= n <= 9
    ensures IsDigit(c) && DigitValue(c) == n
  {
    ('0' as int + n) as char
  }

  /** `n` zero-padded to two digits. */
  function Pad2(n: int): (s: string)
    requires 0 <= n <= 99
    ensures |s| == 2 && IsDigit(s[0]) && IsDigit(s[1])
    ensures 10 * DigitValue(s[0]) + DigitValue(s[1]) == n
  {
    [DigitChar(n / 10), DigitChar(n % 10)]
  }

  /** `n` zero-padded to four digits. */
  function Pad4(n: int): (s: string)
    requires 0 <= n <= 9999
    ensures |s| == 4 && IsDigit(s[0]) && IsDigit(s[1]) && IsDigit(s[2]) && IsDigit(s[3])
    ensures 1000 * DigitValue(s[0]) + 100 * DigitValue(s[1]) + 10 * DigitValue(s[2]) + DigitValue(s[3]) == n
  {
    var tens := n / 10;
    var hundreds := tens / 10;
    var thousands := hundreds / 10;
    [DigitChar(thousands), DigitChar(hundreds % 10), DigitChar(tens % 10), DigitChar(n % 10)]
  }

  /** `d.strftime("%m/%d/%Y")`: `MM/DD/YYYY`, every field zero-padded. */
  function Format(d: Date): (s: string)
    requires ValidDate(d)
    ensures |s| == 10 && s[2] == '/' && s[5] == '/'
    ensures forall k :: 0 <= k < 10 && k != 2 && k != 5 ==> IsDigit(s[k])
  {
    Pad2(d.month) + "/" + Pad2(d.day) + "/" + Pad4(d.year)
  }

  /** A string already in the zero-padded form that `Format` produces. */
  predicate IsCanonical(s: string) {
    var d := Parse(s);
    d.Some? && Format(d.value) == s
  }

  /** `IndexOf` finds the first occurrence. */
  lemma {:induction false} IndexOfFirst(s: string, c: char, i: nat)
    requires i < |s| && s[i] == c
    requires forall j :: 0 <= j < i ==> s[j] != c
    ensures IndexOf(s, c) == i
  {
    if i > 0 {
      IndexOfFirst(s[1..], c, i - 1);
    }
  }

  /** Formatting a date and parsing the text back gives the same date. */
  lemma ParseFormat(d: Date)
    requires ValidDate(d)
    ensures Parse(Format(d)) == Some(d)
  {
    var s := Format(d);
    IndexOfFirst(s, '/', 2);
    var tail := s[3..];
    IndexOfFirst(tail, '/', 2);
    assert s[..2] == Pad2(d.month);
    assert tail[..2] == Pad2(d.day);
    assert tail[3..] == Pad4(d.year);    FieldsReadPaddedForms(d);
  }

  /** The text a successful parse is normalised to is a fixed point. */
  lemma NormalFormIsCanonical(s: string)
    requires Parse(s).Some?
    ensures IsCanonical(Format(Parse(s).value))
  {
    ParseFormat(Parse(s).value);
  }

  /** Two digits that spell `n` are its zero-padded form. */
  lemma Pad2Unique(t: string, n: int)
    requires |t| == 2 && IsDigit(t[0]) && IsDigit(t[1]) && 10 * DigitValue(t[0]) + DigitValue(t[1]) == n
    ensures Pad2(n) == t
  {
    var p := Pad2(n);
    assert DigitValue(p[0]) == DigitValue(t[0]) && DigitValue(p[1]) == DigitValue(t[1]);
  }

  /** Four digits that spell `n` are its zero-padded form. */
  lemma Pad4Unique(t: string, n: int)
    requires |t| == 4 && IsDigit(t[0]) && IsDigit(t[1]) && IsDigit(t[2]) && IsDigit(t[3])
    requires 1000 * DigitValue(t[0]) + 100 * DigitValue(t[1]) + 10 * DigitValue(t[2]) + DigitValue(t[3]) == n
    ensures Pad4(n) == t
  {
    var p := Pad4(n);
    assert DigitValue(p[0]) == DigitValue(t[0]);
    assert DigitValue(p[1]) == DigitValue(t[1]);
    assert DigitValue(p[2]) == DigitValue(t[2]);
    assert DigitValue(p[3]) == DigitValue(t[3]);
  }

  /** Each field reads back its zero-padded form, and the three together give the date. */
  lemma FieldsReadPaddedForms(d: Date)
    requires ValidDate(d)
    ensures MonthField(Pad2(d.month)) == Some(d.month)
    ensures DayField(Pad2(d.day)) == Some(d.day)
    ensures YearField(Pad4(d.year)) == Some(d.year)
    ensures FromFields(Pad2(d.month), Pad2(d.day), Pad4(d.year)) == Some(d)
  {
  }

  /**
   * A ten-character string that parses (and whose day is not written with
   * a leading space) is already in canonical form.
   */
  lemma FullWidthIsCanonical(s: string)
    requires Parse(s).Some? && |s| == 10 && s[3] != ' '
    ensures IsCanonical(s)
  {
    var d := Parse(s).value;
    var i := IndexOf(s, '/');
    var tail := s[i + 1..];
    var j := IndexOf(tail, '/');
    assert FromFields(s[..i], tail[..j], tail[j + 1..]) == Some(d);
    assert MonthField(s[..i]).Some? && DayField(tail[..j]).Some? && YearField(tail[j + 1..]).Some?;
    assert i == 2 && j == 2;
    assert tail[..j] == s[3..5];
    assert tail[j + 1..] == s[6..];
    Pad2Unique(s[..2], d.month);
    Pad2Unique(s[3..5], d.day);
    Pad4Unique(s[6..], d.year);
    assert s == s[..2] + "/" + s[3..5] + "/" + s[6..];
  }

  /** Finding both separators settles how `Parse` splits its input. */
  lemma SlashesAt(s: string, i: nat, j: nat)
    requires i < j < |s| && s[i] == '/' && s[j] == '/'
    requires forall k :: 0 <= k < j && k != i ==> s[k] != '/'
    ensures Parse(s) == FromFields(s[..i], s[i + 1..j], s[j + 1..])
  {
    IndexOfFirst(s, '/', i);
    var tail := s[i + 1..];
    IndexOfFirst(tail, '/', j - i - 1);
    assert tail[..j - i - 1] == s[i + 1..j];
    assert tail[j - i..] == s[j + 1..];
  }

  /** How `Parse` splits a ten-character `MM/DD/YYYY` layout. */
  lemma SplitsAsMonthDayYear(s: string)
    requires |s| == 10 && s[2] == '/' && s[5] == '/'
    requires s[0] != '/' && s[1] != '/' && s[3] != '/' && s[4] != '/'
    ensures Parse(s) == FromFields([s[0], s[1]], [s[3], s[4]], [s[6], s[7], s[8], s[9]])
  {
    SlashesAt(s, 2, 5);
    assert s[..2] == [s[0], s[1]];
    assert s[3..5] == [s[3], s[4]];
    assert s[6..] == [s[6], s[7], s[8], s[9]];
  }

  /** Text without a `/`, such as the `dd-mm-yyyy` form the prompts ask for, never parses. */
  lemma RejectsWithoutSlash(s: string)
    requires forall k :: 0 <= k < |s| ==> s[k] != '/'
    ensures Parse(s) == None
  {
  }

  // Concrete inputs, one lemma each: the text is the parameter `s`.

  lemma RejectsMonth13(s: string)
    requires s == "13/05/2024"
    ensures Parse(s) == None
  {
    SplitsAsMonthDayYear(s);
  }

  lemma RejectsMonth13Day40(s: string)
    requires s == "13/40/2024"
    ensures Parse(s) == None
  {
    SplitsAsMonthDayYear(s);
  }

  lemma RejectsDay40(s: string)
    requires s == "04/40/2024"
    ensures Parse(s) == None
  {
    SplitsAsMonthDayYear(s);
  }

  lemma RejectsLeapDayOfCommonYear(s: string)
    requires s == "02/29/2023"
    ensures Parse(s) == None
  {
    SplitsAsMonthDayYear(s);
  }

  lemma RejectsYearZero(s: string)
    requires s == "01/01/0000"
    ensures Parse(s) == None
  {
    SplitsAsMonthDayYear(s);
  }

  lemma RejectsDashes(s: string)
    requires s == "15-06-2024"
    ensures Parse(s) == None
  {
    RejectsWithoutSlash(s);
  }

  lemma RejectsTwoDigitYear(s: string)
    requires s == "06/01/24"
    ensures Parse(s) == None
  {
    SlashesAt(s, 2, 5);
    assert s[6..] == [s[6], s[7]];
  }

  lemma AcceptsLeapDay(s: string)
    requires s == "02/29/2024"
    ensures Parse(s) == Some(Date(2024, 2, 29))
  {
    SplitsAsMonthDayYear(s);
  }

  /** Single-digit fields are accepted ... */
  lemma AcceptsShortFields(s: string)
    requires s == "1/5/2024"
    ensures Parse(s) == Some(Date(2024, 1, 5))
  {
    SlashesAt(s, 1, 3);
    assert s[..1] == [s[0]] && s[2..3] == [s[2]] && s[4..] == [s[4], s[5], s[6], s[7]];
  }

  /** ... and are written back zero-padded. */
  lemma FormatPadsFields()
    ensures Format(Date(2024, 1, 5)) == "01/05/2024"
  {
    assert Pad2(1) == "01" && Pad2(5) == "05" && Pad4(2024) == "2024";
  }
}
