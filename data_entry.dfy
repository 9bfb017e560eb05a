/**
 * The prompts that read one transaction from the user. Each `input()`
 * call consumes the next line of `lines`; a prompt that rejects its line
 * asks again, which the source writes as a recursive call. Running out of
 * lines (`input()` raising `EOFError`) is `None`.
 */
module DataEntry {
  import opened Wrappers
  import opened Dates

  /** What a prompt accepted, and the lines it left unread. */
  datatype Prompted<T> = Prompted(value: T, rest: seq<string>)

  /** `CATEGORIES`: the accepted tokens and the labels they stand for. */
  const Categories: map<string, string> := map["I" := "Income", "E" := "Expense"]

  /**
   * Line `k` is the one a retrying prompt accepted: every earlier line was
   * rejected, `read` accepted line `k` with `p.value`, and `p.rest` is what
   * comes after it.
   */
  ghost predicate AcceptedAt<T>(lines: seq<string>, k: int, read: string -> Option<T>, p: Prompted<T>) {
    && 0 <= k < |lines|
    && read(lines[k]) == Some(p.value)
    && p.rest == lines[k + 1..]
    && forall i :: 0 <= i < k ==> read(lines[i]).None?
  }

  /**
   * Asks until `read` accepts a line: the shape that `get_date`,
   * `get_amount` and `get_category` share.
   */
  function Retry<T>(lines: seq<string>, read: string -> Option<T>): (r: Option<Prompted<T>>)
    ensures r.None? <==> forall i :: 0 <= i < |lines| ==> read(lines[i]).None?
    ensures r.Some? ==> |r.value.rest| < |lines| && AcceptedAt(lines, |lines| - |r.value.rest| - 1, read, r.value)
    decreases |lines|
  {
    if lines == [] then None
    else
      match read(lines[0])
      case Some(v) => Some(Prompted(v, lines[1..]))
      case None =>
        var r := Retry(lines[1..], read);
        assert forall i :: 1 <= i < |lines| ==> lines[i] == lines[1..][i - 1];
        r
  }

  // ---------------------------------------------------------------------
  // get_date
  // ---------------------------------------------------------------------

  /**
   * One attempt of `get_date`: with `allowDefault`, an empty line is today's
   * date; otherwise the line must parse as `%m/%d/%Y`, and the answer is the
   * date written back in that format.
   */
  function ReadDate(line: string, allowDefault: bool, today: Date): (r: Option<string>)
    requires ValidDate(today)
    ensures r.Some? <==> (allowDefault && line == "") || Parse(line).Some?
    ensures allowDefault && line == "" ==> r == Some(Format(today))
    ensures Parse(line).Some? ==> r == Some(Format(Parse(line).value))
    ensures r.Some? ==> IsCanonical(r.value)
  {
    if allowDefault && line == "" then
      ParseFormat(today);
      Some(Format(today))
    else
      match Parse(line)
      case Some(d) =>
        ParseFormat(d);
        Some(Format(d))
      case None => None
  }

  /** `get_date(prompt, allow_default)`. */
  function GetDate(lines: seq<string>, allowDefault: bool, today: Date): (r: Option<Prompted<string>>)
    requires ValidDate(today)
    ensures r.None? <==> forall i :: 0 <= i < |lines| ==> ReadDate(lines[i], allowDefault, today).None?
    ensures r.Some? ==> IsCanonical(r.value.value)
    ensures r.Some? ==> |r.value.rest| < |lines|
    ensures r.Some? ==> var k := |lines| - |r.value.rest| - 1;
      AcceptedAt(lines, k, line => ReadDate(line, allowDefault, today), r.value)
  {
    Retry(lines, line => ReadDate(line, allowDefault, today))
  }

  /** A first line that `get_date` accepts is its answer, and only that line is consumed. */
  lemma GetDateAcceptsFirst(lines: seq<string>, allowDefault: bool, today: Date)
    requires ValidDate(today) && lines != [] && ReadDate(lines[0], allowDefault, today).Some?
    ensures GetDate(lines, allowDefault, today) == Some(Prompted(ReadDate(lines[0], allowDefault, today).value, lines[1..]))
  {
  }

  /** With `allow_default`, pressing enter gives today's date. */
  lemma GetDateDefaultsToToday(rest: seq<string>, today: Date)
    requires ValidDate(today)
    ensures GetDate([""] + rest, true, today) == Some(Prompted(Format(today), rest))
  {
    assert ([""] + rest)[1..] == rest;
  }

  /** Without `allow_default` an empty line is rejected and the next line is read. */
  lemma GetDateRejectsEmptyLine(rest: seq<string>, today: Date)
    requires ValidDate(today)
    ensures GetDate([""] + rest, false, today) == GetDate(rest, false, today)
  {
    assert ([""] + rest)[1..] == rest;
  }

  /**
   * Feeding an answer of `get_date` back to it returns the identical
   * string: the answer is already in normal form.
   */
  lemma GetDateIdempotent(lines: seq<string>, allowDefault: bool, today: Date, more: seq<string>)
    requires ValidDate(today)
    requires GetDate(lines, allowDefault, today).Some?
    ensures var v := GetDate(lines, allowDefault, today).value.value;
      GetDate([v] + more, allowDefault, today) == Some(Prompted(v, more))
  {
    var v := GetDate(lines, allowDefault, today).value.value;
    var d := Parse(v).value;
    assert ([v] + more)[0] == v && ([v] + more)[1..] == more;
    assert ReadDate(v, allowDefault, today) == Some(Format(d));
  }

  // ---------------------------------------------------------------------
  // get_amount
  // ---------------------------------------------------------------------

  /**
   * One attempt of `get_amount`. `toFloat` is Python's `float()` on the
   * line, `None` where it raises; the amount must then be strictly positive.
   */
  function ReadAmount(line: string, toFloat: string -> Option<real>): (r: Option<real>)
    ensures r.Some? <==> toFloat(line).Some? && toFloat(line).value > 0.0
    ensures r.Some? ==> r.value == toFloat(line).value
  {
    match toFloat(line)
    case None => None
    case Some(amount) => if amount <= 0.0 then None else Some(amount)
  }

  /** `get_amount()`: only ever answers a strictly positive amount. */
  function GetAmount(lines: seq<string>, toFloat: string -> Option<real>): (r: Option<Prompted<real>>)
    ensures r.None? <==> forall i :: 0 <= i < |lines| ==> ReadAmount(lines[i], toFloat).None?
    ensures r.Some? ==> r.value.value > 0.0
    ensures r.Some? ==> |r.value.rest| < |lines|
    ensures r.Some? ==> var k := |lines| - |r.value.rest| - 1;
      AcceptedAt(lines, k, line => ReadAmount(line, toFloat), r.value)
  {
    Retry(lines, line => ReadAmount(line, toFloat))
  }

  /** A first line that `get_amount` accepts is its answer, and only that line is consumed. */
  lemma GetAmountAcceptsFirst(lines: seq<string>, toFloat: string -> Option<real>)
    requires lines != [] && ReadAmount(lines[0], toFloat).Some?
    ensures GetAmount(lines, toFloat) == Some(Prompted(ReadAmount(lines[0], toFloat).value, lines[1..]))
  {
  }

  // ---------------------------------------------------------------------
  // get_category
  // ---------------------------------------------------------------------

  /**
   * `str.upper()` on one character: ASCII letters, and the dotless i
   * (U+0131), whose capital is the ASCII `I`.
   */
  function UpperChar(c: char): (u: char)
    ensures 'a' <= c <= 'z' ==> 'A' <= u <= 'Z' && u as int == c as int - 32
    ensures u == 'I' <==> c == 'I' || c == 'i' || c == '\U{0131}'
    ensures u == 'E' <==> c == 'E' || c == 'e'
  {
    if 'a' <= c <= 'z' then (c as int - 32) as char
    else if c == '\U{0131}' then 'I'
    else c
  }

  /** `str.upper()`. */
  function Upper(s: string): (u: string)
    ensures |u| == |s|
    ensures forall i :: 0 <= i < |s| ==> u[i] == UpperChar(s[i])
  {
    if s == [] then [] else [UpperChar(s[0])] + Upper(s[1..])
  }

  /** One attempt of `get_category`: the upper-cased line looked up in `Categories`. */
  function ReadCategory(line: string): (r: Option<string>)
    ensures r.Some? <==> Upper(line) in Categories
    ensures r.Some? ==> r.value == Categories[Upper(line)]
  {
    var token := Upper(line);
    if token in Categories then Some(Categories[token]) else None
  }

  /** The lines that `get_category` accepts, as the user types them. */
  lemma CategoryTokens(line: string)
    ensures ReadCategory(line) == Some("Income") <==> line == "I" || line == "i" || line == "\U{0131}"
    ensures ReadCategory(line) == Some("Expense") <==> line == "E" || line == "e"
    ensures ReadCategory(line).None? <==> line !in {"I", "i", "\U{0131}", "E", "e"}
  {
    var u := Upper(line);
    if |line| == 1 {
      assert u == [UpperChar(line[0])];
      assert line == [line[0]];
    } else {
      assert u != "I" && u != "E";
    }
  }

  /** `get_category()`: answers `"Income"` or `"Expense"`. */
  function GetCategory(lines: seq<string>): (r: Option<Prompted<string>>)
    ensures r.None? <==> forall i :: 0 <= i < |lines| ==> ReadCategory(lines[i]).None?
    ensures r.Some? ==> r.value.value == "Income" || r.value.value == "Expense"
    ensures r.Some? ==> |r.value.rest| < |lines|
    ensures r.Some? ==> var k := |lines| - |r.value.rest| - 1;
      AcceptedAt(lines, k, ReadCategory, r.value)
  {
    Retry(lines, ReadCategory)
  }

  /** A first line that `get_category` accepts is its answer, and only that line is consumed. */
  lemma GetCategoryAcceptsFirst(lines: seq<string>)
    requires lines != [] && ReadCategory(lines[0]).Some?
    ensures GetCategory(lines) == Some(Prompted(ReadCategory(lines[0]).value, lines[1..]))
  {
  }

  // ---------------------------------------------------------------------
  // get_description
  // ---------------------------------------------------------------------

  /** `get_description()`: the next line exactly as typed, the empty line included; no retry. */
  function GetDescription(lines: seq<string>): (r: Option<Prompted<string>>)
    ensures r.None? <==> lines == []
    ensures r.Some? ==> r.value.value == lines[0] && r.value.rest == lines[1..]
  {
    if lines == [] then None else Some(Prompted(lines[0], lines[1..]))
  }
}
