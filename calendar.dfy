/**
 * Calendar dates as the ledger stores them, the month windows the queries use,
 * and the two text forms the code derives month keys from: the submitted date
 * `YYYY-MM-DD` and the month key `YYYY-MM`.
 */
module Calendar {
  import opened Wrappers

  /** A calendar date at day granularity (the time of day is always midnight UTC). */
  datatype Date = Date(year: int, month: int, day: int)

  predicate IsLeapYear(y: int) {
    (y % 4 == 0 && y % 100 != 0) || y % 400 == 0
  }

  function DaysInMonth(y: int, m: int): (n: int)
    requires 1 <= m <= 12
    ensures 28 <= n <= 31
  {
    if m == 2 then (if IsLeapYear(y) then 29 else 28)
    else if m == 4 || m == 6 || m == 9 || m == 11 then 30
    else 31
  }

  /** A real calendar date with a four-digit year (what `toISOString` writes as `YYYY`). */
  predicate ValidDate(d: Date) {
    0 <= d.year <= 9999 && 1 <= d.month <= 12 && 1 <= d.day <= DaysInMonth(d.year, d.month)
  }

  /** Chronological order of dates (`$lt` on the stored timestamps). */
  predicate Before(a: Date, b: Date) {
    || a.year < b.year
    || (a.year == b.year && a.month < b.month)
    || (a.year == b.year && a.month == b.month && a.day < b.day)
  }

  /** Months counted from January of year 0: the arithmetic `Date.UTC(y, m, 1)` does
      when a month index runs past 11 or below 0. */
  function MonthIndex(d: Date): int {
    d.year * 12 + (d.month - 1)
  }

  /** The first day of month number `k`; the year rolls over in both directions. */
  function MonthStart(k: int): (d: Date)
    ensures MonthIndex(d) == k && 1 <= d.month <= 12 && d.day == 1
  {
    Date(k / 12, k % 12 + 1, 1)
  }

  /** Comparing a date with the first day of a month is comparing month numbers. */
  lemma MonthStartOrder(d: Date, k: int)
    requires 1 <= d.month <= 12 && 1 <= d.day
    ensures !Before(d, MonthStart(k)) <==> MonthIndex(d) >= k
  {
  }

  /** December rolls over to January of the next year. */
  lemma DecemberRollsOver(y: int)
    ensures MonthStart(y * 12 + 11 + 1) == Date(y + 1, 1, 1)
  {
  }

  // ---------------------------------------------------------------------------
  // Digit strings

  predicate IsDigit(c: char) {
    '0' <= c <= '9'
  }

  predicate AllDigits(s: string) {
    forall i :: 0 <= i < |s| ==> IsDigit(s[i])
  }

  function DigitChar(n: int): (c: char)
    requires 0 <= n < 10
    ensures IsDigit(c)
  {
    ('0' as int + n) as char
  }

  function DigitValue(c: char): (n: int)
    requires IsDigit(c)
    ensures 0 <= n < 10
  {
    c as int - '0' as int
  }

  function Pow10(w: nat): (p: nat)
    ensures p >= 1
  {
    if w == 0 then 1 else 10 * Pow10(w - 1)
  }

  /** The decimal value of a string of digits. */
  function NumberOf(s: string): nat
    requires AllDigits(s)
  {
    if s == [] then 0 else NumberOf(s[..|s| - 1]) * 10 + DigitValue(s[|s| - 1])
  }

  /** `n` written with exactly `w` digits, zero-padded on the left. */
  function Pad(n: nat, w: nat): (s: string)
    ensures |s| == w && AllDigits(s)
  {
    if w == 0 then [] else Pad(n / 10, w - 1) + [DigitChar(n % 10)]
  }

  /** Reading back a padded number gives the number. */
  lemma {:induction false} NumberOfPad(n: nat, w: nat)
    requires n < Pow10(w)
    ensures NumberOf(Pad(n, w)) == n
  {
    if w > 0 {
      var s := Pad(n, w);
      assert s[..|s| - 1] == Pad(n / 10, w - 1);
      NumberOfPad(n / 10, w - 1);
      assert DigitValue(DigitChar(n % 10)) == n % 10;
    }
  }

  /** Padding the value of a digit string to its own width gives the string back. */
  lemma {:induction false} PadNumberOf(s: string)
    requires AllDigits(s)
    ensures NumberOf(s) < Pow10(|s|)
    ensures Pad(NumberOf(s), |s|) == s
  {
    if s != [] {
      var init := s[..|s| - 1];
      PadNumberOf(init);
      var d := DigitValue(s[|s| - 1]);
      var n := NumberOf(s);
      assert n == NumberOf(init) * 10 + d;
      assert n / 10 == NumberOf(init) && n % 10 == d;
      assert DigitChar(d) == s[|s| - 1];
      assert s == init + [s[|s| - 1]];
    }
  }

  // ---------------------------------------------------------------------------
  // Date and month-key text

  /** A month key `YYYY-MM`. */
  function FormatMonth(y: int, m: int): (s: string)
    requires 0 <= y <= 9999 && 1 <= m <= 12
    ensures |s| == 7
  {
    Pad(y, 4) + "-" + Pad(m, 2)
  }

  /** A date written `YYYY-MM-DD`, the form the client submits. */
  function FormatDate(d: Date): (s: string)
    requires ValidDate(d)
    ensures |s| == 10
  {
    FormatMonth(d.year, d.month) + "-" + Pad(d.day, 2)
  }

  /** `toISOString()` of a stored date: midnight UTC of that day. */
  function IsoString(d: Date): string
    requires ValidDate(d)
  {
    FormatDate(d) + "T00:00:00.000Z"
  }

  /** The ISO date-only form `new Date(s)` accepts: a real calendar date
      `YYYY-MM-DD`; anything else is an Invalid Date. */
  function ParseDate(s: string): Option<Date> {
    if |s| == 10 && AllDigits(s[..4]) && s[4] == '-' && AllDigits(s[5..7])
       && s[7] == '-' && AllDigits(s[8..])
    then
      var d := Date(NumberOf(s[..4]), NumberOf(s[5..7]), NumberOf(s[8..]));
      if ValidDate(d) then Some(d) else None
    else None
  }

  /** A well-formed month key `YYYY-MM` read back as (year, month). */
  function ParseMonthKey(s: string): Option<(int, int)> {
    if |s| == 7 && AllDigits(s[..4]) && s[4] == '-' && AllDigits(s[5..])
       && 1 <= NumberOf(s[5..]) <= 12
    then Some((NumberOf(s[..4]), NumberOf(s[5..])))
    else None
  }

  /** `s.slice(0, 7)`: the first seven characters, or all of a shorter string. */
  function MonthKey(s: string): (k: string)
    ensures |s| >= 7 ==> k == s[..7]
    ensures |s| < 7 ==> k == s
  {
    if |s| >= 7 then s[..7] else s
  }

  lemma Pow10Values()
    ensures Pow10(2) == 100 && Pow10(4) == 10000
  {
  }

  /** The fields of a formatted date sit at fixed positions. */
  lemma DateFields(d: Date)
    requires ValidDate(d)
    ensures var s := FormatDate(d);
      && s[..4] == Pad(d.year, 4) && s[4] == '-' && s[5..7] == Pad(d.month, 2)
      && s[7] == '-' && s[8..] == Pad(d.day, 2)
  {
    MonthFields(d.year, d.month);
    var s := FormatDate(d);
    assert s == FormatMonth(d.year, d.month) + "-" + Pad(d.day, 2);
  }

  /** The fields of a formatted month key sit at fixed positions. */
  lemma MonthFields(y: int, m: int)
    requires 0 <= y <= 9999 && 1 <= m <= 12
    ensures var s := FormatMonth(y, m);
      s[..4] == Pad(y, 4) && s[4] == '-' && s[5..] == Pad(m, 2) && s[5..7] == Pad(m, 2)
  {
  }

  /** Formatting a date and parsing it back gives the date. */
  lemma ParseFormatDate(d: Date)
    requires ValidDate(d)
    ensures ParseDate(FormatDate(d)) == Some(d)
  {
    DateFields(d);
    Pow10Values();
    NumberOfPad(d.year, 4);
    NumberOfPad(d.month, 2);
    NumberOfPad(d.day, 2);
  }

  /** A date string that parses is the formatted form of its date: the text form
      is canonical. */
  lemma FormatParseDate(s: string)
    requires ParseDate(s).Some?
    ensures ValidDate(ParseDate(s).value) && FormatDate(ParseDate(s).value) == s
  {
    PadNumberOf(s[..4]);
    PadNumberOf(s[5..7]);
    PadNumberOf(s[8..]);
    assert s == s[..4] + [s[4]] + s[5..7] + [s[7]] + s[8..];
  }

  /** Formatting a month key and reading it back gives the year and month. */
  lemma ParseFormatMonth(y: int, m: int)
    requires 0 <= y <= 9999 && 1 <= m <= 12
    ensures ParseMonthKey(FormatMonth(y, m)) == Some((y, m))
  {
    MonthFields(y, m);
    Pow10Values();
    NumberOfPad(y, 4);
    NumberOfPad(m, 2);
  }

  /** A month key that reads back is the formatted form of what it reads as. */
  lemma FormatParseMonth(s: string)
    requires ParseMonthKey(s).Some?
    ensures var (y, m) := ParseMonthKey(s).value;
      0 <= y <= 9999 && 1 <= m <= 12 && FormatMonth(y, m) == s
  {
    PadNumberOf(s[..4]);
    PadNumberOf(s[5..]);
    Pow10Values();
    assert s == s[..4] + [s[4]] + s[5..];
  }

  /** The month key cut from a well-formed date string is that date's year and month,
      and `new Date(key + '-01')` is the first day of that month. */
  lemma MonthKeyOfDate(s: string)
    requires ParseDate(s).Some?
    ensures var d := ParseDate(s).value;
      && MonthKey(s) == FormatMonth(d.year, d.month)
      && ParseDate(MonthKey(s) + "-01") == Some(Date(d.year, d.month, 1))
  {
    var d := ParseDate(s).value;
    FormatParseDate(s);
    assert MonthKey(s) == FormatMonth(d.year, d.month);
    var first := Date(d.year, d.month, 1);
    Pow10Values();
    assert Pad(1, 2) == "01";
    assert FormatDate(first) == MonthKey(s) + "-01";
    ParseFormatDate(first);
  }

  /** The first seven characters of a stored date's ISO string name exactly its month:
      they equal a key iff the key reads back as the date's year and month. */
  lemma IsoPrefixMatchesKey(d: Date, key: string)
    requires ValidDate(d)
    ensures IsoString(d)[..7] == FormatMonth(d.year, d.month)
    ensures IsoString(d)[..7] == key <==> ParseMonthKey(key) == Some((d.year, d.month))
  {
    var p := IsoString(d)[..7];
    assert p == FormatMonth(d.year, d.month);
    ParseFormatMonth(d.year, d.month);
    if ParseMonthKey(key) == Some((d.year, d.month)) {
      FormatParseMonth(key);
    }
  }
}
