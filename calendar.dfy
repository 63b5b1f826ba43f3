/**
 * Calendar dates in the proleptic Gregorian calendar, as Python's
 * `datetime.date` holds them (years 1 to 9999), with the strict
 * `YYYY-MM-DD` reading of `date.fromisoformat` and its inverse.
 */
module Calendar {
  import opened Wrappers
  import opened Text

  datatype Date = Date(year: int, month: int, day: int)

  predicate IsLeapYear(y: int) {
    y % 4 == 0 && (y % 100 != 0 || y % 400 == 0)
  }

  function DaysInMonth(y: int, m: int): (n: int)
    requires 1 <= m <= 12
    ensures 28 <= n <= 31
    ensures n == 29 <==> m == 2 && IsLeapYear(y)
  {
    if m == 2 then (if IsLeapYear(y) then 29 else 28)
    else if m == 4 || m == 6 || m == 9 || m == 11 then 30
    else 31
  }

  /** The dates `datetime.date` can represent (MINYEAR = 1, MAXYEAR = 9999). */
  predicate IsValid(d: Date) {
    && 1 <= d.year <= 9999
    && 1 <= d.month <= 12
    && 1 <= d.day <= DaysInMonth(d.year, d.month)
  }

  /** Lexicographic order on (year, month, day): the order of calendar days. */
  predicate Before(a: Date, b: Date) {
    || a.year < b.year
    || (a.year == b.year && a.month < b.month)
    || (a.year == b.year && a.month == b.month && a.day < b.day)
  }

  predicate AtOrBefore(a: Date, b: Date) {
    a == b || Before(a, b)
  }

  lemma BeforeIsStrictTotalOrder(a: Date, b: Date, c: Date)
    ensures !Before(a, a)
    ensures Before(a, b) ==> !Before(b, a)
    ensures Before(a, b) && Before(b, c) ==> Before(a, c)
    ensures a != b ==> Before(a, b) || Before(b, a)
  {
  }

  function Num2(a: char, b: char): (n: nat)
    requires IsDigit(a) && IsDigit(b)
    ensures n <= 99
  {
    10 * DigitValue(a) + DigitValue(b)
  }

  /** The shape `DDDD-DD-DD`, all ASCII digits apart from the two dashes. */
  predicate IsIsoShape(s: string) {
    && |s| == 10 && s[4] == '-' && s[7] == '-'
    && IsDigit(s[0]) && IsDigit(s[1]) && IsDigit(s[2]) && IsDigit(s[3])
    && IsDigit(s[5]) && IsDigit(s[6]) && IsDigit(s[8]) && IsDigit(s[9])
  }

  /** `date.fromisoformat(s)` restricted to the `YYYY-MM-DD` form; `None` where Python raises. */
  function ParseIso(s: string): (r: Option<Date>)
    ensures r.Some? ==> IsValid(r.value)
  {
    if !IsIsoShape(s) then None
    else
      var d := Date(100 * Num2(s[0], s[1]) + Num2(s[2], s[3]), Num2(s[5], s[6]), Num2(s[8], s[9]));
      if IsValid(d) then Some(d) else None
  }

  function Pad2(n: nat): (s: string)
    requires n <= 99
    ensures |s| == 2 && IsDigit(s[0]) && IsDigit(s[1]) && Num2(s[0], s[1]) == n
  {
    [DigitChar(n / 10), DigitChar(n % 10)]
  }

  /** `d.isoformat()`: the zero-padded `YYYY-MM-DD` text of a date. */
  function FormatIso(d: Date): (s: string)
    requires IsValid(d)
    ensures IsIsoShape(s)
  {
    Pad2(d.year / 100) + Pad2(d.year % 100) + "-" + Pad2(d.month) + "-" + Pad2(d.day)
  }

  lemma ParseFormatIso(d: Date)
    requires IsValid(d)
    ensures ParseIso(FormatIso(d)) == Some(d)
  {
    var s := FormatIso(d);
    assert s[0..2] == Pad2(d.year / 100);
    assert s[2..4] == Pad2(d.year % 100);
    assert s[5..7] == Pad2(d.month);
    assert s[8..10] == Pad2(d.day);
  }

  lemma FormatParseIso(s: string)
    requires ParseIso(s).Some?
    ensures FormatIso(ParseIso(s).value) == s
  {
    var d := ParseIso(s).value;
    var hi, lo := Num2(s[0], s[1]), Num2(s[2], s[3]);
    assert d.year / 100 == hi && d.year % 100 == lo;
    Pad2Inverse(s[0], s[1]);
    Pad2Inverse(s[2], s[3]);
    Pad2Inverse(s[5], s[6]);
    Pad2Inverse(s[8], s[9]);
    var t := FormatIso(d);
    assert t[4] == s[4] && t[7] == s[7];
    assert forall i :: 0 <= i < 10 ==> t[i] == s[i];
  }

  lemma Pad2Inverse(a: char, b: char)
    requires IsDigit(a) && IsDigit(b)
    ensures Pad2(Num2(a, b)) == [a, b]
  {
    var n := Num2(a, b);
    assert n / 10 == DigitValue(a) && n % 10 == DigitValue(b);
  }
}
