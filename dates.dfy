/** Calendar values as the source stores them in text columns: `YYYY-MM-DD` dates, `YYYY-MM`
    months and `YYYY-MM-DD HH:MM:SS` creation stamps, with the strict parsing that the source
    asks `moment(s, format, true).isValid()` to perform. */
module Dates {
  import opened Wrappers
  import opened Text
  import Numbers

  datatype Date = Date(year: int, month: int, day: int)
  datatype Month = Month(year: int, month: int)
  /** A creation stamp: a date and the second of that day. */
  datatype Stamp = Stamp(date: Date, second: int)

  predicate LeapYear(y: int) {
    (y % 4 == 0 && y % 100 != 0) || y % 400 == 0
  }

  function DaysInMonth(y: int, m: int): int {
    if m == 2 then (if LeapYear(y) then 29 else 28)
    else if m == 4 || m == 6 || m == 9 || m == 11 then 30
    else 31
  }

  /** A date whose four-digit year, month and day exist in the Gregorian calendar. */
  predicate ValidDate(d: Date) {
    0 <= d.year <= 9999 && 1 <= d.month <= 12 && 1 <= d.day <= DaysInMonth(d.year, d.month)
  }

  predicate ValidMonth(m: Month) {
    0 <= m.year <= 9999 && 1 <= m.month <= 12
  }

  function MonthOf(d: Date): Month {
    Month(d.year, d.month)
  }

  /** Chronological order; for four-digit years it is also the text order of `YYYY-MM`. */
  predicate MonthLeq(a: Month, b: Month) {
    a.year < b.year || (a.year == b.year && a.month <= b.month)
  }

  predicate DateLeq(a: Date, b: Date) {
    a.year < b.year || (a.year == b.year && (a.month < b.month || (a.month == b.month && a.day <= b.day)))
  }

  function D(s: string, i: int): nat
    requires 0 <= i < |s| && IsDigit(s[i])
  {
    Numbers.DigitValue(s[i])
  }

  predicate DigitsAt(s: string, i: int, n: nat) {
    0 <= i && i + n <= |s| && forall k :: i <= k < i + n ==> IsDigit(s[k])
  }

  /** The number written by exactly two digits. */
  function Read2(t: string): (r: Option<int>)
    ensures r.Some? ==> 0 <= r.value < 100
  {
    if |t| == 2 && DigitsAt(t, 0, 2) then Some(10 * D(t, 0) + D(t, 1)) else None
  }

  /** The number written by exactly four digits. */
  function Read4(t: string): (r: Option<int>)
    ensures r.Some? ==> 0 <= r.value < 10000
  {
    if |t| == 4 then
      match (Read2(t[..2]), Read2(t[2..]))
      case (Some(hi), Some(lo)) => Some(100 * hi + lo)
      case _ => None
    else None
  }

  /** `moment(s, 'YYYY-MM-DD', true).isValid()` together with the date it denotes. */
  function ParseStrictDate(s: string): (r: Option<Date>)
    ensures r.Some? ==> ValidDate(r.value)
  {
    if |s| == 10 && s[4] == '-' && s[7] == '-' then
      match (Read4(s[..4]), Read2(s[5..7]), Read2(s[8..]))
      case (Some(y), Some(m), Some(d)) => if ValidDate(Date(y, m, d)) then Some(Date(y, m, d)) else None
      case _ => None
    else None
  }

  /** `moment(s, 'YYYY-MM', true).isValid()` together with the month it denotes. */
  function ParseStrictMonth(s: string): (r: Option<Month>)
    ensures r.Some? ==> ValidMonth(r.value)
  {
    if |s| == 7 && s[4] == '-' then
      match (Read4(s[..4]), Read2(s[5..]))
      case (Some(y), Some(m)) => if ValidMonth(Month(y, m)) then Some(Month(y, m)) else None
      case _ => None
    else None
  }

  function Digits2(n: int): (s: string)
    requires 0 <= n < 100
    ensures |s| == 2
  {
    [Numbers.DigitChar(n / 10), Numbers.DigitChar(n % 10)]
  }

  function Digits4(n: int): (s: string)
    requires 0 <= n < 10000
    ensures |s| == 4
  {
    Digits2(n / 100) + Digits2(n % 100)
  }

  function FormatDate(d: Date): string
    requires ValidDate(d)
  {
    Digits4(d.year) + "-" + Digits2(d.month) + "-" + Digits2(d.day)
  }

  function FormatMonth(m: Month): string
    requires ValidMonth(m)
  {
    Digits4(m.year) + "-" + Digits2(m.month)
  }

  /** SQLite's `YYYY-MM-DD HH:MM:SS` text of a creation stamp. */
  function FormatStamp(t: Stamp): string
    requires ValidDate(t.date) && 0 <= t.second < 86400
  {
    FormatDate(t.date) + " " + Digits2(t.second / 3600) + ":" + Digits2(t.second / 60 % 60) + ":" + Digits2(t.second % 60)
  }

  /** Two digits read back as the number they render, and only such text reads as a number. */
  lemma Read2RoundTrip(n: int, t: string)
    requires 0 <= n < 100
    ensures Read2(Digits2(n)) == Some(n)
    ensures Read2(t) == Some(n) ==> Digits2(n) == t
  {
    if Read2(t) == Some(n) {
      assert t == [t[0], t[1]];
    }
  }

  lemma Read4RoundTrip(n: int, t: string)
    requires 0 <= n < 10000
    ensures Read4(Digits4(n)) == Some(n)
    ensures Read4(t) == Some(n) ==> Digits4(n) == t
  {
    var hi, lo := n / 100, n % 100;
    Read4Of(hi, lo);
    if Read4(t) == Some(n) {
      var h, l := Read4Split(t);
      DivMod100(n, h, l);
    }
  }

  /** Two two-digit halves read as one four-digit number. */
  lemma Read4Of(hi: int, lo: int)
    requires 0 <= hi < 100 && 0 <= lo < 100
    ensures Read4(Digits2(hi) + Digits2(lo)) == Some(100 * hi + lo)
  {
    var f := Digits2(hi) + Digits2(lo);
    assert f[..2] == Digits2(hi) && f[2..] == Digits2(lo);
    Read2RoundTrip(hi, f[..2]);
    Read2RoundTrip(lo, f[2..]);
  }

  /** A four-digit text that reads is the text of its two halves. */
  lemma Read4Split(t: string) returns (hi: int, lo: int)
    requires Read4(t).Some?
    ensures 0 <= hi < 100 && 0 <= lo < 100 && Read4(t).value == 100 * hi + lo
    ensures t == Digits2(hi) + Digits2(lo)
  {
    hi, lo := Read2(t[..2]).value, Read2(t[2..]).value;
    Read2RoundTrip(hi, t[..2]);
    Read2RoundTrip(lo, t[2..]);
    assert t == t[..2] + t[2..];
  }

  lemma DivMod100(n: int, hi: int, lo: int)
    requires 0 <= hi && 0 <= lo < 100 && n == 100 * hi + lo
    ensures hi == n / 100 && lo == n % 100
  {
  }

  /** Formatting a valid date and parsing it strictly gives the date back. */
  lemma FormatThenParseDate(d: Date)
    requires ValidDate(d)
    ensures ParseStrictDate(FormatDate(d)) == Some(d)
  {
    var s := FormatDate(d);
    assert s[..4] == Digits4(d.year) && s[5..7] == Digits2(d.month) && s[8..] == Digits2(d.day);
    Read4RoundTrip(d.year, s[..4]);
    Read2RoundTrip(d.month, s[5..7]);
    Read2RoundTrip(d.day, s[8..]);
  }

  /** Strictly parsed text is exactly the formatted date it denotes. */
  lemma ParseThenFormatDate(s: string)
    requires ParseStrictDate(s).Some?
    ensures FormatDate(ParseStrictDate(s).value) == s
  {
    var d := ParseStrictDate(s).value;
    Read4RoundTrip(d.year, s[..4]);
    Read2RoundTrip(d.month, s[5..7]);
    Read2RoundTrip(d.day, s[8..]);
    assert s == s[..4] + "-" + s[5..7] + "-" + s[8..];
  }

  lemma FormatThenParseMonth(m: Month)
    requires ValidMonth(m)
    ensures ParseStrictMonth(FormatMonth(m)) == Some(m)
  {
    var s := FormatMonth(m);
    assert s[..4] == Digits4(m.year) && s[5..] == Digits2(m.month);
    Read4RoundTrip(m.year, s[..4]);
    Read2RoundTrip(m.month, s[5..]);
  }

  lemma ParseThenFormatMonth(s: string)
    requires ParseStrictMonth(s).Some?
    ensures FormatMonth(ParseStrictMonth(s).value) == s
  {
    var m := ParseStrictMonth(s).value;
    Read4RoundTrip(m.year, s[..4]);
    Read2RoundTrip(m.month, s[5..]);
    assert s == s[..4] + "-" + s[5..];
  }
}
