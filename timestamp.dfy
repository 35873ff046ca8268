/**
 * The timestamp embedded in saved file names: a date and time formatted with
 * `%Y%m%d_%H%M%S`, i.e. four digits of year, two each of month, day, hour,
 * minute and second, zero-padded, with one underscore between date and time.
 */
module Timestamp {

  /** A calendar date and wall-clock time to the second. */
  datatype DateTime = DateTime(year: int, month: int, day: int, hour: int, minute: int, second: int)

  predicate IsLeapYear(year: int) {
    year % 4 == 0 && (year % 100 != 0 || year % 400 == 0)
  }

  function DaysInMonth(year: int, month: int): int
    requires 1 <= month <= 12
  {
    if month == 2 then (if IsLeapYear(year) then 29 else 28)
    else if month == 4 || month == 6 || month == 9 || month == 11 then 30
    else 31
  }

  /** A date and time that exists, with a four-digit year. */
  predicate Valid(t: DateTime) {
    && 1000 <= t.year <= 9999
    && 1 <= t.month <= 12
    && 1 <= t.day <= DaysInMonth(t.year, t.month)
    && 0 <= t.hour < 24
    && 0 <= t.minute < 60
    && 0 <= t.second < 60
  }

  predicate IsDigit(c: char) {
    '0' <= c <= '9'
  }

  predicate AllDigits(s: string) {
    forall i :: 0 <= i < |s| ==> IsDigit(s[i])
  }

  /** The shape of a formatted timestamp: 8 digits, `_`, 6 digits. */
  predicate IsTimestampText(s: string) {
    && |s| == 15
    && s[8] == '_'
    && AllDigits(s[..8])
    && AllDigits(s[9..])
  }

  function Pow10(n: nat): (r: nat)
    ensures r >= 1
  {
    if n == 0 then 1 else 10 * Pow10(n - 1)
  }

  /** The decimal digit for `d`. */
  function Digit(d: int): (c: char)
    requires 0 <= d < 10
    ensures IsDigit(c)
  {
    (('0' as int) + d) as char
  }

  /** The value of a string of decimal digits. */
  function DigitsValue(s: string): nat
    requires AllDigits(s)
  {
    if s == [] then 0
    else DigitsValue(s[..|s| - 1]) * 10 + ((s[|s| - 1] as int) - ('0' as int))
  }

  /** `n` written in exactly `width` decimal digits, with leading zeros. */
  function Pad(n: nat, width: nat): (r: string)
    requires n < Pow10(width)
    ensures |r| == width && AllDigits(r)
  {
    if width == 0 then []
    else Pad(n / 10, width - 1) + [Digit(n % 10)]
  }

  /** Reading back a zero-padded number gives the number. */
  lemma {:induction false} PadRoundTrip(n: nat, width: nat)
    requires n < Pow10(width)
    ensures DigitsValue(Pad(n, width)) == n
  {
    if width > 0 {
      var p := Pad(n, width);
      assert p[..|p| - 1] == Pad(n / 10, width - 1);
      PadRoundTrip(n / 10, width - 1);
    }
  }

  /** `strftime("%Y%m%d_%H%M%S")`. */
  function Format(t: DateTime): (r: string)
    requires Valid(t)
    ensures IsTimestampText(r)
  {
    Pad(t.year, 4) + Pad(t.month, 2) + Pad(t.day, 2) + "_" +
    Pad(t.hour, 2) + Pad(t.minute, 2) + Pad(t.second, 2)
  }

  /** Reads the fields back out of a formatted timestamp. */
  function Parse(s: string): DateTime
    requires IsTimestampText(s)
  {
    assert forall i :: 0 <= i < 8 ==> s[i] == s[..8][i];
    assert forall i :: 9 <= i < 15 ==> s[i] == s[9..][i - 9];
    DateTime(
      DigitsValue(s[0..4]), DigitsValue(s[4..6]), DigitsValue(s[6..8]),
      DigitsValue(s[9..11]), DigitsValue(s[11..13]), DigitsValue(s[13..15]))
  }

  /** Formatting loses nothing: the fields can be read back from the text. */
  lemma FormatRoundTrip(t: DateTime)
    requires Valid(t)
    ensures Parse(Format(t)) == t
  {
    var s := Format(t);
    assert s[0..4] == Pad(t.year, 4);
    assert s[4..6] == Pad(t.month, 2);
    assert s[6..8] == Pad(t.day, 2);
    assert s[9..11] == Pad(t.hour, 2);
    assert s[11..13] == Pad(t.minute, 2);
    assert s[13..15] == Pad(t.second, 2);
    PadRoundTrip(t.year, 4);
    PadRoundTrip(t.month, 2);
    PadRoundTrip(t.day, 2);
    PadRoundTrip(t.hour, 2);
    PadRoundTrip(t.minute, 2);
    PadRoundTrip(t.second, 2);
  }

  /** Two different moments (to the second) never format the same. */
  lemma FormatInjective(t1: DateTime, t2: DateTime)
    requires Valid(t1) && Valid(t2)
    requires Format(t1) == Format(t2)
    ensures t1 == t2
  {
    FormatRoundTrip(t1);
    FormatRoundTrip(t2);
  }
}
