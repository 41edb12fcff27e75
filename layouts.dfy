/**
 * Go's `time.Parse` for the two fixed layouts the handlers use:
 * "2006-01-02" (a four-digit year, a two-digit month, a two-digit day) and
 * "15:04" (an hour of one or two digits, a two-digit minute). Parsing walks
 * the value as Go does: literals must match exactly, a number is read by
 * Go's `getnum`, ranges are checked (the day against the length of its month,
 * leap years included) and any text left over is an error.
 */
module Layouts {
  import opened Wrappers
  import opened GoText

  datatype Date = Date(year: nat, month: nat, day: nat)

  datatype Clock = Clock(hour: nat, minute: nat)

  /** A number read off the front of a string and the text after it. */
  datatype Num = Num(value: nat, rest: string)

  predicate IsLeap(year: nat) {
    year % 4 == 0 && (year % 100 != 0 || year % 400 == 0)
  }

  function DaysIn(month: nat, year: nat): (n: nat)
    requires 1 <= month <= 12
    ensures 28 <= n <= 31
    ensures n == 29 <==> month == 2 && IsLeap(year)
  {
    if month == 2 then (if IsLeap(year) then 29 else 28)
    else if month == 4 || month == 6 || month == 9 || month == 11 then 30
    else 31
  }

  /** The dates the layout "2006-01-02" can produce. */
  predicate ValidDate(d: Date) {
    d.year < 10000 && 1 <= d.month <= 12 && 1 <= d.day <= DaysIn(d.month, d.year)
  }

  /** The times of day the layout "15:04" can produce. */
  predicate ValidClock(c: Clock) {
    c.hour < 24 && c.minute < 60
  }

  /** Go's `getnum`: one or two leading digits, and exactly two when `fixed`. */
  function GetNum(s: string, fixed: bool): (r: Option<Num>)
    ensures r.Some? <==> |s| >= 1 && IsDigit(s[0]) && (!fixed || (|s| >= 2 && IsDigit(s[1])))
    ensures r.Some? ==> r.value.value < 100
    ensures r.Some? && !(|s| >= 2 && IsDigit(s[1])) ==> r.value.value == DigitValue(s[0]) && r.value.rest == s[1..]
    ensures r.Some? && |s| >= 2 && IsDigit(s[1]) ==>
      r.value.value == DigitValue(s[0]) * 10 + DigitValue(s[1]) && r.value.rest == s[2..]
  {
    if |s| == 0 || !IsDigit(s[0]) then None
    else if |s| == 1 || !IsDigit(s[1]) then
      (if fixed then None else Some(Num(DigitValue(s[0]), s[1..])))
    else Some(Num(DigitValue(s[0]) * 10 + DigitValue(s[1]), s[2..]))
  }

  /** Go's `skip` for a one-character literal of the layout. */
  function Skip(s: string, literal: char): (r: Option<string>)
    ensures r.Some? <==> |s| > 0 && s[0] == literal
    ensures r.Some? ==> s == [literal] + r.value
  {
    if |s| > 0 && s[0] == literal then Some(s[1..]) else None
  }

  /** `time.Parse("2006-01-02", s)`, keeping the parsed year, month and day. */
  function ParseDate(s: string): (r: Option<Date>)
    ensures r.Some? ==> ValidDate(r.value) && |s| == 10 && s[4] == '-' && s[7] == '-'
    ensures r.Some? ==> AllDigits(s[..4]) && r.value.year == DigitsValue(s[..4])
    ensures r.Some? ==> IsDigit(s[5]) && IsDigit(s[6]) && r.value.month == DigitValue(s[5]) * 10 + DigitValue(s[6])
    ensures r.Some? ==> IsDigit(s[8]) && IsDigit(s[9]) && r.value.day == DigitValue(s[8]) * 10 + DigitValue(s[9])
  {
    if |s| < 4 || !AllDigits(s[..4]) then None
    else
      FourDigits(s[..4]);
      var year := DigitsValue(s[..4]);
      var afterYear :- Skip(s[4..], '-');
      var month :- GetNum(afterYear, true);
      if month.value < 1 || 12 < month.value then None
      else
        var afterMonth :- Skip(month.rest, '-');
        var day :- GetNum(afterMonth, true);
        if day.rest != [] then None
        else if day.value < 1 || DaysIn(month.value, year) < day.value then None
        else Some(Date(year, month.value, day.value))
  }

  /** `time.Parse("15:04", s)`, keeping the parsed hour and minute. */
  function ParseClock(s: string): (r: Option<Clock>)
    ensures r.Some? ==> ValidClock(r.value) && 4 <= |s| <= 5
  {
    var hour :- GetNum(s, false);
    if 24 <= hour.value then None
    else
      var afterHour :- Skip(hour.rest, ':');
      var minute :- GetNum(afterHour, true);
      if 60 <= minute.value then None
      else if minute.rest != [] then None
      else Some(Clock(hour.value, minute.value))
  }

  function Pad2(n: nat): (s: string)
    requires n < 100
  {
    [Digit(n / 10), Digit(n % 10)]
  }

  function Pad4(n: nat): (s: string)
    requires n < 10000
  {
    [Digit(n / 1000), Digit(n / 100 % 10), Digit(n / 10 % 10), Digit(n % 10)]
  }

  /** A date written in the layout "2006-01-02". */
  function FormatDate(d: Date): (s: string)
    requires ValidDate(d)
  {
    Pad4(d.year) + "-" + Pad2(d.month) + "-" + Pad2(d.day)
  }

  /** A time of day written in the layout "15:04" with a two-digit hour. */
  function FormatClock(c: Clock): (s: string)
    requires ValidClock(c)
  {
    Pad2(c.hour) + ":" + Pad2(c.minute)
  }

  /** The same time with the one-digit hour Go's "15" also accepts. */
  function ShortClock(c: Clock): (s: string)
    requires ValidClock(c) && c.hour < 10
  {
    [Digit(c.hour)] + ":" + Pad2(c.minute)
  }

  lemma FourDigits(s: string)
    requires |s| == 4 && AllDigits(s)
    ensures DigitsValue(s) == DigitValue(s[0]) * 1000 + DigitValue(s[1]) * 100 + DigitValue(s[2]) * 10 + DigitValue(s[3])
  {
    var s1, s2, s3 := s[..1], s[..2], s[..3];
    assert s3[..|s3| - 1] == s2 && s2[..|s2| - 1] == s1 && s1[..|s1| - 1] == [];
    assert DigitsValue(s1) == DigitValue(s[0]);
    assert DigitsValue(s2) == DigitValue(s[0]) * 10 + DigitValue(s[1]);
    assert DigitsValue(s3) == DigitsValue(s2) * 10 + DigitValue(s[2]);
  }

  lemma GetNumPad2(n: nat, rest: string, fixed: bool)
    requires n < 100
    ensures GetNum(Pad2(n) + rest, fixed) == Some(Num(n, rest))
  {
    assert (Pad2(n) + rest)[2..] == rest;
  }

  /** Every valid date is accepted in its "2006-01-02" form and parses back to itself. */
  lemma DateRoundTrip(d: Date)
    requires ValidDate(d)
    ensures ParseDate(FormatDate(d)) == Some(d)
  {
    var s := FormatDate(d);
    var afterYear := "-" + Pad2(d.month) + "-" + Pad2(d.day);
    assert s[..4] == Pad4(d.year) && s[4..] == afterYear;
    FourDigits(s[..4]);
    Split4(d.year);
    assert afterYear[1..] == Pad2(d.month) + ("-" + Pad2(d.day));
    GetNumPad2(d.month, "-" + Pad2(d.day), true);
    GetNumPad2(d.day, [], true);
    assert Pad2(d.day) + [] == Pad2(d.day);
  }

  /** Every string the date layout accepts is the "2006-01-02" form of the date it parses to. */
  lemma DateStringIsCanonical(s: string)
    requires ParseDate(s).Some?
    ensures FormatDate(ParseDate(s).value) == s
  {
    Pad4Digits(s[..4]);
    Pad2Digits(s[5..7]);
    Pad2Digits(s[8..10]);
    assert s == s[..4] + "-" + s[5..7] + "-" + s[8..10];
  }

  lemma Pad2Digits(p: string)
    requires |p| == 2 && AllDigits(p)
    ensures Pad2(DigitValue(p[0]) * 10 + DigitValue(p[1])) == p
  {
  }

  lemma Pad4Digits(p: string)
    requires |p| == 4 && AllDigits(p)
    ensures DigitsValue(p) < 10000 && Pad4(DigitsValue(p)) == p
  {
    FourDigits(p);
    Join4(DigitValue(p[0]), DigitValue(p[1]), DigitValue(p[2]), DigitValue(p[3]));
    var q := Pad4(DigitsValue(p));
    assert q[0] == p[0] && q[1] == p[1] && q[2] == p[2] && q[3] == p[3];
  }

  lemma Join4(a: nat, b: nat, c: nat, e: nat)
    requires a < 10 && b < 10 && c < 10 && e < 10
    ensures var y := a * 1000 + b * 100 + c * 10 + e;
      y < 10000 && y / 1000 == a && y / 100 % 10 == b && y / 10 % 10 == c && y % 10 == e
  {
    var y := a * 1000 + b * 100 + c * 10 + e;
    assert y / 10 == a * 100 + b * 10 + c;
    assert y / 100 == a * 10 + b;
  }

  lemma Split4(y: nat)
    requires y < 10000
    ensures (y / 1000) * 1000 + (y / 100 % 10) * 100 + (y / 10 % 10) * 10 + y % 10 == y
  {
    assert y == y / 10 * 10 + y % 10;
    assert y / 10 == y / 100 * 10 + y / 10 % 10;
    assert y / 100 == y / 1000 * 10 + y / 100 % 10;
  }

  /** Every valid time of day is accepted in its two-digit "15:04" form and parses back to itself. */
  lemma ClockRoundTrip(c: Clock)
    requires ValidClock(c)
    ensures ParseClock(FormatClock(c)) == Some(c)
  {
  }

  /** One-digit hours are accepted too, as Go's "15" element allows. */
  lemma ShortClockAccepted(c: Clock)
    requires ValidClock(c) && c.hour < 10
    ensures ParseClock(ShortClock(c)) == Some(c)
  {
  }

  /** The strings the time layout accepts are exactly the two forms above. */
  lemma ClockStringForms(s: string)
    requires ParseClock(s).Some?
    ensures var c := ParseClock(s).value;
      s == FormatClock(c) || (c.hour < 10 && s == ShortClock(c))
  {
  }
}
