/**
 * The arrival-time text appended to the last route step: the date pattern
 * "hh:mm:ss a" in the en_US_POSIX locale with "AM" and "PM" as the day-period
 * symbols. Under the date-field symbols of Unicode Technical Standard #35
 * (Part 4, Dates, section 8) "hh" is the hour on a 1-12 clock padded to two
 * digits, "mm" and "ss" are the minute and second padded to two digits, and
 * "a" is the day period. The clock fields of the arrival date are inputs.
 */
module EtaFormat {
  import opened Wrappers

  const AmSymbol: string := "AM"
  const PmSymbol: string := "PM"

  /** The calendar fields a 24-hour wall clock can show. */
  predicate ValidTime(hour: nat, minute: nat, second: nat)
  {
    hour < 24 && minute < 60 && second < 60
  }

  function DigitChar(d: nat): (c: char)
    requires d < 10
    ensures '0' <= c <= '9'
    ensures c as int - '0' as int == d
  {
    ('0' as int + d) as char
  }

  function DigitValue(c: char): (d: Option<nat>)
    ensures d.Some? <==> '0' <= c <= '9'
    ensures d.Some? ==> d.value < 10 && DigitChar(d.value) == c
  {
    if '0' <= c <= '9' then Some((c as int - '0' as int) as nat) else None
  }

  /** A number below 100 as exactly two decimal digits, zero-padded. */
  function TwoDigits(n: nat): (s: string)
    requires n < 100
    ensures |s| == 2
    ensures '0' <= s[0] <= '9' && '0' <= s[1] <= '9'
    ensures 10 * (s[0] as int - '0' as int) + (s[1] as int - '0' as int) == n
  {
    [DigitChar(n / 10), DigitChar(n % 10)]
  }

  /** Reads back two decimal digits; anything else is rejected. */
  function ParseTwoDigits(s: string): Option<nat>
    requires |s| == 2
  {
    match (DigitValue(s[0]), DigitValue(s[1]))
    case (Some(tens), Some(units)) => Some(10 * tens + units)
    case _ => None
  }

  lemma TwoDigitsRoundTrip(n: nat)
    requires n < 100
    ensures ParseTwoDigits(TwoDigits(n)) == Some(n)
  {
    var s := TwoDigits(n);
    assert DigitValue(s[0]) == Some(n / 10);
    assert DigitValue(s[1]) == Some(n % 10);
  }

  lemma ParseTwoDigitsCanonical(s: string)
    requires |s| == 2 && ParseTwoDigits(s).Some?
    ensures ParseTwoDigits(s).value < 100
    ensures TwoDigits(ParseTwoDigits(s).value) == s
  {
    var tens, units := DigitValue(s[0]).value, DigitValue(s[1]).value;
    var n := 10 * tens + units;
    assert n / 10 == tens && n % 10 == units;
  }

  /** The "hh" field: the hour of a 12-hour clock, where midnight and noon show 12. */
  function ClockHour(hour: nat): (h: nat)
    requires hour < 24
    ensures 1 <= h <= 12
    ensures h % 12 == hour % 12
  {
    if hour % 12 == 0 then 12 else hour % 12
  }

  /** The "a" field with the formatter's symbols. */
  function DayPeriod(hour: nat): (p: string)
    requires hour < 24
    ensures p == AmSymbol <==> hour < 12
    ensures p == PmSymbol <==> 12 <= hour
  {
    if hour < 12 then AmSymbol else PmSymbol
  }

  /** The arrival time as the formatter renders it. */
  function FormatTime(hour: nat, minute: nat, second: nat): (t: string)
    requires ValidTime(hour, minute, second)
    ensures |t| == 11
    ensures t[2] == ':' && t[5] == ':' && t[8] == ' '
    ensures forall i :: i in {0, 1, 3, 4, 6, 7} ==> '0' <= t[i] <= '9'
    ensures t[9..] == AmSymbol <==> hour < 12
    ensures t[9..] == PmSymbol <==> 12 <= hour
  {
    TwoDigits(ClockHour(hour)) + ":" + TwoDigits(minute) + ":" + TwoDigits(second) + " " + DayPeriod(hour)
  }

  /**
   * The inverse of FormatTime: reads "hh:mm:ss a" back into the 24-hour
   * clock fields, rejecting any text the formatter cannot produce.
   */
  function ParseTime(t: string): Option<(nat, nat, nat)>
  {
    if |t| != 11 || t[2] != ':' || t[5] != ':' || t[8] != ' ' then None
    else
      match (ParseTwoDigits(t[0..2]), ParseTwoDigits(t[3..5]), ParseTwoDigits(t[6..8]))
      case (Some(h12), Some(m), Some(s)) =>
        if 1 <= h12 <= 12 && m < 60 && s < 60 && (t[9..] == AmSymbol || t[9..] == PmSymbol) then
          Some((if t[9..] == AmSymbol then h12 % 12 else h12 % 12 + 12, m, s))
        else None
      case _ => None
  }

  lemma {:induction false} FormatParseRoundTrip(hour: nat, minute: nat, second: nat)
    requires ValidTime(hour, minute, second)
    ensures ParseTime(FormatTime(hour, minute, second)) == Some((hour, minute, second))
  {
    var t := FormatTime(hour, minute, second);
    var h12 := ClockHour(hour);
    assert t[0..2] == TwoDigits(h12);
    assert t[3..5] == TwoDigits(minute);
    assert t[6..8] == TwoDigits(second);
    assert t[9..] == DayPeriod(hour);
    TwoDigitsRoundTrip(h12);
    TwoDigitsRoundTrip(minute);
    TwoDigitsRoundTrip(second);
  }

  lemma {:induction false} ParseFormatRoundTrip(t: string)
    requires ParseTime(t).Some?
    ensures ValidTime(ParseTime(t).value.0, ParseTime(t).value.1, ParseTime(t).value.2)
    ensures FormatTime(ParseTime(t).value.0, ParseTime(t).value.1, ParseTime(t).value.2) == t
  {
    var (hour, minute, second) := ParseTime(t).value;
    ParseTwoDigitsCanonical(t[0..2]);
    ParseTwoDigitsCanonical(t[3..5]);
    ParseTwoDigitsCanonical(t[6..8]);
    var h12 := ParseTwoDigits(t[0..2]).value;
    assert ClockHour(hour) == h12;
    assert DayPeriod(hour) == t[9..];
    var f := FormatTime(hour, minute, second);
    assert f[0..2] == t[0..2] && f[3..5] == t[3..5] && f[6..8] == t[6..8] && f[9..] == t[9..];
    assert f == t[0..2] + [t[2]] + t[3..5] + [t[5]] + t[6..8] + [t[8]] + t[9..];
    assert t == t[0..2] + [t[2]] + t[3..5] + [t[5]] + t[6..8] + [t[8]] + t[9..];
  }

  /** Distinct arrival times never render to the same text. */
  lemma FormatTimeInjective(h1: nat, m1: nat, s1: nat, h2: nat, m2: nat, s2: nat)
    requires ValidTime(h1, m1, s1) && ValidTime(h2, m2, s2)
    requires FormatTime(h1, m1, s1) == FormatTime(h2, m2, s2)
    ensures h1 == h2 && m1 == m2 && s1 == s2
  {
    FormatParseRoundTrip(h1, m1, s1);
    FormatParseRoundTrip(h2, m2, s2);
  }
}
