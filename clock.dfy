/**
 * The countdown clock text of the timer display: a whole number of seconds
 * rendered as minutes and seconds, each part padded to two digits with one
 * leading zero, joined by a colon.
 *
 * JavaScript renders the two parts with its number-to-string conversion,
 * which for a non-negative whole number is its plain decimal form; that is
 * `Decimal` below. `ParseClock` reads such a text back and is the partner
 * that `FormatTime` is proved against.
 */
module Clock {

  datatype Option<T> = None | Some(value: T)

  predicate IsDigit(c: char) {
    '0' <= c <= '9'
  }

  predicate AllDigits(s: string) {
    forall i :: 0 <= i < |s| ==> IsDigit(s[i])
  }

  function DigitChar(d: nat): (c: char)
    requires d < 10
    ensures IsDigit(c) && DigitValue(c) == d
  {
    ('0' as int + d) as char
  }

  function DigitValue(c: char): (d: nat)
    requires IsDigit(c)
    ensures d < 10
  {
    c as int - '0' as int
  }

  /** The number a string of decimal digits denotes (most significant first). */
  function DecimalValue(s: string): nat
    requires AllDigits(s)
  {
    if s == [] then 0 else DecimalValue(s[..|s| - 1]) * 10 + DigitValue(s[|s| - 1])
  }

  /**
   * The decimal text of a non-negative whole number, as JavaScript's
   * number-to-string conversion gives it: digits only, no leading zero
   * except for zero itself, and it denotes `n`.
   */
  function Decimal(n: nat): (r: string)
    ensures |r| >= 1 && AllDigits(r)
    ensures DecimalValue(r) == n
    ensures |r| == 1 <==> n < 10
    ensures |r| == 2 <==> 10 <= n < 100
    ensures |r| > 1 ==> r[0] != '0'
  {
    if n < 10 then [DigitChar(n)]
    else
      var prefix := Decimal(n / 10);
      var r := prefix + [DigitChar(n % 10)];
      assert r[..|r| - 1] == prefix;
      r
  }

  /**
   * One part of the clock: below ten the decimal text gets a single leading
   * "0", from ten on it is left as it is (so it is never truncated).
   */
  function PadPart(n: nat): (r: string)
    ensures AllDigits(r) && DecimalValue(r) == n
    ensures |r| >= 2
    ensures |r| == 2 <==> n < 100
    ensures n < 100 ==> r == [DigitChar(n / 10), DigitChar(n % 10)]
    ensures n >= 10 ==> r == Decimal(n)
  {
    if n < 10 then
      var r := "0" + Decimal(n);
      assert r[..1] == "0";
      r
    else
      var r := Decimal(n);
      if n < 100 then
        assert Decimal(n / 10) == [DigitChar(n / 10)];
        r
      else
        r
  }

  /** The clock text for `t` seconds: minutes, a colon, seconds. */
  function FormatTime(t: nat): (r: string)
    ensures |r| >= 5 && r[|r| - 3] == ':'
  {
    PadPart(t / 60) + ":" + PadPart(t % 60)
  }

  /**
   * Reads a clock text back: the last two characters are the seconds, the
   * character before them is the colon, everything before that the minutes.
   */
  function ParseClock(s: string): Option<nat>
  {
    if |s| >= 4 && s[|s| - 3] == ':' && AllDigits(s[..|s| - 3]) && AllDigits(s[|s| - 2..])
    then Some(DecimalValue(s[..|s| - 3]) * 60 + DecimalValue(s[|s| - 2..]))
    else None
  }

  /** The clock text reads back as the number of seconds it was made from. */
  lemma FormatTimeRoundTrip(t: nat)
    ensures ParseClock(FormatTime(t)) == Some(t)
  {
    var r := FormatTime(t);
    assert r[..|r| - 3] == PadPart(t / 60);
    assert r[|r| - 2..] == PadPart(t % 60);
  }

  /** Below 100 minutes the clock is exactly `MM:SS`, both parts zero-padded. */
  lemma FormatTimeShortShape(t: nat)
    requires t < 6000
    ensures |FormatTime(t)| == 5
    ensures FormatTime(t) == [DigitChar(t / 60 / 10), DigitChar(t / 60 % 10), ':',
                              DigitChar(t % 60 / 10), DigitChar(t % 60 % 10)]
  {
    assert t / 60 < 100;
    assert PadPart(t / 60) == [DigitChar(t / 60 / 10), DigitChar(t / 60 % 10)];
    assert PadPart(t % 60) == [DigitChar(t % 60 / 10), DigitChar(t % 60 % 10)];
  }

  /**
   * From 100 minutes on the minutes are written in full (three or more
   * digits, no truncation); the seconds stay two digits below 60.
   */
  lemma FormatTimeLongShape(t: nat)
    requires t >= 6000
    ensures FormatTime(t) == Decimal(t / 60) + ":" + PadPart(t % 60)
    ensures |FormatTime(t)| >= 6
    ensures |FormatTime(t)| == |Decimal(t / 60)| + 3
  {
    assert t / 60 >= 100;
  }

  /** The seconds the clock shows are always below 60, whatever `t` is. */
  lemma SecondsBelowSixty(t: nat)
    ensures DecimalValue(FormatTime(t)[|FormatTime(t)| - 2..]) == t % 60 < 60
    ensures DecimalValue(FormatTime(t)[..|FormatTime(t)| - 3]) == t / 60
  {
    var s := FormatTime(t);
    assert s == PadPart(t / 60) + ":" + PadPart(t % 60);
    assert s[|s| - 2..] == PadPart(t % 60);
    assert s[..|s| - 3] == PadPart(t / 60);
  }

  /** Different durations never show the same clock text. */
  lemma FormatTimeInjective(a: nat, b: nat)
    requires FormatTime(a) == FormatTime(b)
    ensures a == b
  {
    FormatTimeRoundTrip(a);
    FormatTimeRoundTrip(b);
  }

  /** The clock texts of a few countdowns, zero, the default and past 99 minutes. */
  lemma FormatTimeExamples()
    ensures FormatTime(0) == "00:00"
    ensures FormatTime(60) == "01:00"
    ensures FormatTime(120) == "02:00"
    ensures FormatTime(599) == "09:59"
    ensures FormatTime(6000) == "100:00"
  {
    FormatTimeShortShape(0);
    FormatTimeShortShape(60);
    FormatTimeShortShape(120);
    FormatTimeShortShape(599);
    FormatTimeLongShape(6000);
    assert Decimal(100) == "100" by {
      assert Decimal(10) == "10";
    }
  }
}
