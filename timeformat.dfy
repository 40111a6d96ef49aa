/** format_time: a play time in milliseconds shown as "<h>h <m>m <s>s". */
module TimeFormat {

  datatype Clock = Clock(hours: nat, minutes: nat, seconds: nat)

  /** Whole hours, minutes and seconds in a duration; hours are not wrapped. */
  function Split(ms: nat): (c: Clock)
    ensures c.minutes < 60 && c.seconds < 60
    ensures c.hours * 3600 + c.minutes * 60 + c.seconds == ms / 1000
  {
    var seconds := ms / 1000;
    var minutes := seconds / 60;
    var hours := minutes / 60;
    Clock(hours, minutes % 60, seconds % 60)
  }

  /** Milliseconds at the start of the second a clock reading shows. */
  function Millis(c: Clock): nat
  {
    ((c.hours * 60 + c.minutes) * 60 + c.seconds) * 1000
  }

  /** Every reading with minutes and seconds below sixty is what Split gives
      for each millisecond of that second, so Split loses only the
      sub-second part. */
  lemma SplitInvertsMillis(c: Clock, rest: nat)
    requires c.minutes < 60 && c.seconds < 60 && rest < 1000
    ensures Split(Millis(c) + rest) == c
  {
    var total := (c.hours * 60 + c.minutes) * 60 + c.seconds;
    assert (Millis(c) + rest) / 1000 == total;
    assert total / 60 == c.hours * 60 + c.minutes && total % 60 == c.seconds;
    assert (c.hours * 60 + c.minutes) / 60 == c.hours && (c.hours * 60 + c.minutes) % 60 == c.minutes;
  }

  /** The character of a decimal digit. */
  function DigitChar(d: nat): (ch: char)
    requires d < 10
    ensures '0' <= ch <= '9' && ch as int - '0' as int == d
  {
    ['0', '1', '2', '3', '4', '5', '6', '7', '8', '9'][d]
  }

  /** A natural number written in decimal, as JavaScript's template strings
      render it. */
  function Decimal(n: nat): (s: string)
    ensures |s| > 0
    ensures forall k :: 0 <= k < |s| ==> '0' <= s[k] <= '9'
    ensures |s| > 1 ==> s[0] != '0'
  {
    if n < 10 then [DigitChar(n)] else Decimal(n / 10) + [DigitChar(n % 10)]
  }

  /** The value of a string of decimal digits. */
  function DigitsValue(s: string): nat
    requires forall k :: 0 <= k < |s| ==> '0' <= s[k] <= '9'
  {
    if s == [] then 0 else DigitsValue(s[..|s| - 1]) * 10 + (s[|s| - 1] as int - '0' as int)
  }

  lemma {:induction false} DecimalRoundTrip(n: nat)
    ensures DigitsValue(Decimal(n)) == n
  {
    if n >= 10 {
      var s := Decimal(n);
      assert s[..|s| - 1] == Decimal(n / 10);
      DecimalRoundTrip(n / 10);
    }
  }

  /** format_time(ms). */
  function FormatTime(ms: nat): string
  {
    var c := Split(ms);
    Decimal(c.hours) + "h " + Decimal(c.minutes) + "m " + Decimal(c.seconds) + "s"
  }

  /** The rendered text is the three components in order, each followed by its
      unit, minutes and seconds in at most two digits. */
  lemma FormatTimeShape(ms: nat)
    ensures var c := Split(ms);
      var h, m, s := Decimal(c.hours), Decimal(c.minutes), Decimal(c.seconds);
      && FormatTime(ms) == h + "h " + m + "m " + s + "s"
      && DigitsValue(h) == c.hours && DigitsValue(m) == c.minutes && DigitsValue(s) == c.seconds
      && |m| <= 2 && |s| <= 2
  {
    var c := Split(ms);
    DecimalRoundTrip(c.hours);
    DecimalRoundTrip(c.minutes);
    DecimalRoundTrip(c.seconds);
    ShortDecimal(c.minutes);
    ShortDecimal(c.seconds);
  }

  lemma ShortDecimal(n: nat)
    requires n < 100
    ensures |Decimal(n)| <= 2
  {
    if n >= 10 {
      assert Decimal(n / 10) == [DigitChar(n / 10)];
    }
  }
}
