/**
 * The integer time arithmetic of the position slider: splitting a number of
 * seconds into minutes and seconds, and the "m:ss" text the labels show.
 */
module TimeDisplay {
  import opened Options

  /** divmod(seconds, 60): floored, so the seconds part is never negative. */
  function Clock(seconds: int): (ms: (int, int))
    ensures ms.0 * 60 + ms.1 == seconds
    ensures 0 <= ms.1 < 60
  {
    (seconds / 60, seconds % 60)
  }

  /** Any split of `seconds` into minutes and a seconds part below a minute is Clock's. */
  lemma ClockUnique(seconds: int, minutes: int, rest: int)
    requires minutes * 60 + rest == seconds && 0 <= rest < 60
    ensures Clock(seconds) == (minutes, rest)
  {
  }

  function DigitChar(d: int): char
    requires 0 <= d < 10
  {
    "0123456789"[d]
  }

  predicate IsDigit(c: char)
  {
    '0' <= c <= '9'
  }

  function DigitValue(c: char): int
  {
    c as int - '0' as int
  }

  /** The decimal digits of `n`: "0" for zero, and otherwise no leading zero. */
  function Digits(n: nat): (t: string)
    ensures |t| >= 1
    ensures forall i :: 0 <= i < |t| ==> IsDigit(t[i])
    ensures n == 0 ==> t == "0"
    ensures n > 0 ==> t[0] != '0'
  {
    if n < 10 then [DigitChar(n)] else Digits(n / 10) + [DigitChar(n % 10)]
  }

  /** The number a string of decimal digits denotes. */
  function DigitsValue(t: string): int
  {
    if t == [] then 0 else DigitsValue(t[..|t| - 1]) * 10 + DigitValue(t[|t| - 1])
  }

  lemma {:induction false} DigitsRoundTrip(n: nat)
    ensures DigitsValue(Digits(n)) == n
  {
    if n >= 10 {
      var t := Digits(n);
      assert t[..|t| - 1] == Digits(n / 10);
      DigitsRoundTrip(n / 10);
    }
  }

  /** Text made of an optional minus sign followed by at least one digit. */
  predicate IsSignedDigits(t: string)
  {
    var digits := if |t| > 0 && t[0] == '-' then t[1..] else t;
    |digits| >= 1 && forall i :: 0 <= i < |digits| ==> IsDigit(digits[i])
  }

  /** The integer an optionally signed string of digits denotes. */
  function IntValue(t: string): int
  {
    if |t| > 0 && t[0] == '-' then -DigitsValue(t[1..]) else DigitsValue(t)
  }

  /**
   * The text of an integer in an f-string: a minus sign exactly when
   * negative, then its digits, with no leading zero.
   */
  function IntText(n: int): (t: string)
    ensures IsSignedDigits(t) && (t[0] == '-' <==> n < 0)
    ensures var d := if n < 0 then t[1..] else t; |d| > 1 ==> d[0] != '0'
    ensures IntValue(t) == n
  {
    if n < 0 then
      var t := "-" + Digits(-n);
      assert t[1..] == Digits(-n);
      DigitsRoundTrip(-n);
      t
    else
      DigitsRoundTrip(n);
      Digits(n)
  }

  /** The format "02d": two digits, zero-padded. */
  function Pad2(n: int): (t: string)
    requires 0 <= n < 100
    ensures |t| == 2 && IsDigit(t[0]) && IsDigit(t[1])
  {
    [DigitChar(n / 10), DigitChar(n % 10)]
  }

  lemma Pad2RoundTrip(n: int)
    requires 0 <= n < 100
    ensures DigitsValue(Pad2(n)) == n
  {
  }

  /**
   * The label text "m:ss" for a number of seconds: the minutes as a signed
   * integer without leading zero, a colon, and two digits of seconds below
   * 60, which together make up the number of seconds.
   */
  function ClockText(seconds: int): (t: string)
    ensures |t| >= 4 && t[|t| - 3] == ':'
    ensures IsSignedDigits(t[..|t| - 3])
    ensures t[0] == '-' <==> seconds < 0
    ensures var m := t[..|t| - 3]; var d := if seconds < 0 then m[1..] else m; |d| > 1 ==> d[0] != '0'
    ensures IsDigit(t[|t| - 2]) && IsDigit(t[|t| - 1]) && DigitsValue(t[|t| - 2..]) < 60
    ensures IntValue(t[..|t| - 3]) * 60 + DigitsValue(t[|t| - 2..]) == seconds
  {
    var (minutes, rest) := Clock(seconds);
    var t := IntText(minutes) + ":" + Pad2(rest);
    assert t[..|t| - 3] == IntText(minutes);
    assert t[|t| - 2..] == Pad2(rest);
    Pad2RoundTrip(rest);
    t
  }

  /**
   * Reads a label back: a signed run of digits before the colon and two
   * digits after it that make less than a minute; anything else is None.
   */
  function ParseClock(t: string): Option<int>
  {
    if |t| < 4 || t[|t| - 3] != ':' || !IsSignedDigits(t[..|t| - 3]) then None
    else
      var secs := t[|t| - 2..];
      if !IsDigit(secs[0]) || !IsDigit(secs[1]) || DigitsValue(secs) >= 60 then None
      else Some(IntValue(t[..|t| - 3]) * 60 + DigitsValue(secs))
  }

  /** A label whose seconds field reads 60 is not a label: it does not read back as any number. */
  lemma ParseClockRejectsSixtySeconds(minutes: string)
    requires IsSignedDigits(minutes)
    ensures ParseClock(minutes + ":60") == None
  {
    var t := minutes + ":60";
    assert t[|t| - 3] == ':' && t[..|t| - 3] == minutes && t[|t| - 2..] == "60";
    assert DigitsValue("60") == 60 by {
      assert "60"[..1] == "6";
    }
  }

  /** The "m:ss" label always reads back as the number of seconds it was made from. */
  lemma ClockTextRoundTrip(seconds: int)
    ensures ParseClock(ClockText(seconds)) == Some(seconds)
  {
  }
}
