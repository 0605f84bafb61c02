/**
 * The countdown formatter of the reminder card
 * (src/components/ReminderControl.tsx): seconds as `m:ss`.
 */
module TimeFormat {
  import opened Wrappers

  predicate IsDigit(c: char) { '0' <= c <= '9' }

  function Digit(d: int): (c: char)
    requires 0 <= d <= 9
    ensures IsDigit(c)
  {
    ('0' as int + d) as char
  }

  function DigitValue(c: char): int { c as int - '0' as int }

  /** Decimal text of a natural number, without leading zeros (`Number.prototype.toString`). */
  function NatToString(n: nat): (s: string)
    ensures |s| >= 1
    ensures forall k :: 0 <= k < |s| ==> IsDigit(s[k])
    ensures s[0] == '0' ==> n == 0
    decreases n
  {
    if n < 10 then [Digit(n)] else NatToString(n / 10) + [Digit(n % 10)]
  }

  /** Decimal text of an integer, with a leading '-' when negative. */
  function IntToString(i: int): string
  {
    if i < 0 then "-" + NatToString(-i) else NatToString(i)
  }

  /** `padStart(2, '0')`: left-pads with '0' to length two; longer text is unchanged. */
  function PadStart2(s: string): (r: string)
    ensures |s| >= 2 ==> r == s
    ensures |s| < 2 ==> |r| == 2 && r[2 - |s|..] == s && forall k :: 0 <= k < 2 - |s| ==> r[k] == '0'
  {
    if |s| >= 2 then s else if |s| == 1 then "0" + s else "00"
  }

  /** JavaScript's `%`: the remainder takes the sign of the dividend. */
  function TruncatedRemainder(a: int, b: int): (r: int)
    requires b > 0
    ensures a >= 0 ==> 0 <= r < b && r == a % b
    ensures a < 0 ==> -b < r <= 0
  {
    if a >= 0 then a % b else -((-a) % b)
  }

  /**
   * `formatTime`: minutes are `Math.floor(seconds / 60)` (Dafny's division
   * by a positive divisor already floors), seconds the JavaScript remainder,
   * padded to two characters.  For a non-negative input the text is the
   * minutes in decimal, one ':', and exactly two second digits.
   */
  function FormatTime(seconds: int): (r: string)
    ensures seconds >= 0 ==>
      r == NatToString(seconds / 60) + ":" + [Digit(seconds % 60 / 10), Digit(seconds % 60 % 10)]
  {
    var mins := seconds / 60;
    var secs := TruncatedRemainder(seconds, 60);
    var text := IntToString(mins) + ":" + PadStart2(IntToString(secs));
    if seconds >= 0 then TwoDigitSeconds(secs); text else text
  }

  /** A remainder below 60 prints as exactly its two decimal digits once padded. */
  lemma TwoDigitSeconds(secs: int)
    requires 0 <= secs < 60
    ensures PadStart2(IntToString(secs)) == [Digit(secs / 10), Digit(secs % 10)]
  {
    if secs >= 10 {
      assert NatToString(secs) == NatToString(secs / 10) + [Digit(secs % 10)];
    }
  }

  /** The number a string of decimal digits denotes. */
  function ParseNat(s: string): int
  {
    if s == [] then 0 else ParseNat(s[..|s| - 1]) * 10 + DigitValue(s[|s| - 1])
  }

  lemma {:induction false} ParseNatToString(n: nat)
    ensures ParseNat(NatToString(n)) == n
    decreases n
  {
    if n >= 10 {
      var s := NatToString(n);
      assert s[..|s| - 1] == NatToString(n / 10);
      ParseNatToString(n / 10);
    }
  }

  /** Reads `m:ss` back into seconds; None when the text is not of that shape. */
  function ParseTime(t: string): Option<int>
  {
    if |t| >= 4 && t[|t| - 3] == ':'
       && (forall k :: 0 <= k < |t| - 3 ==> IsDigit(t[k]))
       && IsDigit(t[|t| - 2]) && IsDigit(t[|t| - 1])
    then Some(ParseNat(t[..|t| - 3]) * 60 + ParseNat(t[|t| - 2..]))
    else None
  }

  /** Two digits read back as the number below 60 they were printed from. */
  lemma ParseTwoDigits(secs: int)
    requires 0 <= secs < 60
    ensures ParseNat([Digit(secs / 10), Digit(secs % 10)]) == secs
  {
    var ss := [Digit(secs / 10), Digit(secs % 10)];
    assert ss[..1] == [Digit(secs / 10)] && [Digit(secs / 10)][..0] == [];
    assert DigitValue(Digit(secs / 10)) == secs / 10 && DigitValue(Digit(secs % 10)) == secs % 10;
    assert ParseNat(ss[..1]) == secs / 10;
    assert ParseNat(ss) == ParseNat(ss[..1]) * 10 + DigitValue(ss[1]);
  }

  /** Digits, a colon and two more digits parse as minutes and seconds. */
  lemma ParseTimeOfParts(m: string, ss: string)
    requires |m| >= 1 && forall k :: 0 <= k < |m| ==> IsDigit(m[k])
    requires |ss| == 2 && IsDigit(ss[0]) && IsDigit(ss[1])
    ensures ParseTime(m + ":" + ss) == Some(ParseNat(m) * 60 + ParseNat(ss))
  {
    var t := m + ":" + ss;
    assert t[..|t| - 3] == m;
    assert t[|t| - 2..] == ss;
    assert forall k :: 0 <= k < |t| - 3 ==> t[k] == m[k];
  }

  /** Round trip: the formatted countdown reads back as the same number of seconds. */
  lemma FormatTimeRoundTrip(seconds: nat)
    ensures ParseTime(FormatTime(seconds)) == Some(seconds)
  {
    var mins, secs := seconds / 60, seconds % 60;
    ParseNatToString(mins);
    ParseTwoDigits(secs);
    ParseTimeOfParts(NatToString(mins), [Digit(secs / 10), Digit(secs % 10)]);
  }

  /** The full hour shows as "60:00" and an expired countdown as "0:00". */
  lemma FormatTimeExamples()
    ensures FormatTime(3600) == "60:00"
    ensures FormatTime(0) == "0:00"
  {
    assert NatToString(60) == NatToString(6) + [Digit(0)];
  }
}
