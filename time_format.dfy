/**
 * The `formatTime` helper of the player page: a time in seconds shown as
 * `M:SS`, with the JavaScript arithmetic it relies on (`Math.floor`,
 * the truncating `%`, `Number.prototype.toString` on integers and
 * `padStart(2, '0')`) written out over exact reals and strings.
 *
 * A small parser for the same format (not part of the code) is the partner
 * that the round-trip lemma connects `FormatTime` with.
 */
module TimeFormat {
  import opened Wrappers

  // ---------------------------------------------------------------------
  // JavaScript number arithmetic
  // ---------------------------------------------------------------------

  /** `Math.trunc`: rounds toward zero. */
  function Truncate(x: real): (i: int)
    ensures x >= 0.0 ==> i as real <= x < i as real + 1.0
    ensures x < 0.0 ==> i as real - 1.0 < x <= i as real
  {
    if x >= 0.0 then x.Floor else -((-x).Floor)
  }

  /** JavaScript's `x % 60`: the remainder takes the sign of the dividend. */
  function Remainder60(x: real): (r: real)
    ensures x >= 0.0 ==> 0.0 <= r < 60.0
    ensures x < 0.0 ==> -60.0 < r <= 0.0
    ensures ((x - r) / 60.0).Floor as real == (x - r) / 60.0
  {
    var q := Truncate(x / 60.0);
    assert (x - (x - 60.0 * q as real)) / 60.0 == q as real;
    x - 60.0 * q as real
  }

  /** `Math.floor(time / 60)`: the whole minutes. */
  function MinutesOf(t: real): (m: int)
    ensures m as real * 60.0 <= t < (m + 1) as real * 60.0
  {
    (t / 60.0).Floor
  }

  /** `Math.floor(time % 60)`: the seconds field, before padding. */
  function SecondsOf(t: real): (s: int)
    ensures t >= 0.0 ==> 0 <= s < 60
    ensures t < 0.0 ==> -60 <= s <= 0
  {
    Remainder60(t).Floor
  }

  /** For a non-negative time the two fields split its whole seconds into minutes and seconds. */
  lemma ClockFieldsOfNonNegative(t: real)
    requires t >= 0.0
    ensures MinutesOf(t) == t.Floor / 60
    ensures SecondsOf(t) == t.Floor % 60
    ensures 60 * MinutesOf(t) + SecondsOf(t) == t.Floor
  {
    var n := t.Floor;
    var q, r := n / 60, n % 60;
    assert n == 60 * q + r && 0 <= r < 60;
    assert q as real * 60.0 <= t;
    assert t < (q + 1) as real * 60.0 by {
      assert t < n as real + 1.0;
      assert n + 1 <= 60 * q + 60;
    }
    assert MinutesOf(t) == q;
    assert Truncate(t / 60.0) == q;
    var rem := t - 60.0 * q as real;
    assert Remainder60(t) == rem;
    assert r as real <= rem < r as real + 1.0;
  }

  // ---------------------------------------------------------------------
  // Decimal text
  // ---------------------------------------------------------------------

  predicate IsDigit(c: char) {
    '0' <= c <= '9'
  }

  function DigitChar(d: nat): (c: char)
    requires d < 10
    ensures IsDigit(c)
  {
    ('0' as int + d) as char
  }

  function DigitValue(c: char): (d: nat)
    requires IsDigit(c)
    ensures d < 10 && DigitChar(d) == c
  {
    c as int - '0' as int
  }

  /** `String(n)` for a non-negative integer: the shortest decimal numeral, no leading zero. */
  function NatToDecimal(n: nat): (s: string)
    ensures 1 <= |s|
    ensures forall k :: 0 <= k < |s| ==> IsDigit(s[k])
    ensures |s| == 1 <==> n < 10
    ensures |s| > 1 ==> s[0] != '0'
  {
    if n < 10 then [DigitChar(n)] else NatToDecimal(n / 10) + [DigitChar(n % 10)]
  }

  /** `String(i)` for any integer: a minus sign before the magnitude of a negative one. */
  function IntToDecimal(i: int): (s: string)
    ensures 1 <= |s|
    ensures forall k :: 0 <= k < |s| ==> IsDigit(s[k]) || (k == 0 && s[k] == '-')
    ensures (i < 0 <==> s[0] == '-') && (i < 0 ==> |s| >= 2)
  {
    if i < 0 then "-" + NatToDecimal(-i) else NatToDecimal(i)
  }

  /** `s.padStart(2, '0')`: zeros in front up to length two; a longer text is left alone. */
  function PadStart2(s: string): (r: string)
    ensures |s| >= 2 ==> r == s
    ensures |s| < 2 ==> |r| == 2 && r[2 - |s|..] == s
    ensures forall k :: 0 <= k < 2 - |s| ==> r[k] == '0'
  {
    if |s| >= 2 then s else seq(2 - |s|, _ => '0') + s
  }

  /** The text shown for a time of `t` seconds: minutes, a colon, the padded seconds. */
  function FormatTime(t: real): string {
    IntToDecimal(MinutesOf(t)) + ":" + PadStart2(IntToDecimal(SecondsOf(t)))
  }

  // ---------------------------------------------------------------------
  // Reading the format back
  // ---------------------------------------------------------------------

  /** The value of a non-empty run of decimal digits (leading zeros allowed). */
  function ParseDigits(s: string): (r: Option<nat>)
    ensures r.Some? <==> (|s| >= 1 && forall k :: 0 <= k < |s| ==> IsDigit(s[k]))
  {
    if |s| == 0 || !IsDigit(s[|s| - 1]) then None
    else if |s| == 1 then Some(DigitValue(s[0]))
    else match ParseDigits(s[..|s| - 1])
      case None => None
      case Some(n) => Some(10 * n + DigitValue(s[|s| - 1]))
  }

  /** An optionally signed decimal integer. */
  function ParseInt(s: string): Option<int> {
    if |s| > 0 && s[0] == '-' then
      match ParseDigits(s[1..])
      case None => None
      case Some(n) => Some(0 - n as int)
    else
      match ParseDigits(s)
      case None => None
      case Some(n) => Some(n)
  }

  /** Splits a text at its first colon. */
  function SplitAtColon(s: string): (r: Option<(string, string)>)
    ensures r.Some? ==> s == r.value.0 + ":" + r.value.1 && ':' !in r.value.0
    ensures r.None? ==> ':' !in s
  {
    if |s| == 0 then None
    else if s[0] == ':' then Some(("", s[1..]))
    else match SplitAtColon(s[1..])
      case None => None
      case Some(p) => Some(([s[0]] + p.0, p.1))
  }

  /** Reads `M:SS` (either field possibly signed) back into its two numbers. */
  function ParseClock(s: string): Option<(int, int)> {
    match SplitAtColon(s)
    case None => None
    case Some(p) =>
      match (ParseInt(p.0), ParseInt(p.1))
      case (Some(m), Some(sec)) => Some((m, sec))
      case _ => None
  }

  lemma {:induction false} ParseNatToDecimal(n: nat)
    ensures ParseDigits(NatToDecimal(n)) == Some(n)
  {
    if n >= 10 {
      var s := NatToDecimal(n);
      assert s[..|s| - 1] == NatToDecimal(n / 10);
      ParseNatToDecimal(n / 10);
    }
  }

  lemma ParseIntToDecimal(i: int)
    ensures ParseInt(IntToDecimal(i)) == Some(i)
  {
    if i < 0 {
      assert IntToDecimal(i)[1..] == NatToDecimal(-i);
      ParseNatToDecimal(-i);
    } else {
      ParseNatToDecimal(i);
    }
  }

  /** Padding the seconds numeral never changes the number it reads as. */
  lemma ParsePadded(i: int)
    ensures ParseInt(PadStart2(IntToDecimal(i))) == Some(i)
  {
    var s := IntToDecimal(i);
    ParseIntToDecimal(i);
    if |s| < 2 {
      assert 0 <= i < 10 && s == [DigitChar(i)];
      var p := PadStart2(s);
      assert p == ['0', DigitChar(i)];
      assert p[..1] == "0";
      assert ParseDigits(p[..1]) == Some(0);
    }
  }

  lemma {:induction false} SplitAtColonOfJoin(m: string, p: string)
    requires ':' !in m
    ensures SplitAtColon(m + ":" + p) == Some((m, p))
  {
    if |m| > 0 {
      var s := m + ":" + p;
      assert s[0] == m[0] && m[0] != ':';
      assert s[1..] == m[1..] + ":" + p;
      assert ':' !in m[1..] by {
        forall k | 0 <= k < |m[1..]| ensures m[1..][k] != ':' {
          assert m[1..][k] == m[k + 1];
        }
      }
      SplitAtColonOfJoin(m[1..], p);
      assert [m[0]] + m[1..] == m;
    } else {
      assert (m + ":" + p)[1..] == p;
    }
  }

  /** Round trip: the text `FormatTime` produces reads back as its minutes and seconds fields. */
  lemma FormatTimeRoundTrip(t: real)
    ensures ParseClock(FormatTime(t)) == Some((MinutesOf(t), SecondsOf(t)))
  {
    var m := IntToDecimal(MinutesOf(t));
    var p := PadStart2(IntToDecimal(SecondsOf(t)));
    forall k | 0 <= k < |m| ensures m[k] != ':' {
    }
    SplitAtColonOfJoin(m, p);
    ParseIntToDecimal(MinutesOf(t));
    ParsePadded(SecondsOf(t));
  }

  /**
   * For a non-negative time the text is the whole minutes in decimal, a colon,
   * and exactly two digits giving the seconds 0..59.
   */
  lemma FormatTimeShape(t: real)
    requires t >= 0.0
    ensures var sec := t.Floor % 60;
      FormatTime(t) == NatToDecimal(t.Floor / 60) + ":" + [DigitChar(sec / 10), DigitChar(sec % 10)]
  {
    ClockFieldsOfNonNegative(t);
    var sec := t.Floor % 60;
    var s := NatToDecimal(sec);
    if sec < 10 {
      assert PadStart2(s) == [DigitChar(0), DigitChar(sec)];
    } else {
      assert s == NatToDecimal(sec / 10) + [DigitChar(sec % 10)];
      assert PadStart2(s) == [DigitChar(sec / 10), DigitChar(sec % 10)];
    }
  }

  /** Worked values: a minute and five seconds, and an hour shown as sixty minutes. */
  lemma FormatTimeExamples()
    ensures FormatTime(65.7) == "1:05"
    ensures FormatTime(0.0) == "0:00"
    ensures FormatTime(3600.0) == "60:00"
  {
    FormatTimeShape(65.7);
    FormatTimeShape(0.0);
    FormatTimeShape(3600.0);
    assert NatToDecimal(60) == NatToDecimal(6) + [DigitChar(0)];
  }
}
