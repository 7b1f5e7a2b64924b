/** The countdown display (src/components/TimerDigits.tsx): whole minutes and the remaining seconds of
    `secondsLeft`, each left-padded with '0' to two characters, joined by ':'. The decimal rendering of
    JavaScript's `String(n)` and its `%` (which keeps the sign of the dividend) are written out. */
module TimerDigits {

  function DigitChar(d: int): (c: char)
    requires 0 <= d < 10
    ensures '0' <= c <= '9'
  {
    (('0' as int) + d) as char
  }

  function DigitValue(c: char): int {
    if '0' <= c <= '9' then (c as int) - ('0' as int) else 0
  }

  predicate AllDigits(s: string) {
    forall i :: 0 <= i < |s| ==> '0' <= s[i] <= '9'
  }

  /** `String(n)` for a non-negative integer: its decimal digits, without leading zeros. */
  function NatToString(n: nat): (s: string)
    ensures 1 <= |s| && AllDigits(s)
    ensures n < 10 <==> |s| == 1
    ensures n < 100 ==> |s| <= 2
    ensures |s| > 1 ==> s[0] != '0'
  {
    if n < 10 then [DigitChar(n)] else NatToString(n / 10) + [DigitChar(n % 10)]
  }

  /** `String(i)` for any integer. */
  function IntToString(i: int): (r: string)
    ensures |r| >= 1 && (r[0] == '-' <==> i < 0)
    ensures 0 <= i < 100 ==> |r| <= 2
    ensures i >= 0 ==> AllDigits(r) && ParseDigits(r) == i
    ensures i < 0 ==> AllDigits(r[1..]) && ParseDigits(r[1..]) == -i
  {
    if i < 0 then
      var digits := NatToString(-i);
      ParseNatToString(-i);
      assert ("-" + digits)[1..] == digits;
      "-" + digits
    else
      ParseNatToString(i);
      NatToString(i)
  }

  /** The value of a string of decimal digits. */
  function ParseDigits(s: string): nat {
    if s == [] then 0 else ParseDigits(s[..|s| - 1]) * 10 + (if '0' <= s[|s| - 1] <= '9' then DigitValue(s[|s| - 1]) else 0)
  }

  function Repeat(c: char, n: nat): (r: string)
    ensures |r| == n && forall i :: 0 <= i < n ==> r[i] == c
  {
    if n == 0 then [] else [c] + Repeat(c, n - 1)
  }

  /** `s.padStart(width, c)`. */
  function PadStart(s: string, width: nat, c: char): (r: string)
    ensures |r| == if |s| >= width then |s| else width
    ensures r[|r| - |s|..] == s
    ensures forall i :: 0 <= i < |r| - |s| ==> r[i] == c
  {
    if |s| >= width then s else Repeat(c, width - |s|) + s
  }

  /** JavaScript's `a % b` for b > 0: the remainder takes the sign of `a`. */
  function JsRem(a: int, b: int): (r: int)
    requires b > 0
    ensures a >= 0 ==> 0 <= r < b && r == a % b
    ensures a < 0 ==> -b < r <= 0
  {
    if a >= 0 then a % b else -((-a) % b)
  }

  /** The minutes part, `String(Math.floor(s / 60)).padStart(2, '0')`. */
  function MinutesText(seconds: int): (r: string)
    ensures |r| >= 2
    ensures seconds >= 0 ==> ParseDigits(r) == seconds / 60
  {
    var t := IntToString(seconds / 60);
    ParsePadStart(t, 2);
    PadStart(t, 2, '0')
  }

  /** The seconds part, `String(s % 60).padStart(2, '0')`. */
  function SecondsText(seconds: int): (r: string)
    ensures |r| >= 2
    ensures seconds >= 0 ==> |r| == 2 && ParseDigits(r) == seconds % 60
  {
    var t := IntToString(JsRem(seconds, 60));
    ParsePadStart(t, 2);
    PadStart(t, 2, '0')
  }

  /** The rendered timer, "MM:SS". */
  function TimerText(seconds: int): (r: string)
    ensures |r| >= 5
    ensures seconds >= 0 ==> r[|r| - 3] == ':'
  {
    MinutesText(seconds) + ":" + SecondsText(seconds)
  }

  /** Padding with zeros does not change a decimal value. */
  lemma ParsePadStart(t: string, width: nat)
    ensures ParseDigits(PadStart(t, width, '0')) == ParseDigits(t)
  {
    if |t| < width {
      ParseDigitsLeadingZeros(width - |t|, t);
    }
  }

  /** Leading zeros do not change a decimal value. */
  lemma {:induction false} ParseDigitsLeadingZeros(z: nat, t: string)
    ensures ParseDigits(Repeat('0', z) + t) == ParseDigits(t)
    decreases z, |t|
  {
    if t == [] {
      assert Repeat('0', z) + t == Repeat('0', z);
      ParseZeros(z);
    } else {
      var u := Repeat('0', z) + t;
      assert u[..|u| - 1] == Repeat('0', z) + t[..|t| - 1];
      assert u[|u| - 1] == t[|t| - 1];
      ParseDigitsLeadingZeros(z, t[..|t| - 1]);
    }
  }

  lemma {:induction false} ParseZeros(z: nat)
    ensures ParseDigits(Repeat('0', z)) == 0
    decreases z
  {
    if z > 0 {
      var r := Repeat('0', z);
      assert r[..z - 1] == Repeat('0', z - 1);
      ParseZeros(z - 1);
    }
  }

  /** Reading back the decimal rendering gives the number. */
  lemma {:induction false} ParseNatToString(n: nat)
    ensures ParseDigits(NatToString(n)) == n
    decreases n
  {
    if n >= 10 {
      var s := NatToString(n);
      assert s[..|s| - 1] == NatToString(n / 10);
      ParseNatToString(n / 10);
    }
  }

  /** Reading back a padded rendering gives the number. */
  lemma ParsePadded(n: nat)
    ensures ParseDigits(PadStart(NatToString(n), 2, '0')) == n
  {
    var s := NatToString(n);
    ParseNatToString(n);
    if |s| < 2 {
      ParseDigitsLeadingZeros(2 - |s|, s);
    }
  }

  /** A padded rendering of a number below 100 is two digits. */
  lemma PaddedTwoDigits(n: nat)
    requires n < 100
    ensures |PadStart(NatToString(n), 2, '0')| == 2 && AllDigits(PadStart(NatToString(n), 2, '0'))
  {
    var s := NatToString(n);
    var r := PadStart(s, 2, '0');
    forall i | 0 <= i < |r| ensures '0' <= r[i] <= '9' {
      if i < |r| - |s| {
        assert r[i] == '0';
      } else {
        assert r[i] == r[|r| - |s|..][i - (|r| - |s|)];
      }
    }
  }

  /** The seconds part is always exactly two digits, and its value is in 0..59. */
  lemma SecondsTextShape(seconds: int)
    requires seconds >= 0
    ensures |SecondsText(seconds)| == 2 && AllDigits(SecondsText(seconds))
    ensures 0 <= ParseDigits(SecondsText(seconds)) <= 59
  {
    var rem := seconds % 60;
    assert IntToString(JsRem(seconds, 60)) == NatToString(rem);
    PaddedTwoDigits(rem);
    ParsePadded(rem);
  }

  /** Round trip: for any non-negative count, 60 * minutes + seconds read back is the count. */
  lemma TimerTextRoundTrip(seconds: int)
    requires seconds >= 0
    ensures 60 * ParseDigits(MinutesText(seconds)) + ParseDigits(SecondsText(seconds)) == seconds
  {
    ParsePadded(seconds / 60);
    ParsePadded(seconds % 60);
  }

  lemma JoinedShape(mm: string, ss: string)
    requires |mm| == 2 && |ss| == 2
    ensures |mm + ":" + ss| == 5 && (mm + ":" + ss)[2] == ':'
  {
  }

  /** Below 100 minutes the display is exactly five characters "MM:SS". */
  lemma TimerTextShape(seconds: int)
    requires 0 <= seconds < 6000
    ensures |TimerText(seconds)| == 5 && TimerText(seconds)[2] == ':'
    ensures |MinutesText(seconds)| == 2 && AllDigits(MinutesText(seconds))
  {
    var m := seconds / 60;
    assert 0 <= m < 100;
    assert IntToString(m) == NatToString(m);
    PaddedTwoDigits(m);
    SecondsTextShape(seconds);
    JoinedShape(MinutesText(seconds), SecondsText(seconds));
  }

  /** The display of a fresh round and of an expired one. */
  lemma TimerTextExamples()
    ensures TimerText(600) == "10:00"
    ensures TimerText(0) == "00:00"
  {
    var ten, zero := NatToString(10), NatToString(0);
    assert ten == "10" by {
      assert NatToString(1) == "1";
    }
    assert zero == "0";
    assert PadStart(zero, 2, '0') == "00" by {
      assert Repeat('0', 1) == "0";
    }
    assert MinutesText(600) == "10" by {
      assert IntToString(600 / 60) == ten;
    }
    assert SecondsText(600) == "00" && SecondsText(0) == "00" && MinutesText(0) == "00" by {
      assert JsRem(600, 60) == 0 && JsRem(0, 60) == 0;
      assert IntToString(0) == zero && 0 / 60 == 0;
    }
  }

}
