/** The `mm:ss` clock shown by the session view and the floating indicator:
    whole minutes and leftover seconds of the remaining time, each written
    in decimal and left-padded with '0' to two characters.

    `ParseClock` reads such a text back; the round trip
    `ParseClock(FormatClock(n)) == Some(n)` says that the clock shows the
    remaining time exactly. */
module TimeFormat {
  import opened PomodoroModels

  predicate IsDigit(c: char) {
    '0' <= c <= '9'
  }

  predicate AllDigits(s: string) {
    forall i :: 0 <= i < |s| ==> IsDigit(s[i])
  }

  function DigitChar(d: nat): (c: char)
    requires d < 10
    ensures IsDigit(c) && c as int - '0' as int == d
  {
    ('0' as int + d) as char
  }

  function DigitValue(c: char): (d: nat)
    requires IsDigit(c)
    ensures d < 10
  {
    c as int - '0' as int
  }

  /** The text of a whole non-negative number, as `Number.prototype.toString`
      writes it: decimal digits without leading zeros. */
  function DecimalString(n: nat): (s: string)
    ensures |s| >= 1 && AllDigits(s)
    ensures s[0] == '0' ==> n == 0
    decreases n
  {
    if n < 10 then [DigitChar(n)] else DecimalString(n / 10) + [DigitChar(n % 10)]
  }

  /** The number a string of decimal digits denotes (leading zeros allowed). */
  function DecimalValue(s: string): nat
    requires AllDigits(s)
    decreases |s|
  {
    if s == [] then 0 else DecimalValue(s[..|s| - 1]) * 10 + DigitValue(s[|s| - 1])
  }

  lemma {:induction false} DecimalRoundTrip(n: nat)
    ensures DecimalValue(DecimalString(n)) == n
    decreases n
  {
    if n >= 10 {
      var s := DecimalString(n);
      assert s[..|s| - 1] == DecimalString(n / 10);
      DecimalRoundTrip(n / 10);
    }
  }

  /** Numbers below 100 have at most two digits. */
  lemma DecimalStringOfTwoDigits(n: nat)
    requires n < 100
    ensures |DecimalString(n)| <= 2
  {
    if n >= 10 {
      assert |DecimalString(n / 10)| == 1;
    }
  }

  function Repeat(c: char, k: nat): (r: string)
    ensures |r| == k
    ensures forall i :: 0 <= i < k ==> r[i] == c
  {
    if k == 0 then [] else [c] + Repeat(c, k - 1)
  }

  /** `String.prototype.padStart(width, fill)` with a one-character fill. */
  function PadStart(s: string, width: nat, fill: char): (r: string)
    ensures |r| == if |s| >= width then |s| else width
    ensures r[|r| - |s|..] == s
    ensures forall i :: 0 <= i < |r| - |s| ==> r[i] == fill
  {
    if |s| >= width then s else Repeat(fill, width - |s|) + s
  }

  lemma {:induction false} ZerosAreZero(k: nat)
    ensures AllDigits(Repeat('0', k)) && DecimalValue(Repeat('0', k)) == 0
  {
    if k > 0 {
      var z := Repeat('0', k);
      assert z[..k - 1] == Repeat('0', k - 1);
      ZerosAreZero(k - 1);
    }
  }

  lemma {:induction false} LeadingZerosKeepValue(k: nat, s: string)
    requires AllDigits(s)
    ensures AllDigits(Repeat('0', k) + s)
    ensures DecimalValue(Repeat('0', k) + s) == DecimalValue(s)
    decreases |s|
  {
    var z := Repeat('0', k);
    if s == [] {
      assert z + s == z;
      ZerosAreZero(k);
    } else {
      var t := z + s;
      assert t[..|t| - 1] == z + s[..|s| - 1];
      LeadingZerosKeepValue(k, s[..|s| - 1]);
    }
  }

  /** `n.toString().padStart(2, '0')`: a number written with at least two
      digits. */
  function Pad2(n: nat): (r: string)
    ensures |r| >= 2 && AllDigits(r) && DecimalValue(r) == n
    ensures n < 100 ==> |r| == 2
  {
    var s := DecimalString(n);
    DecimalRoundTrip(n);
    DecimalStringOfTwoDigits(if n < 100 then n else 0);
    if |s| < 2 then
      assert "0" + s == Repeat('0', 1) + s;
      LeadingZerosKeepValue(1, s);
      "0" + s
    else
      s
  }

  lemma Pad2IsPadStart(n: nat)
    ensures Pad2(n) == PadStart(DecimalString(n), 2, '0')
  {
    var s := DecimalString(n);
    if |s| < 2 {
      assert Repeat('0', 1) == "0";
    }
  }

  /** Whole minutes and leftover seconds of `remaining` seconds. */
  function ClockFields(remaining: nat): (f: (nat, nat))
    ensures f.1 < 60
    ensures f.0 * 60 + f.1 == remaining
    ensures remaining < 6000 ==> f.0 < 100
  {
    (remaining / 60, remaining % 60)
  }

  function FormatClock(remaining: nat): (r: string)
    ensures |r| >= 5 && r[|r| - 3] == ':'
    ensures remaining < 6000 ==> |r| == 5
  {
    var f := ClockFields(remaining);
    Pad2(f.0) + ":" + Pad2(f.1)
  }

  /** Reads a clock text: minutes in one or more digits, ':', then seconds
      in two digits below 60. */
  function ParseClock(text: string): Option<nat> {
    if |text| < 4 || text[|text| - 3] != ':' then None
    else ParseFields(text[..|text| - 3], text[|text| - 2..])
  }

  function ParseFields(mm: string, ss: string): Option<nat> {
    if AllDigits(mm) && AllDigits(ss) && DecimalValue(ss) < 60
    then Some(DecimalValue(mm) * 60 + DecimalValue(ss))
    else None
  }

  /** The text of minutes, ':' and two digits of seconds splits back into
      its two fields. */
  lemma SplitClock(mm: string, ss: string)
    requires mm != [] && |ss| == 2
    ensures ParseClock(mm + ":" + ss) == ParseFields(mm, ss)
  {
    var text := mm + ":" + ss;
    assert text[..|text| - 3] == mm;
    assert text[|text| - 2..] == ss;
  }

  lemma FormatRoundTrip(remaining: nat)
    ensures ParseClock(FormatClock(remaining)) == Some(remaining)
  {
    var f := ClockFields(remaining);
    var mm, ss := Pad2(f.0), Pad2(f.1);
    assert FormatClock(remaining) == mm + ":" + ss;
    SplitClock(mm, ss);
  }
}
