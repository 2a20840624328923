/**
 * Decimal text of integers: what `Int.toString()`, `String.padStart` and
 * `String.toIntOrNull()` do on ASCII digits. The timer display, the odometer
 * counter and the settings form all go through these.
 */
module Numerals {
  import opened Wrappers

  /** Largest and smallest value of a Kotlin `Int`. */
  const IntMax := 0x7FFF_FFFF
  const IntMin := -0x8000_0000

  predicate IsDigit(c: char) {
    '0' <= c <= '9'
  }

  predicate AllDigits(s: string) {
    forall i :: 0 <= i < |s| ==> IsDigit(s[i])
  }

  function DigitValue(c: char): (d: int)
    requires IsDigit(c)
    ensures 0 <= d <= 9
  {
    c as int - '0' as int
  }

  function DigitChar(d: int): (c: char)
    requires 0 <= d <= 9
    ensures IsDigit(c) && DigitValue(c) == d
  {
    ('0' as int + d) as char
  }

  /** `n.toString()` for a non-negative `n`: no sign, no leading zero. */
  function Decimal(n: nat): (s: string)
    ensures |s| >= 1 && AllDigits(s)
    ensures n < 10 <==> |s| == 1
    ensures n < 100 <==> |s| <= 2
    ensures n < 1000 <==> |s| <= 3
    ensures n > 0 ==> s[0] != '0'
  {
    if n < 10 then [DigitChar(n)] else Decimal(n / 10) + [DigitChar(n % 10)]
  }

  /** The value of a string of decimal digits (the empty string reads as 0). */
  function DigitsValue(s: string): (v: nat)
    requires AllDigits(s)
  {
    if s == [] then 0 else DigitsValue(s[..|s| - 1]) * 10 + DigitValue(s[|s| - 1])
  }

  /** Reading back what `Decimal` wrote gives the number again. */
  lemma {:induction false} DecimalRoundTrip(n: nat)
    ensures DigitsValue(Decimal(n)) == n
  {
    if n >= 10 {
      var s := Decimal(n);
      assert s[..|s| - 1] == Decimal(n / 10);
      DecimalRoundTrip(n / 10);
    }
  }

  /** A digit string of at most k characters reads as a number below 10^k (k <= 3). */
  lemma {:induction false} DigitsValueBound(s: string)
    requires AllDigits(s) && |s| <= 3
    ensures DigitsValue(s) <= 999
    ensures |s| <= 2 ==> DigitsValue(s) <= 99
    ensures |s| <= 1 ==> DigitsValue(s) <= 9
  {
    if s != [] {
      DigitsValueBound(s[..|s| - 1]);
    }
  }

  /** A leading '0' does not change the value of a digit string. */
  lemma {:induction false} LeadingZero(s: string)
    requires AllDigits(s)
    ensures AllDigits(['0'] + s) && DigitsValue(['0'] + s) == DigitsValue(s)
  {
    if s != [] {
      var t := ['0'] + s;
      assert t[..|t| - 1] == ['0'] + s[..|s| - 1];
      LeadingZero(s[..|s| - 1]);
    }
  }

  /** `s.padStart(width, pad)`, which Kotlin refuses for a negative width. */
  function PadStart(s: string, width: int, pad: char): (r: string)
    requires width >= 0
    decreases width - |s|
    ensures |r| == if |s| >= width then |s| else width
    ensures r[|r| - |s|..] == s
    ensures forall i :: 0 <= i < |r| - |s| ==> r[i] == pad
  {
    if width <= |s| then s else [pad] + PadStart(s, width - 1, pad)
  }

  /** Padding a digit string with zeros keeps it a digit string of the same value. */
  lemma {:induction false} ZeroPadValue(s: string, width: int)
    requires AllDigits(s) && width >= 0
    decreases width - |s|
    ensures AllDigits(PadStart(s, width, '0'))
    ensures DigitsValue(PadStart(s, width, '0')) == DigitsValue(s)
  {
    var p := PadStart(s, width, '0');
    if width > |s| {
      var t := PadStart(s, width - 1, '0');
      ZeroPadValue(s, width - 1);
      LeadingZero(t);
      assert p == ['0'] + t;
      assert DigitsValue(p) == DigitsValue(t) == DigitsValue(s);
    } else {
      assert p == s;
    }
  }

  /** The value that `s.toIntOrNull()` keeps, or null outside the `Int` range. */
  function InIntRange(v: int): (r: Option<int>)
    ensures r.Some? <==> IntMin <= v <= IntMax
    ensures r.Some? ==> r.value == v
  {
    if IntMin <= v <= IntMax then Some(v) else None
  }

  /**
   * `s.toIntOrNull()`: an optional '+' or '-' followed by at least one digit,
   * nothing else, and a value that fits a Kotlin `Int`.
   */
  function ToIntOrNull(s: string): (r: Option<int>)
  {
    if |s| == 0 then None
    else if s[0] == '-' || s[0] == '+' then
      if |s| == 1 || !AllDigits(s[1..]) then None
      else InIntRange(if s[0] == '-' then -(DigitsValue(s[1..]) as int) else DigitsValue(s[1..]))
    else if AllDigits(s) then InIntRange(DigitsValue(s))
    else None
  }

  /** On a non-empty digit string, `toIntOrNull` is the string's value whenever it fits. */
  lemma ToIntOrNullDigits(s: string)
    requires AllDigits(s)
    ensures |s| == 0 ==> ToIntOrNull(s) == None
    ensures |s| > 0 && DigitsValue(s) <= IntMax ==> ToIntOrNull(s) == Some(DigitsValue(s))
  {
  }

  /** What `n.toString()` writes, `toIntOrNull` reads back. */
  lemma ToStringToIntOrNull(n: nat)
    requires n <= IntMax
    ensures ToIntOrNull(Decimal(n)) == Some(n)
  {
    DecimalRoundTrip(n);
  }
}
