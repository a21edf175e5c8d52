// XRP amounts travel as decimal strings ("drops").  The high-water rule compares the numbers they
// denote while finalization compares the strings themselves, so both views are kept apart here.
module DropAmounts {
  const MAX_DROPS_DIGITS := 20

  predicate IsDigit(c: char) { '0' <= c <= '9' }

  predicate IsDigits(s: string) { forall i | 0 <= i < |s| :: IsDigit(s[i]) }

  // The `Drops` annotation: one to twenty ASCII digits, leading zeros included.
  predicate IsDrops(s: string) { 1 <= |s| <= MAX_DROPS_DIGITS && IsDigits(s) }

  function Digit(c: char): nat
    requires IsDigit(c)
  {
    (c - '0') as nat
  }

  // Python's `int(s)` on a digit string.
  function Value(s: string): nat
    requires IsDigits(s)
  {
    if s == "" then 0 else 10 * Value(s[..|s| - 1]) + Digit(s[|s| - 1])
  }

  function DigitChar(d: nat): (c: char)
    requires d < 10
    ensures IsDigit(c) && Digit(c) == d
  {
    '0' + d as char
  }

  // Python's `str(n)` on a non-negative integer.
  function Text(n: nat): (s: string)
    ensures |s| > 0 && IsDigits(s) && Value(s) == n
    ensures |s| > 1 ==> s[0] != '0'
  {
    if n < 10 then [DigitChar(n)]
    else
      var rest := Text(n / 10);
      var s := rest + [DigitChar(n % 10)];
      assert s[..|s| - 1] == rest;
      s
  }

  // Rendering the number a string denotes never needs more digits than the string had.
  lemma {:induction false} TextIsShortest(s: string)
    requires |s| > 0 && IsDigits(s)
    ensures |Text(Value(s))| <= |s|
  {
    if |s| > 1 {
      var front := s[..|s| - 1];
      TextIsShortest(front);
      assert Value(s) / 10 == Value(front);
    } else {
      assert s[..0] == "";
    }
  }

  // A string of digits without a leading zero is determined by the number it denotes.
  lemma {:induction false} CanonicalDigitsUnique(s: string)
    requires |s| > 0 && IsDigits(s) && (|s| > 1 ==> s[0] != '0')
    ensures Text(Value(s)) == s
  {
    if |s| == 1 {
      assert s[..0] == "";
      assert Value(s) == Digit(s[0]);
    } else {
      var front := s[..|s| - 1];
      CanonicalDigitsUnique(front);
      PositiveWithoutLeadingZero(front);
      assert Value(s) / 10 == Value(front) && Value(s) % 10 == Digit(s[|s| - 1]);
      assert s == front + [s[|s| - 1]];
    }
  }

  lemma {:induction false} PositiveWithoutLeadingZero(s: string)
    requires |s| > 0 && IsDigits(s) && s[0] != '0'
    ensures Value(s) > 0
  {
    if |s| > 1 {
      PositiveWithoutLeadingZero(s[..|s| - 1]);
    } else {
      assert s[..0] == "";
    }
  }
}
