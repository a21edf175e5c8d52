// Decimal numbers as digits with an exponent, and the arithmetic of digit strings.
module DecimalText {
  import opened DropAmounts

  function Pow10(n: nat): (p: nat)
    ensures p > 0
  {
    if n == 0 then 1 else 10 * Pow10(n - 1)
  }

  lemma MulAssociates(x: int, y: int, z: int)
    ensures x * (y * z) == (x * y) * z == y * (x * z)
  {
  }

  lemma {:induction false} Pow10Add(m: nat, n: nat)
    ensures Pow10(m + n) == Pow10(m) * Pow10(n)
  {
    if m > 0 { Pow10Add(m - 1, n); }
  }

  lemma {:induction false} Pow10Grows(m: nat, n: nat)
    requires m <= n
    ensures Pow10(m) <= Pow10(n)
  {
    if m < n { Pow10Grows(m, n - 1); }
  }

  function Zeros(n: nat): (s: string)
    ensures |s| == n && IsDigits(s) && forall i | 0 <= i < n :: s[i] == '0'
  {
    seq(n, i => '0')
  }

  lemma {:induction false} ValueAppend(a: string, b: string)
    requires IsDigits(a) && IsDigits(b)
    ensures IsDigits(a + b) && Value(a + b) == Value(a) * Pow10(|b|) + Value(b)
  {
    if b == "" {
      assert a + b == a;
    } else {
      var front := b[..|b| - 1];
      ValueAppend(a, front);
      assert (a + b)[..|a + b| - 1] == a + front;
      var v, p := Value(a), Pow10(|front|);
      assert Pow10(|b|) == 10 * p;
      MulAssociates(v, 10, p);
    }
  }

  lemma {:induction false} ValueZeros(n: nat)
    ensures Value(Zeros(n)) == 0
  {
    if n > 0 {
      assert Zeros(n)[..n - 1] == Zeros(n - 1);
      ValueZeros(n - 1);
    }
  }

  // Zeros before a digit string change nothing; zeros after it scale.
  lemma ValuePadded(s: string, left: nat, right: nat)
    requires IsDigits(s)
    ensures Value(Zeros(left) + s + Zeros(right)) == Value(s) * Pow10(right)
  {
    ValueZeros(left);
    ValueZeros(right);
    ValueAppend(Zeros(left), s);
    ValueAppend(Zeros(left) + s, Zeros(right));
  }

  lemma {:induction false} ValueBounds(s: string)
    requires IsDigits(s)
    ensures Value(s) < Pow10(|s|)
    ensures s != "" && s[0] != '0' ==> Value(s) >= Pow10(|s| - 1)
  {
    if s != "" {
      ValueBounds(s[..|s| - 1]);
      if |s| == 1 { assert s[..0] == ""; }
    }
  }

  // How many digits a positive number has.
  lemma TextLength(n: nat)
    requires n > 0
    ensures Pow10(|Text(n)| - 1) <= n < Pow10(|Text(n)|)
  {
    ValueBounds(Text(n));
    if |Text(n)| == 1 { assert Text(n)[..0] == ""; }
  }

  // coefficient * 10^exponent
  datatype Dec = Dec(coefficient: nat, exponent: int)

  function Scaled(d: Dec, exponent: int): nat
    requires exponent <= d.exponent
  {
    d.coefficient * Pow10(d.exponent - exponent)
  }

  function MinExponent(a: Dec, b: Dec): int { if a.exponent <= b.exponent then a.exponent else b.exponent }

  // Comparison of the numbers, whatever their representations.
  predicate Le(a: Dec, b: Dec) { Scaled(a, MinExponent(a, b)) <= Scaled(b, MinExponent(a, b)) }

  predicate Same(a: Dec, b: Dec) { Le(a, b) && Le(b, a) }

  lemma ScaledFurther(d: Dec, exponent: int, less: nat)
    requires exponent <= d.exponent
    ensures Scaled(d, exponent - less) == Scaled(d, exponent) * Pow10(less)
  {
    Pow10Add(d.exponent - exponent, less);
    MulAssociates(d.coefficient, Pow10(d.exponent - exponent), Pow10(less));
  }

  // Any common scale decides the comparison.
  lemma LeAtScale(a: Dec, b: Dec, exponent: int)
    requires exponent <= MinExponent(a, b)
    ensures Le(a, b) <==> Scaled(a, exponent) <= Scaled(b, exponent)
  {
    hide Scaled, Pow10;
    var m := MinExponent(a, b);
    ScaledFurther(a, m, m - exponent);
    ScaledFurther(b, m, m - exponent);
    MulCompares(Scaled(a, m), Scaled(b, m), Pow10(m - exponent));
  }

  lemma MulCompares(x: int, y: int, p: int)
    requires p > 0
    ensures x <= y <==> x * p <= y * p
  {
    if x <= y { MulMonotone(x, y, p); } else { MulMonotone(y + 1, x, p); }
  }

  lemma MulMonotone(x: int, y: int, p: int)
    requires x <= y && p > 0
    ensures x * p <= y * p
  {
  }

  lemma LeTransitive(a: Dec, b: Dec, c: Dec)
    requires Le(a, b) && Le(b, c)
    ensures Le(a, c)
  {
    var m := MinExponent(a, Dec(0, MinExponent(b, c)));
    LeAtScale(a, b, m);
    LeAtScale(b, c, m);
    LeAtScale(a, c, m);
  }

  lemma LeTotal(a: Dec, b: Dec)
    ensures Le(a, b) || Le(b, a)
  {
    assert MinExponent(a, b) == MinExponent(b, a);
  }

  // ---- plain decimal text ----

  // The first position of `c`, or the length.
  function IndexOf(s: string, c: char): (i: nat)
    ensures i <= |s| && (forall j | 0 <= j < i :: s[j] != c) && (i < |s| ==> s[i] == c)
  {
    if s == "" || s[0] == c then 0 else 1 + IndexOf(s[1..], c)
  }

  predicate IsPlain(s: string) {
    var i := IndexOf(s, '.');
    IsDigits(s[..i]) && (i < |s| ==> IsDigits(s[i + 1..]))
  }

  // The number that digits with at most one point denote.
  function Read(s: string): Dec
    requires IsPlain(s)
  {
    var i := IndexOf(s, '.');
    if i == |s| then Dec(Value(s), 0) else Dec(Value(s[..i] + s[i + 1..]), -(|s| - i - 1))
  }

  lemma IndexOfAfter(a: string, c: char, b: string)
    requires c !in a
    ensures IndexOf(a + [c] + b, c) == |a| && IndexOf(a, c) == |a|
  {
    assert (a + [c] + b)[|a|] == c;
  }

  lemma ReadPoint(whole: string, fraction: string)
    requires IsDigits(whole) && IsDigits(fraction)
    ensures IsPlain(whole) && Read(whole) == Dec(Value(whole), 0)
    ensures var s := whole + "." + fraction; IsPlain(s) && Read(s) == Dec(Value(whole + fraction), -|fraction|)
  {
    var s := whole + "." + fraction;
    IndexOfAfter(whole, '.', fraction);
    assert whole[..|whole|] == whole && s[..|whole|] == whole && s[|whole| + 1..] == fraction;
  }

  function TrimZeros(s: string): (r: string)
    ensures |r| <= |s| && s == r + Zeros(|s| - |r|)
    ensures r != "" ==> r[|r| - 1] != '0'
  {
    if s != "" && s[|s| - 1] == '0' then
      var r := TrimZeros(s[..|s| - 1]);
      assert s == s[..|s| - 1] + "0";
      r
    else s
  }

  lemma DigitsAppend(a: string, b: string)
    requires IsDigits(a) && IsDigits(b)
    ensures IsDigits(a + b)
  {
  }

  lemma TrimZerosDigits(s: string)
    requires IsDigits(s)
    ensures IsDigits(TrimZeros(s))
  {
  }

  // Text with a point, its trailing zeros and a then useless point stripped.
  function Trimmed(whole: string, fraction: string): string {
    var kept := TrimZeros(fraction);
    if kept == "" then whole else whole + "." + kept
  }

  // `format(d, "f")`, trimmed when it has a point.
  function Fixed(d: Dec): string {
    var t := Text(d.coefficient);
    if d.exponent >= 0 then t + Zeros(d.exponent)
    else
      var padded := if |t| > -d.exponent then t else Zeros(-d.exponent + 1 - |t|) + t;
      Trimmed(padded[..|padded| + d.exponent], padded[|padded| + d.exponent..])
  }

  lemma TrimmedReads(whole: string, fraction: string)
    requires IsDigits(whole) && IsDigits(fraction)
    ensures IsPlain(Trimmed(whole, fraction))
    ensures Same(Read(Trimmed(whole, fraction)), Dec(Value(whole + fraction), -|fraction|))
  {
    hide *;
    var kept := TrimZeros(fraction);
    var z := |fraction| - |kept|;
    TrimmedIs(whole, fraction, kept);
    ValueTrailing(whole, kept, z);
    SameShifted(Value(whole + kept), -|kept|, z);
  }

  lemma TrimmedIs(whole: string, fraction: string, kept: string)
    requires IsDigits(whole) && IsDigits(fraction) && kept == TrimZeros(fraction)
    ensures IsDigits(kept) && IsDigits(whole + kept) && IsPlain(Trimmed(whole, fraction))
    ensures Read(Trimmed(whole, fraction)) == Dec(Value(whole + kept), -|kept|)
  {
    hide Read, IsPlain, Value, IsDigits;
    TrimZerosDigits(fraction);
    DigitsAppend(whole, kept);
    ReadPoint(whole, kept);
    if kept == "" { assert whole + kept == whole; }
  }

  lemma ValueTrailing(whole: string, kept: string, z: nat)
    requires IsDigits(whole) && IsDigits(kept)
    ensures IsDigits(whole + (kept + Zeros(z))) && Value(whole + (kept + Zeros(z))) == Value(whole + kept) * Pow10(z)
  {
    ValuePadded(whole + kept, 0, z);
    assert Zeros(0) + (whole + kept) + Zeros(z) == whole + (kept + Zeros(z));
  }

  lemma SameSymmetric(a: Dec, b: Dec)
    requires Same(a, b)
    ensures Same(b, a)
  {
  }

  lemma SameShifted(c: nat, exponent: int, z: nat)
    ensures Same(Dec(c, exponent), Dec(c * Pow10(z), exponent - z))
  {
    hide Pow10;
    Pow10Zero();
    var a, b := Dec(c, exponent), Dec(c * Pow10(z), exponent - z);
    assert Scaled(a, exponent - z) == Scaled(b, exponent - z);
  }

  lemma Pow10Zero()
    ensures Pow10(0) == 1
  {
  }

  // The text denotes the number it was made from.
  lemma FixedReads(d: Dec)
    ensures IsPlain(Fixed(d)) && Same(Read(Fixed(d)), d)
  {
    hide Read, IsPlain, Trimmed, Text, Same, Value, Pow10;
    var t := Text(d.coefficient);
    if d.exponent >= 0 {
      ValuePadded(t, 0, d.exponent);
      assert Zeros(0) + t + Zeros(d.exponent) == Fixed(d);
      ReadPoint(Fixed(d), "");
      SameShifted(d.coefficient, d.exponent, d.exponent);
      SameSymmetric(d, Read(Fixed(d)));
    } else {
      var padded := if |t| > -d.exponent then t else Zeros(-d.exponent + 1 - |t|) + t;
      PaddedValue(t, if |t| > -d.exponent then 0 else -d.exponent + 1 - |t|, padded);
      var whole, fraction := padded[..|padded| + d.exponent], padded[|padded| + d.exponent..];
      assert whole + fraction == padded;
      TrimmedReads(whole, fraction);
    }
  }

  lemma PaddedValue(t: string, left: nat, padded: string)
    requires IsDigits(t) && padded == (if left == 0 then t else Zeros(left) + t)
    ensures IsDigits(padded) && Value(padded) == Value(t)
  {
    ValuePadded(t, left, 0);
    assert Zeros(left) + t + Zeros(0) == padded;
  }

  // The text has no superfluous digit: no zero in front of other digits of the whole part, and after a point
  // at least one digit, the last of which is not zero.
  lemma FixedIsShortest(d: Dec)
    requires d.coefficient > 0 || d.exponent <= 0
    ensures var s := Fixed(d); var i := IndexOf(s, '.');
            && i > 0 && (i > 1 ==> s[0] != '0')
            && (i < |s| ==> i + 1 < |s| && s[|s| - 1] != '0')
  {
    hide Text, Value, Pow10, Trimmed, IndexOf;
    var t := Text(d.coefficient);
    if d.exponent >= 0 {
      DigitsHaveNoPoint(Fixed(d));
      TextStartsWell(d.coefficient);
    } else {
      var padded := if |t| > -d.exponent then t else Zeros(-d.exponent + 1 - |t|) + t;
      TrimmedIsShortest(padded[..|padded| + d.exponent], padded[|padded| + d.exponent..]);
    }
  }

  lemma TextStartsWell(n: nat)
    ensures n > 0 ==> Text(n)[0] != '0'
    ensures n == 0 ==> Text(n) == "0"
  {
    if |Text(n)| == 1 { assert Text(n)[..0] == ""; }
  }

  lemma DigitsHaveNoPoint(s: string)
    requires IsDigits(s)
    ensures IndexOf(s, '.') == |s|
  {
  }

  lemma TrimmedIsShortest(whole: string, fraction: string)
    requires IsDigits(whole) && IsDigits(fraction)
    ensures var s := Trimmed(whole, fraction); var i := IndexOf(s, '.');
            && i == |whole| && s[..i] == whole
            && (i < |s| ==> i + 1 < |s| && s[|s| - 1] != '0')
  {
    var kept := TrimZeros(fraction);
    DigitsHaveNoPoint(whole);
    if kept != "" { IndexOfAfter(whole, '.', kept); }
  }
}
