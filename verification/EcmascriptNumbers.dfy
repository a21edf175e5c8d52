// Number rendering of section 3.2.2.3 of RFC 8785.  A finite float enters as the digits and exponent of
// its shortest `repr`: before and after the point, and after the `e`.
module EcmascriptNumbers {
  import opened DropAmounts
  import opened DecimalText

  // digits * 10^exponent without superfluous zeros at either end; zero has no digits.
  datatype Number = Number(negative: bool, digits: string, exponent: int)

  predicate IsNormal(digits: string, exponent: int) {
    && IsDigits(digits)
    && (digits == "" ==> exponent == 0)
    && (digits != "" ==> digits[0] != '0' && digits[|digits| - 1] != '0')
  }

  predicate IsNumber(n: Number) { IsNormal(n.digits, n.exponent) && (n.digits == "" ==> !n.negative) }

  // `lstrip("0")`.
  function TrimLeft(s: string): (r: string)
    ensures |r| <= |s| && s == Zeros(|s| - |r|) + r
    ensures r != "" ==> r[0] != '0'
  {
    if s != "" && s[0] == '0' then
      var r := TrimLeft(s[1..]);
      assert s == "0" + s[1..];
      r
    else s
  }

  lemma {:induction false} TrimLeftDigits(s: string)
    requires IsDigits(s)
    ensures IsDigits(TrimLeft(s))
  {
    if s != "" && s[0] == '0' { TrimLeftDigits(s[1..]); }
  }

  lemma {:induction false} TrimZerosKeepsHead(s: string)
    requires s != "" && s[0] != '0'
    ensures TrimZeros(s) != "" && TrimZeros(s)[0] == s[0]
  {
    if s[|s| - 1] == '0' { TrimZerosKeepsHead(s[..|s| - 1]); }
  }

  lemma TrimsDigits(digits: string)
    requires IsDigits(digits)
    ensures var kept := TrimZeros(TrimLeft(digits)); IsNormal(kept, if kept == "" then 0 else 1)
  {
    hide TrimLeft, TrimZeros, IsDigits, Zeros;
    var left := TrimLeft(digits);
    TrimLeftDigits(digits);
    TrimZerosDigits(left);
    if left != "" { TrimZerosKeepsHead(left); }
  }

  function Normalize(negative: bool, digits: string, exponent: int): (n: Number)
    requires IsDigits(digits)
    ensures IsNumber(n)
  {
    var left := TrimLeft(digits);
    var kept := TrimZeros(left);
    TrimsDigits(digits);
    if kept == "" then Number(false, "", 0) else Number(negative, kept, exponent + |left| - |kept|)
  }

  function IntegerText(i: int): string { if i < 0 then "-" + Text(-i) else Text(i) }

  function ExponentText(exponent: int): string { "e" + ((if exponent >= 0 then "+" else "") + IntegerText(exponent)) }

  // The four layouts.
  function Layout(digits: string, exponent: int): string
    requires digits != ""
  {
    var count := |digits|;
    var position := count + exponent;
    if count <= position <= 21 then digits + Zeros(position - count)
    else if 0 < position <= 21 then digits[..position] + "." + digits[position..]
    else if -6 < position <= 0 then "0." + (Zeros(-position) + digits)
    else
      (if count > 1 then digits[..1] + "." + digits[1..] else digits[..1])
      + ExponentText(position - 1)
  }

  function NumberText(n: Number): string {
    if n.digits == "" then "0"
    else if n.negative then "-" + Layout(n.digits, n.exponent)
    else Layout(n.digits, n.exponent)
  }

  // `_ecmascript_number` after the finiteness check.
  method EcmascriptNumber(negative: bool, before: string, after: string, exponent: int) returns (text: string)
    requires IsDigits(before) && IsDigits(after)
    ensures text == NumberText(Normalize(negative, before + after, exponent - |after|))
  {
    hide Layout, Zeros, TrimLeft, IsNormal;
    var digits := TrimLeft(before + after);
    var shifted := exponent - |after|;
    ghost var left := digits;
    if digits == "" {
      return "0";
    }
    while |digits| > 1 && digits[|digits| - 1] == '0'
      invariant 0 < |digits| <= |left| && digits[0] != '0'
      invariant TrimZeros(digits) == TrimZeros(left) && shifted == exponent - |after| + |left| - |digits|
    {
      digits := digits[..|digits| - 1];
      shifted := shifted + 1;
    }
    assert TrimZeros(digits) == digits;
    text := if negative then "-" + Layout(digits, shifted) else Layout(digits, shifted);
  }

  // ---- reading a number back ----

  predicate IsInteger(s: string) {
    if s != "" && (s[0] == '-' || s[0] == '+') then IsDigits(s[1..]) else IsDigits(s)
  }

  // Python's `int`.
  function ReadInteger(s: string): int
    requires IsInteger(s)
  {
    if s != "" && s[0] == '-' then 0 - Value(s[1..]) as int
    else if s != "" && s[0] == '+' then Value(s[1..])
    else Value(s)
  }

  predicate IsUnsigned(s: string) {
    var e := IndexOf(s, 'e');
    var mantissa := s[..e];
    var point := IndexOf(mantissa, '.');
    && IsDigits(mantissa[..point])
    && (point < |mantissa| ==> IsDigits(mantissa[point + 1..]))
    && (e < |s| ==> IsInteger(s[e + 1..]))
  }

  // What a decimal text with optional point and exponent denotes.
  function ReadUnsigned(negative: bool, s: string): (n: Number)
    requires IsUnsigned(s)
    ensures IsNumber(n)
  {
    var e := IndexOf(s, 'e');
    var mantissa := s[..e];
    var point := IndexOf(mantissa, '.');
    var exponent := if e < |s| then ReadInteger(s[e + 1..]) else 0;
    if point == |mantissa| then Normalize(negative, mantissa, exponent)
    else Normalize(negative, mantissa[..point] + mantissa[point + 1..], exponent - (|mantissa| - point - 1))
  }

  predicate IsNumberText(s: string) { if s != "" && s[0] == '-' then IsUnsigned(s[1..]) else IsUnsigned(s) }

  function ReadNumber(s: string): (n: Number)
    requires IsNumberText(s)
    ensures IsNumber(n)
  {
    if s != "" && s[0] == '-' then ReadUnsigned(true, s[1..]) else ReadUnsigned(false, s)
  }

  lemma IndexOfIn(a: string, c: char, b: string)
    requires c !in a && (b == "" || b[0] == c)
    ensures IndexOf(a + b, c) == |a|
  {
    if b != "" { assert (a + b)[|a|] == c; }
  }

  // A mantissa without and with a point, and a tail that is empty or starts with `e`.
  lemma ReadsWhole(negative: bool, digits: string, tail: string)
    requires IsDigits(digits) && (tail == "" || (tail[0] == 'e' && IsInteger(tail[1..])))
    ensures IsUnsigned(digits + tail)
    ensures ReadUnsigned(negative, digits + tail) ==
              Normalize(negative, digits, if tail == "" then 0 else ReadInteger(tail[1..]))
  {
    hide Normalize, ReadInteger, IsInteger;
    IndexOfIn(digits, 'e', tail);
    IndexOfIn(digits, '.', "");
    assert digits + "" == digits;
    var s := digits + tail;
    assert s[..|digits|] == digits && digits[..|digits|] == digits;
    assert tail != "" ==> s[|digits| + 1..] == tail[1..];
  }

  lemma ReadsPoint(negative: bool, before: string, after: string, tail: string)
    requires IsDigits(before) && IsDigits(after) && (tail == "" || (tail[0] == 'e' && IsInteger(tail[1..])))
    ensures var s := before + "." + after + tail;
            && IsUnsigned(s)
            && ReadUnsigned(negative, s) ==
                 Normalize(negative, before + after, (if tail == "" then 0 else ReadInteger(tail[1..])) - |after|)
  {
    hide Normalize, ReadInteger, IsInteger;
    var mantissa := before + "." + after;
    IndexOfIn(mantissa, 'e', tail);
    IndexOfAfter(before, '.', after);
    var s := mantissa + tail;
    assert s[..|mantissa|] == mantissa;
    assert mantissa[..|before|] == before && mantissa[|before| + 1..] == after;
    assert tail != "" ==> s[|mantissa| + 1..] == tail[1..];
  }

  lemma ReadsExponent(i: int)
    ensures var t := ExponentText(i); t != "" && t[0] == 'e' && IsInteger(t[1..]) && ReadInteger(t[1..]) == i
  {
    ReadsInteger(i);
    assert ExponentText(i)[1..] == (if i >= 0 then "+" else "") + IntegerText(i);
  }

  lemma ReadsInteger(i: int)
    ensures var t := (if i >= 0 then "+" else "") + IntegerText(i); IsInteger(t) && ReadInteger(t) == i
  {
    hide Value, Text;
    var t := (if i >= 0 then "+" else "") + IntegerText(i);
    assert t[1..] == Text(if i >= 0 then i else -i);
  }

  lemma {:induction false} TrimLeftPadded(n: nat, s: string)
    requires s != "" && s[0] != '0'
    ensures TrimLeft(Zeros(n) + s) == s
  {
    if n > 0 {
      assert (Zeros(n) + s)[1..] == Zeros(n - 1) + s;
      TrimLeftPadded(n - 1, s);
    } else {
      assert Zeros(0) + s == s;
    }
  }

  lemma {:induction false} TrimZerosPadded(s: string, n: nat)
    requires s != "" && s[|s| - 1] != '0'
    ensures TrimZeros(s + Zeros(n)) == s
  {
    if n > 0 {
      assert (s + Zeros(n))[..|s| + n - 1] == s + Zeros(n - 1);
      TrimZerosPadded(s, n - 1);
    } else {
      assert s + Zeros(0) == s;
    }
  }

  // Normalizing normal digits padded on either side gives them back.
  lemma NormalizePadded(negative: bool, left: nat, digits: string, right: nat, exponent: int)
    requires digits != "" && IsNormal(digits, exponent + right)
    ensures IsDigits(Zeros(left) + digits + Zeros(right))
    ensures Normalize(negative, Zeros(left) + digits + Zeros(right), exponent) ==
              Number(negative, digits, exponent + right)
  {
    hide Zeros;
    var tail := digits + Zeros(right);
    assert Zeros(left) + digits + Zeros(right) == Zeros(left) + tail;
    assert tail[0] == digits[0];
    TrimLeftPadded(left, tail);
    TrimZerosPadded(digits, right);
  }

  // Reading inverts rendering, in every layout.
  lemma LayoutReads(negative: bool, digits: string, exponent: int)
    requires digits != "" && IsNormal(digits, exponent)
    ensures IsUnsigned(Layout(digits, exponent))
    ensures ReadUnsigned(negative, Layout(digits, exponent)) == Number(negative, digits, exponent)
  {
    hide *;
    var position := |digits| + exponent;
    if |digits| <= position <= 21 {
      WholeReads(negative, digits, exponent);
    } else if 0 < position <= 21 {
      PointReads(negative, digits, exponent);
    } else if -6 < position <= 0 {
      FractionReads(negative, digits, exponent);
    } else {
      ScientificReads(negative, digits, exponent);
    }
  }

  lemma WholeReads(negative: bool, digits: string, exponent: int)
    requires digits != "" && IsNormal(digits, exponent) && |digits| <= |digits| + exponent <= 21
    ensures IsUnsigned(Layout(digits, exponent))
    ensures ReadUnsigned(negative, Layout(digits, exponent)) == Number(negative, digits, exponent)
  {
    hide ReadUnsigned, IsUnsigned, Normalize, ReadInteger, IsInteger, IntegerText, Zeros;
    var text := Layout(digits, exponent);
    NormalizePadded(negative, 0, digits, exponent, 0);
    assert Zeros(0) + digits + Zeros(exponent) == text;
    ReadsWhole(negative, text, "");
    assert text + "" == text;
  }

  lemma PointReads(negative: bool, digits: string, exponent: int)
    requires digits != "" && IsNormal(digits, exponent) && exponent < 0 < |digits| + exponent <= 21
    ensures IsUnsigned(Layout(digits, exponent))
    ensures ReadUnsigned(negative, Layout(digits, exponent)) == Number(negative, digits, exponent)
  {
    hide ReadUnsigned, IsUnsigned, Normalize, ReadInteger, IsInteger, IntegerText, Zeros;
    var position := |digits| + exponent;
    NormalizeNormal(negative, digits, exponent);
    ReadsPoint(negative, digits[..position], digits[position..], "");
    assert Layout(digits, exponent) == digits[..position] + "." + digits[position..] + "";
    assert digits[..position] + digits[position..] == digits;
  }

  lemma FractionReads(negative: bool, digits: string, exponent: int)
    requires digits != "" && IsNormal(digits, exponent) && -6 < |digits| + exponent <= 0
    ensures IsUnsigned(Layout(digits, exponent))
    ensures ReadUnsigned(negative, Layout(digits, exponent)) == Number(negative, digits, exponent)
  {
    hide ReadUnsigned, IsUnsigned, Normalize, ReadInteger, IsInteger, IntegerText;
    var position := |digits| + exponent;
    var after := Zeros(-position) + digits;
    NormalizePadded(negative, 1 - position, digits, 0, exponent);
    assert Zeros(1 - position) + digits + Zeros(0) == "0" + after;
    ReadsPoint(negative, "0", after, "");
    assert Layout(digits, exponent) == "0" + "." + after + "";
  }

  lemma NormalizeNormal(negative: bool, digits: string, exponent: int)
    requires digits != "" && IsNormal(digits, exponent)
    ensures Normalize(negative, digits, exponent) == Number(negative, digits, exponent)
  {
    NormalizePadded(negative, 0, digits, 0, exponent);
    assert Zeros(0) + digits + Zeros(0) == digits;
  }

  lemma ScientificReads(negative: bool, digits: string, exponent: int)
    requires digits != "" && IsNormal(digits, exponent)
    requires var position := |digits| + exponent; position <= -6 || position > 21
    ensures IsUnsigned(Layout(digits, exponent))
    ensures ReadUnsigned(negative, Layout(digits, exponent)) == Number(negative, digits, exponent)
  {
    hide ReadUnsigned, IsUnsigned, Normalize, ReadInteger, IsInteger, ExponentText, IsNormal, Zeros, IsDigits;
    var tail := ExponentText(|digits| + exponent - 1);
    ReadsExponent(|digits| + exponent - 1);
    NormalizeNormal(negative, digits, exponent);
    NormalDigits(digits, exponent);
    if |digits| > 1 {
      ReadsPoint(negative, digits[..1], digits[1..], tail);
      assert digits[..1] + digits[1..] == digits;
    } else {
      ReadsWhole(negative, digits, tail);
      assert digits[..1] == digits;
    }
  }

  lemma NormalDigits(digits: string, exponent: int)
    requires IsNormal(digits, exponent)
    ensures IsDigits(digits)
    ensures digits != "" ==> IsDigits(digits[..1]) && IsDigits(digits[1..])
  {
  }

  lemma NumberTextReads(n: Number)
    requires IsNumber(n)
    ensures IsNumberText(NumberText(n)) && ReadNumber(NumberText(n)) == n
  {
    hide ReadUnsigned, IsUnsigned, Normalize, Layout;
    if n.digits == "" {
      ZeroReads();
    } else {
      LayoutReads(n.negative, n.digits, n.exponent);
      LayoutStart(n.digits, n.exponent);
      if n.negative { assert NumberText(n)[1..] == Layout(n.digits, n.exponent); }
    }
  }

  lemma ZeroReads()
    ensures IsUnsigned("0") && ReadUnsigned(false, "0") == Number(false, "", 0)
  {
    ReadsWhole(false, "0", "");
    assert "0" + "" == "0";
  }

  lemma LayoutStart(digits: string, exponent: int)
    requires digits != "" && IsNormal(digits, exponent)
    ensures Layout(digits, exponent) != "" && IsDigit(Layout(digits, exponent)[0])
  {
  }

  // ---- the number denoted ----

  function ValueOf(n: Number): Dec
    requires IsNumber(n)
  {
    Dec(Value(n.digits), n.exponent)
  }

  // Dropping zeros at both ends keeps digits * 10^exponent.
  lemma NormalizeKeepsValue(negative: bool, digits: string, exponent: int)
    requires IsDigits(digits)
    ensures Same(ValueOf(Normalize(negative, digits, exponent)), Dec(Value(digits), exponent))
  {
    hide *;
    var left := TrimLeft(digits);
    var kept := TrimZeros(left);
    TrimmedValue(digits, left, kept);
    NormalizeIs(negative, digits, exponent);
    if kept == "" {
      ZeroIsZero(exponent, Pow10(|left| - |kept|));
    } else {
      SameShifted(Value(kept), exponent + |left| - |kept|, |left| - |kept|);
    }
  }

  lemma NormalizeIs(negative: bool, digits: string, exponent: int)
    requires IsDigits(digits)
    ensures var left := TrimLeft(digits); var kept := TrimZeros(left);
            && IsDigits(kept)
            && ValueOf(Normalize(negative, digits, exponent)) ==
                 if kept == "" then Dec(Value(""), 0) else Dec(Value(kept), exponent + |left| - |kept|)
  {
    hide TrimLeft, TrimZeros, IsDigits, Zeros, Value;
    TrimLeftDigits(digits);
    TrimZerosDigits(TrimLeft(digits));
  }

  lemma TrimmedValue(digits: string, left: string, kept: string)
    requires IsDigits(digits) && left == TrimLeft(digits) && kept == TrimZeros(left)
    ensures IsDigits(kept) && Value(digits) == Value(kept) * Pow10(|left| - |kept|)
  {
    hide *;
    TrimLeftDigits(digits);
    TrimZerosDigits(left);
    PaddedBoth(kept, |digits| - |left|, |left| - |kept|);
  }

  lemma PaddedBoth(s: string, left: nat, right: nat)
    requires IsDigits(s)
    ensures var t := Zeros(left) + (s + Zeros(right)); IsDigits(t) && Value(t) == Value(s) * Pow10(right)
  {
    ValuePadded(s, left, right);
    assert Zeros(left) + (s + Zeros(right)) == Zeros(left) + s + Zeros(right);
  }

  lemma ZeroIsZero(exponent: int, p: nat)
    ensures Value("") * p == 0 && Same(Dec(Value(""), 0), Dec(0, exponent))
  {
  }

  lemma LastDigit(digits: string)
    requires IsDigits(digits) && digits != "" && digits[|digits| - 1] != '0'
    ensures Value(digits) % 10 != 0
  {
  }

  // Normal digits are determined by the number they denote.
  lemma NormalIsUnique(a: Number, b: Number)
    requires IsNumber(a) && IsNumber(b) && a.exponent <= b.exponent && Same(ValueOf(a), ValueOf(b))
    ensures a.digits == b.digits && a.exponent == b.exponent
  {
    hide Same, Value, Pow10, Text;
    SameScaled(ValueOf(a), ValueOf(b));
    SignOf(a);
    SignOf(b);
    if a.digits == "" || b.digits == "" {
      assert a.digits == b.digits;
    } else {
      LastDigit(a.digits);
      NotAMultiple(Value(a.digits), Value(b.digits), b.exponent - a.exponent);
      CanonicalDigitsUnique(a.digits);
      CanonicalDigitsUnique(b.digits);
    }
  }

  lemma SameScaled(a: Dec, b: Dec)
    requires a.exponent <= b.exponent && Same(a, b)
    ensures a.coefficient == b.coefficient * Pow10(b.exponent - a.exponent)
  {
    assert Pow10(0) == 1;
  }

  lemma SignOf(n: Number)
    requires IsNumber(n)
    ensures Value(n.digits) == 0 <==> n.digits == ""
    ensures forall k: nat :: Value(n.digits) > 0 ==> Value(n.digits) * Pow10(k) > 0
  {
    if n.digits != "" { PositiveWithoutLeadingZero(n.digits); }
  }

  lemma NotAMultiple(x: nat, y: nat, k: nat)
    requires x == y * Pow10(k) && x % 10 != 0
    ensures k == 0 && x == y
  {
    if k > 0 { TenDivides(y, k); }
  }

  lemma TenDivides(y: nat, k: nat)
    requires k > 0
    ensures (y * Pow10(k)) % 10 == 0
  {
    MulAssociates(y, 10, Pow10(k - 1));
    assert y * Pow10(k) == 10 * (y * Pow10(k - 1));
  }

  // Two numbers are rendered alike exactly when they are the same number.
  lemma EqualTextsExactly(a: Number, b: Number)
    requires IsNumber(a) && IsNumber(b)
    ensures NumberText(a) == NumberText(b) <==> a.negative == b.negative && Same(ValueOf(a), ValueOf(b))
  {
    hide NumberText, ReadNumber, IsNumber, Same;
    NumberTextReads(a);
    NumberTextReads(b);
    SameItself(ValueOf(a));
    if Same(ValueOf(a), ValueOf(b)) {
      SameSymmetric(ValueOf(a), ValueOf(b));
      if a.exponent <= b.exponent { NormalIsUnique(a, b); } else { NormalIsUnique(b, a); }
    }
  }

  lemma SameItself(d: Dec)
    ensures Same(d, d)
  {
  }

  // ---- which layout (Number::toString of ECMA-262, section 6.1.6.1.20) ----

  lemma DigitsOnly(s: string)
    requires IsDigits(s)
    ensures 'e' !in s && '.' !in s && '-' !in s && '+' !in s
  {
  }

  lemma ZerosOnly(n: nat)
    ensures IsDigits(Zeros(n)) && |Zeros(n)| == n
  {
  }

  // With k digits and the point after the first n of them, counted from the left: no exponent is written as long as
  // -6 < n <= 21, no point when all digits are before it, and an exponent of n - 1 carries its sign.
  predicate IsLaidOut(digits: string, exponent: int, text: string)
    requires digits != ""
  {
    var k, n := |digits|, |digits| + exponent;
    && ('e' in text <==> n > 21 || n <= -6)
    && ('.' in text <==> if -6 < n <= 21 then n < k else k > 1)
    && (k <= n <= 21 ==> |text| == n && text[..k] == digits)
    && (0 < n < k && n <= 21 ==> |text| == k + 1 && text[n] == '.')
    && (-6 < n <= 0 ==> |text| == 2 - n + k && text[0] == '0' && text[1] == '.')
    && (n > 21 || n <= -6 ==>
          var e := if k > 1 then k + 1 else 1;
          && e + 2 < |text| && text[0] == digits[0] && (k > 1 ==> text[1] == '.')
          && text[e] == 'e' && text[e + 1] == (if n > 21 then '+' else '-')
          && text[e + 2..] == Text(if n > 21 then n - 1 else 1 - n))
  }

  lemma WholeIsLaidOut(digits: string, exponent: int)
    requires digits != "" && IsDigits(digits) && |digits| <= |digits| + exponent <= 21
    ensures IsLaidOut(digits, exponent, Layout(digits, exponent))
  {
    hide Zeros, Text, IsDigits, ExponentText;
    var text, n := Layout(digits, exponent), |digits| + exponent;
    DigitsOnly(digits);
    ZerosOnly(n - |digits|);
    DigitsOnly(Zeros(n - |digits|));
    assert text == digits + Zeros(n - |digits|);
  }

  lemma PointIsLaidOut(digits: string, exponent: int)
    requires digits != "" && IsDigits(digits) && exponent < 0 < |digits| + exponent <= 21
    ensures IsLaidOut(digits, exponent, Layout(digits, exponent))
  {
    hide Zeros, Text, IsDigits, ExponentText;
    var text, n := Layout(digits, exponent), |digits| + exponent;
    DigitsOnly(digits);
    assert text == digits[..n] + "." + digits[n..];
    assert text[n] == '.';
  }

  lemma FractionIsLaidOut(digits: string, exponent: int)
    requires digits != "" && IsDigits(digits) && -6 < |digits| + exponent <= 0
    ensures IsLaidOut(digits, exponent, Layout(digits, exponent))
  {
    hide Zeros, Text, IsDigits, ExponentText;
    var text, n := Layout(digits, exponent), |digits| + exponent;
    DigitsOnly(digits);
    ZerosOnly(-n);
    DigitsOnly(Zeros(-n));
    assert text == "0." + (Zeros(-n) + digits);
  }

  lemma ScientificIsLaidOut(digits: string, exponent: int)
    requires digits != "" && IsDigits(digits) && (|digits| + exponent > 21 || |digits| + exponent <= -6)
    ensures IsLaidOut(digits, exponent, Layout(digits, exponent))
  {
    hide Zeros, Text, IsDigits, ExponentText;
    var text, n := Layout(digits, exponent), |digits| + exponent;
    DigitsOnly(digits);
    ExponentIs(n - 1);
    var tail := ExponentText(n - 1);
    if |digits| > 1 {
      assert text == digits[..1] + "." + digits[1..] + tail;
      assert text[|digits| + 1..] == tail && text[1] == '.';
    } else {
      assert text == digits[..1] + tail;
      assert text[1..] == tail;
    }
    TailParts(text, if |digits| > 1 then |digits| + 1 else 1, tail);
  }

  lemma TailParts(text: string, e: nat, tail: string)
    requires e <= |text| && text[e..] == tail && |tail| > 2
    ensures e + 2 < |text| && text[e] == tail[0] && text[e + 1] == tail[1] && text[e + 2..] == tail[2..]
  {
  }

  lemma LayoutExactly(digits: string, exponent: int)
    requires digits != "" && IsNormal(digits, exponent)
    ensures IsLaidOut(digits, exponent, Layout(digits, exponent))
  {
    hide *;
    var n := |digits| + exponent;
    DigitsOfNormal(digits, exponent);
    if n > 21 || n <= -6 {
      ScientificIsLaidOut(digits, exponent);
    } else if n >= |digits| {
      WholeIsLaidOut(digits, exponent);
    } else if n > 0 {
      PointIsLaidOut(digits, exponent);
    } else {
      FractionIsLaidOut(digits, exponent);
    }
  }

  lemma DigitsOfNormal(digits: string, exponent: int)
    requires IsNormal(digits, exponent)
    ensures IsDigits(digits)
  {
  }

  lemma ExponentIs(i: int)
    ensures var t := ExponentText(i);
            && |t| > 2 && t[0] == 'e' && t[1] == (if i >= 0 then '+' else '-')
            && t[2..] == Text(if i >= 0 then i else -i)
            && '.' !in t
  {
    hide Text, Value, IsDigits;
    var digits := Text(if i >= 0 then i else -i);
    DigitsOnly(digits);
    var head := if i >= 0 then "e+" else "e-";
    assert ExponentText(i) == head + digits;
    assert (head + digits)[2..] == digits;
  }

  // A minus sign comes first exactly for a negative number, and zero is a lone digit.
  lemma SignExactly(n: Number)
    requires IsNumber(n)
    ensures NumberText(n) != "" && (NumberText(n)[0] == '-' <==> n.negative)
    ensures n.digits == "" ==> NumberText(n) == "0"
    ensures n.negative ==> NumberText(n)[1..] == NumberText(n.(negative := false))
  {
    hide Layout, IsDigits;
    if n.digits != "" { LayoutStart(n.digits, n.exponent); }
  }
}
