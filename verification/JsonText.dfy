// String quoting as `json.dumps(..., ensure_ascii=False)` does it, and the UTF-16 order of object keys
// (section 3.2.3 of RFC 8785).  Strings are sequences of Unicode scalar values.
module JsonText {
  import opened Ordering

  function HexDigit(n: int): char
    requires 0 <= n < 16
  {
    "0123456789abcdef"[n]
  }

  function EscapeChar(c: char): (s: string)
    ensures s != "" && s[0] != '"'
  {
    if c == '"' then "\\\""
    else if c == '\\' then "\\\\"
    else if c == '\n' then "\\n"
    else if c == '\r' then "\\r"
    else if c == '\t' then "\\t"
    else if c as int == 8 then "\\b"
    else if c as int == 12 then "\\f"
    else if c as int < 32 then "\\u00" + [HexDigit(c as int / 16), HexDigit(c as int % 16)]
    else [c]
  }

  // The escaped characters and the closing quote.
  function QuoteTail(s: string): string { if s == "" then "\"" else EscapeChar(s[0]) + QuoteTail(s[1..]) }

  function Quote(s: string): string { "\"" + QuoteTail(s) }

  // What an escape sequence says about the character that it starts.
  function Escaped(s: string): char {
    if s == "" || s[0] != '\\' then (if s == "" then '?' else s[0])
    else if |s| < 2 then '?'
    else if s[1] == '"' then '"'
    else if s[1] == '\\' then '\\'
    else if s[1] == 'n' then '\n'
    else if s[1] == 'r' then '\r'
    else if s[1] == 't' then '\t'
    else if s[1] == 'b' then 8 as char
    else if s[1] == 'f' then 12 as char
    else if |s| < 6 then '?'
    else HexChar(s[4], s[5])
  }

  function HexValue(c: char): int {
    if '0' <= c <= '9' then (c - '0') as int else if 'a' <= c <= 'f' then (c - 'a') as int + 10 else 0
  }

  function HexChar(a: char, b: char): char { (16 * HexValue(a) + HexValue(b)) as char }

  lemma HexDigits(n: int)
    requires 0 <= n < 16
    ensures HexValue(HexDigit(n)) == n
  {
  }

  lemma EscapedInverts(c: char, rest: string)
    ensures Escaped(EscapeChar(c) + rest) == c
  {
    var s := EscapeChar(c) + rest;
    if c as int < 32 && s[1] == 'u' {
      HexDigits(c as int / 16);
      HexDigits(c as int % 16);
    }
  }

  // A quoted string ends where its own closing quote is, so what follows cannot change what it says.
  lemma {:induction false} QuoteTailIsPrefixFree(s: string, t: string, x: string, y: string)
    requires QuoteTail(s) + x == QuoteTail(t) + y
    ensures s == t && x == y
  {
    hide EscapeChar, Escaped;
    assert (QuoteTail(s) + x)[0] == (QuoteTail(t) + y)[0];
    if s == "" {
      assert ("\"" + x)[1..] == x && ("\"" + y)[1..] == y;
    } else {
      assert QuoteTail(s) + x == EscapeChar(s[0]) + (QuoteTail(s[1..]) + x);
      assert QuoteTail(t) + y == EscapeChar(t[0]) + (QuoteTail(t[1..]) + y);
      EscapeIsPrefixFree(s[0], t[0], QuoteTail(s[1..]) + x, QuoteTail(t[1..]) + y);
      QuoteTailIsPrefixFree(s[1..], t[1..], x, y);
      assert s == [s[0]] + s[1..] && t == [t[0]] + t[1..];
    }
  }

  lemma EscapeIsPrefixFree(c: char, d: char, p: string, q: string)
    requires EscapeChar(c) + p == EscapeChar(d) + q
    ensures c == d && p == q
  {
    hide EscapeChar, Escaped;
    EscapedInverts(c, p);
    EscapedInverts(d, q);
    assert (EscapeChar(c) + p)[|EscapeChar(c)|..] == p && (EscapeChar(d) + q)[|EscapeChar(d)|..] == q;
  }

  lemma QuoteIsPrefixFree(s: string, t: string, x: string, y: string)
    requires Quote(s) + x == Quote(t) + y
    ensures s == t && x == y
  {
    assert (Quote(s) + x)[1..] == QuoteTail(s) + x && (Quote(t) + y)[1..] == QuoteTail(t) + y;
    QuoteTailIsPrefixFree(s, t, x, y);
  }

  // ---- UTF-16 ----

  function UnitsOf(c: char): seq<int> {
    var n := c as int;
    if n < 0x1_0000 then [n] else [0xD800 + (n - 0x1_0000) / 0x400, 0xDC00 + (n - 0x1_0000) % 0x400]
  }

  function Units(s: string): seq<int> { if s == "" then [] else UnitsOf(s[0]) + Units(s[1..]) }

  function BytesOf(units: seq<int>): seq<int> {
    if units == [] then [] else [units[0] / 256, units[0] % 256] + BytesOf(units[1..])
  }

  // `value.encode("utf-16-be")`.
  function Utf16Be(s: string): seq<int> { BytesOf(Units(s)) }

  // A character outside the basic plane becomes a high and a low surrogate that carry ten bits each.
  lemma UnitsSpell(c: char)
    ensures c as int < 0x1_0000 ==> UnitsOf(c) == [c as int]
    ensures c as int >= 0x1_0000 ==>
              && |UnitsOf(c)| == 2
              && 0xD800 <= UnitsOf(c)[0] < 0xDC00 <= UnitsOf(c)[1] < 0xE000
              && (UnitsOf(c)[0] - 0xD800) * 0x400 + (UnitsOf(c)[1] - 0xDC00) == c as int - 0x1_0000
  {
  }

  // Every unit takes two bytes, the high one first.
  lemma {:induction false} BytesSpell(units: seq<int>, i: nat)
    requires i < |units| && forall u | u in units :: 0 <= u < 0x1_0000
    ensures |BytesOf(units)| == 2 * |units|
    ensures 0 <= BytesOf(units)[2 * i] < 256 && 0 <= BytesOf(units)[2 * i + 1] < 256
    ensures BytesOf(units)[2 * i] * 256 + BytesOf(units)[2 * i + 1] == units[i]
  {
    assert units[0] in units;
    if |units| > 1 {
      assert forall u | u in units[1..] :: u in units;
      BytesSpell(units[1..], if i == 0 then 0 else i - 1);
    }
  }

  // Ordering the bytes is ordering the code units.
  lemma {:induction false} BytesOrderUnits(a: seq<int>, b: seq<int>)
    requires forall i | 0 <= i < |a| :: a[i] >= 0
    requires forall i | 0 <= i < |b| :: b[i] >= 0
    ensures Less(BytesOf(a), BytesOf(b)) <==> Less(a, b)
  {
    if a != [] && b != [] {
      BytesOrderUnits(a[1..], b[1..]);
      PairOrder(a[0], b[0], BytesOf(a[1..]), BytesOf(b[1..]));
    }
  }

  lemma PairOrder(m: int, n: int, x: seq<int>, y: seq<int>)
    ensures Less([m / 256, m % 256] + x, [n / 256, n % 256] + y) <==> m < n || (m == n && Less(x, y))
  {
    var a, b := [m / 256, m % 256] + x, [n / 256, n % 256] + y;
    assert a[1..] == [m % 256] + x && b[1..] == [n % 256] + y;
    assert a[1..][1..] == x && b[1..][1..] == y;
    assert Less(a[1..], b[1..]) <==> m % 256 < n % 256 || (m % 256 == n % 256 && Less(x, y));
  }

  lemma UnitsOfIsPrefixFree(c: char, d: char, x: seq<int>, y: seq<int>)
    requires UnitsOf(c) + x == UnitsOf(d) + y
    ensures c == d && x == y
  {
    var m, n := c as int, d as int;
    var p, q := UnitsOf(c) + x, UnitsOf(d) + y;
    assert p[0] == q[0];
    if m < 0x1_0000 && n < 0x1_0000 {
    } else if m >= 0x1_0000 && n >= 0x1_0000 {
      assert p[1] == q[1];
      assert m - 0x1_0000 == (m - 0x1_0000) / 0x400 * 0x400 + (m - 0x1_0000) % 0x400;
      assert n - 0x1_0000 == (n - 0x1_0000) / 0x400 * 0x400 + (n - 0x1_0000) % 0x400;
    }
    assert |UnitsOf(c)| == |UnitsOf(d)|;
    assert p[|UnitsOf(c)|..] == x && q[|UnitsOf(d)|..] == y;
  }

  lemma {:induction false} UnitsInjective(s: string, t: string)
    requires Units(s) == Units(t)
    ensures s == t
  {
    if s != "" && t != "" {
      UnitsOfIsPrefixFree(s[0], t[0], Units(s[1..]), Units(t[1..]));
      UnitsInjective(s[1..], t[1..]);
      assert s == [s[0]] + s[1..] && t == [t[0]] + t[1..];
    }
  }

  lemma {:induction false} UnitsNatural(s: string)
    ensures forall i | 0 <= i < |Units(s)| :: Units(s)[i] >= 0
  {
    if s != "" { UnitsNatural(s[1..]); }
  }

  // Distinct keys have distinct encodings.
  lemma Utf16BeInjective(s: string, t: string)
    requires Utf16Be(s) == Utf16Be(t)
    ensures s == t
  {
    UnitsNatural(s);
    UnitsNatural(t);
    BytesOrderUnits(Units(s), Units(t));
    BytesOrderUnits(Units(t), Units(s));
    LessTrichotomy(Units(s), Units(t));
    LessTrichotomy(Utf16Be(s), Utf16Be(t));
    UnitsInjective(s, t);
  }
}
