// The JSON grammar of RFC 8259 as a relation between texts and values, written without the renderer: a canonical
// text is one of a value's JSON texts, and no shorter escape could have been chosen.
module JsonGrammar {
  import opened Options
  import opened DropAmounts
  import opened EcmascriptNumbers
  import opened JsonText
  import opened CanonicalJson
  import opened Ordering

  // ---- strings (section 7 of RFC 8259) ----

  predicate IsHex4(t: string) {
    |t| == 4 && forall j | 0 <= j < 4 :: '0' <= t[j] <= '9' || 'a' <= t[j] <= 'f' || 'A' <= t[j] <= 'F'
  }

  function HexOf(c: char): int {
    if '0' <= c <= '9' then (c - '0') as int
    else if 'a' <= c <= 'f' then (c - 'a') as int + 10
    else if 'A' <= c <= 'F' then (c - 'A') as int + 10
    else 0
  }

  function Hex4(t: string): int
    requires |t| == 4
  {
    0x1000 * HexOf(t[0]) + 0x100 * HexOf(t[1]) + 0x10 * HexOf(t[2]) + HexOf(t[3])
  }

  // The ways to write a character.
  predicate CharText(t: string, c: char) {
    || (t == [c] && c != '"' && c != '\\' && c as int >= 0x20)
    || (t == "\\\"" && c == '"') || (t == "\\\\" && c == '\\') || (t == "\\/" && c == '/')
    || (t == "\\b" && c as int == 8) || (t == "\\f" && c as int == 12) || (t == "\\n" && c as int == 10)
    || (t == "\\r" && c as int == 13) || (t == "\\t" && c as int == 9)
    || (|t| == 6 && t[..2] == "\\u" && IsHex4(t[2..]) && Hex4(t[2..]) == c as int)
    || (|t| == 12 && t[..2] == "\\u" && IsHex4(t[2..6]) && t[6..8] == "\\u" && IsHex4(t[8..])
        && UnitsOf(c) == [Hex4(t[2..6]), Hex4(t[8..])])
  }

  // The characters of a string and its closing quote.
  ghost predicate TailText(t: string, s: string)
    decreases |s|
  {
    if s == "" then t == "\""
    else exists k :: 0 < k <= |t| && CharText(t[..k], s[0]) && TailText(t[k..], s[1..])
  }

  ghost predicate StringText(t: string, s: string) { t != "" && t[0] == '"' && TailText(t[1..], s) }

  function LowerHex(c: char): char { if 'A' <= c <= 'F' then c + 32 as char else c }

  lemma EscapeIsText(c: char)
    ensures CharText(EscapeChar(c), c)
  {
    var n := c as int;
    if n < 32 && EscapeChar(c)[1] == 'u' {
      var t := EscapeChar(c);
      assert t[..2] == "\\u" && t[2..][0] == '0' && t[2..][1] == '0';
      assert t[2..][2] == HexDigit(n / 16) && t[2..][3] == HexDigit(n % 16);
      HexDigitReads(n / 16);
      HexDigitReads(n % 16);
    }
  }

  lemma HexDigitReads(n: int)
    requires 0 <= n < 16
    ensures HexOf(HexDigit(n)) == n && LowerHex(HexDigit(n)) == HexDigit(n)
    ensures '0' <= HexDigit(n) <= '9' || 'a' <= HexDigit(n) <= 'f'
  {
  }

  lemma HexIsDigit(c: char)
    requires '0' <= c <= '9' || 'a' <= c <= 'f' || 'A' <= c <= 'F'
    ensures 0 <= HexOf(c) < 16 && HexDigit(HexOf(c)) == LowerHex(c)
  {
  }

  // Every other way to write a character is longer, or differs only in writing hexadecimal digits in upper case.
  lemma EscapeIsShortest(c: char, t: string)
    requires CharText(t, c)
    ensures |EscapeChar(c)| <= |t|
    ensures |EscapeChar(c)| == |t| && t != EscapeChar(c) ==>
              |t| == 6 && t[..2] == "\\u" && forall j | 2 <= j < 6 :: EscapeChar(c)[j] == LowerHex(t[j])
  {
    if |t| == 6 && t[..2] == "\\u" && |EscapeChar(c)| == 6 {
      var h := t[2..];
      assert h[0] == t[2] && h[1] == t[3] && h[2] == t[4] && h[3] == t[5];
      HexIsDigit(t[2]);
      HexIsDigit(t[3]);
      HexIsDigit(t[4]);
      HexIsDigit(t[5]);
      assert HexOf(t[2]) == 0 && HexOf(t[3]) == 0 && HexOf(t[4]) == c as int / 16 && HexOf(t[5]) == c as int % 16;
    }
  }

  lemma {:induction false} QuoteTailIsText(s: string)
    ensures TailText(QuoteTail(s), s)
  {
    if s != "" {
      var t, k := QuoteTail(s), |EscapeChar(s[0])|;
      EscapeIsText(s[0]);
      QuoteTailIsText(s[1..]);
      assert t[..k] == EscapeChar(s[0]) && t[k..] == QuoteTail(s[1..]);
    }
  }

  lemma QuoteIsText(s: string)
    ensures StringText(Quote(s), s)
  {
    QuoteTailIsText(s);
    assert Quote(s)[1..] == QuoteTail(s);
  }

  // ---- values (sections 3 to 6) ----

  ghost predicate IsText(v: Json, t: string) {
    match v
    case Null => t == "null"
    case Bool(b) => t == if b then "true" else "false"
    case Str(s) => StringText(t, s)
    case Int(_) => IsNumberText(t) && ReadNumber(t) == NumberOf(v)
    case Float(_, _, _, _) => IsNumberText(t) && ReadNumber(t) == NumberOf(v)
    case NonFinite => false
    case Arr(items) =>
      exists texts: seq<string> ::
        && |texts| == |items| && t == "[" + Join(texts) + "]"
        && forall i | 0 <= i < |items| :: IsText(items[i], texts[i])
    case Obj(members) =>
      exists texts: seq<string>, order: seq<nat> ::
        && |texts| == |order| == |members| && IsOrder(order, |members|) && t == "{" + Join(texts) + "}"
        && forall i | 0 <= i < |members| ::
             order[i] < |members|
             && exists name: string, text: string ::
                  texts[i] == name + ":" + text && StringText(name, members[order[i]].name)
                  && IsText(members[order[i]].value, text)
  }

  // Every position once.
  predicate IsOrder(order: seq<nat>, n: nat) {
    && |order| == n
    && (forall i | 0 <= i < n :: order[i] < n)
    && (forall i, j | 0 <= i < j < n :: order[i] != order[j])
  }

  // A canonical text is one of the value's JSON texts, without any space.
  lemma {:induction false} CanonicalIsText(v: Json)
    requires IsValue(v) && Canonical(v).Some?
    ensures IsText(v, Canonical(v).value)
  {
    hide Quote, StringText, NumberText, Normalize, Join;
    match v
    case Null =>
    case Bool(_) =>
    case Str(s) => QuoteIsText(s);
    case Int(_) =>
      NumericText(v);
      NumberTextReads(NumberOf(v));
    case Float(_, _, _, _) =>
      NumericText(v);
      NumberTextReads(NumberOf(v));
    case NonFinite =>
    case Arr(items) => ArrayIsText(items);
    case Obj(members) => ObjectIsText(members);
  }

  lemma ArrayIsText(items: seq<Json>)
    requires IsValue(Arr(items)) && Canonical(Arr(items)).Some?
    ensures IsText(Arr(items), Canonical(Arr(items)).value)
    decreases Arr(items), 0
  {
    hide Join;
    CanonicalItemsAt(items);
    var texts := CanonicalItems(items).value;
    forall i | 0 <= i < |items| ensures IsText(items[i], texts[i]) {
      CanonicalIsText(items[i]);
    }
  }

  lemma ObjectIsText(members: seq<Member>)
    requires IsValue(Obj(members)) && Canonical(Obj(members)).Some?
    ensures IsText(Obj(members), Canonical(Obj(members)).value)
    decreases Obj(members), 0
  {
    hide Join, Quote, StringText, Sort, Canonical, CanonicalMembers;
    var v := Obj(members);
    ObjectTexts(v);
    KeysSorted(members);
    var keys := SortedKeys(members);
    var texts := MemberTexts(keys, TextsOf(v));
    var order := OrderOf(members);
    forall i | 0 <= i < |members|
      ensures exists name: string, text: string ::
                texts[i] == name + ":" + text && StringText(name, members[order[i]].name)
                && IsText(members[order[i]].value, text)
    {
      CanonicalMemberAt(members, order[i]);
      CanonicalIsText(members[order[i]].value);
      QuoteIsText(keys[i]);
      assert texts[i] == Quote(keys[i]) + ":" + TextsOf(v)[keys[i]];
    }
  }

  // Where the sorted names stand among the members.
  lemma OrderOf(members: seq<Member>) returns (order: seq<nat>)
    requires DistinctNames(members)
    ensures IsOrder(order, |members|) && |SortedKeys(members)| == |members|
    ensures forall i | 0 <= i < |members| :: members[order[i]].name == SortedKeys(members)[i]
  {
    hide Sort;
    KeysSorted(members);
    MembersAreInCodeUnitOrder(members);
    var keys := SortedKeys(members);
    order := [];
    var n := 0;
    while n < |members|
      invariant n <= |members| && |order| == n
      invariant forall i | 0 <= i < n :: order[i] < |members| && members[order[i]].name == keys[i]
    {
      assert keys[n] in KeysOf(members);
      var j :| 0 <= j < |members| && KeysOf(members)[j] == keys[n];
      order := order + [j];
      n := n + 1;
    }
    forall i, j | 0 <= i < j < |members| ensures order[i] != order[j] {
      LessTrichotomy(Units(keys[i]), Units(keys[j]));
      LessTrichotomy(Units(keys[i]), Units(keys[i]));
    }
  }
}
