// The hand-written RFC 8785 canonicalizer of packages/mcp binding.py and why its texts identify values.
module CanonicalJson {
  import opened Options
  import opened DropAmounts
  import opened DecimalText
  import opened EcmascriptNumbers
  import opened JsonText
  import opened Ordering

  const MAX_SAFE_INTEGER := 9_007_199_254_740_991

  type Digits = s: string | IsDigits(s)

  // A Python JSON value.  A finite float is given by the parts of its `repr`; an object by its members in
  // insertion order.
  datatype Json =
    | Null
    | Bool(b: bool)
    | Str(s: string)
    | Int(n: int)
    | Float(negative: bool, before: Digits, after: Digits, exponent: int)
    | NonFinite
    | Arr(items: seq<Json>)
    | Obj(members: seq<Member>)

  datatype Member = Member(name: string, value: Json)

  function KeysOf(members: seq<Member>): (keys: seq<string>)
    ensures |keys| == |members| && forall i | 0 <= i < |keys| :: keys[i] == members[i].name
  {
    seq(|members|, i requires 0 <= i < |members| => members[i].name)
  }

  predicate DistinctNames(members: seq<Member>) {
    forall i, j | 0 <= i < j < |members| :: members[i].name != members[j].name
  }

  // A dictionary never has two members of one name.
  predicate IsValue(v: Json) {
    match v
    case Arr(items) => forall i | 0 <= i < |items| :: IsValue(items[i])
    case Obj(members) => DistinctNames(members) && forall i | 0 <= i < |members| :: IsValue(members[i].value)
    case _ => true
  }

  // Nothing in the value is outside I-JSON.
  predicate IsSafe(v: Json) {
    match v
    case Int(n) => -MAX_SAFE_INTEGER <= n <= MAX_SAFE_INTEGER
    case NonFinite => false
    case Arr(items) => forall i | 0 <= i < |items| :: IsSafe(items[i])
    case Obj(members) => forall i | 0 <= i < |members| :: IsSafe(members[i].value)
    case _ => true
  }

  function SortedKeys(members: seq<Member>): seq<string> { Sort(Utf16Be, KeysOf(members)) }

  function Join(texts: seq<string>): string {
    if |texts| == 0 then "" else if |texts| == 1 then texts[0] else texts[0] + "," + Join(texts[1..])
  }

  function MemberTexts(keys: seq<string>, texts: map<string, string>): (r: seq<string>)
    ensures |r| == |keys|
  {
    seq(|keys|, i requires 0 <= i < |keys| => if keys[i] in texts then Quote(keys[i]) + ":" + texts[keys[i]] else "")
  }

  // `_canonical_json`; no result stands for the ValueError on a number outside I-JSON.
  function Canonical(v: Json): Option<string> {
    match v
    case Null => Some("null")
    case Bool(b) => Some(if b then "true" else "false")
    case Str(s) => Some(Quote(s))
    case Int(n) => if n < -MAX_SAFE_INTEGER || n > MAX_SAFE_INTEGER then None else Some(IntegerText(n))
    case Float(negative, before, after, exponent) =>
      Some(NumberText(Normalize(negative, before + after, exponent - |after|)))
    case NonFinite => None
    case Arr(items) =>
      var texts := CanonicalItems(items);
      if texts.None? then None else Some("[" + Join(texts.value) + "]")
    case Obj(members) =>
      var texts := CanonicalMembers(members);
      if texts.None? then None else Some("{" + Join(MemberTexts(SortedKeys(members), texts.value)) + "}")
  }

  function CanonicalItems(items: seq<Json>): Option<seq<string>> {
    if items == [] then Some([])
    else
      var first, rest := Canonical(items[0]), CanonicalItems(items[1..]);
      if first.None? || rest.None? then None else Some([first.value] + rest.value)
  }

  function CanonicalMembers(members: seq<Member>): Option<map<string, string>> {
    if members == [] then Some(map[])
    else
      var first, rest := Canonical(members[0].value), CanonicalMembers(members[1..]);
      if first.None? || rest.None? then None else Some(rest.value[members[0].name := first.value])
  }

  // ---- what a value means ----

  // JSON values up to equality of numbers and up to the order of members.
  datatype Meaning =
    | MNull | MBool(b: bool) | MStr(s: string) | MNumber(n: Number) | MNothing
    | MArr(items: seq<Meaning>)
    | MObj(members: map<string, Meaning>)

  predicate IsNumeric(v: Json) { v.Int? || v.Float? }

  function NumberOf(v: Json): (n: Number)
    requires IsNumeric(v)
    ensures IsNumber(n)
  {
    match v
    case Int(n) => Normalize(n < 0, Text(if n < 0 then -n else n), 0)
    case Float(negative, before, after, exponent) => Normalize(negative, before + after, exponent - |after|)
  }

  function MeaningOf(v: Json): Meaning {
    match v
    case Null => MNull
    case Bool(b) => MBool(b)
    case Str(s) => MStr(s)
    case Int(_) => MNumber(NumberOf(v))
    case Float(_, _, _, _) => MNumber(NumberOf(v))
    case NonFinite => MNothing
    case Arr(items) => MArr(MeaningItems(items))
    case Obj(members) => MObj(MeaningMembers(members))
  }

  function MeaningItems(items: seq<Json>): (r: seq<Meaning>)
    ensures |r| == |items| && forall i | 0 <= i < |items| :: r[i] == MeaningOf(items[i])
  {
    if items == [] then [] else [MeaningOf(items[0])] + MeaningItems(items[1..])
  }

  function MeaningMembers(members: seq<Member>): map<string, Meaning> {
    if members == [] then map[] else MeaningMembers(members[1..])[members[0].name := MeaningOf(members[0].value)]
  }

  // ---- rendering, member by member ----

  lemma {:induction false} CanonicalItemsAt(items: seq<Json>)
    ensures CanonicalItems(items).Some? <==> forall i | 0 <= i < |items| :: Canonical(items[i]).Some?
    ensures CanonicalItems(items).Some? ==>
              |CanonicalItems(items).value| == |items|
              && forall i | 0 <= i < |items| :: Canonical(items[i]) == Some(CanonicalItems(items).value[i])
  {
    hide Canonical;
    if items != [] {
      CanonicalItemsAt(items[1..]);
      assert forall i | 0 < i < |items| :: items[i] == items[1..][i - 1];
      assert forall i | 0 <= i < |items[1..]| :: items[1..][i] == items[i + 1];
    }
  }

  lemma {:induction false} CanonicalMemberAt(members: seq<Member>, i: nat)
    requires DistinctNames(members) && CanonicalMembers(members).Some? && i < |members|
    ensures members[i].name in CanonicalMembers(members).value
    ensures Canonical(members[i].value) == Some(CanonicalMembers(members).value[members[i].name])
  {
    hide Canonical;
    if i > 0 {
      assert members[i] == members[1..][i - 1];
      CanonicalMemberAt(members[1..], i - 1);
    }
  }

  lemma {:induction false} CanonicalNames(members: seq<Member>, k: string)
    requires CanonicalMembers(members).Some?
    ensures k in CanonicalMembers(members).value <==> k in KeysOf(members)
  {
    hide Canonical;
    if members != [] {
      CanonicalNames(members[1..], k);
      assert KeysOf(members) == [members[0].name] + KeysOf(members[1..]);
    }
  }

  lemma {:induction false} CanonicalMembersAll(members: seq<Member>)
    ensures CanonicalMembers(members).Some? <==> forall m | m in members :: Canonical(m.value).Some?
  {
    hide Canonical;
    if members != [] {
      CanonicalMembersAll(members[1..]);
      assert members == [members[0]] + members[1..];
    }
  }

  lemma {:induction false} MeaningMemberAt(members: seq<Member>, i: nat)
    requires DistinctNames(members) && i < |members|
    ensures members[i].name in MeaningMembers(members)
    ensures MeaningMembers(members)[members[i].name] == MeaningOf(members[i].value)
  {
    hide MeaningOf;
    if i > 0 {
      assert members[i] == members[1..][i - 1];
      MeaningMemberAt(members[1..], i - 1);
    }
  }

  lemma {:induction false} MeaningNames(members: seq<Member>, k: string)
    ensures k in MeaningMembers(members) <==> k in KeysOf(members)
  {
    hide MeaningOf;
    if members != [] {
      MeaningNames(members[1..], k);
      assert KeysOf(members) == [members[0].name] + KeysOf(members[1..]);
    }
  }

  // A value is rendered exactly when every number in it is inside I-JSON.
  lemma {:induction false} CanonicalExactly(v: Json)
    requires IsValue(v)
    ensures Canonical(v).Some? <==> IsSafe(v)
  {
    match v
    case Arr(items) =>
      CanonicalItemsAt(items);
      forall i | 0 <= i < |items| ensures Canonical(items[i]).Some? <==> IsSafe(items[i]) {
        CanonicalExactly(items[i]);
      }
    case Obj(members) =>
      CanonicalMembersAll(members);
      forall i | 0 <= i < |members| ensures Canonical(members[i].value).Some? <==> IsSafe(members[i].value) {
        CanonicalExactly(members[i].value);
      }
    case _ =>
  }

  // ---- numbers ----

  predicate IsNumberChar(c: char) { IsDigit(c) || c == '.' || c == 'e' || c == '+' || c == '-' }

  predicate AllNumberChars(s: string) { forall i | 0 <= i < |s| :: IsNumberChar(s[i]) }

  lemma DigitsAreNumberChars(s: string)
    requires IsDigits(s)
    ensures AllNumberChars(s)
  {
  }

  lemma IntegerTextChars(i: int)
    ensures AllNumberChars(IntegerText(i))
  {
    hide Text;
    DigitsAreNumberChars(Text(if i < 0 then -i else i));
  }

  lemma NumberTextChars(n: Number)
    requires IsNumber(n)
    ensures AllNumberChars(NumberText(n))
  {
    hide IntegerText;
    if n.digits != "" {
      var position := |n.digits| + n.exponent;
      IntegerTextChars(position - 1);
    }
  }

  // An integer in the safe range has few enough digits to be rendered in full.
  lemma IntegerIsNumberText(n: int)
    requires -MAX_SAFE_INTEGER <= n <= MAX_SAFE_INTEGER
    ensures IntegerText(n) == NumberText(NumberOf(Int(n)))
  {
    hide Normalize, Text, Layout;
    if n == 0 {
      ZeroText();
    } else {
      PositiveIsLayout(n < 0, if n < 0 then -n else n);
    }
  }

  lemma ZeroText()
    ensures Text(0) == "0" && Normalize(false, Text(0), 0) == Number(false, "", 0)
  {
    assert Text(0)[1..] == "";
  }

  lemma PositiveIsLayout(negative: bool, m: nat)
    requires 0 < m <= MAX_SAFE_INTEGER
    ensures var n := Normalize(negative, Text(m), 0);
            n.digits != "" && n.negative == negative && Layout(n.digits, n.exponent) == Text(m)
  {
    hide Pow10, Value, Zeros;
    var t := Text(m);
    TextLength(m);
    SixteenDigits(m, |t|);
    FirstIsNotZero(m);
    TrimLeftNothing(t);
    TrimZerosKeepsHead(t);
  }

  lemma TrimLeftNothing(s: string)
    requires s != "" && s[0] != '0'
    ensures TrimLeft(s) == s
  {
  }

  lemma FirstIsNotZero(m: nat)
    requires m > 0
    ensures Text(m)[0] != '0'
  {
    if |Text(m)| == 1 { assert Text(m)[..0] == ""; }
  }

  lemma SixteenDigits(m: nat, length: nat)
    requires m <= MAX_SAFE_INTEGER && length > 0 && Pow10(length - 1) <= m
    ensures length <= 16
  {
    if length > 16 {
      Pow10Grows(16, length - 1);
      assert Pow10(16) == 10_000_000_000_000_000 by { Pow10Add(8, 8); assert Pow10(8) == 100_000_000; }
    }
  }

  lemma NumericText(v: Json)
    requires IsNumeric(v) && Canonical(v).Some?
    ensures Canonical(v).value == NumberText(NumberOf(v))
  {
    hide NumberText, Normalize, IntegerText;
    if v.Int? { IntegerIsNumberText(v.n); }
  }

  // Text over one alphabet ends where something else follows.
  lemma AlphabetEnds(a: string, b: string, x: string, y: string)
    requires AllNumberChars(a) && AllNumberChars(b) && a + x == b + y
    requires (x == "" || !IsNumberChar(x[0])) && (y == "" || !IsNumberChar(y[0]))
    ensures a == b && x == y
  {
    var u := a + x;
    assert (forall k | 0 <= k < |a| :: u[k] == a[k]) && forall k | 0 <= k < |b| :: u[k] == b[k];
    assert (|a| < |u| ==> u[|a|] == x[0]) && (|b| < |u| ==> u[|b|] == y[0]);
    assert |a| == |b|;
    assert u[..|a|] == a && u[..|b|] == b && u[|a|..] == x && u[|b|..] == y;
  }

  // ---- texts determine meanings ----

  // What the first character says about the kind of value.
  function Kind(c: char): int {
    if c == 'n' then 0 else if c == 't' then 1 else if c == 'f' then 2 else if c == '"' then 3
    else if c == '[' then 4 else if c == '{' then 5 else if IsDigit(c) || c == '-' then 6 else 7
  }

  function KindOf(v: Json): int {
    match v
    case Null => 0
    case Bool(b) => if b then 1 else 2
    case Str(_) => 3
    case Arr(_) => 4
    case Obj(_) => 5
    case _ => 6
  }

  lemma Starts(v: Json)
    requires Canonical(v).Some?
    ensures Canonical(v).value != "" && Kind(Canonical(v).value[0]) == KindOf(v)
  {
    hide NumberText, Normalize, IntegerText;
    if IsNumeric(v) {
      NumericText(v);
      NumberStarts(NumberOf(v));
    }
  }

  lemma NumberStarts(n: Number)
    requires IsNumber(n)
    ensures NumberText(n) != "" && (IsDigit(NumberText(n)[0]) || NumberText(n)[0] == '-')
  {
    hide Layout;
    if n.digits != "" { LayoutStart(n.digits, n.exponent); }
  }

  // What may follow a value.
  predicate Stops(x: string) { x == "" || x[0] == ',' || x[0] == ']' || x[0] == '}' }

  // What comes after the first of some joined texts, up to the closing bracket.
  function Rest(texts: seq<string>, close: string, x: string): string
    requires texts != []
  {
    if |texts| == 1 then close + x else "," + (Join(texts[1..]) + close + x)
  }

  lemma JoinSplits(texts: seq<string>, close: string, x: string)
    requires texts != []
    ensures Join(texts) + close + x == texts[0] + Rest(texts, close, x)
  {
  }

  // Equal remainders end, or go on, together.
  lemma RestsAgree(s: seq<string>, t: seq<string>, close: string, x: string, y: string)
    requires s != [] && t != [] && |close| == 1 && close[0] != ','
    requires Rest(s, close, x) == Rest(t, close, y)
    ensures |s| == 1 <==> |t| == 1
    ensures |s| == 1 ==> x == y
    ensures |s| > 1 ==> Join(s[1..]) + close + x == Join(t[1..]) + close + y
  {
    hide Join;
    var p, q := Rest(s, close, x), Rest(t, close, y);
    assert p[0] == q[0];
    assert |s| == 1 ==> p[1..] == x;
    assert |t| == 1 ==> q[1..] == y;
    assert |s| > 1 ==> p[1..] == Join(s[1..]) + close + x;
    assert |t| > 1 ==> q[1..] == Join(t[1..]) + close + y;
  }

  lemma RestStops(s: seq<string>, close: string, x: string)
    requires s != [] && |close| == 1 && (close[0] == ']' || close[0] == '}')
    ensures Stops(Rest(s, close, x))
  {
  }

  predicate Renders(v: Json) { IsValue(v) && Canonical(v).Some? }

  // What both texts say is read off their common beginning.
  lemma {:induction false} TextDeterminesMeaning(v: Json, w: Json, x: string, y: string)
    requires Renders(v) && Renders(w) && Stops(x) && Stops(y)
    requires Canonical(v).value + x == Canonical(w).value + y
    ensures MeaningOf(v) == MeaningOf(w) && x == y
    decreases v, 1, 0
  {
    SameKind(v, w, x, y);
    if v.Arr? {
      ArraysAgree(v, w, x, y);
      ItemsDetermined(v.items, w.items, x, y);
    } else if v.Obj? {
      ObjectsAgree(v, w, x, y);
      MembersDetermined(v, w, SortedKeys(v.members), SortedKeys(w.members), x, y);
      ObjectMeaning(v, w);
    } else {
      LeafDetermined(v, w, x, y);
    }
  }

  lemma SameKind(v: Json, w: Json, x: string, y: string)
    requires Canonical(v).Some? && Canonical(w).Some? && Canonical(v).value + x == Canonical(w).value + y
    ensures KindOf(v) == KindOf(w)
  {
    hide Canonical, Kind, KindOf;
    Starts(v);
    Starts(w);
    assert (Canonical(v).value + x)[0] == (Canonical(w).value + y)[0];
  }

  lemma LeafDetermined(v: Json, w: Json, x: string, y: string)
    requires Renders(v) && Renders(w) && Stops(x) && Stops(y) && KindOf(v) == KindOf(w) && !v.Arr? && !v.Obj?
    requires Canonical(v).value + x == Canonical(w).value + y
    ensures MeaningOf(v) == MeaningOf(w) && x == y
  {
    if v.Str? {
      StringDetermined(v, w, x, y);
    } else if IsNumeric(v) {
      NumberDetermined(v, w, x, y);
    } else {
      var text := Canonical(v).value;
      assert (text + x)[|text|..] == x && (text + y)[|text|..] == y;
    }
  }

  lemma StringDetermined(v: Json, w: Json, x: string, y: string)
    requires v.Str? && w.Str? && Canonical(v).value + x == Canonical(w).value + y
    ensures v == w && x == y
  {
    hide Quote;
    QuoteIsPrefixFree(v.s, w.s, x, y);
  }

  lemma NumberDetermined(v: Json, w: Json, x: string, y: string)
    requires IsNumeric(v) && IsNumeric(w) && Canonical(v).Some? && Canonical(w).Some? && Stops(x) && Stops(y)
    requires Canonical(v).value + x == Canonical(w).value + y
    ensures MeaningOf(v) == MeaningOf(w) && x == y
  {
    hide Canonical, NumberText, ReadNumber, NumberOf, AllNumberChars;
    NumericText(v);
    NumericText(w);
    NumberTextChars(NumberOf(v));
    NumberTextChars(NumberOf(w));
    AlphabetEnds(Canonical(v).value, Canonical(w).value, x, y);
    NumberTextReads(NumberOf(v));
    NumberTextReads(NumberOf(w));
  }

  lemma ArraysAgree(v: Json, w: Json, x: string, y: string)
    requires Renders(v) && Renders(w) && v.Arr? && w.Arr? && Canonical(v).value + x == Canonical(w).value + y
    ensures CanonicalItems(v.items).Some? && CanonicalItems(w.items).Some?
    ensures Join(CanonicalItems(v.items).value) + "]" + x == Join(CanonicalItems(w.items).value) + "]" + y
  {
    hide Join, CanonicalItems;
    assert (Canonical(v).value + x)[1..] == Join(CanonicalItems(v.items).value) + "]" + x;
    assert (Canonical(w).value + y)[1..] == Join(CanonicalItems(w.items).value) + "]" + y;
  }

  lemma {:induction false} ItemsDetermined(a: seq<Json>, b: seq<Json>, x: string, y: string)
    requires forall i | 0 <= i < |a| :: IsValue(a[i])
    requires forall i | 0 <= i < |b| :: IsValue(b[i])
    requires CanonicalItems(a).Some? && CanonicalItems(b).Some?
    requires Join(CanonicalItems(a).value) + "]" + x == Join(CanonicalItems(b).value) + "]" + y
    ensures MeaningItems(a) == MeaningItems(b) && x == y
    decreases a, 0, 0
  {
    hide Canonical, IsValue, MeaningOf, Join;
    CanonicalItemsAt(a);
    CanonicalItemsAt(b);
    var s, t := CanonicalItems(a).value, CanonicalItems(b).value;
    if a == [] || b == [] {
      EmptyItems(a, b, x, y);
    } else {
      JoinSplits(s, "]", x);
      JoinSplits(t, "]", y);
      RestStops(s, "]", x);
      RestStops(t, "]", y);
      TextDeterminesMeaning(a[0], b[0], Rest(s, "]", x), Rest(t, "]", y));
      RestsAgree(s, t, "]", x, y);
      if |s| > 1 {
        assert s[1..] == CanonicalItems(a[1..]).value && t[1..] == CanonicalItems(b[1..]).value;
        ItemsDetermined(a[1..], b[1..], x, y);
      }
    }
  }

  lemma EmptyItems(a: seq<Json>, b: seq<Json>, x: string, y: string)
    requires (a == [] || b == []) && CanonicalItems(a).Some? && CanonicalItems(b).Some?
    requires Join(CanonicalItems(a).value) + "]" + x == Join(CanonicalItems(b).value) + "]" + y
    ensures a == b && x == y
  {
    hide CanonicalItems, Join;
    StartsItems(a, x);
    StartsItems(b, y);
    BothClosed("]", x, y);
  }

  // A text that starts with the bracket cannot equal one that does not.
  lemma BothClosed(close: string, x: string, y: string)
    requires close != ""
    ensures (close + x)[0] == close[0] && (close + y)[0] == close[0]
    ensures close + x == close + y ==> x == y
  {
    assert (close + x)[|close|..] == x && (close + y)[|close|..] == y;
  }

  lemma StartsItems(a: seq<Json>, x: string)
    requires CanonicalItems(a).Some?
    ensures var u := Join(CanonicalItems(a).value) + "]" + x;
            if a == [] then u == "]" + x else u[0] != ']'
  {
    hide Canonical;
    var texts := CanonicalItems(a).value;
    if a != [] {
      Starts(a[0]);
      JoinSplits(texts, "]", x);
      var u := Join(texts) + "]" + x;
      assert u[0] == (texts[0] + Rest(texts, "]", x))[0] == texts[0][0];
      assert Kind(texts[0][0]) == KindOf(a[0]) != Kind(']');
    }
  }

  // ---- objects ----

  lemma {:induction false} SortContains(keys: seq<string>, k: string)
    ensures k in Sort(Utf16Be, keys) <==> k in keys
  {
    if keys != [] {
      SortContains(keys[1..], k);
      InsertContains(Utf16Be, keys[0], Sort(Utf16Be, keys[1..]), k);
      assert keys == [keys[0]] + keys[1..];
    }
  }

  function TextsOf(v: Json): map<string, string>
    requires v.Obj? && CanonicalMembers(v.members).Some?
  {
    CanonicalMembers(v.members).value
  }

  lemma ObjectTexts(v: Json)
    requires Renders(v) && v.Obj?
    ensures CanonicalMembers(v.members).Some?
    ensures Canonical(v).value == "{" + Join(MemberTexts(SortedKeys(v.members), TextsOf(v))) + "}"
    ensures forall k | k in SortedKeys(v.members) :: k in KeysOf(v.members)
  {
    hide Join, CanonicalMembers;
    forall k | k in SortedKeys(v.members) ensures k in KeysOf(v.members) { SortContains(KeysOf(v.members), k); }
  }

  lemma ObjectsAgree(v: Json, w: Json, x: string, y: string)
    requires Renders(v) && Renders(w) && v.Obj? && w.Obj? && Canonical(v).value + x == Canonical(w).value + y
    ensures CanonicalMembers(v.members).Some? && CanonicalMembers(w.members).Some?
    ensures forall k | k in SortedKeys(v.members) :: k in KeysOf(v.members)
    ensures forall k | k in SortedKeys(w.members) :: k in KeysOf(w.members)
    ensures var s, t := MemberTexts(SortedKeys(v.members), TextsOf(v)), MemberTexts(SortedKeys(w.members), TextsOf(w));
            Join(s) + "}" + x == Join(t) + "}" + y
  {
    hide Join, CanonicalMembers, Canonical, Sort, KeysOf, MemberTexts, TextsOf;
    ObjectTexts(v);
    ObjectTexts(w);
    assert (Canonical(v).value + x)[1..] == Join(MemberTexts(SortedKeys(v.members), TextsOf(v))) + "}" + x;
    assert (Canonical(w).value + y)[1..] == Join(MemberTexts(SortedKeys(w.members), TextsOf(w))) + "}" + y;
  }

  // The member of one name, with its text and its meaning.
  lemma MemberOf(v: Json, k: string) returns (i: nat)
    requires Renders(v) && v.Obj? && k in KeysOf(v.members) && CanonicalMembers(v.members).Some?
    ensures i < |v.members| && v.members[i].name == k && Renders(v.members[i].value)
    ensures k in TextsOf(v) && Canonical(v.members[i].value) == Some(TextsOf(v)[k])
    ensures k in MeaningMembers(v.members) && MeaningMembers(v.members)[k] == MeaningOf(v.members[i].value)
  {
    hide Canonical, MeaningOf;
    i :| 0 <= i < |v.members| && KeysOf(v.members)[i] == k;
    CanonicalMemberAt(v.members, i);
    MeaningMemberAt(v.members, i);
  }

  lemma {:induction false} MembersDetermined(v: Json, w: Json, ks: seq<string>, ls: seq<string>, x: string, y: string)
    requires Renders(v) && Renders(w) && v.Obj? && w.Obj?
    requires CanonicalMembers(v.members).Some? && CanonicalMembers(w.members).Some?
    requires forall k | k in ks :: k in KeysOf(v.members)
    requires forall k | k in ls :: k in KeysOf(w.members)
    requires Join(MemberTexts(ks, TextsOf(v))) + "}" + x == Join(MemberTexts(ls, TextsOf(w))) + "}" + y
    ensures ks == ls && x == y
    ensures forall k | k in ks ::
              k in MeaningMembers(v.members) && k in MeaningMembers(w.members)
              && MeaningMembers(v.members)[k] == MeaningMembers(w.members)[k]
    decreases v, 0, |ks|
  {
    hide Canonical, CanonicalMembers, IsValue, MeaningOf, MeaningMembers, Join, KeysOf, TextsOf, Quote, Renders;
    var s, t := MemberTexts(ks, TextsOf(v)), MemberTexts(ls, TextsOf(w));
    if ks == [] || ls == [] {
      NamesHaveTexts(v, ks);
      NamesHaveTexts(w, ls);
      EmptyMembers(v, w, ks, ls, x, y);
    } else {
      var k := ks[0];
      var i := MemberOf(v, ks[0]);
      var j := MemberOf(w, ls[0]);
      FirstMember(s, x, ks[0], TextsOf(v)[ks[0]]);
      FirstMember(t, y, ls[0], TextsOf(w)[ls[0]]);
      QuoteIsPrefixFree(ks[0], ls[0], ":" + (TextsOf(v)[ks[0]] + Rest(s, "}", x)),
                        ":" + (TextsOf(w)[ls[0]] + Rest(t, "}", y)));
      DropFirst(':', TextsOf(v)[k] + Rest(s, "}", x), TextsOf(w)[k] + Rest(t, "}", y));
      RestStops(s, "}", x);
      RestStops(t, "}", y);
      TextDeterminesMeaning(v.members[i].value, w.members[j].value, Rest(s, "}", x), Rest(t, "}", y));
      RestsAgree(s, t, "}", x, y);
      if |s| > 1 {
        assert s[1..] == MemberTexts(ks[1..], TextsOf(v)) && t[1..] == MemberTexts(ls[1..], TextsOf(w));
        MembersDetermined(v, w, ks[1..], ls[1..], x, y);
      }
      assert ks == [k] + ks[1..] && ls == [k] + ls[1..];
    }
  }

  lemma NamesHaveTexts(v: Json, ks: seq<string>)
    requires Renders(v) && v.Obj? && CanonicalMembers(v.members).Some?
    requires forall k | k in ks :: k in KeysOf(v.members)
    ensures forall k | k in ks :: k in TextsOf(v)
  {
    hide Canonical, KeysOf, CanonicalMembers, TextsOf, Renders;
    forall k | k in ks ensures k in TextsOf(v) { var i := MemberOf(v, k); }
  }

  lemma DropFirst(c: char, p: string, q: string)
    requires [c] + p == [c] + q
    ensures p == q
  {
    assert ([c] + p)[1..] == p && ([c] + q)[1..] == q;
  }

  lemma FirstMember(texts: seq<string>, x: string, k: string, text: string)
    requires texts != [] && texts[0] == Quote(k) + ":" + text
    ensures Join(texts) + "}" + x == Quote(k) + (":" + (text + Rest(texts, "}", x)))
  {
    hide Quote, Join;
    JoinSplits(texts, "}", x);
  }

  lemma EmptyMembers(v: Json, w: Json, ks: seq<string>, ls: seq<string>, x: string, y: string)
    requires v.Obj? && w.Obj? && CanonicalMembers(v.members).Some? && CanonicalMembers(w.members).Some?
    requires ks == [] || ls == []
    requires forall k | k in ks :: k in TextsOf(v)
    requires forall k | k in ls :: k in TextsOf(w)
    requires Join(MemberTexts(ks, TextsOf(v))) + "}" + x == Join(MemberTexts(ls, TextsOf(w))) + "}" + y
    ensures ks == ls && x == y
  {
    hide CanonicalMembers, TextsOf;
    StartsMembers(ks, TextsOf(v), x);
    StartsMembers(ls, TextsOf(w), y);
    BothClosed("}", x, y);
  }

  lemma StartsMembers(ks: seq<string>, texts: map<string, string>, x: string)
    requires forall k | k in ks :: k in texts
    ensures var u := Join(MemberTexts(ks, texts)) + "}" + x;
            if ks == [] then u == "}" + x else u[0] == '"'
  {
    if ks != [] {
      FirstMember(MemberTexts(ks, texts), x, ks[0], texts[ks[0]]);
    }
  }

  // Equal sorted names with equal meanings make equal objects.
  lemma ObjectMeaning(v: Json, w: Json)
    requires Renders(v) && Renders(w) && v.Obj? && w.Obj?
    requires SortedKeys(v.members) == SortedKeys(w.members)
    requires forall k | k in SortedKeys(v.members) ::
              k in MeaningMembers(v.members) && k in MeaningMembers(w.members)
              && MeaningMembers(v.members)[k] == MeaningMembers(w.members)[k]
    ensures MeaningOf(v) == MeaningOf(w)
  {
    hide Canonical, Sort, KeysOf, MeaningMembers;
    var p, q := MeaningMembers(v.members), MeaningMembers(w.members);
    forall k ensures k in p <==> k in q {
      MeaningNames(v.members, k);
      MeaningNames(w.members, k);
      SortContains(KeysOf(v.members), k);
      SortContains(KeysOf(w.members), k);
    }
    forall k | k in p ensures p[k] == q[k] {
      MeaningNames(v.members, k);
      SortContains(KeysOf(v.members), k);
    }
    assert p == q;
  }

  // ---- meanings determine texts ----

  lemma {:induction false} MeaningDeterminesText(v: Json, w: Json)
    requires Renders(v) && Renders(w) && MeaningOf(v) == MeaningOf(w)
    ensures Canonical(v) == Canonical(w)
  {
    if IsNumeric(v) {
      NumericText(v);
      NumericText(w);
    } else if v.Arr? {
      CanonicalItemsAt(v.items);
      CanonicalItemsAt(w.items);
      ItemsMatch(v.items, w.items);
      forall i | 0 <= i < |v.items| ensures Canonical(v.items[i]) == Canonical(w.items[i]) {
        MeaningDeterminesText(v.items[i], w.items[i]);
      }
      assert CanonicalItems(v.items).value == CanonicalItems(w.items).value;
    } else if v.Obj? {
      KeysMatch(v, w);
      forall k | k in KeysOf(v.members) ensures k in TextsOf(v) && k in TextsOf(w) && TextsOf(v)[k] == TextsOf(w)[k] {
        var i := MemberOf(v, k);
        var j := MemberOf(w, k);
        MeaningDeterminesText(v.members[i].value, w.members[j].value);
      }
      SameMemberTexts(v, w);
    }
  }

  lemma ItemsMatch(a: seq<Json>, b: seq<Json>)
    requires MeaningItems(a) == MeaningItems(b)
    ensures |a| == |b| && forall i | 0 <= i < |a| :: MeaningOf(a[i]) == MeaningOf(b[i])
  {
    hide MeaningItems, MeaningOf;
    forall i | 0 <= i < |a| ensures MeaningOf(a[i]) == MeaningOf(b[i]) {
      assert MeaningItems(a)[i] == MeaningItems(b)[i];
    }
  }

  lemma KeysMatch(v: Json, w: Json)
    requires Renders(v) && Renders(w) && v.Obj? && w.Obj? && MeaningMembers(v.members) == MeaningMembers(w.members)
    ensures CanonicalMembers(v.members).Some? && CanonicalMembers(w.members).Some?
    ensures SortedKeys(v.members) == SortedKeys(w.members)
    ensures forall k :: k in KeysOf(v.members) <==> k in KeysOf(w.members)
  {
    hide Canonical, CanonicalMembers, Sort, MeaningOf;
    ObjectTexts(v);
    ObjectTexts(w);
    forall k ensures k in KeysOf(v.members) <==> k in KeysOf(w.members) {
      MeaningNames(v.members, k);
      MeaningNames(w.members, k);
    }
    KeysSorted(v.members);
    KeysSorted(w.members);
    SortedUnique(Utf16Be, SortedKeys(v.members), SortedKeys(w.members));
  }

  // Distinct names are listed in ascending order of their UTF-16 encodings.
  lemma KeysSorted(members: seq<Member>)
    requires DistinctNames(members)
    ensures SortedBy(Utf16Be, SortedKeys(members)) && SameElements(SortedKeys(members), KeysOf(members))
    ensures |SortedKeys(members)| == |members|
  {
    var keys := KeysOf(members);
    forall i, j | 0 <= i < j < |keys| ensures Utf16Be(keys[i]) != Utf16Be(keys[j]) {
      if Utf16Be(keys[i]) == Utf16Be(keys[j]) { Utf16BeInjective(keys[i], keys[j]); }
    }
    SortSorts(Utf16Be, keys);
  }

  lemma SameMemberTexts(v: Json, w: Json)
    requires Renders(v) && Renders(w) && v.Obj? && w.Obj?
    requires CanonicalMembers(v.members).Some? && CanonicalMembers(w.members).Some?
    requires SortedKeys(v.members) == SortedKeys(w.members)
    requires forall k | k in KeysOf(v.members) :: k in TextsOf(v) && k in TextsOf(w) && TextsOf(v)[k] == TextsOf(w)[k]
    ensures Canonical(v) == Canonical(w)
  {
    hide CanonicalMembers, TextsOf, Sort, Join, Quote;
    ObjectTexts(v);
    ObjectTexts(w);
    assert MemberTexts(SortedKeys(v.members), TextsOf(v)) == MemberTexts(SortedKeys(w.members), TextsOf(w));
  }

  // ---- the properties ----

  // The members of an object are written each once, in ascending order of their names' UTF-16 code units.
  lemma MembersAreInCodeUnitOrder(members: seq<Member>)
    requires DistinctNames(members)
    ensures SameElements(SortedKeys(members), KeysOf(members)) && |SortedKeys(members)| == |members|
    ensures forall i, j | 0 <= i < j < |SortedKeys(members)| ::
              Less(Units(SortedKeys(members)[i]), Units(SortedKeys(members)[j]))
  {
    hide Less, Sort, Units, BytesOf;
    var keys := SortedKeys(members);
    KeysSorted(members);
    forall i, j | 0 <= i < j < |keys| ensures Less(Units(keys[i]), Units(keys[j])) {
      assert Less(Keys(Utf16Be, keys)[i], Keys(Utf16Be, keys)[j]);
      UnitsNatural(keys[i]);
      UnitsNatural(keys[j]);
      BytesOrderUnits(Units(keys[i]), Units(keys[j]));
    }
  }

  // Two values have the same canonical text exactly when they are the same value, up to equality of
  // numbers and the order in which members were inserted.
  lemma CanonicalIdentifiesValues(v: Json, w: Json)
    requires IsValue(v) && IsValue(w) && IsSafe(v) && IsSafe(w)
    ensures Canonical(v).Some? && Canonical(w).Some?
    ensures Canonical(v) == Canonical(w) <==> MeaningOf(v) == MeaningOf(w)
  {
    hide Canonical, IsValue, IsSafe, MeaningOf;
    CanonicalExactly(v);
    CanonicalExactly(w);
    if MeaningOf(v) == MeaningOf(w) {
      MeaningDeterminesText(v, w);
    }
    if Canonical(v) == Canonical(w) {
      assert Canonical(v).value + "" == Canonical(w).value + "";
      TextDeterminesMeaning(v, w, "", "");
    }
  }

  // Inserting the same members in another order changes nothing, not even a failure.
  lemma InsertionOrderIsIgnored(a: seq<Member>, b: seq<Member>)
    requires IsValue(Obj(a)) && IsValue(Obj(b)) && SameElements(a, b)
    ensures Canonical(Obj(a)) == Canonical(Obj(b))
  {
    hide Canonical, CanonicalMembers, MeaningOf;
    CanonicalExactly(Obj(a));
    CanonicalExactly(Obj(b));
    SameElementsSafe(a, b);
    if IsSafe(Obj(a)) {
      SameElementsMean(a, b);
      MeaningDeterminesText(Obj(a), Obj(b));
    }
  }

  lemma SameElementsSafe(a: seq<Member>, b: seq<Member>)
    requires SameElements(a, b)
    ensures IsSafe(Obj(a)) <==> IsSafe(Obj(b))
  {
    assert (forall m | m in a :: IsSafe(m.value)) <==> forall m | m in b :: IsSafe(m.value);
  }

  lemma SameElementsMean(a: seq<Member>, b: seq<Member>)
    requires DistinctNames(a) && DistinctNames(b) && SameElements(a, b)
    ensures MeaningOf(Obj(a)) == MeaningOf(Obj(b))
  {
    hide MeaningMembers;
    SubMeaning(a, b);
    SubMeaning(b, a);
    assert MeaningMembers(a) == MeaningMembers(b);
  }

  lemma SubMeaning(a: seq<Member>, b: seq<Member>)
    requires DistinctNames(a) && DistinctNames(b) && forall m | m in a :: m in b
    ensures forall k | k in MeaningMembers(a) :: k in MeaningMembers(b) && MeaningMembers(b)[k] == MeaningMembers(a)[k]
  {
    hide MeaningMembers, MeaningOf;
    forall k | k in MeaningMembers(a) ensures k in MeaningMembers(b) && MeaningMembers(b)[k] == MeaningMembers(a)[k] {
      MeaningNames(a, k);
      var i :| 0 <= i < |a| && KeysOf(a)[i] == k;
      assert a[i] in b;
      var j :| 0 <= j < |b| && b[j] == a[i];
      MeaningMemberAt(a, i);
      MeaningMemberAt(b, j);
    }
  }
}
