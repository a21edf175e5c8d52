// Rendering challenges and reading them back.
module ChallengeRoundTrip {
  import opened Options
  import opened HighWater
  import opened PythonText
  import opened ChallengeHeader

  // ---- rendering ----

  // `str.replace` of one character.
  function Replace(s: string, c: char, text: string): string {
    if s == "" then "" else (if s[0] == c then text else [s[0]]) + Replace(s[1..], c, text)
  }

  // `_escape_header_value`.
  function Escape(s: string): string { Replace(Replace(s, '\\', "\\\\"), '"', "\\\"") }

  // A field of the challenge in rendering order; required fields are always shown, optional ones when
  // they have a value.
  datatype Field = Field(name: string, value: string, shown: bool)

  function Optional(name: string, value: Option<string>): Field {
    if value.Some? then Field(name, value.value, value.value != "") else Field(name, "", false)
  }

  function Fields(c: Challenge): seq<Field> {
    [Field("id", c.id, true), Field("realm", c.realm, true), Field("method", c.method_, true),
     Field("intent", c.intent, true),
     Field("request", c.request, true), Optional("digest", c.digest), Optional("expires", c.expires),
     Optional("description", c.description), Optional("header", c.header), Optional("opaque", c.opaque_)]
  }

  function Shown(fields: seq<Field>): seq<Field> {
    if fields == [] then [] else (if fields[0].shown then [fields[0]] else []) + Shown(fields[1..])
  }

  function FieldText(f: Field): string { f.name + "=\"" + Escape(f.value) + "\"" }

  function FieldTexts(fields: seq<Field>): string {
    if |fields| == 0 then "" else if |fields| == 1 then FieldText(fields[0])
    else FieldText(fields[0]) + (", " + FieldTexts(fields[1..]))
  }

  // What comes after the first field's text.
  function AfterFirst(fields: seq<Field>, tail: string): string
    requires fields != []
  {
    if |fields| == 1 then tail else ", " + (FieldTexts(fields[1..]) + tail)
  }

  // `render_payment_challenge`.
  function Render(c: Challenge): string { "Payment " + FieldTexts(Shown(Fields(c))) }

  // Several challenges in one header value.
  function Header(cs: seq<Challenge>): string {
    if |cs| == 0 then "" else if |cs| == 1 then Render(cs[0]) else Render(cs[0]) + ", " + Header(cs[1..])
  }

  function Absent(value: Option<string>): Option<string> { if value == Some("") then None else value }

  // The challenge with its empty optional fields counted as absent.
  function Normal(c: Challenge): Challenge {
    c.(digest := Absent(c.digest), expires := Absent(c.expires), description := Absent(c.description),
       header := Absent(c.header), opaque_ := Absent(c.opaque_))
  }

  function Normals(cs: seq<Challenge>): seq<Challenge> { if cs == [] then [] else [Normal(cs[0])] + Normals(cs[1..]) }

  // The fields of a suffix of the list, each after a comma.
  function Further(fields: seq<Field>): string { if fields == [] then "" else ", " + FieldTexts(fields) }

  lemma FurtherStep(f: Field, rest: seq<Field>)
    ensures FieldTexts([f] + rest) == FieldText(f) + Further(rest)
  {
    assert ([f] + rest)[1..] == rest;
  }

  lemma FurtherShown(f: Field, rest: seq<Field>)
    ensures Further(Shown([f] + rest)) == (if f.shown then ", " + FieldText(f) else "") + Further(Shown(rest))
  {
    assert ([f] + rest)[1..] == rest;
    if f.shown {
      FurtherStep(f, Shown(rest));
    } else {
      assert Shown([f] + rest) == Shown(rest);
    }
  }

  // How a field after the first appears.
  function Named(name: string, value: string): string { ", " + name + "=\"" + Escape(value) + "\"" }

  // An optional field appears when it has a value that is not empty, else not at all.
  function Showing(name: string, value: Option<string>): string {
    if value.Some? && value.value != "" then Named(name, value.value) else ""
  }

  lemma NamedIs(name: string, value: string)
    ensures forall shown :: ", " + FieldText(Field(name, value, shown)) == Named(name, value)
  {
  }

  lemma OptionalShows(name: string, value: Option<string>, rest: seq<Field>)
    ensures Further(Shown([Optional(name, value)] + rest)) == Showing(name, value) + Further(Shown(rest))
  {
    hide FieldText, Named;
    FurtherShown(Optional(name, value), rest);
    if value.Some? { NamedIs(name, value.value); }
  }

  lemma RequiredShows(name: string, value: string, rest: seq<Field>)
    ensures Further(Shown([Field(name, value, true)] + rest))
            == Named(name, value) + Further(Shown(rest))
  {
    hide FieldText, Named;
    FurtherShown(Field(name, value, true), rest);
    NamedIs(name, value);
  }

  // The optional fields in their order.
  lemma OptionalsSpell(c: Challenge)
    ensures Further(Shown(Fields(c)[5..]))
            == Showing("digest", c.digest) + Showing("expires", c.expires) + Showing("description", c.description)
               + Showing("header", c.header) + Showing("opaque", c.opaque_)
  {
    hide Escape, Shown, FieldTexts, Further, Showing, Named, Optional;
    var four := [Optional("opaque", c.opaque_)];
    var three := [Optional("header", c.header)] + four;
    var two := [Optional("description", c.description)] + three;
    var one := [Optional("expires", c.expires)] + two;
    assert Fields(c)[5..] == [Optional("digest", c.digest)] + one;
    OptionalShows("digest", c.digest, one);
    OptionalShows("expires", c.expires, two);
    OptionalShows("description", c.description, three);
    OptionalShows("header", c.header, four);
    OptionalShows("opaque", c.opaque_, []);
    assert four == four + [];
    NothingFurther();
  }

  lemma NothingFurther()
    ensures Further(Shown([])) == ""
  {
  }

  // The rendered text from end to end.
  lemma RenderSpells(c: Challenge)
    ensures Render(c)
            == "Payment id=\"" + Escape(c.id) + "\"" + Named("realm", c.realm) + Named("method", c.method_)
               + Named("intent", c.intent) + Named("request", c.request)
               + (Showing("digest", c.digest) + Showing("expires", c.expires)
                  + Showing("description", c.description) + Showing("header", c.header)
                  + Showing("opaque", c.opaque_))
  {
    FirstSpells(c);
    hide Escape, Shown, FieldTexts, Further, Showing, Named, Optional, Render;
    var five := Fields(c)[5..];
    var four := [Field("request", c.request, true)] + five;
    var three := [Field("intent", c.intent, true)] + four;
    var two := [Field("method", c.method_, true)] + three;
    assert Fields(c)[1..] == [Field("realm", c.realm, true)] + two;
    RequiredShows("realm", c.realm, two);
    RequiredShows("method", c.method_, three);
    RequiredShows("intent", c.intent, four);
    RequiredShows("request", c.request, five);
    OptionalsSpell(c);
  }

  lemma FirstSpells(c: Challenge)
    ensures Render(c) == "Payment id=\"" + Escape(c.id) + "\"" + Further(Shown(Fields(c)[1..]))
  {
    hide Escape, Optional, Further;
    var first := Field("id", c.id, true);
    assert Shown(Fields(c)) == [first] + Shown(Fields(c)[1..]);
    FurtherStep(first, Shown(Fields(c)[1..]));
  }

  // ---- reading one parameter ----

  lemma {:induction false} ReplaceAppend(a: string, b: string, c: char, text: string)
    ensures Replace(a + b, c, text) == Replace(a, c, text) + Replace(b, c, text)
  {
    if a == "" {
      assert a + b == b;
    } else {
      assert (a + b)[1..] == a[1..] + b;
      ReplaceAppend(a[1..], b, c, text);
    }
  }

  function EscapeChar(c: char): string { if c == '\\' then "\\\\" else if c == '"' then "\\\"" else [c] }

  // The two replacements together escape character by character.
  lemma EscapeStep(s: string)
    requires s != ""
    ensures Escape(s) == EscapeChar(s[0]) + Escape(s[1..])
  {
    var first := if s[0] == '\\' then "\\\\" else [s[0]];
    ReplaceAppend(first, Replace(s[1..], '\\', "\\\\"), '"', "\\\"");
    assert Replace(first, '"', "\\\"") == EscapeChar(s[0]) by {
      if s[0] == '\\' { assert first[1..] == "\\" && first[1..][1..] == ""; } else { assert first[1..] == ""; }
    }
  }

  // A quoted string reads back as what was escaped, whatever it contains and whatever follows.
  lemma {:induction false} QuotedReads(s: string, i: nat, v: string, rest: string)
    requires i <= |s| && s[i..] == Escape(v) + "\"" + rest
    ensures Quoted(s, i) == Some((v, i + |Escape(v)| + 1))
    decreases |v|
  {
    if v == "" {
      assert s[i] == s[i..][0] == '"';
    } else {
      hide Quoted, Escape;
      EscapeStep(v);
      var after := Escape(v[1..]) + "\"" + rest;
      assert s[i..] == EscapeChar(v[0]) + after;
      QuotedStep(s, i, v[0], after);
      QuotedReads(s, i + |EscapeChar(v[0])|, v[1..], rest);
      assert v == [v[0]] + v[1..];
    }
  }

  // One escaped character.
  lemma QuotedStep(s: string, i: nat, c: char, after: string)
    requires i <= |s| && s[i..] == EscapeChar(c) + after
    ensures var e := |EscapeChar(c)|;
            && i + e <= |s| && s[i + e..] == after
            && Quoted(s, i) == if Quoted(s, i + e).None? then None
                               else Some(([c] + Quoted(s, i + e).value.0, Quoted(s, i + e).value.1))
  {
    var e := EscapeChar(c);
    assert s[i] == s[i..][0] == e[0];
    assert |e| == 2 ==> s[i + 1] == s[i..][1] == e[1];
    assert s[i + |e|..] == s[i..][|e|..] == after;
  }

  predicate IsName(k: string) {
    k != "" && Lower(k) == k && k[0] != 'p' && k[0] != 'P' && forall j | 0 <= j < |k| :: IsTokenChar(k[j])
  }

  lemma {:induction false} TokenEndsAt(s: string, i: nat, end: nat)
    requires i <= end <= |s| && (forall j | i <= j < end :: IsTokenChar(s[j])) && (end < |s| ==> !IsTokenChar(s[end]))
    ensures TokenEnd(s, i) == end
    decreases end - i
  {
    if i < end { TokenEndsAt(s, i + 1, end); }
  }

  // Where the parts of a rendered field are.
  lemma FieldAt(s: string, i: nat, f: Field, rest: string)
    requires i <= |s| && s[i..] == FieldText(f) + rest && IsName(f.name)
    ensures var n := |f.name|;
            && i + n + 2 <= |s| && s[i..i + n] == f.name && s[i + n] == '=' && s[i + n + 1] == '"'
            && s[i + n + 2..] == Escape(f.value) + "\"" + rest
            && TokenEnd(s, i) == i + n
  {
    hide Escape, IsTokenChar;
    var n := |f.name|;
    var t := s[i..];
    assert t == f.name + ("=\"" + (Escape(f.value) + "\"" + rest));
    assert t[..n] == f.name && t[n] == '=' && t[n + 1] == '"' && t[n + 2..] == Escape(f.value) + "\"" + rest;
    assert s[i..i + n] == t[..n] && s[i + n] == t[n] && s[i + n + 1] == t[n + 1] && s[i + n + 2..] == t[n + 2..];
    forall j | i <= j < i + n ensures IsTokenChar(s[j]) { assert s[j] == f.name[j - i]; }
    EqualsIsNoToken();
    TokenEndsAt(s, i, i + n);
  }

  lemma EqualsIsNoToken()
    ensures !IsTokenChar('=')
  {
  }

  lemma ParamReads(s: string, i: nat, f: Field, rest: string)
    requires i <= |s| && s[i..] == FieldText(f) + rest && IsName(f.name) && (rest == "" || rest[0] == ',')
    ensures Param(s, i) == Some((f.name, f.value, i + |FieldText(f)|))
    ensures i + |FieldText(f)| <= |s| && s[i + |FieldText(f)|..] == rest
  {
    hide Escape, IsTokenChar, Quoted, TokenEnd, SkipSpace, IsWhitespace, FieldText;
    FieldAt(s, i, f, rest);
    FieldLength(f);
    var q := i + |f.name| + 2;
    QuotedReads(s, q, f.value, rest);
    var end := i + |FieldText(f)|;
    assert s[end..] == s[i..][|FieldText(f)|..] == rest;
    assert end < |s| ==> s[end] == rest[0];
    NothingSkipped(s, q - 2);
    NothingSkipped(s, q - 1);
    NothingSkipped(s, end);
  }

  lemma FieldLength(f: Field)
    ensures |FieldText(f)| == |f.name| + |Escape(f.value)| + 3
  {
  }

  lemma NothingSkipped(s: string, i: nat)
    requires i <= |s| && (i == |s| || s[i] in "=\",")
    ensures SkipSpace(s, i) == i
  {
  }

  // ---- reading the parameters of one challenge ----

  function Add(read: map<string, string>, fields: seq<Field>): map<string, string>
    decreases |fields|
  {
    if fields == [] then read else Add(read[fields[0].name := fields[0].value], fields[1..])
  }

  predicate DistinctNames(fields: seq<Field>) {
    forall i, j | 0 <= i < j < |fields| :: fields[i].name != fields[j].name
  }

  predicate NamesOk(fields: seq<Field>) { forall i | 0 <= i < |fields| :: IsName(fields[i].name) }

  // What may follow a challenge: the end, or the next one.
  predicate Follows(tail: string) { tail == "" || (|tail| >= 10 && tail[..10] == ", Payment ") }

  lemma NotScheme(s: string, i: nat)
    requires i < |s| && s[i] != 'p' && s[i] != 'P'
    ensures !StartsScheme(s, i)
  {
    if i + |SCHEME| < |s| {
      var t := s[i..i + |SCHEME|];
      assert t[0] == s[i];
      assert Lower(t)[0] == LowerChar(t[0])[0];
    }
  }

  lemma SchemeLowers()
    ensures Lower("Payment") == SCHEME
  {
    hide Lower;
    LowerFront("t", "");
    assert Lower("t") == "t" by { assert "t" + "" == "t"; }
    LowerFront("n", "t");
    assert Lower("nt") == "nt" by { assert "n" + "t" == "nt"; }
    LowerFront("e", "nt");
    assert Lower("ent") == "ent" by { assert "e" + "nt" == "ent"; }
    LowerFront("m", "ent");
    assert Lower("ment") == "ment" by { assert "m" + "ent" == "ment"; }
    LowerFront("y", "ment");
    assert Lower("yment") == "yment" by { assert "y" + "ment" == "yment"; }
    LowerFront("a", "yment");
    assert Lower("ayment") == "ayment" by { assert "a" + "yment" == "ayment"; }
    LowerFront("P", "ayment");
    assert "P" + "ayment" == "Payment" && "p" + "ayment" == SCHEME;
  }

  lemma LowerFront(c: string, rest: string)
    requires |c| <= 1
    ensures Lower("") == ""
    ensures c != "" ==> Lower(c + rest) == LowerChar(c[0]) + Lower(rest)
  {
    assert c != "" ==> (c + rest)[1..] == rest;
  }

  // A rendered challenge starts a scheme at the beginning and after a comma and a space.
  lemma SchemeStarts(s: string, i: nat)
    requires i + 8 <= |s| && s[i..i + 8] == "Payment "
    requires i == 0 || (i >= 2 && s[i - 2] == ',' && s[i - 1] == ' ')
    ensures StartsScheme(s, i)
  {
    SchemeLowers();
    assert s[i..i + 7] == s[i..i + 8][..7] == "Payment";
    assert s[i + 7] == s[i..i + 8][7];
    if i > 0 { assert SpaceStart(s, i) == SpaceStart(s, i - 1) == i - 1; }
  }

  lemma {:induction false} ParamsRead(s: string, i: nat, fields: seq<Field>, tail: string, read: map<string, string>)
    requires i <= |s| && fields != [] && s[i..] == FieldTexts(fields) + tail
    requires NamesOk(fields) && DistinctNames(fields) && Follows(tail)
    requires forall k | 0 <= k < |fields| :: fields[k].name !in read
    ensures var end := i + |FieldTexts(fields)|;
            end <= |s| && Params(s, i, read) == Ok((Add(read, fields), if tail == "" then end else end + 2))
    decreases |fields|
  {
    hide *;
    SplitFields(fields, tail);
    SplitNames(fields, read);
    if |fields| == 1 {
      LastRead(s, i, fields, tail, read);
    } else {
      var all := read[fields[0].name := fields[0].value];
      MoreToRead(s, i, fields, tail, read);
      ParamsRead(s, i + |FieldText(fields[0])| + 2, fields[1..], tail, all);
    }
  }

  lemma LastRead(s: string, i: nat, fields: seq<Field>, tail: string, read: map<string, string>)
    requires i <= |s| && |fields| == 1 && s[i..] == FieldTexts(fields) + tail && NamesOk(fields) && Follows(tail)
    requires fields[0].name !in read
    ensures var end := i + |FieldText(fields[0])|;
            end <= |s|
            && Params(s, i, read) == Ok((read[fields[0].name := fields[0].value], if tail == "" then end else end + 2))
  {
    hide *;
    FirstRead(s, i, fields, tail, read);
    if tail != "" { NextScheme(s, i + |FieldText(fields[0])|, tail); }
  }

  lemma MoreToRead(s: string, i: nat, fields: seq<Field>, tail: string, read: map<string, string>)
    requires i <= |s| && |fields| > 1 && s[i..] == FieldTexts(fields) + tail && NamesOk(fields) && NamesOk(fields[1..])
    requires Follows(tail) && fields[0].name !in read
    ensures var next := i + |FieldText(fields[0])| + 2;
            && next <= |s| && s[next..] == FieldTexts(fields[1..]) + tail
            && Params(s, i, read) == Params(s, next, read[fields[0].name := fields[0].value])
  {
    hide *;
    FirstRead(s, i, fields, tail, read);
    NextField(s, i + |FieldText(fields[0])|, fields[1..], tail);
  }

  // The first field is read, and what remains starts right after its text.
  lemma FirstRead(s: string, i: nat, fields: seq<Field>, tail: string, read: map<string, string>)
    requires i <= |s| && fields != [] && s[i..] == FieldTexts(fields) + tail && NamesOk(fields) && Follows(tail)
    requires fields[0].name !in read
    ensures var index := i + |FieldText(fields[0])|; var all := read[fields[0].name := fields[0].value];
            && index <= |s| && s[index..] == (if |fields| == 1 then tail else ", " + (FieldTexts(fields[1..]) + tail))
            && (index == |s| ==> Params(s, i, read) == Ok((all, index)))
            && (index < |s| && s[index] == ',' ==>
                  var next := SkipSpace(s, index + 1);
                  Params(s, i, read) ==
                  if StartsScheme(s, next) || StartsOther(s, next) then Ok((all, next)) else Params(s, next, all))
  {
    hide AfterFirst, FieldText, FieldTexts, Params, Param, SkipSpace, StartsScheme, StartsOther, IsName, Follows;
    SplitFields(fields, tail);
    FollowsComma(fields, tail);
    ParamReads(s, i, fields[0], AfterFirst(fields, tail));
    TextNotEmpty(fields[0]);
    ParamsStep(s, i, read, fields[0], i + |FieldText(fields[0])|);
  }

  lemma SplitNames(fields: seq<Field>, read: map<string, string>)
    requires fields != [] && NamesOk(fields) && DistinctNames(fields)
    requires forall k | 0 <= k < |fields| :: fields[k].name !in read
    ensures var all := read[fields[0].name := fields[0].value];
            && IsName(fields[0].name) && NamesOk(fields[1..]) && DistinctNames(fields[1..])
            && (forall k | 0 <= k < |fields[1..]| :: fields[1..][k].name !in all)
            && Add(read, fields) == Add(all, fields[1..]) && (|fields| == 1 ==> Add(read, fields) == all)
  {
    hide IsName;
  }

  lemma FollowsComma(fields: seq<Field>, tail: string)
    requires fields != [] && Follows(tail)
    ensures AfterFirst(fields, tail) == if |fields| == 1 then tail else ", " + (FieldTexts(fields[1..]) + tail)
    ensures AfterFirst(fields, tail) == "" || AfterFirst(fields, tail)[0] == ','
  {
    hide FieldTexts;
    assert tail != "" ==> tail[0] == tail[..10][0];
  }

  lemma TextNotEmpty(f: Field)
    ensures |FieldText(f)| > 0
  {
  }

  lemma ParamsStep(s: string, i: nat, read: map<string, string>, f: Field, index: nat)
    requires i < |s| && Param(s, i) == Some((f.name, f.value, index)) && f.name !in read
    ensures var all := read[f.name := f.value];
            && (index == |s| ==> Params(s, i, read) == Ok((all, index)))
            && (index < |s| && s[index] == ',' ==>
                  var next := SkipSpace(s, index + 1);
                  Params(s, i, read) ==
                  if StartsScheme(s, next) || StartsOther(s, next) then Ok((all, next)) else Params(s, next, all))
  {
    hide StartsScheme, StartsOther, Param, SkipSpace, FindNext;
  }

  lemma SplitFields(fields: seq<Field>, tail: string)
    requires fields != []
    ensures FieldTexts(fields) + tail == FieldText(fields[0]) + AfterFirst(fields, tail)
    ensures |FieldTexts(fields)| == |FieldText(fields[0])| + if |fields| == 1 then 0 else 2 + |FieldTexts(fields[1..])|
  {
    hide FieldText;
    if |fields| > 1 { Reassociate(FieldText(fields[0]), ", ", FieldTexts(fields[1..]), tail); }
  }

  lemma Reassociate(a: string, b: string, c: string, d: string)
    ensures (a + (b + c)) + d == a + (b + (c + d))
  {
  }

  lemma NextField(s: string, index: nat, fields: seq<Field>, tail: string)
    requires index <= |s| && fields != [] && NamesOk(fields) && s[index..] == ", " + (FieldTexts(fields) + tail)
    ensures index + 2 <= |s| && s[index] == ',' && SkipSpace(s, index + 1) == index + 2
    ensures s[index + 2..] == FieldTexts(fields) + tail
    ensures !StartsScheme(s, index + 2) && !StartsOther(s, index + 2)
  {
    hide FieldText, StartsScheme, IsTokenChar, IsName;
    var t := s[index..];
    var rest := AfterFirst(fields, tail);
    SplitFields(fields, tail);
    assert t[..2] == ", " && t[2..] == FieldText(fields[0]) + rest;
    assert s[index] == t[0] && s[index + 1] == t[1] && s[index + 2..] == t[2..];
    FieldAt(s, index + 2, fields[0], rest);
    NameStarts(fields[0].name);
    assert s[index + 2] == s[index + 2..index + 2 + |fields[0].name|][0] == fields[0].name[0];
    NotScheme(s, index + 2);
  }

  lemma NameStarts(k: string)
    requires IsName(k)
    ensures k != "" && k[0] != 'p' && k[0] != 'P' && !IsWhitespace(k[0])
  {
  }

  lemma NextScheme(s: string, index: nat, tail: string)
    requires index <= |s| && s[index..] == tail && tail != "" && Follows(tail)
    ensures index + 2 <= |s| && s[index] == ',' && SkipSpace(s, index + 1) == index + 2 && StartsScheme(s, index + 2)
  {
    hide StartsScheme;
    assert tail[..10][0] == ',' && tail[..10][1] == ' ' && tail[..10][2] == 'P' && tail[..10][2..] == "Payment ";
    assert s[index] == tail[0] && s[index + 1] == tail[1] && s[index + 2] == tail[2];
    assert s[index + 2..index + 10] == tail[..10][2..];
    SchemeStarts(s, index + 2);
  }

  // ---- the parsed parameters are the challenge ----

  // Where a field of a challenge stands, told from the length and first letter of its name.
  function Rank(name: string): int
    requires name != ""
  {
    if |name| == 2 then 0 else if |name| == 5 then 1 else if |name| == 11 then 7
    else if |name| == 7 then (if name[0] == 'r' then 4 else 6)
    else if name[0] == 'm' then 2
    else if name[0] == 'i' then 3
    else if name[0] == 'd' then 5
    else if name[0] == 'h' then 8
    else 9
  }

  lemma FieldNames(c: Challenge)
    ensures DistinctNames(Fields(c)) && NamesOk(Fields(c))
  {
    hide IsName;
    NamesAreWords();
    RanksDiffer(Fields(c));
  }

  lemma RanksDiffer(fields: seq<Field>)
    requires forall i | 0 <= i < |fields| :: fields[i].name != "" && Rank(fields[i].name) == i
    ensures DistinctNames(fields)
  {
    hide Rank;
  }

  lemma NamesAreWords()
    ensures IsName("id") && IsName("realm") && IsName("method") && IsName("intent") && IsName("request")
    ensures IsName("digest") && IsName("expires") && IsName("description") && IsName("header") && IsName("opaque")
  {
    hide IsName;
    WordIsName("id");
    WordIsName("realm");
    WordIsName("method");
    WordIsName("intent");
    WordIsName("request");
    WordIsName("digest");
    WordIsName("expires");
    WordIsName("description");
    WordIsName("header");
    WordIsName("opaque");
  }

  lemma WordIsName(name: string)
    requires name != "" && name[0] != 'p' && forall j | 0 <= j < |name| :: 'a' <= name[j] <= 'z'
    ensures IsName(name)
  {
    LowerIsSame(name);
  }

  lemma {:induction false} LowerIsSame(s: string)
    requires forall i | 0 <= i < |s| :: !('A' <= s[i] <= 'Z') && s[i] != DOTTED_I
    ensures Lower(s) == s
  {
    if s != "" {
      LowerIsSame(s[1..]);
      assert s == [s[0]] + s[1..];
    }
  }

  lemma {:induction false} ShownNames(fields: seq<Field>)
    requires DistinctNames(fields) && NamesOk(fields)
    ensures DistinctNames(Shown(fields)) && NamesOk(Shown(fields))
    ensures forall f | f in Shown(fields) :: f in fields && f.shown
  {
    hide IsName;
    if fields != [] {
      ShownNames(fields[1..]);
      assert fields == [fields[0]] + fields[1..];
      var rest := Shown(fields[1..]);
      forall i | 0 <= i < |rest| ensures rest[i].name != fields[0].name {
        assert rest[i] in fields[1..];
        var j :| 0 <= j < |fields[1..]| && fields[1..][j] == rest[i];
      }
    }
  }

  predicate Has(fields: seq<Field>, name: string) { fields != [] && (fields[0].name == name || Has(fields[1..], name)) }

  function ValueOf(fields: seq<Field>, name: string): string {
    if fields == [] then "" else if fields[0].name == name then fields[0].value else ValueOf(fields[1..], name)
  }

  lemma {:induction false} HasSome(fields: seq<Field>, name: string)
    ensures Has(fields, name) <==> exists i :: 0 <= i < |fields| && fields[i].name == name
  {
    if fields != [] {
      HasSome(fields[1..], name);
      assert forall i | 0 < i < |fields| :: fields[i] == fields[1..][i - 1];
      assert forall i | 0 <= i < |fields[1..]| :: fields[1..][i] == fields[i + 1];
    }
  }

  // Adding fields of distinct names stores exactly their values.
  lemma {:induction false} AddStores(read: map<string, string>, fields: seq<Field>, name: string)
    requires DistinctNames(fields)
    ensures Lookup(Add(read, fields), name) ==
              if Has(fields, name) then Some(ValueOf(fields, name)) else Lookup(read, name)
    decreases |fields|
  {
    if fields != [] {
      AddStores(read[fields[0].name := fields[0].value], fields[1..], name);
      HasSome(fields[1..], name);
    }
  }

  // What the parsed parameters hold under a field's name.
  lemma {:induction false} ShownStores(fields: seq<Field>, i: nat)
    requires DistinctNames(fields) && NamesOk(fields) && i < |fields|
    ensures Lookup(Add(map[], Shown(fields)), fields[i].name) == if fields[i].shown then Some(fields[i].value) else None
  {
    hide IsName;
    ShownNames(fields);
    AddStores(map[], Shown(fields), fields[i].name);
    ShownHas(fields, i);
  }

  lemma {:induction false} ShownHas(fields: seq<Field>, i: nat)
    requires DistinctNames(fields) && i < |fields|
    ensures Has(Shown(fields), fields[i].name) <==> fields[i].shown
    ensures fields[i].shown ==> ValueOf(Shown(fields), fields[i].name) == fields[i].value
  {
    ShownFirst(fields);
    if i == 0 {
      NotShownLater(fields[1..], fields[0].name);
    } else {
      assert fields[i] == fields[1..][i - 1];
      ShownHas(fields[1..], i - 1);
    }
  }

  lemma ShownFirst(fields: seq<Field>)
    requires fields != []
    ensures fields[0].shown ==>
              Shown(fields) != [] && Shown(fields)[0] == fields[0] && Shown(fields)[1..] == Shown(fields[1..])
    ensures !fields[0].shown ==> Shown(fields) == Shown(fields[1..])
  {
  }

  lemma {:induction false} NotShownLater(fields: seq<Field>, name: string)
    requires forall i | 0 <= i < |fields| :: fields[i].name != name
    ensures !Has(Shown(fields), name)
  {
    if fields != [] {
      ShownFirst(fields);
      NotShownLater(fields[1..], name);
    }
  }

  lemma FieldsBuildChallenge(c: Challenge)
    ensures FromParams(Add(map[], Shown(Fields(c)))) == Some(Normal(c))
  {
    hide Shown, Add, Fields, FromParams, Lookup, IsName;
    var fields := Fields(c);
    var m := Add(map[], Shown(fields));
    FieldNames(c);
    forall i | 0 <= i < |fields|
      ensures Lookup(m, fields[i].name) == if fields[i].shown then Some(fields[i].value) else None
    {
      ShownStores(fields, i);
    }
    FieldLookups(c, m);
    LookupsBuild(Normal(c), m);
  }

  lemma FieldLookups(c: Challenge, m: map<string, string>)
    requires forall i | 0 <= i < |Fields(c)| ::
               Lookup(m, Fields(c)[i].name) == if Fields(c)[i].shown then Some(Fields(c)[i].value) else None
    ensures Lookups(Normal(c), m)
  {
    hide Lookup;
    var f := Fields(c);
    assert f[0].name == "id" && f[1].name == "realm" && f[2].name == "method" && f[3].name == "intent"
           && f[4].name == "request";
    assert f[5].name == "digest" && f[6].name == "expires" && f[7].name == "description" && f[8].name == "header"
           && f[9].name == "opaque";
  }

  // The map holds the challenge's fields under their names.
  predicate Lookups(c: Challenge, m: map<string, string>) {
    && Lookup(m, "id") == Some(c.id) && Lookup(m, "realm") == Some(c.realm) && Lookup(m, "method") == Some(c.method_)
    && Lookup(m, "intent") == Some(c.intent) && Lookup(m, "request") == Some(c.request)
    && Lookup(m, "digest") == c.digest && Lookup(m, "expires") == c.expires && Lookup(m, "description") == c.description
    && Lookup(m, "header") == c.header && Lookup(m, "opaque") == c.opaque_
  }

  lemma LookupsBuild(c: Challenge, m: map<string, string>)
    requires Lookups(c, m)
    ensures FromParams(m) == Some(c)
  {
  }

  // ---- finding the next scheme ----

  lemma {:induction false} LowerAppend(a: string, b: string)
    ensures Lower(a + b) == Lower(a) + Lower(b)
  {
    if a == "" {
      assert a + b == b;
    } else {
      assert (a + b)[1..] == a[1..] + b;
      LowerAppend(a[1..], b);
    }
  }

  function Dotted(s: string): nat { if s == "" then 0 else (if s[0] == DOTTED_I then 1 else 0) + Dotted(s[1..]) }

  lemma {:induction false} DottedAppend(a: string, b: string)
    ensures Dotted(a + b) == Dotted(a) + Dotted(b)
  {
    if a == "" {
      assert a + b == b;
    } else {
      assert (a + b)[1..] == a[1..] + b;
      DottedAppend(a[1..], b);
    }
  }

  lemma {:induction false} DottedCounts(s: string)
    ensures Dotted(s) == 0 <==> DOTTED_I !in s
    ensures |Lower(s)| == |s| + Dotted(s)
  {
    if s != "" {
      DottedCounts(s[1..]);
      assert s == [s[0]] + s[1..];
    }
  }

  // At a true start of a scheme, the search finds it exactly when the lowered text has the scheme's
  // name at that very position.
  lemma FindsHereExactly(s: string, x: nat)
    requires StartsScheme(s, x)
    ensures FindNext(s, x) == Some(x) <==> OccursAt(Lower(s), SCHEME, x)
  {
    hide StartsScheme, Lower;
  }

  // With no U+0130 before it, a scheme is found where it is.
  lemma FindsHere(s: string, x: nat)
    requires StartsScheme(s, x) && DOTTED_I !in s[..x]
    ensures FindNext(s, x) == Some(x)
  {
    hide FindNext;
    var name, rest := s[x..x + |SCHEME|], s[x + |SCHEME|..];
    assert s == s[..x] + (name + rest);
    LowerAppend(s[..x], name + rest);
    LowerAppend(name, rest);
    DottedCounts(s[..x]);
    assert Lower(s)[x..x + |SCHEME|] == SCHEME;
    FindsHereExactly(s, x);
  }

  // Letters of the scheme come from single letters of the text.
  lemma {:induction false} LowerPrefix(s: string, w: string)
    requires |w| <= |Lower(s)| && Lower(s)[..|w|] == w
    requires forall j | 0 <= j < |w| :: w[j] != 'i' && w[j] != 0x307 as char
    ensures |w| <= |s| && Lower(s[..|w|]) == w
    decreases |w|
  {
    if w != "" {
      assert Lower(s)[0] == w[0];
      assert Lower(s[1..]) == Lower(s)[1..];
      LowerPrefix(s[1..], w[1..]);
      assert s[..|w|][1..] == s[1..][..|w| - 1];
      assert w == [w[0]] + w[1..];
    }
  }

  // A place where the lowered text has the scheme's name, and the place in the text that it comes from.
  lemma {:induction false} OccursFrom(s: string, y: nat) returns (x: nat)
    requires OccursAt(Lower(s), SCHEME, y)
    ensures x + |SCHEME| <= |s| && Lower(s[x..x + |SCHEME|]) == SCHEME && y == x + Dotted(s[..x])
    decreases |s|
  {
    var first := LowerChar(s[0]);
    if y == 0 {
      LowerPrefix(s, SCHEME);
      assert s[..0] == "" && s[0..|SCHEME|] == s[..|SCHEME|];
      return 0;
    }
    assert Lower(s)[y] == SCHEME[0];
    assert y >= |first|;
    assert Lower(s[1..])[y - |first|..y - |first| + |SCHEME|] == Lower(s)[y..y + |SCHEME|];
    x := OccursFrom(s[1..], y - |first|);
    assert s[x + 1..x + 1 + |SCHEME|] == s[1..][x..x + |SCHEME|];
    DottedFirst(s, x);
    x := x + 1;
  }

  lemma DottedFirst(s: string, x: nat)
    requires x < |s|
    ensures Dotted(s[..x + 1]) == (if s[0] == DOTTED_I then 1 else 0) + Dotted(s[1..][..x])
  {
    assert s[..x + 1][1..] == s[1..][..x];
  }

  // Each letter of an occurrence of the scheme's name.
  lemma {:induction false} LowerLetter(t: string, w: string, j: nat)
    requires Lower(t) == w && j < |w| && forall n | 0 <= n < |t| :: t[n] != DOTTED_I
    ensures |w| == |t| && LowerChar(t[j])[0] == w[j]
  {
    DottedCounts(t);
    if j > 0 { LowerLetter(t[1..], w[1..], j - 1); }
  }

  lemma SchemeLetter(s: string, x: nat, j: nat)
    requires j < |SCHEME| && x + |SCHEME| <= |s| && Lower(s[x..x + |SCHEME|]) == SCHEME
    ensures LowerChar(s[x + j])[0] == SCHEME[j]
  {
    var t := s[x..x + |SCHEME|];
    DottedCounts(t);
    LowerLetter(t, SCHEME, j);
    assert t[j] == s[x + j];
  }

  lemma FirstLetterOnce(j: nat)
    requires 0 < j < |SCHEME|
    ensures SCHEME[j] != SCHEME[0]
  {
  }

  lemma DottedBefore(s: string, x: nat, from: nat)
    requires x <= |s| && from <= |s| && DOTTED_I in s[..from] && x + Dotted(s[..x]) >= from
    ensures 0 < Dotted(s[..x]) <= Dotted(s)
  {
    assert s == s[..x] + s[x..];
    DottedAppend(s[..x], s[x..]);
    DottedCounts(s[..x]);
    if from <= x {
      var j :| 0 <= j < |s[..from]| && s[..from][j] == DOTTED_I;
      assert s[..x][j] == DOTTED_I;
    }
  }

  // With a U+0130 before it, and fewer of them in all than the scheme's name has letters, nothing is
  // found any more: a place in the lowered text is then shifted against the text, but by so little that
  // the scheme's name would have to start inside itself.
  lemma LostAfterDotted(s: string, from: nat)
    requires from <= |s| && DOTTED_I in s[..from] && Dotted(s) < |SCHEME|
    ensures FindNext(s, from).None?
  {
    hide Dotted, LowerChar;
    if FindNext(s, from).Some? {
      var y := FindNext(s, from).value;
      var x := OccursFrom(s, y);
      DottedBefore(s, x, from);
      FirstLetterOnce(y - x);
      SchemeLetter(s, x, y - x);
      SchemeLetter(s, y, 0);
    }
  }

  lemma NothingAtTheEnd(s: string)
    ensures FindNext(s, |s|).None?
  {
  }

  // ---- the round trip ----

  // One rendered challenge reads back and leaves off where the next one starts.
  lemma ChallengeReads(s: string, i: nat, c: Challenge, tail: string)
    requires i <= |s| && s[i..] == Render(c) + tail && Follows(tail)
    ensures i + 8 <= |s| && s[i..i + 8] == "Payment "
    ensures var end := i + |Render(c)|;
            end <= |s|
            && Params(s, SkipSpace(s, i + |SCHEME|), map[]) ==
                 Ok((Add(map[], Shown(Fields(c))), if tail == "" then end else end + 2))
  {
    hide Params, FieldTexts, Fields, Shown, IsName, Add;
    var fields := Shown(Fields(c));
    var t := s[i..];
    assert t[..8] == "Payment " && t[8..] == FieldTexts(fields) + tail;
    assert s[i..i + 8] == t[..8] && s[i + 8..] == t[8..];
    FieldNames(c);
    ShownNames(Fields(c));
    IdIsShown(c);
    FirstIsNoSpace(fields, tail);
    assert s[i + 7] == s[i..i + 8][7] && s[i + 8] == s[i + 8..][0];
    assert SkipSpace(s, i + 7) == SkipSpace(s, i + 8) == i + 8;
    ParamsRead(s, i + 8, fields, tail, map[]);
  }

  lemma IdIsShown(c: Challenge)
    ensures Shown(Fields(c)) != []
  {
    ShownFirst(Fields(c));
  }

  lemma FirstIsNoSpace(fields: seq<Field>, tail: string)
    requires fields != [] && NamesOk(fields)
    ensures FieldTexts(fields) + tail != "" && !IsWhitespace((FieldTexts(fields) + tail)[0])
  {
    hide IsName;
    NameStarts(fields[0].name);
    assert FieldText(fields[0])[0] == fields[0].name[0];
    SplitFields(fields, tail);
  }

  function Tail(cs: seq<Challenge>): string
    requires cs != []
  {
    if |cs| == 1 then "" else ", " + Header(cs[1..])
  }

  lemma HeaderSplits(cs: seq<Challenge>)
    requires cs != []
    ensures Header(cs) == Render(cs[0]) + Tail(cs) && Follows(Tail(cs)) && (Tail(cs) == "" <==> |cs| == 1)
    ensures |cs| > 1 ==> |Tail(cs)| >= 2 && Tail(cs)[..2] == ", " && Tail(cs)[2..] == Header(cs[1..])
  {
    hide Render;
    if |cs| > 1 {
      HeaderBegins(cs[1..]);
      var next := Header(cs[1..]);
      assert Header(cs) == Render(cs[0]) + (", " + next);
      assert (", " + next)[..10] == ", " + next[..8];
    } else {
      assert Render(cs[0]) + "" == Render(cs[0]);
    }
  }

  lemma HeaderBegins(cs: seq<Challenge>)
    requires cs != []
    ensures |Header(cs)| >= 8 && Header(cs)[..8] == "Payment "
  {
    hide FieldTexts;
    var r := Render(cs[0]);
    assert r[..8] == "Payment ";
    assert |cs| > 1 ==> Header(cs) == r + (", " + Header(cs[1..]));
  }

  // What survives: everything up to the first challenge with a U+0130 in it, that one included.
  function Kept(cs: seq<Challenge>): seq<Challenge> {
    if cs == [] then [] else if DOTTED_I in Render(cs[0]) then [cs[0]] else [cs[0]] + Kept(cs[1..])
  }

  predicate Acceptable(cs: seq<Challenge>, accepts: Challenge -> bool) {
    forall k | 0 <= k < |cs| :: accepts(Normal(cs[k]))
  }

  // How the outer loop takes one rendered challenge.
  lemma OuterStep(s: string, i: nat, c: Challenge, tail: string, accepts: Challenge -> bool)
    requires i <= |s| && s[i..] == Render(c) + tail && Follows(tail) && accepts(Normal(c))
    requires FindNext(s, i) == Some(i)
    ensures var next := i + |Render(c)| + if tail == "" then 0 else 2;
            next <= |s| && Challenges(s, i, accepts) == Collected([Normal(c)], Challenges(s, next, accepts))
  {
    hide FindNext, Params, Render, FromParams, Add, Shown, Fields, StartsScheme;
    ChallengeReads(s, i, c, tail);
    FieldsBuildChallenge(c);
    FollowsFits(s, i, c, tail);
  }

  lemma FollowsFits(s: string, i: nat, c: Challenge, tail: string)
    requires i <= |s| && s[i..] == Render(c) + tail && Follows(tail)
    ensures i + |Render(c)| + (if tail == "" then 0 else 2) <= |s|
  {
    hide Render;
  }

  lemma Reaches(s: string, i: nat, cs: seq<Challenge>)
    requires i <= |s| && cs != [] && s[i..] == Header(cs)
    ensures var end := i + |Render(cs[0])|;
            && (|cs| == 1 ==> end == |s|)
            && (|cs| > 1 ==> end + 2 <= |s| && s[end] == ',' && s[end + 1] == ' ' && s[end + 2..] == Header(cs[1..]))
            && end <= |s| && s[..end] == s[..i] + Render(cs[0])
  {
    hide Render, Header;
    HeaderSplits(cs);
    var end := i + |Render(cs[0])|;
    CutAt(s, i, Render(cs[0]), Tail(cs));
    if |cs| > 1 {
      assert s[end] == s[end..][..2][0] && s[end + 1] == s[end..][..2][1] && s[end + 2..] == s[end..][2..];
    }
  }

  lemma CutAt(s: string, i: nat, a: string, b: string)
    requires i <= |s| && s[i..] == a + b
    ensures i + |a| <= |s| && s[i + |a|..] == b && s[..i + |a|] == s[..i] + a
  {
    var t := s[i..];
    assert t[..|a|] == a && t[|a|..] == b;
    assert s[i + |a|..] == t[|a|..] && s[..i + |a|] == s[..i] + t[..|a|];
  }

  // Reading a rendered list from one of its schemes on.  `clear` says that no challenge but the last has
  // a U+0130; otherwise the text holds too few of them to fool the search.
  lemma {:induction false} RestReads(s: string, i: nat, cs: seq<Challenge>, accepts: Challenge -> bool)
    requires i <= |s| && cs != [] && s[i..] == Header(cs) && Acceptable(cs, accepts)
    requires i == 0 || (i >= 2 && s[i - 2] == ',' && s[i - 1] == ' ')
    requires DOTTED_I !in s[..i]
    requires Dotted(s) < |SCHEME| || Kept(cs) == cs
    ensures Challenges(s, i, accepts) == Ok(Normals(Kept(cs)))
    decreases |cs|
  {
    hide *;
    HeaderSplits(cs);
    Reaches(s, i, cs);
    KeptStep(cs);
    AcceptableParts(cs, accepts);
    ChallengeReads(s, i, cs[0], Tail(cs));
    SchemeStarts(s, i);
    FindsHere(s, i);
    OuterStep(s, i, cs[0], Tail(cs), accepts);
    var end := i + |Render(cs[0])|;
    if |cs| == 1 {
      LastReads(s, accepts);
      CollectedNormals(cs[0], []);
    } else if DOTTED_I in Render(cs[0]) {
      DottedSeen(s, i, end, Render(cs[0]));
      RestIsLost(s, end + 2, accepts);
      CollectedNormals(cs[0], []);
    } else {
      DottedUnseen(s, i, end, Render(cs[0]));
      RestReads(s, end + 2, cs[1..], accepts);
      CollectedNormals(cs[0], Kept(cs[1..]));
    }
  }

  lemma KeptStep(cs: seq<Challenge>)
    requires cs != []
    ensures Kept(cs) == [cs[0]] + if |cs| == 1 || DOTTED_I in Render(cs[0]) then [] else Kept(cs[1..])
    ensures |cs| > 1 && Kept(cs) == cs ==> DOTTED_I !in Render(cs[0]) && Kept(cs[1..]) == cs[1..]
  {
    hide Render;
    assert |cs| == 1 ==> Kept(cs[1..]) == [];
    assert |cs| > 1 && DOTTED_I in Render(cs[0]) ==> |Kept(cs)| != |cs|;
    assert cs == [cs[0]] + cs[1..];
  }

  lemma AcceptableParts(cs: seq<Challenge>, accepts: Challenge -> bool)
    requires cs != [] && Acceptable(cs, accepts)
    ensures accepts(Normal(cs[0])) && Acceptable(cs[1..], accepts)
  {
    hide Normal;
  }

  lemma CollectedNormals(c: Challenge, rest: seq<Challenge>)
    ensures Collected([Normal(c)], Ok(Normals(rest))) == Ok(Normals([c] + rest))
    ensures Ok(Normals([])) == Ok([])
  {
    hide Normal;
    assert ([c] + rest)[1..] == rest;
  }

  lemma DottedSeen(s: string, i: nat, end: nat, r: string)
    requires i <= end && end + 2 <= |s| && s[..end] == s[..i] + r && DOTTED_I in r
    ensures DOTTED_I in s[..end + 2]
  {
    var j :| 0 <= j < |r| && r[j] == DOTTED_I;
    assert s[..end][i + j] == DOTTED_I;
    assert s[..end + 2][i + j] == DOTTED_I;
  }

  lemma DottedUnseen(s: string, i: nat, end: nat, r: string)
    requires i <= end && end + 2 <= |s| && s[..end] == s[..i] + r && DOTTED_I !in r && DOTTED_I !in s[..i]
    requires s[end] == ',' && s[end + 1] == ' '
    ensures DOTTED_I !in s[..end + 2]
  {
    assert s[..end + 2] == s[..end] + [s[end], s[end + 1]];
  }

  lemma LastReads(s: string, accepts: Challenge -> bool)
    ensures Challenges(s, |s|, accepts) == Ok([])
  {
    NothingAtTheEnd(s);
  }

  lemma RestIsLost(s: string, i: nat, accepts: Challenge -> bool)
    requires i <= |s| && DOTTED_I in s[..i] && Dotted(s) < |SCHEME|
    ensures Challenges(s, i, accepts) == Ok([])
  {
    LostAfterDotted(s, i);
  }

  lemma HeaderIsStripped(cs: seq<Challenge>)
    ensures Strip(Header(cs)) == Header(cs)
  {
    if cs != [] {
      HeaderStarts(cs);
      HeaderEnds(cs);
      StripKeeps(Header(cs));
    }
  }

  lemma HeaderStarts(cs: seq<Challenge>)
    requires cs != []
    ensures Header(cs) != "" && !IsSpace(Header(cs)[0])
  {
    hide FieldTexts;
    HeaderSplits(cs);
    assert Render(cs[0])[0] == 'P';
  }

  lemma {:induction false} FieldTextsEnd(fields: seq<Field>)
    requires fields != []
    ensures FieldTexts(fields) != "" && FieldTexts(fields)[|FieldTexts(fields)| - 1] == '"'
  {
    if |fields| > 1 { FieldTextsEnd(fields[1..]); }
  }

  lemma {:induction false} HeaderEnds(cs: seq<Challenge>)
    requires cs != []
    ensures Header(cs) != "" && !IsSpace(Header(cs)[|Header(cs)| - 1])
  {
    hide FieldTexts, Shown, Fields;
    if |cs| > 1 {
      HeaderEnds(cs[1..]);
    } else {
      IdIsShown(cs[0]);
      FieldTextsEnd(Shown(Fields(cs[0])));
    }
  }

  // No challenge but the last contains U+0130, the one character whose lower case is longer.
  predicate IsClear(cs: seq<Challenge>) { forall k | 0 <= k < |cs| - 1 :: DOTTED_I !in Render(cs[k]) }

  lemma {:induction false} KeptExactly(cs: seq<Challenge>)
    ensures |Kept(cs)| == |cs| <==> IsClear(cs)
    ensures |Kept(cs)| <= |cs| && (|Kept(cs)| == |cs| ==> Kept(cs) == cs)
  {
    hide Render;
    if cs != [] {
      KeptExactly(cs[1..]);
      assert cs == [cs[0]] + cs[1..];
      assert forall k | 0 < k < |cs| :: cs[k] == cs[1..][k - 1];
      assert forall k | 0 <= k < |cs[1..]| :: cs[1..][k] == cs[k + 1];
    }
  }

  lemma {:induction false} NormalsLength(cs: seq<Challenge>)
    ensures |Normals(cs)| == |cs|
  {
    if cs != [] { NormalsLength(cs[1..]); }
  }

  lemma HeaderReads(cs: seq<Challenge>, accepts: Challenge -> bool)
    requires Acceptable(cs, accepts) && (Dotted(Header(cs)) < |SCHEME| || Kept(cs) == cs)
    ensures Parse(Header(cs), accepts) == Ok(Normals(Kept(cs)))
  {
    hide Strip, Challenges, Header;
    HeaderIsStripped(cs);
    var s := Header(cs);
    if cs == [] {
      assert s == "" by { EmptyHeader(); }
      LastReads(s, accepts);
    } else {
      assert s[0..] == s && s[..0] == "";
      RestReads(s, 0, cs, accepts);
    }
  }

  lemma EmptyHeader()
    ensures Header([]) == ""
  {
  }

  // Parsing the comma-joined rendering of any list of valid challenges returns exactly that list, with
  // empty optional fields absent, whatever quotes, backslashes, commas or look-alike schemes their values
  // contain, as long as no challenge but the last contains U+0130.
  lemma ParseInvertsRender(cs: seq<Challenge>, accepts: Challenge -> bool)
    requires Acceptable(cs, accepts) && IsClear(cs)
    ensures Parse(Header(cs), accepts) == Ok(Normals(cs))
  {
    KeptExactly(cs);
    HeaderReads(cs, accepts);
  }

  // A single challenge always reads back.
  lemma SingleReadsBack(c: Challenge, accepts: Challenge -> bool)
    requires accepts(Normal(c))
    ensures Parse(Render(c), accepts) == Ok([Normal(c)])
  {
    ParseInvertsRender([c], accepts);
    assert Normals([c]) == [Normal(c)];
  }

  // With fewer U+0130 in the header than the scheme's name has letters, what reads back is everything up
  // to the first challenge that contains one, that challenge included.
  lemma FewDottedLoseTheRest(cs: seq<Challenge>, accepts: Challenge -> bool)
    requires Acceptable(cs, accepts) && Dotted(Header(cs)) < |SCHEME|
    ensures Parse(Header(cs), accepts) == Ok(Normals(Kept(cs)))
    ensures Parse(Header(cs), accepts) == Ok(Normals(cs)) <==> IsClear(cs)
  {
    hide Dotted, Header, Parse;
    KeptExactly(cs);
    HeaderReads(cs, accepts);
    NormalsLength(cs);
    NormalsLength(Kept(cs));
  }
}
