// When exactly a rendered list of challenges reads back.  A challenge is found where it starts exactly
// when the lowered header has the scheme's name at that position; once one is missed, the parser can only
// pick up a look-alike further on, and what it reads from there is never the list that was rendered.
module ChallengeAstray {
  import opened Options
  import opened HighWater
  import opened PythonText
  import opened ChallengeHeader
  import opened ChallengeRoundTrip

  // ---- reading from inside a quoted value ----

  // Every space in the text comes right after a comma.  All values read from inside a quoted value are of
  // this kind: tokens, or the separator up to the next opening quote.
  predicate IsBland(v: string) { forall j | 0 <= j < |v| && IsWhitespace(v[j]) :: j > 0 && v[j - 1] == ',' }

  predicate AllBland(m: map<string, string>) { forall k | k in m :: IsBland(m[k]) }

  // What comes after the closing quote of a field.
  function Onward(fields: seq<Field>, tail: string): string {
    if fields == [] then tail else ", " + (FieldTexts(fields) + tail)
  }

  // Position `i` is inside a quoted value, between two escaped characters; `u` is still to come.
  predicate Inside(s: string, i: nat, u: string, fields: seq<Field>, tail: string) {
    i <= |s| && s[i..] == Escape(u) + "\"" + Onward(fields, tail) && NamesOk(fields) && Follows(tail)
  }

  lemma InsideChar(s: string, i: nat, u: string, fields: seq<Field>, tail: string)
    requires Inside(s, i, u, fields, tail)
    ensures i < |s| && (if u == "" then s[i] == '"' else s[i] == EscapeChar(u[0])[0])
    ensures s[i] != '\\' && s[i] != '"' ==> u != "" && s[i] == u[0] && Inside(s, i + 1, u[1..], fields, tail)
  {
    hide NamesOk, Follows, Onward, Escape;
    assert s[i] == s[i..][0] by { EscapeEmpty(); if u != "" { EscapeStep(u); } }
    if u == "" {
      EscapeEmpty();
    } else {
      EscapeStep(u);
      if s[i] != '\\' && s[i] != '"' {
        assert s[i + 1..] == s[i..][1..];
        assert s[i..] == [u[0]] + (Escape(u[1..]) + "\"" + Onward(fields, tail));
      }
    }
  }

  lemma EscapeEmpty()
    ensures Escape("") == ""
  {
  }

  lemma {:induction false} TokenInside(s: string, i: nat, u: string, fields: seq<Field>, tail: string)
    returns (u': string)
    requires Inside(s, i, u, fields, tail)
    ensures Inside(s, TokenEnd(s, i), u', fields, tail)
    decreases |u|
  {
    hide Inside, IsTokenChar;
    InsideChar(s, i, u, fields, tail);
    QuotesAreNoTokens();
    if IsTokenChar(s[i]) {
      u' := TokenInside(s, i + 1, u[1..], fields, tail);
    } else {
      u' := u;
    }
  }

  lemma QuotesAreNoTokens()
    ensures !IsTokenChar('"') && !IsTokenChar('\\') && !IsTokenChar(',') && !IsTokenChar(' ') && !IsTokenChar('\t')
  {
  }

  lemma {:induction false} SpaceInside(s: string, i: nat, u: string, fields: seq<Field>, tail: string)
    returns (u': string)
    requires Inside(s, i, u, fields, tail)
    ensures Inside(s, SkipSpace(s, i), u', fields, tail)
    decreases |u|
  {
    hide Inside;
    InsideChar(s, i, u, fields, tail);
    if IsWhitespace(s[i]) {
      u' := SpaceInside(s, i + 1, u[1..], fields, tail);
    } else {
      u' := u;
    }
  }

  // Everything between a closing quote and the next opening quote is read as it stands.
  lemma EscapePlain(w: string)
    requires forall j | 0 <= j < |w| :: w[j] != '\\' && w[j] != '"'
    ensures Escape(w) == w
  {
    if w == "" {
      EscapeEmpty();
    } else {
      EscapeStep(w);
      EscapePlain(w[1..]);
      assert w == [w[0]] + w[1..];
    }
  }

  function Separator(f: Field): string { ", " + f.name + "=" }

  lemma SeparatorIsBland(f: Field)
    requires IsName(f.name)
    ensures IsBland(Separator(f)) && Escape(Separator(f)) == Separator(f)
  {
    hide IsTokenChar, Escape;
    QuotesAreNoTokens();
    var w := Separator(f);
    forall j | 0 <= j < |w| ensures w[j] != '\\' && w[j] != '"' && (IsWhitespace(w[j]) ==> j == 1) {
      if 2 <= j < |w| - 1 { assert w[j] == f.name[j - 2] && IsTokenChar(w[j]); }
    }
    assert w[0] == ',';
    EscapePlain(w);
  }

  // A closing quote taken for an opening one, with another field of the same challenge behind it.
  lemma NextOpening(s: string, p: nat, fields: seq<Field>, tail: string)
    requires Inside(s, p, "", fields, tail) && fields != []
    ensures var w := Separator(fields[0]);
            p < |s| && Quoted(s, p + 1) == Some((w, p + 2 + |w|))
            && Inside(s, p + 2 + |w|, fields[0].value, fields[1..], tail)
  {
    hide IsName, Escape, FieldTexts, Follows, Quoted, Separator;
    var w := Separator(fields[0]);
    var rest := Escape(fields[0].value) + "\"" + Onward(fields[1..], tail);
    SeparatorIsBland(fields[0]);
    AtSeparator(s, p, fields, tail, w, rest);
    QuotedReads(s, p + 1, w, rest);
  }

  lemma AtSeparator(s: string, p: nat, fields: seq<Field>, tail: string, w: string, rest: string)
    requires Inside(s, p, "", fields, tail) && fields != [] && w == Separator(fields[0])
    requires rest == Escape(fields[0].value) + "\"" + Onward(fields[1..], tail)
    ensures p + 1 <= |s| && s[p + 1..] == w + "\"" + rest
    ensures p + 2 + |w| <= |s| && s[p + 2 + |w|..] == rest
  {
    hide IsName, Escape, FieldTexts, FieldText, Follows, Separator, NamesOk;
    EscapeEmpty();
    SplitFields(fields, tail);
    SeparatorThen(fields[0], Onward(fields[1..], tail));
    Opened(s, p, w, rest);
  }

  lemma Opened(s: string, p: nat, w: string, rest: string)
    requires p <= |s| && s[p..] == "" + "\"" + (w + "\"" + rest)
    ensures p + 1 <= |s| && s[p + 1..] == w + "\"" + rest
    ensures p + 2 + |w| <= |s| && s[p + 2 + |w|..] == rest
  {
    var t := w + "\"" + rest;
    assert s[p + 1..] == s[p..][1..] == t;
    assert s[p + 1 + |w| + 1..] == s[p + 1..][|w| + 1..] == rest;
  }

  lemma SeparatorThen(f: Field, rest: string)
    ensures ", " + (FieldText(f) + rest) == Separator(f) + "\"" + (Escape(f.value) + "\"" + rest)
  {
    hide Escape;
  }

  // The closing quote of the last field taken for an opening one: at the end of the text nothing closes it,
  // and otherwise it closes only inside the next challenge.
  lemma LastOpening(s: string, p: nat, tail: string)
    requires Inside(s, p, "", [], tail)
    ensures p < |s| && p + 1 == |s| - |tail|
    ensures Quoted(s, p + 1).Some? ==> tail != "" && Quoted(s, p + 1).value.1 > |s| - |tail| + 2
  {
    hide Quoted;
    EscapeEmpty();
    assert s[p..] == "\"" + tail;
    if tail == "" {
      QuotedAtEnd(s);
    } else {
      assert s[p + 1] == s[p..][1] == tail[..10][0];
      assert s[p + 2] == s[p..][2] == tail[..10][1];
      QuotedPasses(s, p + 1);
      QuotedPasses(s, p + 2);
    }
  }

  lemma QuotedAtEnd(s: string)
    ensures Quoted(s, |s|).None?
  {
  }

  lemma QuotedPasses(s: string, i: nat)
    requires i < |s| && s[i] != '"' && s[i] != '\\'
    ensures Quoted(s, i).Some? ==> Quoted(s, i + 1).Some? && Quoted(s, i).value.1 == Quoted(s, i + 1).value.1
  {
  }

  // Past the start of the challenge that comes after this one.
  predicate Past(s: string, tail: string, i: nat) { tail != "" && i > |s| - |tail| + 2 }

  lemma ValueInside(s: string, p: nat, u: string, fields: seq<Field>, tail: string)
    returns (u': string, fields': seq<Field>)
    requires Inside(s, p, u, fields, tail)
    ensures ParamValue(s, p).Some? ==>
              var value := ParamValue(s, p).value;
              Past(s, tail, value.1) || (IsBland(value.0) && Inside(s, value.1, u', fields', tail))
  {
    hide Inside, IsTokenChar, Quoted, TokenEnd, SkipSpace, IsBland, Past;
    InsideChar(s, p, u, fields, tail);
    u', fields' := u, fields;
    if s[p] == '"' {
      InsideQuote(s, p, u, fields, tail);
      if fields != [] {
        NextOpening(s, p, fields, tail);
        SeparatorNamed(s, p, fields, tail);
        u', fields' := fields[0].value, fields[1..];
      } else {
        LastOpening(s, p, tail);
        PastIs(s, tail, p);
      }
    } else {
      u' := TokenInside(s, p, u, fields, tail);
      TokensAreBland(s, p);
    }
  }

  lemma PastIs(s: string, tail: string, p: nat)
    ensures forall i: nat :: Past(s, tail, i) <==> tail != "" && i > |s| - |tail| + 2
  {
  }

  lemma InsideQuote(s: string, p: nat, u: string, fields: seq<Field>, tail: string)
    requires Inside(s, p, u, fields, tail) && p < |s| && s[p] == '"'
    ensures u == ""
  {
    InsideChar(s, p, u, fields, tail);
  }

  lemma SeparatorNamed(s: string, p: nat, fields: seq<Field>, tail: string)
    requires Inside(s, p, "", fields, tail) && fields != []
    ensures IsBland(Separator(fields[0]))
  {
    SeparatorIsBland(fields[0]);
  }

  lemma {:induction false} TokensAreBland(s: string, i: nat)
    requires i <= |s|
    ensures IsBland(s[i..TokenEnd(s, i)])
  {
    hide IsTokenChar;
    TokenChars(s, i);
    QuotesAreNoTokens();
    forall j | 0 <= j < TokenEnd(s, i) - i ensures !IsWhitespace(s[i..TokenEnd(s, i)][j]) {
      assert s[i..TokenEnd(s, i)][j] == s[i + j];
    }
  }

  lemma {:induction false} TokenChars(s: string, i: nat)
    requires i <= |s|
    ensures forall j | i <= j < TokenEnd(s, i) :: IsTokenChar(s[j])
    decreases |s| - i
  {
    hide IsTokenChar;
    if i < |s| && IsTokenChar(s[i]) { TokenChars(s, i + 1); }
  }

  lemma ParamInside(s: string, i: nat, u: string, fields: seq<Field>, tail: string)
    returns (u': string, fields': seq<Field>)
    requires Inside(s, i, u, fields, tail)
    ensures Param(s, i).Some? ==>
              var p := Param(s, i).value;
              Past(s, tail, p.2) || (IsBland(p.1) && Inside(s, p.2, u', fields', tail))
  {
    hide Inside, IsTokenChar, ParamValue, TokenEnd, SkipSpace, IsBland;
    u', fields' := u, fields;
    InsideChar(s, i, u, fields, tail);
    var end, equals := TokenEnd(s, i), SkipSpace(s, TokenEnd(s, i));
    var u1 := TokenInside(s, i, u, fields, tail);
    var u2 := SpaceInside(s, end, u1, fields, tail);
    if Param(s, i).Some? {
      InsideChar(s, equals, u2, fields, tail);
      var u3 := SpaceInside(s, equals + 1, u2[1..], fields, tail);
      u', fields' := ValueInside(s, SkipSpace(s, equals + 1), u3, fields, tail);
      var value := ParamValue(s, SkipSpace(s, equals + 1)).value;
      if !Past(s, tail, value.1) {
        u' := SpaceInside(s, value.1, u', fields', tail);
      }
    }
  }

  // A challenge read from inside a quoted value has nothing but bland values, unless it reaches into the
  // next challenge.
  lemma {:induction false} ParamsInside(s: string, i: nat, u: string, fields: seq<Field>, tail: string,
                                        read: map<string, string>)
    requires Inside(s, i, u, fields, tail) && AllBland(read)
    ensures Params(s, i, read).Ok? ==> AllBland(Params(s, i, read).value.0) || Past(s, tail, Params(s, i, read).value.1)
    decreases |s| - i
  {
    hide Inside, IsBland, Param, SkipSpace, FindNext, StartsScheme, StartsOther, Params;
    InsideChar(s, i, u, fields, tail);
    var u', fields' := ParamInside(s, i, u, fields, tail);
    if Params(s, i, read).Ok? {
      ParamsUnfold(s, i, read);
      var p := Param(s, i).value;
      if !Past(s, tail, p.2) {
        var all := read[p.0 := p.1];
        InsideChar(s, p.2, u', fields', tail);
        if s[p.2] == ',' {
          var next := SkipSpace(s, p.2 + 1);
          var u1 := SpaceInside(s, p.2 + 1, u'[1..], fields', tail);
          if !StartsScheme(s, next) && !StartsOther(s, next) {
            ParamsInside(s, next, u1, fields', tail, all);
          }
        }
      }
    }
  }

  lemma ParamsUnfold(s: string, i: nat, read: map<string, string>)
    requires i < |s| && Params(s, i, read).Ok?
    ensures Param(s, i).Some?
    ensures var p := Param(s, i).value; var all := read[p.0 := p.1];
            && Params(s, i, read).value.1 >= p.2
            && (p.2 < |s| ==>
                  if s[p.2] != ',' then Params(s, i, read).value.0 == all
                  else
                    var next := SkipSpace(s, p.2 + 1);
                    if StartsScheme(s, next) || StartsOther(s, next) then Params(s, i, read).value.0 == all
                    else Params(s, i, read) == Params(s, next, all))
  {
    hide StartsScheme, StartsOther, Param, FindNext;
  }

  // ---- where look-alike schemes can be ----

  // A scheme that starts in an escaped value starts between two escaped characters.
  lemma {:induction false} InValue(s: string, q: nat, v: string, rest: string, y: nat) returns (u: string)
    requires q <= |s| && s[q..] == Escape(v) + "\"" + rest && q <= y < q + |Escape(v)|
    requires y > q ==> s[y - 1] != '\\'
    ensures y <= |s| && s[y..] == Escape(u) + "\"" + rest
    ensures |u| <= |v| && u == v[|v| - |u|..]
    decreases |v|
  {
    hide Escape;
    if v == "" { EscapeEmpty(); }
    if y == q {
      return v;
    }
    EscapeStep(v);
    var e := EscapeChar(v[0]);
    assert s[q..] == e + (Escape(v[1..]) + "\"" + rest);
    assert s[q] == s[q..][0] == e[0];
    assert s[q + |e|..] == s[q..][|e|..] == Escape(v[1..]) + "\"" + rest;
    u := InValue(s, q + |e|, v[1..], rest, y);
    assert u == v[1..][|v| - 1 - |u|..] == v[|v| - |u|..];
  }

  lemma NotAfterToken(s: string, y: nat)
    requires 0 < y <= |s| && IsTokenChar(s[y - 1])
    ensures !StartsScheme(s, y)
  {
    QuotesAreNoTokens();
  }

  lemma SchemeFirst(s: string, y: nat)
    requires StartsScheme(s, y)
    ensures y + |SCHEME| < |s| && (s[y] == 'p' || s[y] == 'P') && (y > 0 ==> s[y - 1] != '\\')
  {
    if s[y] != 'p' && s[y] != 'P' { NotScheme(s, y); }
  }

  // A scheme that starts among rendered fields starts inside one of their values.
  lemma {:induction false} InFields(s: string, i: nat, fields: seq<Field>, tail: string, y: nat)
    returns (u: string, k: nat)
    requires i <= |s| && fields != [] && s[i..] == FieldTexts(fields) + tail && NamesOk(fields) && Follows(tail)
    requires i <= y < i + |FieldTexts(fields)| && StartsScheme(s, y)
    ensures k < |fields| && Inside(s, y, u, fields[k + 1..], tail)
    ensures |u| <= |fields[k].value| && u == fields[k].value[|fields[k].value| - |u|..]
    decreases |fields|
  {
    hide *;
    var f, rest := fields[0], AfterFirst(fields, tail);
    var end := i + |FieldText(f)|;
    SplitFields(fields, tail);
    NamesSplit(fields);
    SchemeFirst(s, y);
    if y < end {
      InField(s, i, f, rest, y);
      FieldAt(s, i, f, rest);
      u := InValue(s, i + |f.name| + 2, f.value, rest, y);
      k := 0;
      InsideFirst(s, y, u, fields, tail);
    } else {
      NextFieldAt(s, i, fields, tail, y);
      var j;
      u, j := InFields(s, end + 2, fields[1..], tail, y);
      k := j + 1;
      assert fields[1..][j + 1..] == fields[k + 1..];
    }
  }

  lemma NamesSplit(fields: seq<Field>)
    requires fields != [] && NamesOk(fields)
    ensures IsName(fields[0].name) && NamesOk(fields[1..])
  {
    hide IsName;
  }

  lemma InsideFirst(s: string, y: nat, u: string, fields: seq<Field>, tail: string)
    requires fields != [] && y <= |s| && s[y..] == Escape(u) + "\"" + AfterFirst(fields, tail)
    requires NamesOk(fields) && Follows(tail)
    ensures Inside(s, y, u, fields[1..], tail)
  {
    hide Escape, FieldTexts, Follows;
    NamesSplit(fields);
  }

  lemma NextFieldAt(s: string, i: nat, fields: seq<Field>, tail: string, y: nat)
    requires i <= |s| && fields != [] && s[i..] == FieldTexts(fields) + tail
    requires i + |FieldText(fields[0])| <= y < i + |FieldTexts(fields)| && y < |s| && (s[y] == 'p' || s[y] == 'P')
    ensures |fields| > 1
    ensures var end := i + |FieldText(fields[0])|;
            && end + 2 <= y < end + 2 + |FieldTexts(fields[1..])|
            && s[end + 2..] == FieldTexts(fields[1..]) + tail
  {
    hide *;
    SplitFields(fields, tail);
    var end, rest := i + |FieldText(fields[0])|, AfterFirst(fields, tail);
    assert s[end..] == s[i..][|FieldText(fields[0])|..] == rest;
    if |fields| > 1 {
      SeparatorFirst(fields, tail);
      assert s[end] == s[end..][0] && s[end + 1] == s[end..][1];
      assert s[end + 2..] == s[end..][2..];
    }
  }

  lemma SeparatorFirst(fields: seq<Field>, tail: string)
    requires |fields| > 1
    ensures var rest := AfterFirst(fields, tail);
            |rest| >= 2 && rest[0] == ',' && rest[1] == ' ' && rest[2..] == FieldTexts(fields[1..]) + tail
  {
    hide FieldTexts;
  }

  lemma FieldEnds(s: string, i: nat, f: Field, rest: string)
    requires i <= |s| && s[i..] == FieldText(f) + rest
    ensures |FieldText(f)| == |f.name| + 2 + |Escape(f.value)| + 1
    ensures i + |FieldText(f)| <= |s| && s[i + |FieldText(f)| - 1] == '"'
  {
    hide Escape;
    assert s[i + |FieldText(f)| - 1] == s[i..][|FieldText(f)| - 1];
  }

  lemma InField(s: string, i: nat, f: Field, rest: string, y: nat)
    requires i <= |s| && s[i..] == FieldText(f) + rest && IsName(f.name) && i <= y < i + |FieldText(f)|
             && StartsScheme(s, y)
    ensures i + |f.name| + 2 <= y < i + |f.name| + 2 + |Escape(f.value)|
  {
    hide Escape, FieldText, IsTokenChar, StartsScheme;
    FieldAt(s, i, f, rest);
    FieldEnds(s, i, f, rest);
    NameAt(s, i, f.name);
    SchemeFirst(s, y);
    if i < y < i + |f.name| { NotAfterToken(s, y); }
  }

  lemma NameAt(s: string, i: nat, name: string)
    requires IsName(name) && i + |name| <= |s| && s[i..i + |name|] == name
    ensures s[i] != 'p' && s[i] != 'P' && forall j | i <= j < i + |name| :: IsTokenChar(s[j])
  {
    hide IsTokenChar;
    assert forall j | i <= j < i + |name| :: s[j] == name[j - i];
  }

  // The letters of the scheme and the space after it are characters of the value itself.
  lemma {:induction false} PlainInside(s: string, i: nat, u: string, fields: seq<Field>, tail: string, n: nat)
    requires Inside(s, i, u, fields, tail) && i + n <= |s| && forall j | i <= j < i + n :: s[j] != '\\' && s[j] != '"'
    ensures n <= |u| && Inside(s, i + n, u[n..], fields, tail) && forall j | 0 <= j < n :: u[j] == s[i + j]
    decreases n
  {
    hide Inside;
    if n > 0 {
      InsideChar(s, i, u, fields, tail);
      PlainInside(s, i + 1, u[1..], fields, tail, n - 1);
      assert u[1..][n - 1..] == u[n..];
      forall j | 0 <= j < n ensures u[j] == s[i + j] {
        if j > 0 { assert u[1..][j - 1] == u[j]; }
      }
    } else {
      assert u[0..] == u;
    }
  }

  lemma SchemeIsPlain(s: string, y: nat)
    requires StartsScheme(s, y)
    ensures forall j | y <= j <= y + |SCHEME| :: s[j] != '\\' && s[j] != '"'
    ensures s[y + 6] != ',' && IsWhitespace(s[y + 7])
  {
    forall j | y <= j < y + |SCHEME| ensures s[j] != '\\' && s[j] != '"' && s[j] != ',' {
      SchemeLetter(s, y, j - y);
      LettersOnly(j - y);
    }
  }

  lemma LettersOnly(j: nat)
    requires j < |SCHEME|
    ensures 'a' <= SCHEME[j] <= 'z'
  {
  }

  // A value in which a scheme starts is not bland.
  lemma SchemeIsNotBland(s: string, y: nat, u: string, fields: seq<Field>, tail: string, v: string)
    requires Inside(s, y, u, fields, tail) && StartsScheme(s, y) && |u| <= |v| && u == v[|v| - |u|..]
    ensures !IsBland(v)
    ensures |SCHEME| <= |u| && Inside(s, y + |SCHEME|, u[|SCHEME|..], fields, tail)
  {
    hide Inside;
    SchemeIsPlain(s, y);
    PlainInside(s, y, u, fields, tail, |SCHEME| + 1);
    PlainInside(s, y, u, fields, tail, |SCHEME|);
    var j := |v| - |u| + |SCHEME|;
    assert v[j] == u[|SCHEME|] && v[j - 1] == u[|SCHEME| - 1];
  }

  // ---- nothing read astray is what was rendered ----

  // Parameters that build a challenge hold the value of each of its shown fields.
  lemma ShownIsStored(c: Challenge, m: map<string, string>, f: Field)
    requires FromParams(m) == Some(Normal(c)) && f in Fields(c) && f.shown
    ensures f.name in m && m[f.name] == f.value
  {
    hide Fields;
    BuiltFrom(c, m);
    EachField(c, m, f);
  }

  lemma BuiltFrom(c: Challenge, m: map<string, string>)
    requires FromParams(m) == Some(Normal(c))
    ensures Lookups(Normal(c), m)
  {
    assert forall k | k in {"id", "realm", "method", "intent", "request"} :: k in m;
  }

  lemma EachField(c: Challenge, m: map<string, string>, f: Field)
    requires Lookups(Normal(c), m) && f in Fields(c) && f.shown
    ensures Lookup(m, f.name) == Some(f.value)
  {
    hide Lookup;
  }

  // From a look-alike inside a rendered challenge, that challenge comes out only if the text read reaches
  // into the next one.
  lemma AstrayInside(s: string, x: nat, c: Challenge, tail: string, y: nat)
    requires x <= |s| && s[x..] == Render(c) + tail && Follows(tail)
    requires x < y < x + |Render(c)| && y + |SCHEME| <= |s| && StartsScheme(s, y)
    ensures var params := Params(s, SkipSpace(s, y + |SCHEME|), map[]);
            params.Ok? && FromParams(params.value.0) == Some(Normal(c)) ==> Past(s, tail, params.value.1)
  {
    hide *;
    var fields, start := Shown(Fields(c)), SkipSpace(s, y + |SCHEME|);
    StartsInFields(s, x, c, tail, y);
    FieldNames(c);
    ShownNames(Fields(c));
    var u, k := InFields(s, x + 8, fields, tail, y);
    SchemeIsNotBland(s, y, u, fields[k + 1..], tail, fields[k].value);
    var u' := SpaceInside(s, y + |SCHEME|, u[|SCHEME|..], fields[k + 1..], tail);
    NothingRead();
    ParamsInside(s, start, u', fields[k + 1..], tail, map[]);
    var params := Params(s, start, map[]);
    if params.Ok? && FromParams(params.value.0) == Some(Normal(c)) {
      ShownIsStored(c, params.value.0, fields[k]);
      StoredIsBland(params.value.0, fields[k].name);
    }
  }

  lemma NothingRead()
    ensures AllBland(map[])
  {
  }

  lemma StoredIsBland(m: map<string, string>, k: string)
    requires k in m
    ensures AllBland(m) ==> IsBland(m[k])
  {
  }

  // The same from a look-alike anywhere past the start of a challenge in the header.
  lemma AstrayOutput(s: string, x: nat, cs: seq<Challenge>, y: nat)
    requires x <= |s| && cs != [] && s[x..] == Header(cs) && x < y && y + |SCHEME| <= |s| && StartsScheme(s, y)
    ensures var params := Params(s, SkipSpace(s, y + |SCHEME|), map[]);
            params.Ok? && FromParams(params.value.0) == Some(Normal(cs[0])) ==>
              |cs| > 1 && params.value.1 > x + |Render(cs[0])| + 2
  {
    hide *;
    var tail, end := Tail(cs), x + |Render(cs[0])|;
    HeaderSplits(cs);
    Reaches(s, x, cs);
    TailLength(cs);
    SchemeFirst(s, y);
    if y < end {
      AstrayInside(s, x, cs[0], tail, y);
      PastIs(s, tail, x);
    } else {
      ParamsForward(s, y);
    }
  }

  lemma ParamsForward(s: string, y: nat)
    requires y + |SCHEME| <= |s|
    ensures var params := Params(s, SkipSpace(s, y + |SCHEME|), map[]); params.Ok? ==> params.value.1 > y
  {
  }

  lemma TailLength(cs: seq<Challenge>)
    requires cs != []
    ensures |Header(cs)| == |Render(cs[0])| + |Tail(cs)|
  {
    HeaderSplits(cs);
  }

  lemma StartsInFields(s: string, x: nat, c: Challenge, tail: string, y: nat)
    requires x <= |s| && s[x..] == Render(c) + tail && x < y < x + |Render(c)| && StartsScheme(s, y)
    ensures var fields := Shown(Fields(c));
            && fields != [] && x + 8 <= y < x + 8 + |FieldTexts(fields)| && x + 8 <= |s|
            && s[x + 8..] == FieldTexts(fields) + tail
  {
    hide FieldTexts, Shown, Fields, StartsScheme;
    IdIsShown(c);
    var t := s[x..];
    assert t[..8] == "Payment " && t[8..] == FieldTexts(Shown(Fields(c))) + tail;
    assert s[x + 8..] == t[8..];
    assert y < x + 8 ==> s[y] == t[..8][y - x];
    SchemeFirst(s, y);
  }

  // The outer loop past the start of the challenges that it would still have to find.
  lemma {:induction false} AstrayNeverReads(s: string, i: nat, x: nat, cs: seq<Challenge>, accepts: Challenge -> bool)
    requires i <= |s| && x <= |s| && cs != [] && s[x..] == Header(cs)
    requires FindNext(s, i).Some? ==> FindNext(s, i).value > x
    ensures Challenges(s, i, accepts) != Ok(Normals(cs))
    decreases |s| - i
  {
    hide Header, Render, FindNext, StartsScheme, FromParams, Params, SkipSpace, Normal, Normals, Collected;
    NormalsStep(cs);
    if FindNext(s, i).Some? {
      var y := FindNext(s, i).value;
      SchemeFirst(s, y);
      var params := Params(s, SkipSpace(s, y + |SCHEME|), map[]);
      if params.Ok? {
        var c, index := FromParams(params.value.0), params.value.1;
        var rest := Challenges(s, index, accepts);
        if c.Some? && accepts(c.value) {
          CollectedIs(c.value, rest, cs);
          AstrayOutput(s, x, cs, y);
          if c.value == Normal(cs[0]) {
            Reaches(s, x, cs);
            AstrayNeverReads(s, index, x + |Render(cs[0])| + 2, cs[1..], accepts);
          }
        } else {
          AstrayNeverReads(s, index, x, cs, accepts);
        }
      }
    }
  }

  lemma NormalsStep(cs: seq<Challenge>)
    requires cs != []
    ensures Normals(cs) == [Normal(cs[0])] + Normals(cs[1..]) != []
  {
  }

  lemma CollectedIs(c: Challenge, rest: Attempt<seq<Challenge>>, cs: seq<Challenge>)
    requires cs != []
    ensures Collected([c], rest) == Ok(Normals(cs)) <==> c == Normal(cs[0]) && rest == Ok(Normals(cs[1..]))
  {
    hide Normal;
    NormalsStep(cs);
    if rest.Ok? {
      assert ([c] + rest.value)[0] == c && ([c] + rest.value)[1..] == rest.value;
      assert Normals(cs)[0] == Normal(cs[0]) && Normals(cs)[1..] == Normals(cs[1..]);
    }
  }

  // ---- the exact condition ----

  // The lowered header has the scheme's name where each of these challenges starts.
  predicate InPlace(s: string, i: nat, cs: seq<Challenge>)
    decreases |cs|
  {
    cs == [] || (OccursAt(Lower(s), SCHEME, i) && InPlace(s, i + |Render(cs[0])| + 2, cs[1..]))
  }

  lemma {:induction false} RestReadsExactly(s: string, i: nat, cs: seq<Challenge>, accepts: Challenge -> bool)
    requires i <= |s| && cs != [] && s[i..] == Header(cs) && Acceptable(cs, accepts)
    requires i == 0 || (i >= 2 && s[i - 2] == ',' && s[i - 1] == ' ')
    ensures Challenges(s, i, accepts) == Ok(Normals(cs)) <==> InPlace(s, i, cs)
    decreases |cs|
  {
    hide *;
    HeaderSplits(cs);
    Reaches(s, i, cs);
    AcceptableParts(cs, accepts);
    ChallengeReads(s, i, cs[0], Tail(cs));
    SchemeStarts(s, i);
    FindsHereExactly(s, i);
    InPlaceStep(s, i, cs);
    if FindNext(s, i) == Some(i) {
      OuterStep(s, i, cs[0], Tail(cs), accepts);
      var next := i + |Render(cs[0])| + if |cs| == 1 then 0 else 2;
      CollectedIs(Normal(cs[0]), Challenges(s, next, accepts), cs);
      if |cs| == 1 {
        LastReads(s, accepts);
        NoNormals(cs[1..]);
      } else {
        RestReadsExactly(s, next, cs[1..], accepts);
      }
    } else {
      FindsFromHere(s, i);
      AstrayNeverReads(s, i, i, cs, accepts);
    }
  }

  lemma FindsFromHere(s: string, i: nat)
    ensures FindNext(s, i).Some? ==> FindNext(s, i).value >= i
  {
  }

  lemma InPlaceStep(s: string, i: nat, cs: seq<Challenge>)
    requires cs != []
    ensures InPlace(s, i, cs) <==>
              OccursAt(Lower(s), SCHEME, i) && (|cs| == 1 || InPlace(s, i + |Render(cs[0])| + 2, cs[1..]))
  {
    hide Render, OccursAt, Lower;
    assert |cs| == 1 ==> InPlace(s, i + |Render(cs[0])| + 2, cs[1..]);
  }

  lemma NoNormals(cs: seq<Challenge>)
    requires cs == []
    ensures Normals(cs) == []
  {
  }

  // Searching the lowered text with positions of the text itself is wrong once lowering has changed the
  // length.  For every list of valid challenges: its comma-joined rendering reads back as exactly that
  // list, empty optional fields absent, if and only if the lowered header has the scheme's name at the
  // position where each of the challenges starts.
  lemma RoundTripExactly(cs: seq<Challenge>, accepts: Challenge -> bool)
    requires Acceptable(cs, accepts)
    ensures Parse(Header(cs), accepts) == Ok(Normals(cs)) <==> InPlace(Header(cs), 0, cs)
  {
    hide Header, Challenges, Lower, OccursAt, Strip;
    HeaderIsStripped(cs);
    var s := Header(cs);
    if cs == [] {
      EmptyHeader();
      LastReads(s, accepts);
      NoNormals(cs);
    } else {
      assert s[0..] == s;
      RestReadsExactly(s, 0, cs, accepts);
    }
  }

  // A header without U+0130 before its last challenge has every scheme's name in place.
  lemma ClearIsInPlace(cs: seq<Challenge>)
    requires IsClear(cs)
    ensures InPlace(Header(cs), 0, cs)
  {
    hide *;
    AllAcceptable(cs);
    ParseInvertsRender(cs, c => true);
    RoundTripExactly(cs, c => true);
  }

  lemma AllAcceptable(cs: seq<Challenge>)
    ensures Acceptable(cs, c => true)
  {
  }
}
