// What a challenge's parameters may look like: repeated names, token values, either case, spaces around the
// equals sign, unknown and missing names, and what may come before and after them.
module ChallengeParameters {
  import opened Options
  import opened HighWater
  import opened PythonText
  import opened ChallengeHeader
  import opened ChallengeRoundTrip

  // ---- one parameter in every notation ----

  predicate AllSpace(w: string) { forall j | 0 <= j < |w| :: w[j] == ' ' || w[j] == '\t' }

  predicate IsToken(t: string) { t != "" && forall j | 0 <= j < |t| :: IsTokenChar(t[j]) }

  lemma {:induction false} SpaceSkipped(s: string, i: nat, w: string, rest: string)
    requires i <= |s| && s[i..] == w + rest && AllSpace(w) && (rest == "" || !IsWhitespace(rest[0]))
    ensures SkipSpace(s, i) == i + |w| <= |s| && s[i + |w|..] == rest
    decreases |w|
  {
    if w == "" {
      assert w + rest == rest;
      assert i < |s| ==> s[i] == s[i..][0];
    } else {
      assert s[i] == s[i..][0] == w[0];
      assert s[i + 1..] == s[i..][1..] == w[1..] + rest;
      SpaceSkipped(s, i + 1, w[1..], rest);
    }
  }

  lemma TokenRead(s: string, i: nat, t: string, rest: string)
    requires i <= |s| && s[i..] == t + rest && IsToken(t) && (rest == "" || !IsTokenChar(rest[0]))
    ensures TokenEnd(s, i) == i + |t| <= |s| && s[i..i + |t|] == t && s[i + |t|..] == rest
  {
    hide IsTokenChar;
    var u := s[i..];
    assert u[..|t|] == t && u[|t|..] == rest;
    assert s[i..i + |t|] == u[..|t|] && s[i + |t|..] == u[|t|..];
    forall j | i <= j < i + |t| ensures IsTokenChar(s[j]) { assert s[j] == u[j - i] == t[j - i]; }
    assert i + |t| < |s| ==> s[i + |t|] == s[i + |t|..][0];
    TokenEndsAt(s, i, i + |t|);
  }

  // Another scheme starts where a token stands, then space, and then no equals sign.
  lemma StartsOtherExactly(s: string, i: nat, t: string, w: string, rest: string)
    requires i <= |s| && s[i..] == t + (w + rest) && (forall j | 0 <= j < |t| :: IsTokenChar(t[j])) && AllSpace(w)
    requires rest == "" || !IsWhitespace(rest[0])
    requires w == "" ==> rest == "" || !IsTokenChar(rest[0])
    ensures StartsOther(s, i) <==> t != "" && w != "" && (rest == "" || rest[0] != '=')
  {
    hide IsTokenChar, IsWhitespace;
    NoTokenSpace(w);
    TokenOrNothing(s, i, t, w + rest);
    SpaceSkipped(s, i + |t|, w, rest);
    var after := i + |t| + |w|;
    assert after < |s| ==> s[after] == s[after..][0];
  }

  lemma NoTokenSpace(w: string)
    requires AllSpace(w)
    ensures w != "" ==> !IsTokenChar(w[0])
  {
  }

  lemma TokenOrNothing(s: string, i: nat, t: string, rest: string)
    requires i <= |s| && s[i..] == t + rest && (forall j | 0 <= j < |t| :: IsTokenChar(t[j]))
    requires rest == "" || !IsTokenChar(rest[0])
    ensures TokenEnd(s, i) == i + |t| <= |s| && s[i + |t|..] == rest
  {
    hide IsTokenChar;
    if t != "" {
      TokenRead(s, i, t, rest);
    } else {
      assert s[i..] == rest;
      assert i < |s| ==> s[i] == s[i..][0];
    }
  }

  // A value as a token or as a quoted string.
  function ValueText(v: string, quoted: bool): string { if quoted then "\"" + (Escape(v) + "\"") else v }

  // What may follow a value: spaces, and then the end or something that does not go on with it.
  predicate EndsParam(w: string, rest: string, quoted: bool) {
    && AllSpace(w) && (rest == "" || !IsWhitespace(rest[0]))
    && (quoted || w != "" || rest == "" || !IsTokenChar(rest[0]))
  }

  lemma ValueReads(s: string, i: nat, v: string, quoted: bool, after: string)
    requires i <= |s| && s[i..] == ValueText(v, quoted) + after
    requires quoted || (IsToken(v) && (after == "" || !IsTokenChar(after[0])))
    ensures ParamValue(s, i) == Some((v, i + |ValueText(v, quoted)|))
    ensures i + |ValueText(v, quoted)| <= |s| && s[i + |ValueText(v, quoted)|..] == after
  {
    hide Escape, Quoted, TokenEnd, IsTokenChar;
    var u := s[i..];
    if quoted {
      assert u == "\"" + (Escape(v) + "\"" + after);
      assert s[i] == u[0] == '"';
      assert s[i + 1..] == u[1..] == Escape(v) + "\"" + after;
      QuotedReads(s, i + 1, v, after);
      assert s[i + |ValueText(v, quoted)|..] == u[|ValueText(v, quoted)|..];
    } else {
      TokenRead(s, i, v, after);
      QuoteIsNoToken();
      assert s[i] == u[0] == v[0];
    }
  }

  lemma QuoteIsNoToken()
    ensures !IsTokenChar('"') && !IsTokenChar('=') && !IsTokenChar(',') && !IsTokenChar(' ') && !IsTokenChar('\t')
    ensures !IsWhitespace('"') && !IsWhitespace('=') && !IsWhitespace(',')
    ensures forall c | IsWhitespace(c) :: !IsTokenChar(c)
  {
  }

  lemma StartsWith(w: string, rest: string)
    ensures w != "" ==> w + rest != "" && (w + rest)[0] == w[0]
    ensures w == "" ==> w + rest == rest
  {
  }

  lemma NameReads(s: string, i: nat, name: string, w1: string, more: string)
    requires IsToken(name) && AllSpace(w1) && i <= |s| && s[i..] == name + (w1 + ("=" + more))
    ensures var equals := i + |name| + |w1|;
            && equals < |s| && TokenEnd(s, i) == i + |name| && SkipSpace(s, i + |name|) == equals
            && s[equals] == '=' && s[equals + 1..] == more && s[i..i + |name|] == name
  {
    hide TokenEnd, SkipSpace, IsTokenChar, IsWhitespace, IsToken, AllSpace;
    QuoteIsNoToken();
    SpaceFirst(w1);
    StartsWith(w1, "=" + more);
    TokenRead(s, i, name, w1 + ("=" + more));
    SpaceSkipped(s, i + |name|, w1, "=" + more);
    var equals := i + |name| + |w1|;
    assert s[equals] == s[equals..][0];
    assert s[equals + 1..] == s[equals..][1..] == more;
  }

  lemma SpaceFirst(w: string)
    requires AllSpace(w)
    ensures w != "" ==> IsWhitespace(w[0])
  {
  }

  lemma RestReads(s: string, i: nat, w2: string, v: string, quoted: bool, w3: string, rest: string)
    requires AllSpace(w2) && EndsParam(w3, rest, quoted) && (quoted || IsToken(v))
    requires i <= |s| && s[i..] == w2 + (ValueText(v, quoted) + (w3 + rest))
    ensures var at := i + |w2|; var end := at + |ValueText(v, quoted)|;
            && SkipSpace(s, i) == at <= |s| && ParamValue(s, at) == Some((v, end))
            && end <= |s| && SkipSpace(s, end) == end + |w3| <= |s| && s[end + |w3|..] == rest
  {
    hide SkipSpace, IsTokenChar, ParamValue, ValueText, IsWhitespace, IsToken, AllSpace;
    var value, after := ValueText(v, quoted), w3 + rest;
    QuoteIsNoToken();
    ValueStarts(v, quoted, after);
    SpaceSkipped(s, i, w2, value + after);
    SpaceFirst(w3);
    StartsWith(w3, rest);
    ValueReads(s, i + |w2|, v, quoted, after);
    SpaceSkipped(s, i + |w2| + |value|, w3, rest);
  }

  // A parameter reads the same whether its value is a token or a quoted string, whatever spaces stand around the
  // equals sign and after the value, and its name counts in lower case.
  lemma ParamInAnyNotation(s: string, i: nat, name: string, w1: string, w2: string, v: string, quoted: bool, w3: string,
                           rest: string)
    requires IsToken(name) && AllSpace(w1) && AllSpace(w2) && EndsParam(w3, rest, quoted) && (quoted || IsToken(v))
    requires i <= |s| && s[i..] == name + (w1 + ("=" + (w2 + (ValueText(v, quoted) + (w3 + rest)))))
    ensures var end := i + |name| + |w1| + 1 + |w2| + |ValueText(v, quoted)| + |w3|;
            Param(s, i) == Some((Lower(name), v, end)) && end <= |s| && s[end..] == rest
  {
    hide *;
    var more := w2 + (ValueText(v, quoted) + (w3 + rest));
    NameReads(s, i, name, w1, more);
    NotEmpty(name);
    var equals := i + |name| + |w1|;
    RestReads(s, equals + 1, w2, v, quoted, w3, rest);
    ParamFrom(s, i, i + |name|, equals, equals + 1 + |w2|, v, equals + 1 + |w2| + |ValueText(v, quoted)|);
  }

  lemma ParamFrom(s: string, i: nat, nameEnd: nat, equals: nat, at: nat, v: string, end: nat)
    requires i < nameEnd <= equals < |s| && TokenEnd(s, i) == nameEnd && SkipSpace(s, nameEnd) == equals
    requires s[equals] == '=' && SkipSpace(s, equals + 1) == at <= |s| && end <= |s|
    requires ParamValue(s, at) == Some((v, end))
    ensures Param(s, i) == Some((Lower(s[i..nameEnd]), v, SkipSpace(s, end)))
  {
    hide TokenEnd, SkipSpace, ParamValue, Lower;
  }

  lemma NotEmpty(t: string)
    requires IsToken(t)
    ensures |t| > 0
  {
  }

  lemma ValueStarts(v: string, quoted: bool, after: string)
    requires quoted || IsToken(v)
    ensures ValueText(v, quoted) + after != "" && !IsWhitespace((ValueText(v, quoted) + after)[0])
  {
    QuoteIsNoToken();
    StartsWith(ValueText(v, quoted), after);
  }

  // So names that differ only in case are the same name.
  lemma CaseIsIgnored(s: string, t: string, name: string, other: string, v: string, quoted: bool, rest: string)
    requires IsToken(name) && IsToken(other) && Lower(name) == Lower(other) && EndsParam("", rest, quoted)
             && (quoted || IsToken(v))
    requires s == name + ("=" + (ValueText(v, quoted) + rest)) && t == other + ("=" + (ValueText(v, quoted) + rest))
    ensures Param(s, 0).Some? && Param(t, 0).Some?
    ensures Param(s, 0).value.0 == Param(t, 0).value.0 && Param(s, 0).value.1 == v == Param(t, 0).value.1
  {
    hide Param, Lower, ValueText, IsToken;
    assert s[0..] == s && t[0..] == t;
    assert "" + ("=" + ("" + (ValueText(v, quoted) + ("" + rest)))) == "=" + (ValueText(v, quoted) + rest);
    ParamInAnyNotation(s, 0, name, "", "", v, quoted, "", rest);
    ParamInAnyNotation(t, 0, other, "", "", v, quoted, "", rest);
  }

  // ---- repeated names ----

  // Every parameter of a challenge in order, repeated or not, and where they end.
  function Items(s: string, i: nat): (r: Option<(seq<(string, string)>, nat)>)
    requires i <= |s|
    ensures r.Some? ==> i <= r.value.1 <= |s|
    decreases |s| - i
  {
    if i >= |s| then Some(([], i))
    else
      var p := Param(s, i);
      if p.None? then None
      else
        var item, index := (p.value.0, p.value.1), p.value.2;
        if index >= |s| then Some(([item], index))
        else if s[index] != ',' then
          if p.value.0 != "description" then None
          else var next := FindNext(s, index); Some(([item], if next.None? then |s| else next.value))
        else
          var next := SkipSpace(s, index + 1);
          if StartsScheme(s, next) || StartsOther(s, next) then Some(([item], next))
          else
            var rest := Items(s, next);
            if rest.None? then None else Some(([item] + rest.value.0, rest.value.1))
  }

  predicate Distinct(items: seq<(string, string)>) {
    forall j, k | 0 <= j < k < |items| :: items[j].0 != items[k].0
  }

  // The items over the parameters read before them.
  function Over(read: map<string, string>, items: seq<(string, string)>): map<string, string>
    decreases |items|
  {
    if items == [] then read else Over(read[items[0].0 := items[0].1], items[1..])
  }

  // The parameters are accepted exactly when every one is well formed, there is one at least, and no name occurs
  // twice, in either case; and then each name has its value.
  lemma {:induction false} NamesOccurOnce(s: string, i: nat, read: map<string, string>)
    requires i <= |s|
    ensures var items := Items(s, i);
            Params(s, i, read) ==
              if && items.Some? && Distinct(items.value.0) && (items.value.0 != [] || read != map[])
                 && (forall k | 0 <= k < |items.value.0| :: items.value.0[k].0 !in read) then
                Ok((Over(read, items.value.0), items.value.1))
              else Raised(ValueError)
    decreases |s| - i
  {
    hide Param, FindNext, StartsScheme, StartsOther, SkipSpace;
    if i < |s| && Param(s, i).Some? {
      var p := Param(s, i).value;
      if p.2 < |s| && s[p.2] == ',' && p.0 !in read {
        var next := SkipSpace(s, p.2 + 1);
        if !StartsScheme(s, next) && !StartsOther(s, next) {
          NamesOccurOnce(s, next, read[p.0 := p.1]);
          if Items(s, next).Some? { MoreItems(read, (p.0, p.1), Items(s, next).value.0); }
        }
      }
    }
  }

  lemma MoreItems(read: map<string, string>, item: (string, string), rest: seq<(string, string)>)
    requires item.0 !in read
    ensures var all := [item] + rest;
            && (Distinct(all) && (forall k | 0 <= k < |all| :: all[k].0 !in read) <==>
                  Distinct(rest) && forall k | 0 <= k < |rest| :: rest[k].0 !in read[item.0 := item.1])
            && Over(read, all) == Over(read[item.0 := item.1], rest)
  {
    var all := [item] + rest;
    assert all[1..] == rest;
    assert forall k | 0 <= k < |rest| :: all[k + 1] == rest[k];
    if Distinct(all) && forall k | 0 <= k < |all| :: all[k].0 !in read {
      forall k | 0 <= k < |rest| ensures rest[k].0 !in read[item.0 := item.1] {
        assert all[0].0 != all[k + 1].0;
      }
      forall j, k | 0 <= j < k < |rest| ensures rest[j].0 != rest[k].0 {
        assert all[j + 1].0 != all[k + 1].0;
      }
    }
  }

  // ---- one challenge of any fields ----

  predicate AllNew(fields: seq<Field>, read: map<string, string>) {
    DistinctNames(fields) && forall k | 0 <= k < |fields| :: fields[k].name !in read
  }

  // Reading rendered fields fails as soon as a name comes back.
  lemma {:induction false} RepeatRaises(s: string, i: nat, fields: seq<Field>, tail: string, read: map<string, string>)
    requires i <= |s| && fields != [] && s[i..] == FieldTexts(fields) + tail && NamesOk(fields) && Follows(tail)
    requires !AllNew(fields, read)
    ensures Params(s, i, read) == Raised(ValueError)
    decreases |fields|
  {
    hide *;
    if fields[0].name in read {
      FirstRaises(s, i, fields, tail, read);
    } else {
      var all := read[fields[0].name := fields[0].value];
      RestIsOld(fields, read);
      MoreToRead(s, i, fields, tail, read);
      RepeatRaises(s, i + |FieldText(fields[0])| + 2, fields[1..], tail, all);
    }
  }

  lemma NewGrows(fields: seq<Field>, read: map<string, string>)
    requires fields != [] && fields[0].name !in read
    requires AllNew(fields[1..], read[fields[0].name := fields[0].value])
    ensures AllNew(fields, read)
  {
    forall j, k | 0 <= j < k < |fields| ensures fields[j].name != fields[k].name {
      assert fields[k] == fields[1..][k - 1];
      assert j > 0 ==> fields[j] == fields[1..][j - 1];
    }
    forall k | 0 <= k < |fields| ensures fields[k].name !in read {
      assert k > 0 ==> fields[k] == fields[1..][k - 1];
    }
  }

  lemma RestIsOld(fields: seq<Field>, read: map<string, string>)
    requires fields != [] && !AllNew(fields, read) && fields[0].name !in read && NamesOk(fields)
    ensures |fields| > 1 && !AllNew(fields[1..], read[fields[0].name := fields[0].value]) && NamesOk(fields[1..])
  {
    hide IsName;
    if |fields| == 1 || AllNew(fields[1..], read[fields[0].name := fields[0].value]) { NewGrows(fields, read); }
  }

  lemma FirstRaises(s: string, i: nat, fields: seq<Field>, tail: string, read: map<string, string>)
    requires i <= |s| && fields != [] && s[i..] == FieldTexts(fields) + tail && NamesOk(fields) && Follows(tail)
    requires fields[0].name in read
    ensures Params(s, i, read) == Raised(ValueError)
  {
    hide AfterFirst, FieldText, FieldTexts, Param, IsName, Follows;
    SplitFields(fields, tail);
    FollowsComma(fields, tail);
    TextNotEmpty(fields[0]);
    ParamReads(s, i, fields[0], AfterFirst(fields, tail));
  }

  // One challenge of any fields, required and known or not.
  function Loose(fields: seq<Field>): string { "Payment " + FieldTexts(fields) }

  // What is collected from these parameters.
  function Taken(m: map<string, string>, accepts: Challenge -> bool): seq<Challenge> {
    var c := FromParams(m);
    if c.Some? && accepts(c.value) then [c.value] else []
  }

  lemma LooseShape(fields: seq<Field>)
    requires fields != [] && NamesOk(fields)
    ensures var h := Loose(fields);
            && |h| > 8 && h[..8] == "Payment " && h[8..] == FieldTexts(fields)
            && SkipSpace(h, 7) == 8 && StartsScheme(h, 0) && Strip(h) == h && FindNext(h, 0) == Some(0)
  {
    hide FieldTexts, NamesOk, Strip, FindNext, StartsScheme, Lower;
    var h := Loose(fields);
    FieldTextsEnd(fields);
    assert h[..8] == "Payment " && h[8..] == FieldTexts(fields);
    assert h[|h| - 1] == FieldTexts(fields)[|FieldTexts(fields)| - 1];
    FirstIsNoSpace(fields, "");
    assert FieldTexts(fields) + "" == FieldTexts(fields);
    assert h[7] == h[..8][7] && h[8] == h[8..][0];
    assert SkipSpace(h, 7) == SkipSpace(h, 8) == 8;
    assert h[0..8] == h[..8];
    SchemeStarts(h, 0);
    assert h[..0] == "";
    FindsHere(h, 0);
    LetterAndQuote();
    StripKeeps(h);
  }

  lemma LetterAndQuote()
    ensures !IsSpace('P') && !IsSpace('"')
  {
  }

  // A challenge of any fields is refused when a name occurs twice; otherwise it is collected if it has what is
  // required and the model accepts it, and passed over if not.
  lemma LooseReads(fields: seq<Field>, accepts: Challenge -> bool)
    requires fields != [] && NamesOk(fields)
    ensures Parse(Loose(fields), accepts) ==
              if DistinctNames(fields) then Ok(Taken(Add(map[], fields), accepts)) else Raised(ValueError)
  {
    hide *;
    var h := Loose(fields);
    LooseShape(fields);
    assert h[8..] == FieldTexts(fields) + "" by { assert FieldTexts(fields) + "" == FieldTexts(fields); }
    NothingFollows(fields);
    ParseIs(h, accepts);
    SchemeLength();
    if DistinctNames(fields) {
      ParamsRead(h, 8, fields, "", map[]);
      LooseLength(fields);
      LastReads(h, accepts);
      OuterOnly(h, 0, Add(map[], fields), accepts);
    } else {
      RepeatRaises(h, 8, fields, "", map[]);
      OuterRaises(h, 0, accepts);
    }
  }

  lemma LooseLength(fields: seq<Field>)
    ensures |Loose(fields)| == 8 + |FieldTexts(fields)|
  {
  }

  lemma NothingFollows(fields: seq<Field>)
    ensures Follows("") && (AllNew(fields, map[]) <==> DistinctNames(fields))
  {
  }

  lemma OuterOnly(h: string, i: nat, m: map<string, string>, accepts: Challenge -> bool)
    requires i + 8 <= |h| && FindNext(h, i) == Some(i) && SkipSpace(h, i + |SCHEME|) == i + 8
    requires Params(h, i + 8, map[]) == Ok((m, |h|)) && Challenges(h, |h|, accepts) == Ok([])
    ensures Challenges(h, i, accepts) == Ok(Taken(m, accepts))
  {
    hide FindNext, Params, FromParams, SkipSpace;
    var c := FromParams(m);
    if c.Some? { assert [c.value] + [] == [c.value]; }
  }

  lemma OuterRaises(h: string, i: nat, accepts: Challenge -> bool)
    requires i + 8 <= |h| && FindNext(h, i) == Some(i) && SkipSpace(h, i + |SCHEME|) == i + 8
    requires Params(h, i + 8, map[]) == Raised(ValueError)
    ensures Challenges(h, i, accepts) == Raised(ValueError)
  {
    hide FindNext, Params, FromParams, SkipSpace;
  }

  lemma ParseIs(h: string, accepts: Challenge -> bool)
    requires Strip(h) == h
    ensures Parse(h, accepts) == Challenges(h, 0, accepts)
  {
    hide Challenges, Strip;
  }

  lemma SchemeLength()
    ensures |SCHEME| == 7
  {
  }

  lemma {:induction false} TextsLast(fields: seq<Field>, f: Field)
    requires fields != []
    ensures FieldTexts(fields + [f]) == FieldTexts(fields) + (", " + FieldText(f))
  {
    hide FieldText;
    assert (fields + [f])[1..] == fields[1..] + [f];
    if |fields| > 1 {
      TextsLast(fields[1..], f);
      Reassociate(FieldText(fields[0]), ", ", FieldTexts(fields[1..]), ", " + FieldText(f));
    } else {
      assert [f][0] == f && (fields + [f])[0] == fields[0];
    }
  }

  lemma OneMore(c: Challenge, f: Field)
    requires IsName(f.name)
    ensures var fields := Shown(Fields(c)) + [f];
            Loose(fields) == Render(c) + (", " + FieldText(f)) && fields != [] && NamesOk(fields)
  {
    hide IsName, FieldTexts, FieldText, Fields, Shown;
    IdIsShown(c);
    FieldNames(c);
    ShownNames(Fields(c));
    TextsLast(Shown(Fields(c)), f);
  }

  // A field that a rendered challenge shows, given a second time with whatever value, refuses the whole header.
  lemma RepeatedFieldIsRefused(c: Challenge, f: Field, v: string, accepts: Challenge -> bool)
    requires f in Shown(Fields(c))
    ensures Parse(Render(c) + (", " + (f.name + "=\"" + Escape(v) + "\"")), accepts) == Raised(ValueError)
  {
    hide IsName, FieldTexts, Fields, Shown, Escape, Parse, Loose;
    var shown, again := Shown(Fields(c)), Field(f.name, v, true);
    FieldNames(c);
    ShownNames(Fields(c));
    var j :| 0 <= j < |shown| && shown[j] == f;
    OneMore(c, again);
    var fields := shown + [again];
    assert fields[j].name == fields[|shown|].name;
    LooseReads(fields, accepts);
  }

  predicate IsRequired(name: string) { name in {"id", "realm", "method", "intent", "request"} }

  // A challenge that lacks something required is passed over.
  lemma MissingIsPassedOver(fields: seq<Field>, name: string, accepts: Challenge -> bool)
    requires fields != [] && NamesOk(fields) && DistinctNames(fields) && IsRequired(name)
    requires forall k | 0 <= k < |fields| :: fields[k].name != name
    ensures Parse(Loose(fields), accepts) == Ok([])
  {
    hide NamesOk, DistinctNames, Loose, Parse, Has, Add;
    LooseReads(fields, accepts);
    AddStores(map[], fields, name);
    HasSome(fields, name);
    LacksRequired(Add(map[], fields), name);
  }

  lemma LacksRequired(m: map<string, string>, name: string)
    requires IsRequired(name) && Lookup(m, name).None?
    ensures FromParams(m).None?
  {
  }

  lemma {:induction false} AddLast(read: map<string, string>, fields: seq<Field>, f: Field)
    ensures Add(read, fields + [f]) == Add(read, fields)[f.name := f.value]
    decreases |fields|
  {
    if fields == [] {
      assert [] + [f] == [f];
      assert [f][1..] == [];
    } else {
      assert (fields + [f])[0] == fields[0] && (fields + [f])[1..] == fields[1..] + [f];
      AddLast(read[fields[0].name := fields[0].value], fields[1..], f);
    }
  }

  // A parameter of a name that the model does not know changes nothing.
  lemma UnknownIsIgnored(c: Challenge, f: Field, accepts: Challenge -> bool)
    requires IsName(f.name) && forall k | 0 <= k < |Fields(c)| :: Fields(c)[k].name != f.name
    ensures Parse(Render(c) + (", " + FieldText(f)), accepts) == Ok(if accepts(Normal(c)) then [Normal(c)] else [])
  {
    hide IsName, FieldTexts, FieldText, Fields, Shown, Parse, Loose, FromParams, Add, Normal;
    var shown := Shown(Fields(c));
    FieldNames(c);
    ShownNames(Fields(c));
    OneMore(c, f);
    StaysDistinct(c, f);
    LooseReads(shown + [f], accepts);
    AddLast(map[], shown, f);
    FieldsBuildChallenge(c);
    TenNames(c);
    SameChallenge(Add(map[], shown), f.name, f.value);
  }

  lemma StaysDistinct(c: Challenge, f: Field)
    requires IsName(f.name) && forall k | 0 <= k < |Fields(c)| :: Fields(c)[k].name != f.name
    ensures DistinctNames(Shown(Fields(c)) + [f])
  {
    hide IsName, Fields, Shown;
    FieldNames(c);
    ShownNames(Fields(c));
    var shown := Shown(Fields(c));
    forall j | 0 <= j < |shown| ensures shown[j].name != f.name {
      assert shown[j] in Fields(c);
    }
  }

  predicate IsKnown(name: string) {
    IsRequired(name) || name in {"digest", "expires", "description", "header", "opaque"}
  }

  lemma TenNames(c: Challenge)
    ensures forall name | IsKnown(name) :: exists k :: 0 <= k < |Fields(c)| && Fields(c)[k].name == name
  {
    var f := Fields(c);
    assert f[0].name == "id" && f[1].name == "realm" && f[2].name == "method" && f[3].name == "intent"
           && f[4].name == "request";
    assert f[5].name == "digest" && f[6].name == "expires" && f[7].name == "description" && f[8].name == "header"
           && f[9].name == "opaque";
  }

  lemma SameChallenge(m: map<string, string>, name: string, value: string)
    requires !IsKnown(name)
    ensures FromParams(m[name := value]) == FromParams(m)
  {
  }

  // ---- lists, and what else a header may hold ----

  function Chosen(cs: seq<Challenge>, accepts: Challenge -> bool): seq<Challenge> {
    if cs == [] then []
    else if accepts(Normal(cs[0])) then [Normal(cs[0])] + Chosen(cs[1..], accepts)
    else Chosen(cs[1..], accepts)
  }

  lemma StepChooses(s: string, i: nat, c: Challenge, tail: string, accepts: Challenge -> bool)
    requires i <= |s| && s[i..] == Render(c) + tail && Follows(tail) && FindNext(s, i) == Some(i)
    ensures var next := i + |Render(c)| + if tail == "" then 0 else 2;
            && next <= |s|
            && Challenges(s, i, accepts) ==
                 (if accepts(Normal(c)) then Collected([Normal(c)], Challenges(s, next, accepts))
                  else Challenges(s, next, accepts))
  {
    hide FindNext, Params, Render, FromParams, Add, Shown, Fields, StartsScheme;
    ChallengeReads(s, i, c, tail);
    FieldsBuildChallenge(c);
    FollowsFits(s, i, c, tail);
  }

  lemma {:induction false} RestChooses(s: string, i: nat, cs: seq<Challenge>, accepts: Challenge -> bool)
    requires i <= |s| && cs != [] && s[i..] == Header(cs)
    requires i == 0 || (i >= 2 && s[i - 2] == ',' && s[i - 1] == ' ')
    requires DOTTED_I !in s[..i] && Kept(cs) == cs
    ensures Challenges(s, i, accepts) == Ok(Chosen(cs, accepts))
    decreases |cs|
  {
    hide *;
    HeaderSplits(cs);
    Reaches(s, i, cs);
    KeptStep(cs);
    ChallengeReads(s, i, cs[0], Tail(cs));
    SchemeStarts(s, i);
    FindsHere(s, i);
    StepChooses(s, i, cs[0], Tail(cs), accepts);
    var end := i + |Render(cs[0])|;
    if |cs| == 1 {
      LastReads(s, accepts);
    } else {
      DottedUnseen(s, i, end, Render(cs[0]));
      RestChooses(s, end + 2, cs[1..], accepts);
    }
    ChosenStep(cs, accepts);
  }

  lemma ChosenStep(cs: seq<Challenge>, accepts: Challenge -> bool)
    requires cs != []
    ensures |cs| == 1 ==> Chosen(cs[1..], accepts) == []
    ensures accepts(Normal(cs[0])) ==>
              Collected([Normal(cs[0])], Ok(Chosen(cs[1..], accepts))) == Ok(Chosen(cs, accepts))
    ensures !accepts(Normal(cs[0])) ==> Chosen(cs[1..], accepts) == Chosen(cs, accepts)
  {
    hide Normal;
  }

  // Challenges that the model rejects are passed over, and the others are read as if those were not there.
  lemma RejectedArePassedOver(cs: seq<Challenge>, accepts: Challenge -> bool)
    requires IsClear(cs)
    ensures Parse(Header(cs), accepts) == Ok(Chosen(cs, accepts))
  {
    hide *;
    KeptExactlyClear(cs);
    HeaderIsStripped(cs);
    var s := Header(cs);
    ParseIs(s, accepts);
    if cs == [] {
      EmptyHeader();
      LastReads(s, accepts);
      NoneChosen(accepts);
    } else {
      assert s[0..] == s && s[..0] == "";
      RestChooses(s, 0, cs, accepts);
    }
  }

  lemma KeptExactlyClear(cs: seq<Challenge>)
    requires IsClear(cs)
    ensures Kept(cs) == cs
  {
    KeptExactly(cs);
  }

  lemma NoneChosen(accepts: Challenge -> bool)
    ensures Chosen([], accepts) == []
  {
  }
}
