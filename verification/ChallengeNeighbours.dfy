// What else a header may hold around a challenge: other schemes before and after it, and text after an
// unescaped quote in a description.
module ChallengeNeighbours {
  import opened Options
  import opened HighWater
  import opened PythonText
  import opened ChallengeHeader
  import opened ChallengeRoundTrip
  import opened ChallengeParameters

  // No letter that the scheme's name could start with.
  predicate NoP(t: string) { forall j | 0 <= j < |t| :: t[j] != 'p' && t[j] != 'P' }

  lemma {:induction false} LowerHasNoP(t: string)
    requires NoP(t)
    ensures 'p' !in Lower(t)
  {
    if t != "" { LowerHasNoP(t[1..]); }
  }

  // The search passes over text without that letter.
  lemma FindsBehind(s: string, from: nat, x: nat)
    requires from <= x <= |s| && StartsScheme(s, x) && DOTTED_I !in s[..x] && NoP(s[from..x])
    ensures FindNext(s, from) == Some(x)
  {
    hide StartsScheme;
    FindsHere(s, x);
    FindsHereExactly(s, x);
    forall y | from <= y < x ensures !OccursAt(Lower(s), SCHEME, y) {
      NotHere(s, from, x, y);
    }
    FirstFound(s, from, x);
  }

  lemma FirstFound(s: string, from: nat, x: nat)
    requires from <= x && StartsScheme(s, x) && OccursAt(Lower(s), SCHEME, x)
    requires forall y | from <= y < x :: !OccursAt(Lower(s), SCHEME, y)
    ensures FindNext(s, from) == Some(x)
  {
    hide StartsScheme, Lower, OccursAt;
  }

  lemma NotHere(s: string, from: nat, x: nat, y: nat)
    requires from <= y < x <= |s| && DOTTED_I !in s[..x] && NoP(s[from..x])
    ensures !OccursAt(Lower(s), SCHEME, y)
  {
    hide *;
    var a, m, r := s[..from], s[from..x], s[x..];
    ThreeParts(s, from, x);
    MiddleLowers(a, m, r, y);
    NoSchemeAt(Lower(a + (m + r)), y);
  }

  lemma ThreeParts(s: string, from: nat, x: nat)
    requires from <= x <= |s|
    ensures s == s[..from] + (s[from..x] + s[x..]) && s[..x] == s[..from] + s[from..x]
    ensures |s[..from]| == from && |s[from..x]| == x - from
  {
  }

  lemma NoSchemeAt(t: string, y: nat)
    requires y < |t| && t[y] != 'p'
    ensures !OccursAt(t, SCHEME, y)
  {
    if y + |SCHEME| <= |t| {
      assert t[y..y + |SCHEME|][0] == t[y];
    }
  }

  lemma MiddleLowers(a: string, m: string, r: string, y: nat)
    requires DOTTED_I !in a + m && NoP(m) && |a| <= y < |a| + |m|
    ensures y < |Lower(a + (m + r))| && Lower(a + (m + r))[y] != 'p'
  {
    hide Dotted, NoP, Lower;
    LowerAppend(a, m + r);
    LowerAppend(m, r);
    assert forall c | c in a :: c in a + m;
    assert forall c | c in m :: c in a + m;
    DottedCounts(a);
    DottedCounts(m);
    LowerHasNoP(m);
    assert Lower(m)[y - |a|] in Lower(m);
  }

  // Without that letter nothing is found any more.
  lemma NothingBehind(s: string, from: nat)
    requires from <= |s| && NoP(s[from..])
    ensures FindNext(s, from).None?
  {
    hide FindNext;
    if FindNext(s, from).Some? {
      var y := FindNext(s, from).value;
      assert y + |SCHEME| < |s|;
      assert s[y] == s[from..][y - from];
      NotScheme(s, y);
    }
  }

  lemma NothingRead(s: string, from: nat, accepts: Challenge -> bool)
    requires from <= |s| && NoP(s[from..])
    ensures Challenges(s, from, accepts) == Ok([])
  {
    hide FindNext, NoP;
    NothingBehind(s, from);
  }

  // ---- another scheme before a challenge ----

  // A challenge after another scheme's reads as if it stood alone.
  lemma OtherSchemeBefore(other: string, c: Challenge, accepts: Challenge -> bool)
    requires other != "" && !IsSpace(other[0]) && NoP(other) && DOTTED_I !in other
    ensures Parse(other + (", " + Render(c)), accepts) == Ok(if accepts(Normal(c)) then [Normal(c)] else [])
  {
    hide *;
    var s, x := other + (", " + Render(c)), |other| + 2;
    BehindOther(s, x, other, c);
    ParseIs(s, accepts);
    assert s[0..x] == s[..x];
    FindsBehind(s, 0, x);
    FindsHere(s, x);
    FoundLater(s, 0, x, accepts);
    OneHeader(c);
    RestChooses(s, x, [c], accepts);
    OneChosen(c, accepts);
  }

  lemma OneHeader(c: Challenge)
    ensures Header([c]) == Render(c) && Kept([c]) == [c]
  {
    hide Render;
    KeptStep([c]);
    assert [c] + [] == [c];
  }

  lemma OneChosen(c: Challenge, accepts: Challenge -> bool)
    ensures Chosen([c], accepts) == if accepts(Normal(c)) then [Normal(c)] else []
  {
    hide Normal;
    ChosenStep([c], accepts);
    if accepts(Normal(c)) { assert [Normal(c)] + [] == [Normal(c)]; }
  }

  lemma BehindOther(s: string, x: nat, other: string, c: Challenge)
    requires other != "" && !IsSpace(other[0]) && NoP(other) && DOTTED_I !in other
    requires x == |other| + 2 && s == other + (", " + Render(c))
    ensures x + 8 <= |s| && s[x..] == Render(c) && s[x - 2] == ',' && s[x - 1] == ' ' && Strip(s) == s
    ensures StartsScheme(s, x) && DOTTED_I !in s[..x] && NoP(s[..x])
  {
    hide Render, StartsScheme, Strip;
    assert s[x..] == Render(c) && s[..x] == other + ", ";
    OneHeader(c);
    HeaderBegins([c]);
    HeaderEnds([c]);
    assert s[x..x + 8] == Render(c)[..8];
    SchemeStarts(s, x);
    assert s[|s| - 1] == Render(c)[|Render(c)| - 1];
    StripKeeps(s);
  }

  lemma FoundLater(s: string, i: nat, x: nat, accepts: Challenge -> bool)
    requires i <= x <= |s| && FindNext(s, i) == Some(x) && FindNext(s, x) == Some(x)
    ensures Challenges(s, i, accepts) == Challenges(s, x, accepts)
  {
    hide *;
    FoundAt(s, i, x, accepts);
    FoundAt(s, x, x, accepts);
  }

  // What is read from a scheme that the search has found.
  function FromScheme(s: string, x: nat, accepts: Challenge -> bool): Attempt<seq<Challenge>>
    requires x + |SCHEME| <= |s|
  {
    var params := Params(s, SkipSpace(s, x + |SCHEME|), map[]);
    if params.Raised? then Raised(params.error)
    else
      var rest := Challenges(s, params.value.1, accepts);
      var c := FromParams(params.value.0);
      if c.Some? && accepts(c.value) then Collected([c.value], rest) else rest
  }

  lemma FoundAt(s: string, i: nat, x: nat, accepts: Challenge -> bool)
    requires i <= |s| && FindNext(s, i) == Some(x)
    ensures x + |SCHEME| <= |s| && Challenges(s, i, accepts) == FromScheme(s, x, accepts)
  {
    hide FindNext, Params, FromParams, SkipSpace, Collected;
  }

  // ---- what comes after the last field ----

  // The parameters are those of all the fields, if their names are distinct and the end of them is `good`, and
  // reading leaves off at `end`.
  function AllRead(fields: seq<Field>, read: map<string, string>, end: nat, good: bool)
    : Attempt<(map<string, string>, nat)>
  {
    if good && AllNew(fields, read) then Ok((Add(read, fields), end)) else Raised(ValueError)
  }

  // Reading goes from one field to the next, whatever the last one is followed by.
  lemma {:induction false} FieldsThen(s: string, i: nat, fields: seq<Field>, tail: string, end: nat,
                                      good: bool, read: map<string, string>)
    requires i <= |s| && fields != [] && s[i..] == FieldTexts(fields) + tail && NamesOk(fields) && end <= |s|
    requires tail != "" && !IsWhitespace(tail[0])
    requires forall j: nat, all: map<string, string> ::
               j <= |s| && LastHere(s, j, fields[|fields| - 1], tail, all) ==>
                 Params(s, j, all) == AllRead([fields[|fields| - 1]], all, end, good)
    ensures Params(s, i, read) == AllRead(fields, read, end, good)
    decreases |fields|
  {
    hide *;
    SplitFields(fields, tail);
    if |fields| == 1 {
      OneField(fields);
      LastIs(s, i, fields, tail, read);
    } else if fields[0].name in read {
      FirstOld(s, i, fields, tail, read);
      OldRaises(fields, read, end, good);
    } else {
      var all := read[fields[0].name := fields[0].value];
      StepOver(s, i, fields, tail, read);
      LastStays(fields);
      FieldsThen(s, i + |FieldText(fields[0])| + 2, fields[1..], tail, end, good, all);
      NewSplits(fields, read, end, good);
    }
  }

  // The last field stands here.
  predicate LastHere(s: string, j: nat, f: Field, tail: string, all: map<string, string>) {
    j <= |s| && s[j..] == FieldText(f) + tail
  }

  lemma OneField(fields: seq<Field>)
    requires |fields| == 1
    ensures fields == [fields[|fields| - 1]] && fields[0] == fields[|fields| - 1]
  {
  }

  lemma LastIs(s: string, i: nat, fields: seq<Field>, tail: string, read: map<string, string>)
    requires |fields| == 1 && i <= |s| && s[i..] == FieldTexts(fields) + tail
    ensures LastHere(s, i, fields[|fields| - 1], tail, read)
  {
    hide FieldText;
  }

  lemma LastStays(fields: seq<Field>)
    requires |fields| > 1 && NamesOk(fields)
    ensures fields[1..] != [] && fields[1..][|fields[1..]| - 1] == fields[|fields| - 1] && NamesOk(fields[1..])
  {
    hide IsName;
  }

  lemma FirstOld(s: string, i: nat, fields: seq<Field>, tail: string, read: map<string, string>)
    requires i <= |s| && |fields| > 1 && s[i..] == FieldTexts(fields) + tail && NamesOk(fields)
             && fields[0].name in read
    ensures Params(s, i, read) == Raised(ValueError)
  {
    hide FieldText, FieldTexts, Param, IsName;
    SplitFields(fields, tail);
    TextNotEmpty(fields[0]);
    ParamReads(s, i, fields[0], AfterFirst(fields, tail));
  }

  lemma OldRaises(fields: seq<Field>, read: map<string, string>, end: nat, good: bool)
    requires fields != [] && fields[0].name in read
    ensures AllRead(fields, read, end, good) == Raised(ValueError)
  {
  }

  lemma StepOver(s: string, i: nat, fields: seq<Field>, tail: string, read: map<string, string>)
    requires i <= |s| && |fields| > 1 && s[i..] == FieldTexts(fields) + tail && NamesOk(fields)
    requires fields[0].name !in read
    ensures var next := i + |FieldText(fields[0])| + 2;
            && next <= |s| && s[next..] == FieldTexts(fields[1..]) + tail
            && Params(s, i, read) == Params(s, next, read[fields[0].name := fields[0].value])
  {
    hide FieldText, FieldTexts, Params, Param, SkipSpace, StartsScheme, StartsOther, IsName;
    SplitFields(fields, tail);
    LastStays(fields);
    ParamReads(s, i, fields[0], AfterFirst(fields, tail));
    TextNotEmpty(fields[0]);
    var index := i + |FieldText(fields[0])|;
    ParamsStep(s, i, read, fields[0], index);
    NextField(s, index, fields[1..], tail);
  }

  lemma NewSplits(fields: seq<Field>, read: map<string, string>, end: nat, good: bool)
    requires |fields| > 1 && fields[0].name !in read && NamesOk(fields)
    ensures AllRead(fields, read, end, good) == AllRead(fields[1..], read[fields[0].name := fields[0].value], end, good)
  {
    hide IsName;
    if AllNew(fields[1..], read[fields[0].name := fields[0].value]) {
      NewGrows(fields, read);
    } else if AllNew(fields, read) {
      SplitNames(fields, read);
    }
  }

  // ---- another scheme after a challenge ----

  // A name and spaces that no equals sign follows: another scheme.
  predicate IsOther(name: string, w: string, more: string) {
    && IsToken(name) && w != "" && AllSpace(w) && NoP(name + (w + more))
    && (more == "" || (more[0] != '=' && !IsWhitespace(more[0])))
  }

  lemma OtherStarts(s: string, i: nat, name: string, w: string, more: string)
    requires i <= |s| && s[i..] == name + (w + more) && IsOther(name, w, more)
    ensures StartsOther(s, i) && !StartsScheme(s, i) && i < |s| && !IsWhitespace(s[i])
  {
    hide TokenEnd, SkipSpace, StartsScheme, IsTokenChar, IsWhitespace;
    QuoteIsNoToken();
    StartsWith(w, more);
    TokenRead(s, i, name, w + more);
    SpaceSkipped(s, i + |name|, w, more);
    assert s[i] == s[i..][0] == (name + (w + more))[0] == name[0];
    NotScheme(s, i);
    var after := i + |name| + |w|;
    assert after < |s| ==> s[after] == s[after..][0];
  }

  // The last field, a comma and another scheme: reading leaves off at that scheme.
  lemma LastThenOther(s: string, j: nat, f: Field, name: string, w: string, more: string, all: map<string, string>)
    requires IsName(f.name) && IsOther(name, w, more)
    requires LastHere(s, j, f, ", " + (name + (w + more)), all)
    ensures j + |FieldText(f)| + 2 <= |s|
    ensures Params(s, j, all) == AllRead([f], all, j + |FieldText(f)| + 2, true)
    ensures s[j + |FieldText(f)| + 2..] == name + (w + more)
  {
    hide FieldText, Params, Param, SkipSpace, StartsScheme, StartsOther, IsName, IsOther;
    var tail := ", " + (name + (w + more));
    ParamReads(s, j, f, tail);
    TextNotEmpty(f);
    var index := j + |FieldText(f)|;
    assert s[index] == s[index..][0] && s[index + 1] == s[index..][1] && s[index + 2..] == s[index..][2..];
    OtherStarts(s, index + 2, name, w, more);
    assert SkipSpace(s, index + 1) == index + 2 by { SpaceAt(s, index + 1); }
    if f.name in all {
      OldNow(s, j, f, index, all);
    } else {
      ParamsStep(s, j, all, f, index);
    }
    OneNew(f, all);
  }

  lemma SpaceAt(s: string, i: nat)
    requires i + 1 < |s| && s[i] == ' ' && !IsWhitespace(s[i + 1])
    ensures SkipSpace(s, i) == i + 1
  {
  }

  lemma OldNow(s: string, i: nat, f: Field, index: nat, read: map<string, string>)
    requires i < |s| && Param(s, i) == Some((f.name, f.value, index)) && f.name in read
    ensures Params(s, i, read) == Raised(ValueError)
  {
    hide Param;
  }

  lemma OneNew(f: Field, all: map<string, string>)
    ensures AllNew([f], all) <==> f.name !in all
    ensures Add(all, [f]) == all[f.name := f.value]
  {
    assert [f][1..] == [] && [f][0] == f;
    if f.name in all { assert [f][0].name in all; }
  }

  // A challenge of any fields followed by something, as one header.
  lemma LooseThen(s: string, fields: seq<Field>, tail: string)
    requires fields != [] && NamesOk(fields) && tail != "" && !IsSpace(tail[|tail| - 1]) && s == Loose(fields) + tail
    ensures |s| > 8 && s[..8] == "Payment " && s[8..] == FieldTexts(fields) + tail && Strip(s) == s
    ensures !IsWhitespace(s[8])
  {
    hide FieldTexts, NamesOk, Strip;
    assert s == "Payment " + (FieldTexts(fields) + tail);
    assert s[..8] == "Payment " && s[8..] == FieldTexts(fields) + tail;
    FirstIsNoSpace(fields, tail);
    assert s[8] == s[8..][0] && s[0] == s[..8][0];
    LetterAndQuote();
    assert s[|s| - 1] == tail[|tail| - 1];
    StripKeeps(s);
  }

  lemma FirstScheme(s: string, i: nat)
    requires i == 0 && |s| > 8 && s[..8] == "Payment " && !IsWhitespace(s[8])
    ensures SkipSpace(s, i + 7) == i + 8 && FindNext(s, i) == Some(i)
  {
    hide FindNext, StartsScheme, Lower;
    assert s[7] == s[..8][7];
    assert SkipSpace(s, i + 7) == SkipSpace(s, i + 8) == i + 8;
    assert s[i..i + 8] == s[..8] && s[..i] == "";
    SchemeStarts(s, i);
    FindsHere(s, i);
  }

  lemma OneThen(h: string, i: nat, m: map<string, string>, end: nat, rest: seq<Challenge>, accepts: Challenge -> bool)
    requires i + 8 <= |h| && FindNext(h, i) == Some(i) && SkipSpace(h, i + |SCHEME|) == i + 8 && end <= |h|
    requires Params(h, i + 8, map[]) == Ok((m, end)) && end > i && Challenges(h, end, accepts) == Ok(rest)
    ensures Challenges(h, i, accepts) == Ok(Taken(m, accepts) + rest)
  {
    hide FindNext, Params, FromParams, SkipSpace;
    assert [] + rest == rest;
  }

  // A challenge before another scheme reads as if it stood alone.
  lemma OtherSchemeAfter(c: Challenge, name: string, w: string, more: string, accepts: Challenge -> bool)
    requires IsOther(name, w, more) && !IsSpace((name + (w + more))[|name + (w + more)| - 1])
    ensures Parse(Render(c) + (", " + (name + (w + more))), accepts) ==
              Ok(if accepts(Normal(c)) then [Normal(c)] else [])
  {
    hide *;
    var fields, other := Shown(Fields(c)), name + (w + more);
    var tail := ", " + other;
    ShownIsLoose(c);
    OtherTail(name, w, more);
    var s := Loose(fields) + tail;
    LooseThen(s, fields, tail);
    FirstScheme(s, 0);
    var end := |s| - |other|;
    forall j: nat, all: map<string, string> | j <= |s| && LastHere(s, j, fields[|fields| - 1], tail, all)
      ensures Params(s, j, all) == AllRead([fields[|fields| - 1]], all, end, true)
    {
      LastIsName(fields);
      LastThenOther(s, j, fields[|fields| - 1], name, w, more, all);
    }
    FieldsThen(s, 8, fields, tail, end, true, map[]);
    assert s[end..] == other;
    NothingRead(s, end, accepts);
    SchemeLength();
    ReadAll(fields, end);
    OneThen(s, 0, Add(map[], fields), end, [], accepts);
    ParseIs(s, accepts);
    TakenIs(c, accepts);
  }

  lemma ReadAll(fields: seq<Field>, end: nat)
    ensures DistinctNames(fields) ==> AllRead(fields, map[], end, true) == Ok((Add(map[], fields), end))
  {
  }

  lemma LastIsName(fields: seq<Field>)
    requires fields != [] && NamesOk(fields)
    ensures IsName(fields[|fields| - 1].name)
  {
    hide IsName;
  }

  lemma ShownIsLoose(c: Challenge)
    ensures var fields := Shown(Fields(c));
            && fields != [] && NamesOk(fields) && DistinctNames(fields) && Loose(fields) == Render(c)
  {
    hide IsName, FieldTexts, Fields, Shown;
    IdIsShown(c);
    FieldNames(c);
    ShownNames(Fields(c));
  }

  lemma OtherTail(name: string, w: string, more: string)
    requires IsOther(name, w, more) && !IsSpace((name + (w + more))[|name + (w + more)| - 1])
    ensures var tail := ", " + (name + (w + more));
            tail != "" && !IsWhitespace(tail[0]) && !IsSpace(tail[|tail| - 1]) && NoP(name + (w + more))
    ensures |name + (w + more)| > 0
  {
  }

  lemma TakenIs(c: Challenge, accepts: Challenge -> bool)
    ensures Taken(Add(map[], Shown(Fields(c))), accepts) + [] == if accepts(Normal(c)) then [Normal(c)] else []
  {
    hide Add, Shown, Fields, FromParams, Normal;
    FieldsBuildChallenge(c);
  }

  // ---- text after an unescaped quote ----

  // Neither a comma nor a space comes first.
  predicate IsJunk(junk: string) {
    junk != "" && junk[0] != ',' && !IsWhitespace(junk[0]) && !IsSpace(junk[|junk| - 1])
  }

  lemma JunkStarts(junk: string, rest: string)
    requires IsJunk(junk)
    ensures junk + rest != "" && (junk + rest)[0] != ',' && !IsWhitespace((junk + rest)[0])
  {
  }

  lemma JunkEnds(junk: string)
    requires IsJunk(junk)
    ensures !IsSpace(junk[|junk| - 1])
  {
  }

  // Where the search goes on behind a description.
  function Onwards(s: string, index: nat): nat { if FindNext(s, index).None? then |s| else FindNext(s, index).value }

  lemma LastThenJunk(s: string, j: nat, f: Field, tail: string, all: map<string, string>)
    requires IsName(f.name) && tail != "" && tail[0] != ',' && !IsWhitespace(tail[0]) && LastHere(s, j, f, tail, all)
    ensures var index := j + |FieldText(f)|;
            && index == |s| - |tail| && s[index..] == tail
            && Params(s, j, all) == AllRead([f], all, Onwards(s, index), f.name == "description")
  {
    hide FieldText, Param, FindNext, SkipSpace, StartsScheme, StartsOther, IsName;
    FieldAsParam(s, j, f, tail);
    TextNotEmpty(f);
    var index := j + |FieldText(f)|;
    assert s[index] == s[index..][0];
    OneNew(f, all);
  }

  lemma FieldAsParam(s: string, j: nat, f: Field, tail: string)
    requires IsName(f.name) && j <= |s| && s[j..] == FieldText(f) + tail && (tail == "" || !IsWhitespace(tail[0]))
    ensures var index := j + |FieldText(f)|;
            Param(s, j) == Some((f.name, f.value, index)) && index <= |s| && s[index..] == tail
  {
    hide *;
    TextInNotation(f, tail);
    NameIsToken(f.name);
    NoSpaces(tail);
    ParamInAnyNotation(s, j, f.name, "", "", f.value, true, "", tail);
  }

  lemma TextInNotation(f: Field, tail: string)
    ensures FieldText(f) + tail == f.name + ("" + ("=" + ("" + (ValueText(f.value, true) + ("" + tail)))))
    ensures |FieldText(f)| == |f.name| + 0 + 1 + 0 + |ValueText(f.value, true)| + 0
  {
    hide Escape;
  }

  lemma NoSpaces(tail: string)
    requires tail == "" || !IsWhitespace(tail[0])
    ensures AllSpace("") && EndsParam("", tail, true)
  {
  }

  lemma NameIsToken(name: string)
    requires IsName(name)
    ensures IsToken(name) && Lower(name) == name
  {
  }

  // Text right after a closing quote is let pass behind a description, whose parameters end there; anywhere else
  // it refuses the header.
  lemma JunkOnlyAfterDescription(fields: seq<Field>, junk: string, accepts: Challenge -> bool)
    requires fields != [] && NamesOk(fields) && IsJunk(junk) && NoP(junk)
    ensures Parse(Loose(fields) + junk, accepts) ==
              if fields[|fields| - 1].name == "description" && DistinctNames(fields) then
                Ok(Taken(Add(map[], fields), accepts))
              else Raised(ValueError)
  {
    hide *;
    var s := Loose(fields) + junk;
    JunkStarts(junk, "");
    assert junk + "" == junk;
    JunkEnds(junk);
    LooseThen(s, fields, junk);
    FirstScheme(s, 0);
    JunkIsRead(s, fields, junk);
    var index := |s| - |junk|;
    assert s[index..] == junk;
    NothingBehind(s, index);
    OnwardsIs(s, index);
    ParseIs(s, accepts);
    SchemeLength();
    NothingFollows(fields);
    AllReadIs(fields, Onwards(s, index), fields[|fields| - 1].name == "description");
    if fields[|fields| - 1].name == "description" && DistinctNames(fields) {
      LastReads(s, accepts);
      OneThen(s, 0, Add(map[], fields), |s|, [], accepts);
      assert Taken(Add(map[], fields), accepts) + [] == Taken(Add(map[], fields), accepts);
    } else {
      OuterRaises(s, 0, accepts);
    }
  }

  lemma AllReadIs(fields: seq<Field>, end: nat, good: bool)
    ensures AllRead(fields, map[], end, good) ==
              if good && DistinctNames(fields) then Ok((Add(map[], fields), end)) else Raised(ValueError)
  {
    hide DistinctNames;
    NothingFollows(fields);
  }

  lemma OnwardsIs(s: string, index: nat)
    ensures FindNext(s, index).None? ==> Onwards(s, index) == |s|
    ensures FindNext(s, index).Some? ==> Onwards(s, index) == FindNext(s, index).value <= |s|
  {
    hide FindNext;
  }

  lemma JunkIsRead(s: string, fields: seq<Field>, tail: string)
    requires fields != [] && NamesOk(fields) && |s| > 8 && s[8..] == FieldTexts(fields) + tail
    requires tail != "" && tail[0] != ',' && !IsWhitespace(tail[0])
    ensures |tail| <= |s|
    ensures Params(s, 8, map[]) ==
              AllRead(fields, map[], Onwards(s, |s| - |tail|), fields[|fields| - 1].name == "description")
  {
    hide *;
    TailFits(s, fields, tail);
    var f, index := fields[|fields| - 1], |s| - |tail|;
    OnwardsIs(s, index);
    LastIsName(fields);
    forall j: nat, all: map<string, string> | j <= |s| && LastHere(s, j, f, tail, all)
      ensures Params(s, j, all) == AllRead([f], all, Onwards(s, index), f.name == "description")
    {
      LastThenJunk(s, j, f, tail, all);
    }
    FieldsThen(s, 8, fields, tail, Onwards(s, index), f.name == "description", map[]);
  }

  lemma TailFits(s: string, fields: seq<Field>, tail: string)
    requires |s| > 8 && s[8..] == FieldTexts(fields) + tail
    ensures |tail| <= |s|
  {
    assert |s[8..]| == |FieldTexts(fields)| + |tail|;
  }

  // And the next challenge is found behind it.
  lemma NextAfterJunk(fields: seq<Field>, junk: string, c: Challenge, accepts: Challenge -> bool)
    requires fields != [] && NamesOk(fields) && DistinctNames(fields) && IsJunk(junk) && NoP(junk)
    requires fields[|fields| - 1].name == "description" && DOTTED_I !in Loose(fields) + junk
    ensures Parse(Loose(fields) + (junk + (", " + Render(c))), accepts) ==
              Ok(Taken(Add(map[], fields), accepts) + if accepts(Normal(c)) then [Normal(c)] else [])
  {
    hide *;
    var tail := junk + (", " + Render(c));
    var s := Loose(fields) + tail;
    JunkStarts(junk, ", " + Render(c));
    RenderEnds(c, junk);
    LooseThen(s, fields, tail);
    FirstScheme(s, 0);
    JunkIsRead(s, fields, tail);
    var index, x := |s| - |tail|, |s| - |Render(c)|;
    NextIsThere(s, index, x, fields, junk, c);
    FindsBehind(s, index, x);
    FindsHere(s, x);
    OnwardsIs(s, index);
    ParseIs(s, accepts);
    SchemeLength();
    AllReadIs(fields, x, true);
    OneHeader(c);
    RestChooses(s, x, [c], accepts);
    OneChosen(c, accepts);
    OneThen(s, 0, Add(map[], fields), x, Chosen([c], accepts), accepts);
  }

  lemma RenderEnds(c: Challenge, junk: string)
    ensures var tail := junk + (", " + Render(c)); tail != "" && !IsSpace(tail[|tail| - 1])
    ensures |Render(c)| >= 8 && Render(c)[..8] == "Payment "
  {
    hide Render;
    OneHeader(c);
    HeaderBegins([c]);
    HeaderEnds([c]);
    var tail := junk + (", " + Render(c));
    assert tail[|tail| - 1] == Render(c)[|Render(c)| - 1];
  }

  lemma NextIsThere(s: string, index: nat, x: nat, fields: seq<Field>, junk: string, c: Challenge)
    requires s == Loose(fields) + (junk + (", " + Render(c))) && NoP(junk) && DOTTED_I !in Loose(fields) + junk
    requires x == |s| - |Render(c)| && index == |s| - |junk + (", " + Render(c))|
    ensures 8 <= index <= x && x + 8 <= |s| && s[x..] == Render(c) && StartsScheme(s, x)
    ensures s[x - 2] == ',' && s[x - 1] == ' ' && DOTTED_I !in s[..x] && NoP(s[index..x])
  {
    hide Render, FieldTexts, StartsScheme;
    RenderEnds(c, junk);
    assert s == (Loose(fields) + junk + ", ") + Render(c);
    assert s[..x] == Loose(fields) + junk + ", " && s[x..] == Render(c) && s[index..x] == junk + ", ";
    assert s[x..x + 8] == Render(c)[..8];
    SchemeStarts(s, x);
  }
}
