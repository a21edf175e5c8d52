// Two lists of two challenges on either side of the exact condition for reading back.
module ChallengeSamples {
  import opened Options
  import opened HighWater
  import opened PythonText
  import opened ChallengeHeader
  import opened ChallengeRoundTrip
  import opened ChallengeAstray

  function Total(fields: seq<Field>): nat { if fields == [] then 0 else Dotted(fields[0].value) + Total(fields[1..]) }

  lemma {:induction false} DottedEscape(v: string)
    ensures Dotted(Escape(v)) == Dotted(v)
  {
    hide Escape;
    if v == "" {
      EscapeEmpty();
    } else {
      EscapeStep(v);
      DottedEscape(v[1..]);
      DottedAppend(EscapeChar(v[0]), Escape(v[1..]));
      DottedChar(v[0]);
    }
  }

  lemma DottedChar(c: char)
    ensures Dotted(EscapeChar(c)) == if c == DOTTED_I then 1 else 0
  {
    DottedCounts(EscapeChar(c));
    if c == DOTTED_I { assert EscapeChar(c)[1..] == ""; }
  }

  lemma DottedField(f: Field)
    requires IsName(f.name)
    ensures Dotted(FieldText(f)) == Dotted(f.value)
  {
    hide Escape, Dotted;
    DottedName(f.name);
    DottedCounts("=\"");
    DottedCounts("\"");
    DottedEscape(f.value);
    DottedAppend(f.name, "=\"");
    DottedAppend(f.name + "=\"", Escape(f.value));
    DottedAppend(f.name + "=\"" + Escape(f.value), "\"");
  }

  lemma DottedName(name: string)
    requires IsName(name)
    ensures Dotted(name) == 0
  {
    DottedCounts(name);
  }

  lemma {:induction false} DottedFields(fields: seq<Field>)
    requires NamesOk(fields)
    ensures Dotted(FieldTexts(fields)) == Total(fields)
  {
    hide FieldText, IsName, Dotted;
    DottedCounts("");
    if fields != [] {
      DottedField(fields[0]);
      DottedFields(fields[1..]);
      if |fields| > 1 {
        DottedCounts(", ");
        DottedAppend(", ", FieldTexts(fields[1..]));
        DottedAppend(FieldText(fields[0]), ", " + FieldTexts(fields[1..]));
      }
    }
  }

  // A rendering has as many U+0130 as the values it shows.
  lemma DottedRender(c: Challenge)
    ensures Dotted(Render(c)) == Total(Shown(Fields(c)))
  {
    hide FieldTexts, Fields, Shown, Dotted, Total, IsName;
    FieldNames(c);
    ShownNames(Fields(c));
    DottedFields(Shown(Fields(c)));
    DottedCounts("Payment ");
    DottedAppend("Payment ", FieldTexts(Shown(Fields(c))));
  }

  function Sample(description: Option<string>): Challenge {
    Challenge("a", "b", "xrpl", "session", "e30", None, None, description, None, None)
  }

  // The fields that the sample shows, without a description.
  function Required(): seq<Field> {
    [Field("id", "a", true), Field("realm", "b", true), Field("method", "xrpl", true), Field("intent", "session", true),
     Field("request", "e30", true)]
  }

  lemma ShownAt(fields: seq<Field>, k: nat)
    requires k < |fields|
    ensures Shown(fields[k..]) == (if fields[k].shown then [fields[k]] else []) + Shown(fields[k + 1..])
  {
    assert fields[k..][1..] == fields[k + 1..];
  }

  lemma SampleShown(description: Option<string>)
    requires description != Some("")
    ensures Shown(Fields(Sample(description))) ==
              Required() + if description.Some? then [Field("description", description.value, true)] else []
  {
    hide Shown;
    var f := Fields(Sample(description));
    ShownAt(f, 5);
    ShownAt(f, 6);
    ShownAt(f, 7);
    ShownAt(f, 8);
    ShownAt(f, 9);
    NothingShown(f[10..]);
    RequiredShown(f);
  }

  lemma NothingShown(fields: seq<Field>)
    requires fields == []
    ensures Shown(fields) == []
  {
  }

  lemma RequiredShown(f: seq<Field>)
    requires |f| == 10 && f[..5] == Required()
    ensures Shown(f) == Required() + Shown(f[5..])
  {
    hide Shown;
    ShownAt(f, 0);
    ShownAt(f, 1);
    ShownAt(f, 2);
    ShownAt(f, 3);
    ShownAt(f, 4);
    assert f[0..] == f;
    assert f[0] == f[..5][0] && f[1] == f[..5][1] && f[2] == f[..5][2] && f[3] == f[..5][3] && f[4] == f[..5][4];
  }

  lemma {:induction false} TotalAppend(a: seq<Field>, b: seq<Field>)
    ensures Total(a + b) == Total(a) + Total(b)
  {
    hide Dotted;
    if a == [] {
      assert a + b == b;
    } else {
      assert (a + b)[1..] == a[1..] + b;
      TotalAppend(a[1..], b);
    }
  }

  lemma {:induction false} TotalOfPlain(fields: seq<Field>)
    requires forall k | 0 <= k < |fields| :: DOTTED_I !in fields[k].value
    ensures Total(fields) == 0
  {
    hide Dotted;
    if fields != [] {
      DottedCounts(fields[0].value);
      TotalOfPlain(fields[1..]);
    }
  }

  lemma RequiredTotal()
    ensures Required() != [] && Total(Required()) == 0 && NamesOk(Required())
  {
    hide IsName, Total;
    NamesAreWords();
    TotalOfPlain(Required());
  }

  lemma SampleTotal(description: Option<string>)
    requires description != Some("")
    ensures Total(Shown(Fields(Sample(description)))) == if description.Some? then Dotted(description.value) else 0
  {
    hide Dotted, Required, Shown, Fields;
    SampleShown(description);
    RequiredTotal();
    if description.Some? {
      var last := [Field("description", description.value, true)];
      TotalAppend(Required(), last);
      assert last[1..] == [];
    } else {
      assert Required() + [] == Required();
    }
  }

  // One U+0130 in the first of two challenges: the second one is lost.
  lemma OneDottedLosesTheNext(accepts: Challenge -> bool)
    requires accepts(Sample(Some([DOTTED_I]))) && accepts(Sample(None))
    ensures var cs := [Sample(Some([DOTTED_I])), Sample(None)];
            && Normals(cs) == cs && Acceptable(cs, accepts)
            && Parse(Header(cs), accepts) == Ok([cs[0]]) != Ok(Normals(cs))
            && !InPlace(Header(cs), 0, cs)
  {
    hide *;
    var first, second := Sample(Some([DOTTED_I])), Sample(None);
    var cs := [first, second];
    SamplesAreNormal(Some([DOTTED_I]));
    SamplesAreNormal(None);
    BothAcceptable(first, second, accepts);
    BothNormal(first, second);
    SampleDotted();
    HeaderOfTwo(first, second);
    SeparatorHasNone();
    DottedAppend(", ", Render(second));
    DottedAppend(Render(first), ", " + Render(second));
    DottedCounts(Render(first));
    KeptStep(cs);
    assert [first] + [] == [first];
    FewDottedLoseTheRest(cs, accepts);
    RoundTripExactly(cs, accepts);
  }

  lemma SeparatorHasNone()
    ensures Dotted(", ") == 0 && |SCHEME| == 7
  {
    DottedCounts(", ");
  }

  lemma SamplesAreNormal(description: Option<string>)
    requires description != Some("")
    ensures Normal(Sample(description)) == Sample(description)
  {
  }

  lemma BothAcceptable(first: Challenge, second: Challenge, accepts: Challenge -> bool)
    requires accepts(Normal(first)) && accepts(Normal(second))
    ensures Acceptable([first, second], accepts)
  {
    hide Normal;
  }

  lemma BothNormal(first: Challenge, second: Challenge)
    ensures Normals([first]) == [Normal(first)] && Normals([first, second]) == [Normal(first), Normal(second)]
  {
    hide Normal;
    assert [first, second][1..] == [second] && [second][1..] == [] && [first][1..] == [];
  }

  lemma HeaderOfTwo(first: Challenge, second: Challenge)
    ensures Header([first, second]) == Render(first) + (", " + Render(second))
  {
    hide Render;
    assert [first, second][1..] == [second];
    assert Render(first) + ", " + Render(second) == Render(first) + (", " + Render(second));
  }

  lemma SampleDotted()
    ensures Dotted(Render(Sample(Some([DOTTED_I])))) == 1 && Dotted(Render(Sample(None))) == 0
  {
    hide Render, Fields, Total, Shown;
    DottedRender(Sample(Some([DOTTED_I])));
    DottedRender(Sample(None));
    SampleTotal(Some([DOTTED_I]));
    SampleTotal(None);
    assert [DOTTED_I][1..] == "";
  }

  // Ten U+0130 shift the lowered text by exactly as much as lies between the end of a value and the next
  // scheme after it, so that a value that ends in the scheme's name stands in for the next scheme.
  const TEN := [DOTTED_I, DOTTED_I, DOTTED_I, DOTTED_I, DOTTED_I, DOTTED_I, DOTTED_I, DOTTED_I, DOTTED_I, DOTTED_I]

  lemma TenDotted()
    ensures |TEN| == 10 && |Lower(TEN)| == 20 && Escape(TEN + SCHEME) == TEN + SCHEME && Lower(SCHEME) == SCHEME
  {
    hide Lower, Escape;
    AllDotted(TEN);
    DottedCounts(TEN);
    EscapePlain(TEN + SCHEME);
    LowerIsSame(SCHEME);
  }

  lemma {:induction false} AllDotted(s: string)
    requires forall j | 0 <= j < |s| :: s[j] == DOTTED_I
    ensures Dotted(s) == |s|
  {
    if s != "" { AllDotted(s[1..]); }
  }

  // The rendering of such a challenge, up to its description and from there on.
  lemma SampleEnds() returns (a: string)
    ensures Render(Sample(Some(TEN + SCHEME))) == a + (TEN + (SCHEME + "\"")) && DOTTED_I !in a
  {
    hide *;
    var last := Field("description", TEN + SCHEME, true);
    TenDotted();
    SampleShown(Some(TEN + SCHEME));
    RequiredTotal();
    FieldTextsLast(Required(), last);
    a := "Payment " + (FieldTexts(Required()) + (", " + "description=\""));
    LastText(Sample(Some(TEN + SCHEME)), Required(), last, a);
    RequiredIsPlain(a);
  }

  lemma LastText(c: Challenge, before: seq<Field>, last: Field, a: string)
    requires Shown(Fields(c)) == before + [last]
             && FieldTexts(before + [last]) == FieldTexts(before) + (", " + FieldText(last))
    requires last == Field("description", TEN + SCHEME, true) && Escape(TEN + SCHEME) == TEN + SCHEME
    requires a == "Payment " + (FieldTexts(before) + (", " + "description=\""))
    ensures Render(c) == a + (TEN + (SCHEME + "\""))
  {
    hide FieldTexts, Shown, Fields, Escape;
    assert FieldText(last) == "description=\"" + (TEN + (SCHEME + "\""));
    Nested("Payment ", FieldTexts(before), ", ", "description=\"", TEN + (SCHEME + "\""));
  }

  lemma Nested(a: string, b: string, c: string, d: string, e: string)
    ensures a + (b + (c + (d + e))) == (a + (b + (c + d))) + e
  {
  }

  lemma RequiredIsPlain(a: string)
    requires a == "Payment " + (FieldTexts(Required()) + (", " + "description=\""))
    ensures DOTTED_I !in a
  {
    hide FieldTexts, Dotted, IsName, Required, Total;
    RequiredTotal();
    DottedFields(Required());
    DottedCounts(FieldTexts(Required()));
  }

  lemma {:induction false} FieldTextsLast(fields: seq<Field>, f: Field)
    requires fields != []
    ensures FieldTexts(fields + [f]) == FieldTexts(fields) + (", " + FieldText(f))
  {
    hide FieldText;
    assert (fields + [f])[1..] == fields[1..] + [f];
    if |fields| > 1 {
      FieldTextsLast(fields[1..], f);
      Reassociate(FieldText(fields[0]), ", ", FieldTexts(fields[1..]), ", " + FieldText(f));
    }
  }

  // So with enough U+0130 a list can read back although one of them comes before its last challenge.
  lemma TenDottedReadBack(accepts: Challenge -> bool)
    requires accepts(Sample(Some(TEN + SCHEME))) && accepts(Sample(None))
    ensures var cs := [Sample(Some(TEN + SCHEME)), Sample(None)];
            !IsClear(cs) && InPlace(Header(cs), 0, cs) && Parse(Header(cs), accepts) == Ok(Normals(cs))
  {
    hide Render, Parse, Dotted, OccursAt, Lower, Escape, Header, Normals, InPlace, Acceptable, Sample, Normal;
    var first, second := Sample(Some(TEN + SCHEME)), Sample(None);
    var cs := [first, second];
    SamplesAreNormal(Some(TEN + SCHEME));
    SamplesAreNormal(None);
    BothAcceptable(first, second, accepts);
    HeaderOfTwo(first, second);
    var a := SampleEnds();
    TenInRender(a, first);
    OccursShifted(Header(cs), a, "\"" + (", " + Render(second)));
    FirstInPlace(cs);
    assert cs[1..] == [second];
    InPlaceStep(Header(cs), 0, cs);
    InPlaceStep(Header(cs), |Render(first)| + 2, [second]);
    RoundTripExactly(cs, accepts);
  }

  lemma TenInRender(a: string, c: Challenge)
    requires Render(c) == a + (TEN + (SCHEME + "\""))
    ensures DOTTED_I in Render(c) && |Render(c)| == |a| + 18
  {
    hide Render;
    assert Render(c)[|a|] == TEN[0];
  }

  lemma FirstInPlace(cs: seq<Challenge>)
    requires cs != []
    ensures OccursAt(Lower(Header(cs)), SCHEME, 0)
  {
    hide Header, Lower;
    HeaderBegins(cs);
    SchemeLowers();
    var s := Header(cs);
    assert s == "Payment" + s[7..] by { assert s[..7] == s[..8][..7] == "Payment"; }
    LowerAppend("Payment", s[7..]);
  }

  lemma OccursShifted(s: string, a: string, rest: string)
    requires rest != "" && rest[0] == '"' && DOTTED_I !in a && s == a + (TEN + (SCHEME + "\"")) + rest[1..]
    ensures OccursAt(Lower(s), SCHEME, |a| + 20)
  {
    hide Lower, Dotted;
    TenDotted();
    DottedCounts(a);
    assert s == a + (TEN + (SCHEME + rest));
    LowerAppend(a, TEN + (SCHEME + rest));
    LowerAppend(TEN, SCHEME + rest);
    LowerAppend(SCHEME, rest);
    var t := Lower(s);
    assert t == Lower(a) + (Lower(TEN) + (SCHEME + Lower(rest)));
    assert t[|a| + 20..|a| + 27] == SCHEME;
  }
}
