// Printing and parsing of `WWW-Authenticate: Payment` challenges (sections 5.6.2, 5.6.4, 11.2 and 11.6.1
// of RFC 9110).  Each index-driven loop of helpers.py is a method proved against a recursive function.
module ChallengeHeader {
  import opened Options
  import opened HighWater
  import opened PythonText

  const SCHEME := "payment"
  const DOTTED_I := 0x130 as char

  // `str.lower` as far as it can matter here: ASCII letters change in place, and U+0130 becomes two
  // characters.  No other character lowers to a letter of the scheme or changes the length.
  function LowerChar(c: char): (r: string)
    ensures c != DOTTED_I ==> |r| == 1
  {
    if 'A' <= c <= 'Z' then [(c as int + 32) as char] else if c == DOTTED_I then "i" + [0x307 as char] else [c]
  }

  function Lower(s: string): string { if s == "" then "" else LowerChar(s[0]) + Lower(s[1..]) }

  // Lowering ignores the case of ASCII letters and nothing else.
  lemma LowerIgnoresCase(c: char, d: char)
    ensures LowerChar(c) == LowerChar(d) <==>
              || c == d
              || ('a' <= c <= 'z' && c as int == d as int + 32)
              || ('a' <= d <= 'z' && d as int == c as int + 32)
    ensures 'a' <= c <= 'z' ==> LowerChar(c) == [c]
  {
  }

  predicate IsWhitespace(c: char) { c == ' ' || c == '\t' }

  predicate IsTokenChar(c: char) {
    '0' <= c <= '9' || 'A' <= c <= 'Z' || 'a' <= c <= 'z' || c in "!#$%&'*+-.^_`|~"
  }

  // The delimiters of section 5.6.2 of RFC 9110: a token holds every other visible ASCII character.
  lemma TokensHoldNoDelimiter(c: char)
    ensures IsTokenChar(c) <==> 0x21 <= c as int <= 0x7E && c !in "\"(),/:;<=>?@[\\]{}"
  {
  }

  // ---- the specification ----

  // `_consume_header_whitespace`.
  function SkipSpace(s: string, i: nat): (r: nat)
    requires i <= |s|
    ensures i <= r <= |s|
    decreases |s| - i
  {
    if i < |s| && IsWhitespace(s[i]) then SkipSpace(s, i + 1) else i
  }

  function TokenEnd(s: string, i: nat): (r: nat)
    requires i <= |s|
    ensures i <= r <= |s|
    decreases |s| - i
  {
    if i < |s| && IsTokenChar(s[i]) then TokenEnd(s, i + 1) else i
  }

  // The position after trailing whitespace is dropped from s[..i].
  function SpaceStart(s: string, i: nat): (r: nat)
    requires i <= |s|
    ensures r <= i
  {
    if i > 0 && IsWhitespace(s[i - 1]) then SpaceStart(s, i - 1) else i
  }

  // `_starts_payment_scheme`: the scheme name, a space, and before it the start or a comma.
  predicate StartsScheme(s: string, i: nat) {
    && i + |SCHEME| < |s|
    && Lower(s[i..i + |SCHEME|]) == SCHEME
    && IsWhitespace(s[i + |SCHEME|])
    && var before := SpaceStart(s, i); (before == 0 || s[before - 1] == ',')
  }

  // Position `j` is the start or follows a comma, and only space comes between it and `i`.
  predicate OnlySpaceSince(s: string, j: nat, i: nat)
    requires j <= i <= |s|
  {
    (j == 0 || s[j - 1] == ',') && forall k | j <= k < i :: s[k] == ' ' || s[k] == '\t'
  }

  // Reading backwards over space until the start or a comma is: nothing but space since one of them.
  lemma StartsSchemeExactly(s: string, i: nat)
    ensures StartsScheme(s, i) <==>
              && i + |SCHEME| < |s|
              && Lower(s[i..i + |SCHEME|]) == SCHEME
              && (s[i + |SCHEME|] == ' ' || s[i + |SCHEME|] == '\t')
              && exists j | 0 <= j <= i :: OnlySpaceSince(s, j, i)
  {
    if i <= |s| {
      SpaceStartIs(s, i);
      var before := SpaceStart(s, i);
      if before == 0 || s[before - 1] == ',' { assert OnlySpaceSince(s, before, i); }
      forall j | 0 <= j <= i && OnlySpaceSince(s, j, i) ensures j == before {
      }
    }
  }

  lemma {:induction false} SpaceStartIs(s: string, i: nat)
    requires i <= |s|
    ensures forall k | SpaceStart(s, i) <= k < i :: s[k] == ' ' || s[k] == '\t'
    ensures SpaceStart(s, i) > 0 ==> s[SpaceStart(s, i) - 1] != ' ' && s[SpaceStart(s, i) - 1] != '\t'
  {
    if i > 0 && IsWhitespace(s[i - 1]) { SpaceStartIs(s, i - 1); }
  }

  // `_starts_other_auth_scheme`: a token, whitespace, and no equals sign.
  predicate StartsOther(s: string, i: nat)
    requires i <= |s|
  {
    var end := TokenEnd(s, i);
    var after := SkipSpace(s, end);
    end > i && after > end && (after >= |s| || s[after] != '=')
  }

  predicate OccursAt(text: string, needle: string, i: nat) { i + |needle| <= |text| && text[i..i + |needle|] == needle }

  // `str.find` from a position.
  function Find(text: string, needle: string, from: nat): (r: Option<nat>)
    ensures r.Some? ==> r.value >= from && OccursAt(text, needle, r.value)
    ensures r.Some? ==> forall j | from <= j < r.value :: !OccursAt(text, needle, j)
    ensures r.None? ==> forall j | from <= j :: !OccursAt(text, needle, j)
    decreases |text| - from
  {
    if from + |needle| > |text| then None
    else if text[from..from + |needle|] == needle then Some(from)
    else Find(text, needle, from + 1)
  }

  // `_find_next_payment_scheme`, which looks for positions in the lowered text but tests them in the
  // text itself.
  function FindScheme(s: string, lowered: string, from: nat): (r: Option<nat>)
    ensures r.Some? ==> from <= r.value && StartsScheme(s, r.value) && OccursAt(lowered, SCHEME, r.value)
    decreases |lowered| - from
  {
    var found := Find(lowered, SCHEME, from);
    if found.None? then None
    else if StartsScheme(s, found.value) then found
    else FindScheme(s, lowered, found.value + |SCHEME|)
  }

  function FindNext(s: string, from: nat): (r: Option<nat>)
    ensures r.Some? ==> from <= r.value && StartsScheme(s, r.value)
  {
    FindScheme(s, Lower(s), from)
  }

  // The characters of a quoted string from inside it, and the position after its closing quote.
  function Quoted(s: string, i: nat): (r: Option<(string, nat)>)
    requires i <= |s|
    ensures r.Some? ==> i < r.value.1 <= |s|
    decreases |s| - i
  {
    if i >= |s| then None
    else if s[i] == '\\' then
      if i + 1 >= |s| then None
      else var rest := Quoted(s, i + 2); if rest.None? then None else Some(([s[i + 1]] + rest.value.0, rest.value.1))
    else if s[i] == '"' then Some(("", i + 1))
    else var rest := Quoted(s, i + 1); if rest.None? then None else Some(([s[i]] + rest.value.0, rest.value.1))
  }

  // `_parse_auth_param_value`: a quoted string or a token.
  function ParamValue(s: string, i: nat): (r: Option<(string, nat)>)
    requires i <= |s|
    ensures r.Some? ==> i < r.value.1 <= |s|
  {
    if i < |s| && s[i] == '"' then Quoted(s, i + 1)
    else if TokenEnd(s, i) == i then None
    else Some((s[i..TokenEnd(s, i)], TokenEnd(s, i)))
  }

  // One `name = value`: the lowered name, the value and the position after any whitespace.
  function Param(s: string, i: nat): (r: Option<(string, string, nat)>)
    requires i <= |s|
    ensures r.Some? ==> i < r.value.2 <= |s|
  {
    var end := TokenEnd(s, i);
    var equals := SkipSpace(s, end);
    if end == i || equals >= |s| || s[equals] != '=' then None
    else
      var value := ParamValue(s, SkipSpace(s, equals + 1));
      if value.None? then None else Some((Lower(s[i..end]), value.value.0, SkipSpace(s, value.value.1)))
  }

  // `_parse_auth_params` from a parameter on, with those read so far.  A description may be followed by
  // anything: the next scheme is then looked for.
  function Params(s: string, i: nat, read: map<string, string>): (r: Attempt<(map<string, string>, nat)>)
    requires i <= |s|
    ensures r.Ok? ==> i <= r.value.1 <= |s|
    decreases |s| - i
  {
    if i >= |s| then (if read == map[] then Raised(ValueError) else Ok((read, i)))
    else
      var p := Param(s, i);
      if p.None? || p.value.0 in read then Raised(ValueError)
      else
        var all := read[p.value.0 := p.value.1];
        var index := p.value.2;
        if index >= |s| then Ok((all, index))
        else if s[index] != ',' then
          if p.value.0 != "description" then Raised(ValueError)
          else var next := FindNext(s, index); Ok((all, if next.None? then |s| else next.value))
        else
          var next := SkipSpace(s, index + 1);
          if StartsScheme(s, next) || StartsOther(s, next) then Ok((all, next)) else Params(s, next, all)
  }

  datatype Challenge = Challenge(id: string, realm: string, method_: string, intent: string, request: string,
                                 digest: Option<string>, expires: Option<string>, description: Option<string>,
                                 header: Option<string>, opaque_: Option<string>)

  function Lookup(m: map<string, string>, k: string): Option<string> { if k in m then Some(m[k]) else None }

  // The model's fields from the parsed parameters; unknown ones are ignored and required ones required.
  function FromParams(m: map<string, string>): Option<Challenge> {
    if {"id", "realm", "method", "intent", "request"} <= m.Keys then
      Some(Challenge(m["id"], m["realm"], m["method"], m["intent"], m["request"],
                     Lookup(m, "digest"), Lookup(m, "expires"),
                     Lookup(m, "description"), Lookup(m, "header"), Lookup(m, "opaque")))
    else None
  }

  // `_parse_payment_challenge_values` from a position; `accepts` is the model's own field validation,
  // and what it rejects is passed over.
  function Challenges(s: string, i: nat, accepts: Challenge -> bool): Attempt<seq<Challenge>>
    requires i <= |s|
    decreases |s| - i
  {
    var scheme := FindNext(s, i);
    if scheme.None? then Ok([])
    else
      var params := Params(s, SkipSpace(s, scheme.value + |SCHEME|), map[]);
      if params.Raised? then Raised(params.error)
      else
        var rest := Challenges(s, params.value.1, accepts);
        var c := FromParams(params.value.0);
        if c.Some? && accepts(c.value) then Collected([c.value], rest) else rest
  }

  // The challenges of the rest of a header, with those collected before it.
  function Collected(before: seq<Challenge>, rest: Attempt<seq<Challenge>>): Attempt<seq<Challenge>> {
    if rest.Raised? then rest else Ok(before + rest.value)
  }

  function Parse(raw: string, accepts: Challenge -> bool): Attempt<seq<Challenge>> {
    Challenges(Strip(raw), 0, accepts)
  }

  // ---- the loops ----

  method ConsumeWhitespace(s: string, start: nat) returns (index: nat)
    requires start <= |s|
    ensures index == SkipSpace(s, start)
  {
    index := start;
    while index < |s| && IsWhitespace(s[index])
      invariant index <= |s| && SkipSpace(s, index) == SkipSpace(s, start)
    {
      index := index + 1;
    }
  }

  method ConsumeToken(s: string, start: nat) returns (index: nat)
    requires start <= |s|
    ensures index == TokenEnd(s, start)
  {
    index := start;
    while index < |s| && IsTokenChar(s[index])
      invariant index <= |s| && TokenEnd(s, index) == TokenEnd(s, start)
    {
      index := index + 1;
    }
  }

  method StartsPaymentScheme(s: string, index: nat) returns (starts: bool)
    ensures starts == StartsScheme(s, index)
  {
    if index + |SCHEME| >= |s| || Lower(s[index..index + |SCHEME|]) != SCHEME || !IsWhitespace(s[index + |SCHEME|]) {
      return false;
    }
    var prefix: int := index - 1;
    while prefix >= 0 && IsWhitespace(s[prefix])
      invariant -1 <= prefix < index && SpaceStart(s, prefix + 1) == SpaceStart(s, index)
    {
      prefix := prefix - 1;
    }
    starts := prefix < 0 || s[prefix] == ',';
  }

  method FindNextPaymentScheme(s: string, start: nat) returns (scheme: Option<nat>)
    ensures scheme == FindNext(s, start)
  {
    var lowered := Lower(s);
    var index := start;
    while true
      invariant FindScheme(s, lowered, index) == FindNext(s, start)
      decreases |lowered| - index
    {
      scheme := Find(lowered, SCHEME, index);
      if scheme.None? {
        return;
      }
      var starts := StartsPaymentScheme(s, scheme.value);
      if starts {
        return;
      }
      index := scheme.value + |SCHEME|;
    }
  }

  // A result for the rest of a text, with what was read before it.
  function Buffered(buffer: string, rest: Option<(string, nat)>): Option<(string, nat)> {
    if rest.None? then None else Some((buffer + rest.value.0, rest.value.1))
  }

  lemma BufferedStep(buffer: string, c: char, rest: Option<(string, nat)>)
    ensures Buffered("", rest) == rest
    ensures Buffered(buffer + [c], rest) == Buffered(buffer, Buffered([c], rest))
  {
    if rest.Some? {
      assert "" + rest.value.0 == rest.value.0;
      assert buffer + [c] + rest.value.0 == buffer + ([c] + rest.value.0);
    }
  }

  method ParseQuotedString(s: string, start: nat) returns (result: Option<(string, nat)>)
    requires start < |s| && s[start] == '"'
    ensures result == Quoted(s, start + 1)
  {
    var index := start + 1;
    var buffer := "";
    BufferedStep("", ' ', Quoted(s, index));
    while index < |s|
      invariant index <= |s| && Quoted(s, start + 1) == Buffered(buffer, Quoted(s, index))
    {
      var c := s[index];
      if c == '\\' {
        index := index + 1;
        if index >= |s| {
          return None;
        }
        BufferedStep(buffer, s[index], Quoted(s, index + 1));
        buffer := buffer + [s[index]];
        index := index + 1;
      } else if c == '"' {
        assert buffer + "" == buffer;
        return Some((buffer, index + 1));
      } else {
        BufferedStep(buffer, c, Quoted(s, index + 1));
        buffer := buffer + [c];
        index := index + 1;
      }
    }
    result := None;
  }

  method ParseAuthParam(s: string, start: nat) returns (result: Option<(string, string, nat)>)
    requires start <= |s|
    ensures result == Param(s, start)
  {
    hide Quoted, TokenEnd, SkipSpace, Lower;
    var end := ConsumeToken(s, start);
    var index := ConsumeWhitespace(s, end);
    if end == start || index >= |s| || s[index] != '=' {
      return None;
    }
    index := ConsumeWhitespace(s, index + 1);
    var value: Option<(string, nat)>;
    if index < |s| && s[index] == '"' {
      value := ParseQuotedString(s, index);
    } else {
      var tokenEnd := ConsumeToken(s, index);
      value := if tokenEnd == index then None else Some((s[index..tokenEnd], tokenEnd));
    }
    if value.None? {
      return None;
    }
    index := ConsumeWhitespace(s, value.value.1);
    result := Some((Lower(s[start..end]), value.value.0, index));
  }

  method StartsOtherAuthScheme(s: string, start: nat) returns (starts: bool)
    requires start <= |s|
    ensures starts == StartsOther(s, start)
  {
    var end := ConsumeToken(s, start);
    if end == start {
      return false;
    }
    var after := ConsumeWhitespace(s, end);
    starts := after > end && (after >= |s| || s[after] != '=');
  }

  method ParseAuthParams(s: string, start: nat) returns (result: Attempt<(map<string, string>, nat)>)
    requires start <= |s|
    ensures result == Params(s, SkipSpace(s, start), map[])
  {
    hide Param, FindNext, StartsScheme, StartsOther, SkipSpace;
    var index := ConsumeWhitespace(s, start);
    var params: map<string, string> := map[];
    while index < |s|
      invariant index <= |s| && Params(s, index, params) == Params(s, SkipSpace(s, start), map[])
      decreases |s| - index
    {
      var p := ParseAuthParam(s, index);
      if p.None? || p.value.0 in params {
        return Raised(ValueError);
      }
      params := params[p.value.0 := p.value.1];
      index := p.value.2;
      if index >= |s| {
        return Ok((params, index));
      }
      if s[index] != ',' {
        if p.value.0 != "description" {
          return Raised(ValueError);
        }
        var next := FindNextPaymentScheme(s, index);
        return Ok((params, if next.None? then |s| else next.value));
      }
      index := ConsumeWhitespace(s, index + 1);
      var starts := StartsPaymentScheme(s, index);
      if !starts {
        starts := StartsOtherAuthScheme(s, index);
      }
      if starts {
        return Ok((params, index));
      }
    }
    result := if params == map[] then Raised(ValueError) else Ok((params, index));
  }

  lemma CollectedStep(before: seq<Challenge>, c: Challenge, rest: Attempt<seq<Challenge>>)
    ensures Collected(before + [c], rest) == Collected(before, Collected([c], rest))
  {
    if rest.Ok? {
      assert before + [c] + rest.value == before + ([c] + rest.value);
    }
  }

  // The outer loop ends on every input: each round consumes at least the scheme it found.
  method ParseChallenges(raw: string, accepts: Challenge -> bool) returns (result: Attempt<seq<Challenge>>)
    ensures result == Parse(raw, accepts)
  {
    hide FindNext, Params, FromParams, Strip;
    var s := Strip(raw);
    var challenges: seq<Challenge> := [];
    var index := 0;
    ghost var all := Parse(raw, accepts);
    EmptyCollected(Challenges(s, 0, accepts));
    while true
      invariant index <= |s| && all == Collected(challenges, Challenges(s, index, accepts))
      decreases |s| - index
    {
      var scheme := FindNextPaymentScheme(s, index);
      if scheme.None? {
        assert challenges + [] == challenges;
        return Ok(challenges);
      }
      var params := ParseAuthParams(s, scheme.value + |SCHEME|);
      if params.Raised? {
        return Raised(params.error);
      }
      var c := FromParams(params.value.0);
      if c.Some? && accepts(c.value) {
        CollectedStep(challenges, c.value, Challenges(s, params.value.1, accepts));
        challenges := challenges + [c.value];
      }
      index := params.value.1;
    }
  }

  lemma EmptyCollected(rest: Attempt<seq<Challenge>>)
    ensures Collected([], rest) == rest
  {
    if rest.Ok? { assert [] + rest.value == rest.value; }
  }
}
