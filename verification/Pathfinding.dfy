// Source-side spend bounds for IOU payments: slippage, rounding up to what the XRP Ledger can express,
// the policy ceiling and the choice of the cheapest quote.
module Pathfinding {
  import opened Options
  import opened DropAmounts
  import opened DecimalText

  const MAX_SLIPPAGE_BPS := 1_000
  const SIGNIFICANT_DIGITS := 16

  datatype Policy = Policy(xrp: bool, ceiling: Dec, slippage: nat)

  // A path quote in the authorized currency (drops for XRP), or one that fails a shape check.
  datatype Alternative = Malformed | Quote(amount: Dec)

  predicate IsPolicy(p: Policy) {
    p.slippage <= MAX_SLIPPAGE_BPS && p.ceiling.coefficient > 0 && (p.xrp ==> p.ceiling.exponent == 0)
  }

  // ---- drops ----

  // `compute_send_max_drops` and the XRP branch of `_parse_alternative`.
  function SendMaxDrops(drops: nat, slippage: nat): nat { (drops * (10_000 + slippage) + 9_999) / 10_000 }

  // The result is the least whole number of drops that covers the quote with its slippage.
  lemma SendMaxDropsIsLeast(drops: nat, slippage: nat, n: nat)
    ensures n * 10_000 >= drops * (10_000 + slippage) <==> n >= SendMaxDrops(drops, slippage)
  {
    var q := drops * (10_000 + slippage);
    assert SendMaxDrops(drops, slippage) == (q + 9_999) / 10_000;
  }

  // ---- issued amounts ----

  // `_apply_decimal_slippage`: exact in the hundred digits of precision that the code sets.
  function Slipped(quote: Dec, slippage: nat): Dec { Dec(quote.coefficient * (10_000 + slippage), quote.exponent - 4) }

  // `quantize` to the last of `digits` significant digits, rounding up.
  function RoundUp(d: Dec, digits: nat): Dec
    requires d.coefficient > 0
  {
    var n := |Text(d.coefficient)|;
    if n <= digits then Dec(d.coefficient * Pow10(digits - n), d.exponent - (digits - n))
    else
      var unit := Pow10(n - digits);
      Dec((d.coefficient + unit - 1) / unit, d.exponent + n - digits)
  }

  ghost predicate Fits(d: Dec, digits: nat) {
    exists c: nat, e: int :: c < Pow10(digits) && Same(d, Dec(c, e))
  }

  lemma CeilingDivision(c: nat, unit: nat)
    requires unit > 0
    ensures var q := (c + unit - 1) / unit; c <= q * unit < c + unit
  {
    var q := (c + unit - 1) / unit;
    assert c + unit - 1 == q * unit + (c + unit - 1) % unit;
  }

  // An integer quotient is pinned down by products.
  lemma QuotientBounds(q: int, low: int, high: int, unit: int)
    requires unit > 0 && (low - 1) * unit < q * unit < (high + 1) * unit
    ensures low <= q <= high
  {
    if q < low { MulMonotone(q, low - 1, unit); }
    if q > high { MulMonotone(high + 1, q, unit); }
  }

  // The rounded coefficient has exactly that many digits, or is the power of ten that a carry produces.
  lemma RoundUpCoefficient(d: Dec, digits: nat)
    requires d.coefficient > 0 && digits > 0
    ensures Pow10(digits - 1) <= RoundUp(d, digits).coefficient <= Pow10(digits)
  {
    hide Pow10;
    var c, n := d.coefficient, |Text(d.coefficient)|;
    TextLength(c);
    if n <= digits {
      var up := Pow10(digits - n);
      Pow10Add(n - 1, digits - n);
      Pow10Add(n, digits - n);
      MulMonotone(Pow10(n - 1), c, up);
      MulMonotone(c, Pow10(n), up);
    } else {
      var unit := Pow10(n - digits);
      var q, low, high := RoundUp(d, digits).coefficient, Pow10(digits - 1), Pow10(digits);
      Pow10Add(digits - 1, n - digits);
      Pow10Add(digits, n - digits);
      CeilingDivision(c, unit);
      Distribute(low, unit);
      Distribute(high, unit);
      QuotientBounds(q, low, high, unit);
    }
  }

  lemma Distribute(x: int, unit: int)
    ensures (x - 1) * unit == x * unit - unit && (x + 1) * unit == x * unit + unit
  {
  }

  // Rounding never goes below the exact value and stays within one unit of the last digit kept, which
  // is as far right of the first digit as there are digits to keep.
  lemma RoundUpIsClose(d: Dec, digits: nat)
    requires d.coefficient > 0
    ensures var r := RoundUp(d, digits); var m := MinExponent(d, r);
            r.exponent + digits == d.exponent + |Text(d.coefficient)| &&
            Scaled(d, m) <= Scaled(r, m) < Scaled(d, m) + Scaled(Dec(1, r.exponent), m)
  {
    var n := |Text(d.coefficient)|;
    if n > digits { CeilingDivision(d.coefficient, Pow10(n - digits)); }
  }

  lemma RoundUpFits(d: Dec, digits: nat)
    requires d.coefficient > 0 && digits > 0
    ensures Fits(RoundUp(d, digits), digits)
  {
    var r := RoundUp(d, digits);
    RoundUpCoefficient(d, digits);
    if r.coefficient < Pow10(digits) {
      assert Same(r, Dec(r.coefficient, r.exponent));
    } else {
      var one := Dec(1, r.exponent + digits);
      Pow10Grows(1, digits);
      assert Pow10(1) == 10 * Pow10(0);
      assert Scaled(one, r.exponent) == r.coefficient == Scaled(r, r.exponent);
      assert Same(r, one);
    }
  }

  // No number of that many significant digits lies between the exact value and the rounded one.
  lemma RoundUpIsLeast(d: Dec, digits: nat, c: nat, e: int)
    requires d.coefficient > 0 && digits > 0 && c < Pow10(digits) && Le(d, Dec(c, e))
    ensures Le(RoundUp(d, digits), Dec(c, e))
  {
    var r, x := RoundUp(d, digits), Dec(c, e);
    RoundUpIsClose(d, digits);
    if r.exponent <= e {
      MultipleAbove(d, r, x);
    } else if |Text(d.coefficient)| <= digits {
      assert Le(r, d);
      LeTransitive(r, d, x);
    } else {
      FinerIsSmaller(d, digits, x);
      assert false;
    }
  }

  // A multiple of the rounding unit that reaches the exact value reaches the rounded one.
  lemma MultipleAbove(d: Dec, r: Dec, x: Dec)
    requires r.exponent <= x.exponent && Le(d, x)
    requires var m := MinExponent(d, r); Scaled(r, m) < Scaled(d, m) + Scaled(Dec(1, r.exponent), m)
    ensures Le(r, x)
  {
    var m := MinExponent(d, r);
    var k := Scaled(x, r.exponent);
    LeAtScale(d, x, m);
    ScaledFurther(x, r.exponent, r.exponent - m);
    var unit := Pow10(r.exponent - m);
    assert Scaled(r, m) == r.coefficient * unit && Scaled(x, m) == k * unit;
    if r.coefficient > k { MulMonotone(k + 1, r.coefficient, unit); }
    LeAtScale(r, x, r.exponent);
    assert Scaled(r, r.exponent) == r.coefficient;
  }

  // A value with more digits than are kept exceeds every number of so many digits on a finer scale.
  lemma FinerIsSmaller(d: Dec, digits: nat, x: Dec)
    requires digits > 0 && |Text(d.coefficient)| > digits && d.coefficient > 0
    requires x.coefficient < Pow10(digits) && x.exponent < d.exponent + |Text(d.coefficient)| - digits
    ensures !Le(d, x)
  {
    hide Pow10;
    var n := |Text(d.coefficient)|;
    var m := MinExponent(d, x);
    TextLength(d.coefficient);
    // d >= 10^(n - 1) on its own scale, x < 10^digits on its own.
    Pow10Add(n - 1, d.exponent - m);
    MulMonotone(Pow10(n - 1), d.coefficient, Pow10(d.exponent - m));
    Pow10Add(digits, x.exponent - m);
    StrictlyMonotone(x.coefficient, Pow10(digits), Pow10(x.exponent - m));
    Pow10Grows(digits + x.exponent - m, n - 1 + d.exponent - m);
  }

  lemma StrictlyMonotone(x: int, y: int, p: int)
    requires x < y && p > 0
    ensures x * p < y * p
  {
  }

  // ---- choosing a route ----

  // The SendMax text for a quote: `str(buffered_drops)`, or `_format_issued_value_ceiling`.
  function SendMax(p: Policy, quote: Dec): string
    requires quote.coefficient > 0
  {
    if p.xrp then Text(SendMaxDrops(quote.coefficient, p.slippage))
    else Fixed(RoundUp(Slipped(quote, p.slippage), SIGNIFICANT_DIGITS))
  }

  // Drops quotes are whole numbers.
  predicate IsQuote(p: Policy, a: Alternative) {
    a.Quote? && a.amount.coefficient > 0 && (p.xrp ==> a.amount.exponent == 0)
  }

  // What holds of a SendMax text: it denotes at least the quote with its slippage, and it is the least
  // such number that the ledger can express (whole drops, or sixteen significant digits).
  ghost predicate Covers(p: Policy, quote: Dec, text: string) {
    && IsPlain(text)
    && Le(Slipped(quote, p.slippage), Read(text))
    && (p.xrp ==>
          && Read(text).exponent == 0
          && forall n: nat | Le(Slipped(quote, p.slippage), Dec(n, 0)) :: Le(Read(text), Dec(n, 0)))
    && (!p.xrp ==>
          && Fits(Read(text), SIGNIFICANT_DIGITS)
          && forall c: nat, e: int | c < Pow10(SIGNIFICANT_DIGITS) && Le(Slipped(quote, p.slippage), Dec(c, e)) ::
               Le(Read(text), Dec(c, e)))
  }

  // The accepted quotes with their texts, or nothing once one alternative is malformed or too dear.
  function ParseAll(p: Policy, alternatives: seq<Alternative>): (r: Option<seq<(Dec, string)>>)
    ensures r.Some? ==> |r.value| == |alternatives|
  {
    if alternatives == [] then Some([])
    else if !IsQuote(p, alternatives[0]) then None
    else
      var text := SendMax(p, alternatives[0].amount);
      var rest := ParseAll(p, alternatives[1..]);
      if !IsPlain(text) || !Le(Read(text), p.ceiling) || rest.None? then None
      else Some([(alternatives[0].amount, text)] + rest.value)
  }

  // Python's `min` by quote: the first of the cheapest.
  function Cheapest(resolved: seq<(Dec, string)>): (r: (Dec, string))
    requires resolved != []
    decreases |resolved|
  {
    var n := |resolved| - 1;
    if n == 0 then resolved[0]
    else
      var best := Cheapest(resolved[..n]);
      if Le(best.0, resolved[n].0) then best else resolved[n]
  }

  function Resolve(p: Policy, alternatives: seq<Alternative>): Option<string> {
    var resolved := ParseAll(p, alternatives);
    if resolved.None? || resolved.value == [] then None else Some(Cheapest(resolved.value).1)
  }

  // The direct route quotes the destination amount at the issuer's transfer rate (parts per billion).
  function ResolveDirect(p: Policy, destination: Dec, rate: nat): Option<string>
    requires destination.coefficient > 0 && rate > 0
  {
    var text := SendMax(p, Dec(destination.coefficient * rate, destination.exponent - 9));
    if IsPlain(text) && Le(Read(text), p.ceiling) then Some(text) else None
  }

  lemma XrpCovers(p: Policy, quote: Dec)
    requires p.xrp && quote.coefficient > 0 && quote.exponent == 0
    ensures Covers(p, quote, SendMax(p, quote))
  {
    var drops := SendMaxDrops(quote.coefficient, p.slippage);
    ReadPoint(Text(drops), "");
    forall n: nat ensures Le(Slipped(quote, p.slippage), Dec(n, 0)) <==> n >= drops {
      SendMaxDropsIsLeast(quote.coefficient, p.slippage, n);
      assert Pow10(4) == 10_000;
    }
  }

  lemma IssuedCovers(p: Policy, quote: Dec)
    requires !p.xrp && quote.coefficient > 0
    ensures Covers(p, quote, SendMax(p, quote))
  {
    var exact := Slipped(quote, p.slippage);
    SlippedPositive(quote, p.slippage);
    RoundedCovers(exact, SIGNIFICANT_DIGITS);
  }

  lemma SlippedPositive(quote: Dec, slippage: nat)
    requires quote.coefficient > 0
    ensures Slipped(quote, slippage).coefficient > 0
  {
  }

  lemma RoundedCovers(exact: Dec, digits: nat)
    requires exact.coefficient > 0 && digits > 0
    ensures var text := Fixed(RoundUp(exact, digits));
            && IsPlain(text) && Le(exact, Read(text)) && Fits(Read(text), digits)
            && forall c: nat, e: int | c < Pow10(digits) && Le(exact, Dec(c, e)) :: Le(Read(text), Dec(c, e))
  {
    hide Le, Fixed, Read, IsPlain, Pow10, RoundUp;
    var r := RoundUp(exact, digits);
    RoundUpAbove(exact, digits);
    RoundUpFits(exact, digits);
    FixedReads(r);
    var x := Read(Fixed(r));
    LeTransitive(exact, r, x);
    forall c: nat, e: int | c < Pow10(digits) && Le(exact, Dec(c, e)) ensures Le(x, Dec(c, e)) {
      RoundUpIsLeast(exact, digits, c, e);
      LeTransitive(x, r, Dec(c, e));
    }
    var c: nat, e: int :| c < Pow10(digits) && Same(r, Dec(c, e));
    LeTransitive(x, r, Dec(c, e));
    LeTransitive(Dec(c, e), r, x);
    assert Same(x, Dec(c, e));
  }

  lemma RoundUpAbove(d: Dec, digits: nat)
    requires d.coefficient > 0
    ensures Le(d, RoundUp(d, digits))
  {
    RoundUpIsClose(d, digits);
  }

  lemma SendMaxCovers(p: Policy, quote: Dec)
    requires quote.coefficient > 0 && (p.xrp ==> quote.exponent == 0)
    ensures Covers(p, quote, SendMax(p, quote))
  {
    if p.xrp { XrpCovers(p, quote); } else { IssuedCovers(p, quote); }
  }

  // One alternative is accepted exactly when it is well formed and its own SendMax is within the ceiling.
  predicate Accepted(p: Policy, a: Alternative) {
    IsQuote(p, a) && IsPlain(SendMax(p, a.amount)) && Le(Read(SendMax(p, a.amount)), p.ceiling)
  }

  lemma {:induction false} ParseAllAccepts(p: Policy, alternatives: seq<Alternative>)
    ensures ParseAll(p, alternatives).Some? <==> forall i | 0 <= i < |alternatives| :: Accepted(p, alternatives[i])
    ensures ParseAll(p, alternatives).Some? ==>
              forall i | 0 <= i < |alternatives| ::
                IsQuote(p, alternatives[i])
                && ParseAll(p, alternatives).value[i] == (alternatives[i].amount, SendMax(p, alternatives[i].amount))
  {
    hide SendMax, Le, IsPlain, Read;
    if alternatives != [] {
      var rest := alternatives[1..];
      ParseAllAccepts(p, rest);
      assert forall i | 0 < i < |alternatives| :: alternatives[i] == rest[i - 1];
      assert forall i | 0 <= i < |rest| :: rest[i] == alternatives[i + 1];
    }
  }

  lemma {:induction false} CheapestIsFirst(resolved: seq<(Dec, string)>) returns (i: nat)
    requires resolved != []
    ensures i < |resolved| && Cheapest(resolved) == resolved[i]
    ensures forall j | 0 <= j < |resolved| :: Le(resolved[i].0, resolved[j].0)
    ensures forall j | 0 <= j < i :: !Le(resolved[j].0, resolved[i].0)
    decreases |resolved|
  {
    hide Le;
    var n := |resolved| - 1;
    if n == 0 {
      LeTotal(resolved[0].0, resolved[0].0);
      return 0;
    }
    var k := CheapestIsFirst(resolved[..n]);
    var best := resolved[k].0;
    if Le(best, resolved[n].0) { return k; }
    LeTotal(best, resolved[n].0);
    LeTotal(resolved[n].0, resolved[n].0);
    forall j | 0 <= j < n ensures Le(resolved[n].0, resolved[j].0) && !Le(resolved[j].0, resolved[n].0) {
      LeTransitive(resolved[n].0, best, resolved[j].0);
      if Le(resolved[j].0, resolved[n].0) { LeTransitive(best, resolved[j].0, resolved[n].0); }
    }
    i := n;
  }

  // Whatever the quotes: resolution succeeds exactly when there are alternatives and every one of them,
  // not just the cheapest, is well formed and within the ceiling; it then answers the SendMax of the
  // first cheapest quote, which covers that quote with its slippage and stays within the ceiling.
  lemma ResolveIsBounded(p: Policy, alternatives: seq<Alternative>)
    requires IsPolicy(p)
    ensures Resolve(p, alternatives).Some? <==>
              alternatives != [] && forall i | 0 <= i < |alternatives| :: Accepted(p, alternatives[i])
    ensures Resolve(p, alternatives).Some? ==>
              exists i | 0 <= i < |alternatives| ::
                && IsQuote(p, alternatives[i])
                && Resolve(p, alternatives).value == SendMax(p, alternatives[i].amount)
                && Covers(p, alternatives[i].amount, Resolve(p, alternatives).value)
                && Le(Read(Resolve(p, alternatives).value), p.ceiling)
                && (forall j | 0 <= j < |alternatives| ::
                      alternatives[j].Quote? && Le(alternatives[i].amount, alternatives[j].amount))
                && (forall j | 0 <= j < i :: !Le(alternatives[j].amount, alternatives[i].amount))
  {
    hide SendMax, Le, IsPlain, Read, Covers;
    ParseAllAccepts(p, alternatives);
    var resolved := ParseAll(p, alternatives);
    if resolved.Some? && resolved.value != [] {
      var i := CheapestIsFirst(resolved.value);
      SendMaxCovers(p, alternatives[i].amount);
      assert Accepted(p, alternatives[i]);
      forall j | 0 <= j < |alternatives|
        ensures alternatives[j].Quote? && Le(alternatives[i].amount, alternatives[j].amount)
        ensures j < i ==> !Le(alternatives[j].amount, alternatives[i].amount)
      {
        assert resolved.value[j].0 == alternatives[j].amount;
      }
    }
  }

  // The direct route is bounded in the same way by the transfer-rated amount.
  lemma DirectIsBounded(p: Policy, destination: Dec, rate: nat)
    requires IsPolicy(p) && !p.xrp && destination.coefficient > 0 && rate > 0
    ensures var quote := Dec(destination.coefficient * rate, destination.exponent - 9);
            var r := ResolveDirect(p, destination, rate);
            && quote.coefficient > 0
            && Covers(p, quote, SendMax(p, quote))
            && (r.Some? <==> Le(Read(SendMax(p, quote)), p.ceiling))
            && (r.Some? ==> r.value == SendMax(p, quote))
  {
    hide SendMax, Le, IsPlain, Read;
    assert destination.coefficient * rate > 0;
    SendMaxCovers(p, Dec(destination.coefficient * rate, destination.exponent - 9));
  }
}
