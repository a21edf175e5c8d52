// The cumulative high-water rule of packages/core paychannel.py: a pure decision that a store
// takes inside its compare-and-set callback.
module HighWater {
  import opened Options
  import opened DropAmounts

  const MAX_CLAIM_SIGNATURE_LENGTH := 144

  datatype Error =
    | ChannelNotFound | CorruptChannelState | ChannelFinalized | ChannelConflict
    | FundingRegression | ChannelExhausted | InvalidChannelState | ChannelStateChanged
    | RedeemedRegression | RedeemedExceedsCumulative
    | ValidationError | ValueError

  datatype Attempt<+T> = Ok(value: T) | Raised(error: Error)

  datatype Status = Advanced | Replay | Regressed | Short

  datatype Mark = Mark(cumulative: string, signature: string, timestamp: int)

  datatype Decision = Decision(status: Status, previous: string, state: Option<Mark>)

  predicate IsHexDigit(c: char) { IsDigit(c) || 'a' <= c <= 'f' || 'A' <= c <= 'F' }

  predicate IsHex(s: string) { forall i | 0 <= i < |s| :: IsHexDigit(s[i]) }

  predicate IsSignature(s: string) { 1 <= |s| <= MAX_CLAIM_SIGNATURE_LENGTH && IsHex(s) }

  predicate IsMark(m: Mark) {
    && IsDrops(m.cumulative)
    && |m.signature| <= MAX_CLAIM_SIGNATURE_LENGTH && IsHex(m.signature)
    && m.timestamp >= 0
    && (Value(m.cumulative) > 0 ==> m.signature != "")
  }

  // What the stored mark is worth; an absent mark counts as zero.
  function Previous(current: Option<Mark>): nat
    requires current.Some? ==> IsMark(current.value)
  {
    if current.Some? then Value(current.value.cumulative) else 0
  }

  function Evaluate(current: Option<Mark>, cumulative: string, requested: string, signature: string, timestamp: int)
    : Attempt<Decision>
    requires current.Some? ==> IsMark(current.value)
  {
    if !IsDrops(cumulative) || !IsDrops(requested) then Raised(ValueError)
    else
      var now := Value(cumulative);
      var asked := Value(requested);
      var previous := Previous(current);
      var text := Text(previous);
      if now == previous then Ok(Decision(Replay, text, None))
      else if now < previous then Ok(Decision(Regressed, text, None))
      else if asked > 0 && now < previous + asked then Ok(Decision(Short, text, None))
      else
        var state := Mark(cumulative, signature, timestamp);
        if IsMark(state) then Ok(Decision(Advanced, text, Some(state))) else Raised(ValidationError)
  }

  lemma HexDigitsAre(c: char)
    ensures IsHexDigit(c) <==> c in "0123456789abcdefABCDEF"
  {
  }

  // The decision advances exactly when the claim strictly exceeds the stored mark and pays for the
  // whole request on top of it; a rejected decision never carries a state, an advanced one carries
  // the caller's claim, and the reported previous amount always denotes the stored mark.
  lemma EvaluateSpecification(current: Option<Mark>, cumulative: string, requested: string, signature: string,
                              timestamp: int)
    requires current.Some? ==> IsMark(current.value)
    requires IsDrops(cumulative) && IsDrops(requested)
    requires 1 <= |signature| <= 144 && IsHex(signature) && timestamp >= 0
    ensures var d := Evaluate(current, cumulative, requested, signature, timestamp);
            var previous := if current.Some? then Value(current.value.cumulative) else 0;
            && d.Ok?
            && IsDrops(d.value.previous) && Value(d.value.previous) == previous
            && (d.value.status.Advanced? <==>
                  Value(cumulative) > previous && Value(cumulative) >= previous + Value(requested))
            && (d.value.status.Replay? <==> Value(cumulative) == previous)
            && (d.value.status.Regressed? <==> Value(cumulative) < previous)
            && d.value.state == if d.value.status.Advanced? then Some(Mark(cumulative, signature, timestamp)) else None
  {
    if current.Some? {
      TextIsShortest(current.value.cumulative);
    } else {
      assert Text(0) == "0";
    }
  }

  // Amounts that are no drops are refused before anything else; a signature or a time that the mark cannot
  // hold is refused exactly where the claim would advance.
  lemma EvaluateRefuses(current: Option<Mark>, cumulative: string, requested: string, signature: string,
                        timestamp: int)
    requires current.Some? ==> IsMark(current.value)
    ensures var d := Evaluate(current, cumulative, requested, signature, timestamp);
            var previous := if current.Some? then Value(current.value.cumulative) else 0;
            if !IsDrops(cumulative) || !IsDrops(requested) then d == Raised(ValueError)
            else
              (d == Raised(ValidationError) <==>
                 && Value(cumulative) > previous && Value(cumulative) >= previous + Value(requested)
                 && !(1 <= |signature| <= 144 && IsHex(signature) && timestamp >= 0))
              && (d.Raised? ==> d.error == ValidationError)
  {
  }
}
