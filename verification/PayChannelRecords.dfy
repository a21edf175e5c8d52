// The durable PayChannel record and the pure record-to-record mutations that both stores run.
module PayChannelRecords {
  import opened Clocks
  import opened Options
  import opened DropAmounts
  import opened HighWater

  const MAX_REASON_LENGTH := 256
  const MAX_REFERENCE_LENGTH := 512

  datatype Record = Record(
    network: string, channelId: string, payer: string, recipient: string,
    funded: string, cumulative: string, signature: string, redeemed: string,
    createdAt: int, updatedAt: int,
    finalized: bool, finalizedAt: Option<int>, finalizedReason: Option<string>,
    redeemedAt: Option<int>, redemptionReference: Option<string>)

  datatype Key = Key(network: string, channelId: string)

  function Upper(s: string): (u: string)
    ensures |u| == |s|
    ensures IsHex(s) ==> IsHex(u)
  {
    seq(|s|, i requires 0 <= i < |s| => if 'a' <= s[i] <= 'z' then s[i] - 32 as char else s[i])
  }

  // Upper case ignores the case of ASCII letters and nothing else.
  lemma UpperIgnoresCase(s: string, t: string)
    ensures Upper(s) == Upper(t) <==>
              |s| == |t| && forall i | 0 <= i < |s| ::
                s[i] == t[i] || ('a' <= s[i] <= 'z' && s[i] as int == t[i] as int + 32)
                || ('a' <= t[i] <= 'z' && t[i] as int == s[i] as int + 32)
  {
    if Upper(s) == Upper(t) {
      assert |s| == |Upper(s)| == |t|;
      forall i | 0 <= i < |s|
        ensures s[i] == t[i] || ('a' <= s[i] <= 'z' && s[i] as int == t[i] as int + 32)
                || ('a' <= t[i] <= 'z' && t[i] as int == s[i] as int + 32)
      {
        assert Upper(s)[i] == Upper(t)[i];
      }
    }
  }

  lemma UpperIsUpper(s: string, i: nat)
    requires i < |s|
    ensures !('a' <= Upper(s)[i] <= 'z') && ('A' <= s[i] <= 'Z' ==> Upper(s)[i] == s[i])
  {
  }

  predicate IsChannelId(s: string) { |s| == 64 && IsHex(s) }

  function KeyOf(network: string, channelId: string): Key { Key(network, Upper(channelId)) }

  // The per-field constraints of the Pydantic model.
  predicate WellTyped(r: Record) {
    && IsChannelId(r.channelId)
    && IsDrops(r.funded) && IsDrops(r.cumulative) && IsDrops(r.redeemed)
    && |r.signature| <= MAX_CLAIM_SIGNATURE_LENGTH && IsHex(r.signature)
    && r.createdAt >= 0 && r.updatedAt >= 0
    && (r.finalizedAt.Some? ==> r.finalizedAt.value >= 0)
    && (r.finalizedReason.Some? ==> |r.finalizedReason.value| <= MAX_REASON_LENGTH)
    && (r.redeemedAt.Some? ==> r.redeemedAt.value >= 0)
    && (r.redemptionReference.Some? ==> |r.redemptionReference.value| <= MAX_REFERENCE_LENGTH)
  }

  // `_validate_accounting`.
  predicate Accounted(r: Record)
    requires WellTyped(r)
  {
    && Value(r.funded) > 0
    && Value(r.cumulative) <= Value(r.funded)
    && Value(r.redeemed) <= Value(r.cumulative)
    && (Value(r.cumulative) > 0 ==> r.signature != "")
    && r.updatedAt >= r.createdAt
    && r.finalized == r.finalizedAt.Some?
    && (r.finalizedReason.Some? ==> r.finalized)
    && (r.finalizedAt.Some? ==> r.createdAt <= r.finalizedAt.value <= r.updatedAt)
    && (Value(r.redeemed) > 0 ==> r.redeemedAt.Some?)
    && (r.redemptionReference.Some? ==> r.redeemedAt.Some?)
    && (r.redeemedAt.Some? ==> r.createdAt <= r.redeemedAt.value <= r.updatedAt)
  }

  // A record that a validation pass produced: normalized, well typed, and its accounting adds up.
  predicate Valid(r: Record) {
    && WellTyped(r) && Accounted(r)
    && r.channelId == Upper(r.channelId) && r.signature == Upper(r.signature)
  }

  // `PayChannelRecord.model_validate`.
  function Validate(r: Record): (a: Attempt<Record>)
    ensures Valid(r) ==> a == Ok(r)
    ensures a.Ok? ==> Valid(a.value)
  {
    var n := r.(channelId := Upper(r.channelId), signature := Upper(r.signature));
    UpperIdempotent(r.channelId);
    UpperIdempotent(r.signature);
    if WellTyped(n) && Accounted(n) then Ok(n) else Raised(ValidationError)
  }

  lemma UpperIdempotent(s: string)
    ensures Upper(Upper(s)) == Upper(s)
  {
  }

  predicate IsUpperHex(s: string) {
    forall i | 0 <= i < |s| :: '0' <= s[i] <= '9' || 'A' <= s[i] <= 'F'
  }

  predicate IsDropsText(s: string) { 1 <= |s| <= 20 && forall i | 0 <= i < |s| :: '0' <= s[i] <= '9' }

  // What a record says of its end and of its last settlement, in terms of its lifetime.
  predicate IsDated(r: Record) {
    && 0 <= r.createdAt <= r.updatedAt
    && (r.finalizedAt.Some? ==> r.createdAt <= r.finalizedAt.value <= r.updatedAt)
    && (r.redeemedAt.Some? ==> r.createdAt <= r.redeemedAt.value <= r.updatedAt)
    && (r.finalized <==> r.finalizedAt.Some?)
    && (r.finalizedReason.Some? ==> r.finalized && |r.finalizedReason.value| <= 256)
    && (r.redemptionReference.Some? ==> r.redeemedAt.Some? && |r.redemptionReference.value| <= 512)
  }

  // The records that pass validation as they are, character by character.
  lemma ValidatesAsItIs(r: Record)
    ensures Validate(r) == Ok(r) <==>
              && |r.channelId| == 64 && IsUpperHex(r.channelId)
              && |r.signature| <= 144 && IsUpperHex(r.signature)
              && IsDropsText(r.funded) && IsDropsText(r.cumulative) && IsDropsText(r.redeemed)
              && Value(r.redeemed) <= Value(r.cumulative) <= Value(r.funded) && Value(r.funded) > 0
              && (Value(r.cumulative) > 0 ==> r.signature != "")
              && (Value(r.redeemed) > 0 ==> r.redeemedAt.Some?)
              && IsDated(r)
  {
    hide Value;
    UpperHex(r.channelId);
    UpperHex(r.signature);
    UpperIdempotent(r.channelId);
    UpperIdempotent(r.signature);
  }

  lemma UpperHex(s: string)
    ensures IsUpperHex(s) <==> IsHex(s) && Upper(s) == s
  {
    if IsHex(s) && Upper(s) == s {
      forall i | 0 <= i < |s| ensures '0' <= s[i] <= '9' || 'A' <= s[i] <= 'F' { assert Upper(s)[i] == s[i]; }
    }
  }

  function MarkOf(r: Record): Mark { Mark(r.cumulative, r.signature, r.updatedAt) }

  // ---- what a caller asks a store to do, and what it hears back ----

  datatype Op =
    | Create(record: Record)
    | Get(network: string, channelId: string)
    | Advance(network: string, channelId: string, cumulative: string, requested: string,
              signature: string, funded: Option<string>, timestamp: int)
    | MarkRedeemed(network: string, channelId: string, cumulative: string,
                   reference: Option<string>, timestamp: int)
    | Finalize(network: string, channelId: string, reason: string,
               expected: Option<string>, timestamp: int)

  datatype Answer =
    | Created(created: bool, record: Record)
    | Found(found: Option<Record>)
    | AdvanceResult(status: Status, previous: string, exactReplay: bool, record: Record)
    | Updated(record: Record)
    | Failed(error: Error)

  // The answer of one mutation and the record it stores, if it stores one.
  datatype Effect = Effect(answer: Answer, write: Option<Record>)

  function KeyFor(op: Op): Key {
    if op.Create? then KeyOf(op.record.network, op.record.channelId) else KeyOf(op.network, op.channelId)
  }

  // A positive drops string of any length: unlike `Drops`, the funding check has no digit limit.
  predicate IsFunding(s: string) { s != "" && IsDigits(s) && Value(s) > 0 }

  // The argument checks made once, before the compare-and-set callback exists.
  function Refusal(op: Op): Option<Error> {
    match op
    case Create(record) => if Valid(record) then None else Some(ValidationError)
    case Get(_, channelId) => if IsChannelId(channelId) then None else Some(ValidationError)
    case Advance(_, channelId, cumulative, _, signature, funded, _) =>
      if !IsChannelId(channelId) || !IsDrops(cumulative) || !IsSignature(signature) then Some(ValidationError)
      else if funded.Some? && !IsFunding(funded.value) then Some(InvalidChannelState)
      else None
    case MarkRedeemed(_, channelId, cumulative, _, _) =>
      if !IsChannelId(channelId) || !IsDrops(cumulative) then Some(ValidationError) else None
    case Finalize(_, channelId, reason, expected, _) =>
      if !IsChannelId(channelId) then Some(ValidationError)
      else if reason == "" then Some(ValueError)
      else if expected.Some? && !IsDrops(expected.value) then Some(ValidationError)
      else None
  }

  // `_require_record`.
  function Require(current: Option<Record>, network: string, channelId: string): Attempt<Record> {
    if current.None? then Raised(ChannelNotFound)
    else if current.value.network != network || current.value.channelId != Upper(channelId) then
      Raised(CorruptChannelState)
    else Ok(current.value)
  }

  // The funding step of `_advance_mutation`: the record with any larger validated funding.
  function Refund(r: Record, funded: Option<string>): Attempt<Record>
    requires Valid(r) && (funded.Some? ==> IsFunding(funded.value))
  {
    if funded.None? || funded.value == r.funded then Ok(r)
    else if Value(funded.value) < Value(r.funded) then Raised(FundingRegression)
    else Validate(r.(funded := funded.value))
  }

  function AdvanceEffect(op: Op, current: Option<Record>): Effect
    requires op.Advance? && Refusal(op).None?
    requires current.Some? ==> Valid(current.value)
  {
    var required := Require(current, op.network, op.channelId);
    if required.Raised? then Effect(Failed(required.error), None)
    else if required.value.finalized then Effect(Failed(ChannelFinalized), None)
    else
      var refunded := Refund(required.value, op.funded);
      if refunded.Raised? then Effect(Failed(refunded.error), None)
      else
        var r := refunded.value;
        if Value(op.cumulative) > Value(r.funded) then Effect(Failed(ChannelExhausted), None)
        else
          var decided := Evaluate(Some(MarkOf(r)), op.cumulative, op.requested, op.signature,
                                  Max(r.updatedAt, op.timestamp));
          if decided.Raised? then Effect(Failed(decided.error), None)
          else if decided.value.state.None? then
            var exact := decided.value.status.Replay? && r.cumulative == op.cumulative
                         && Upper(r.signature) == Upper(op.signature);
            Effect(AdvanceResult(decided.value.status, decided.value.previous, exact, r),
                   if r != required.value then Some(r) else None)
          else
            var mark := decided.value.state.value;
            var updated := Validate(r.(cumulative := mark.cumulative, signature := mark.signature,
                                       updatedAt := mark.timestamp));
            if updated.Raised? then Effect(Failed(updated.error), None)
            else Effect(AdvanceResult(Advanced, decided.value.previous, false, updated.value), Some(updated.value))
  }

  function RedeemEffect(op: Op, current: Option<Record>): Effect
    requires op.MarkRedeemed? && Refusal(op).None?
    requires current.Some? ==> Valid(current.value)
  {
    var required := Require(current, op.network, op.channelId);
    if required.Raised? then Effect(Failed(required.error), None)
    else
      var r := required.value;
      if Value(op.cumulative) < Value(r.redeemed) then Effect(Failed(RedeemedRegression), None)
      else if Value(op.cumulative) > Value(r.cumulative) then Effect(Failed(RedeemedExceedsCumulative), None)
      else if Value(op.cumulative) == Value(r.redeemed) then Effect(Updated(r), None)
      else
        var at := Max(r.updatedAt, op.timestamp);
        var updated := Validate(r.(redeemed := op.cumulative, redeemedAt := Some(at),
                                   redemptionReference := op.reference, updatedAt := at));
        if updated.Raised? then Effect(Failed(updated.error), None)
        else Effect(Updated(updated.value), Some(updated.value))
  }

  function FinalizeEffect(op: Op, current: Option<Record>): Effect
    requires op.Finalize? && Refusal(op).None?
    requires current.Some? ==> Valid(current.value)
  {
    var required := Require(current, op.network, op.channelId);
    if required.Raised? then Effect(Failed(required.error), None)
    else
      var r := required.value;
      if op.expected.Some? && r.cumulative != op.expected.value then Effect(Failed(ChannelStateChanged), None)
      else if r.finalized then Effect(Updated(r), None)
      else
        var at := Max(r.updatedAt, op.timestamp);
        var updated := Validate(r.(finalized := true, finalizedAt := Some(at),
                                   finalizedReason := Some(op.reason), updatedAt := at));
        if updated.Raised? then Effect(Failed(updated.error), None)
        else Effect(Updated(updated.value), Some(updated.value))
  }

  function CreateEffect(record: Record, current: Option<Record>): Effect {
    if current.None? then Effect(Created(true, record), Some(record))
    else if current.value == record then Effect(Created(false, record), None)
    else Effect(Failed(ChannelConflict), None)
  }

  // One store operation on the record it finds under its key.
  function Mutate(op: Op, current: Option<Record>): Effect
    requires current.Some? ==> Valid(current.value)
  {
    var refusal := Refusal(op);
    if refusal.Some? then Effect(Failed(refusal.value), None)
    else
      match op
      case Create(record) => CreateEffect(record, current)
      case Get(_, _) => Effect(Found(current), None)
      case Advance(_, _, _, _, _, _, _) => AdvanceEffect(op, current)
      case MarkRedeemed(_, _, _, _, _) => RedeemEffect(op, current)
      case Finalize(_, _, _, _, _) => FinalizeEffect(op, current)
  }

  // ---- how a record may change over its life ----

  predicate SameParties(a: Record, b: Record) {
    a.network == b.network && a.channelId == b.channelId && a.payer == b.payer
    && a.recipient == b.recipient && a.createdAt == b.createdAt
  }

  // `b` is a possible later state of the record `a`: no amount or clock falls, the claim only changes
  // when its number strictly rises, and finalization freezes the claim and the funding for good.
  predicate Evolves(a: Record, b: Record)
    requires Valid(a) && Valid(b)
  {
    && SameParties(a, b)
    && Value(a.funded) <= Value(b.funded)
    && Value(a.cumulative) <= Value(b.cumulative)
    && Value(a.redeemed) <= Value(b.redeemed)
    && a.updatedAt <= b.updatedAt
    && (Value(a.cumulative) == Value(b.cumulative) ==> a.cumulative == b.cumulative && a.signature == b.signature)
    && (a.finalized ==>
          && b.finalized && b.finalizedAt == a.finalizedAt && b.finalizedReason == a.finalizedReason
          && b.cumulative == a.cumulative && b.signature == a.signature && b.funded == a.funded)
  }

  lemma EvolvesReflexive(a: Record)
    requires Valid(a)
    ensures Evolves(a, a)
  {
  }

  lemma EvolvesTransitive(a: Record, b: Record, c: Record)
    requires Valid(a) && Valid(b) && Valid(c) && Evolves(a, b) && Evolves(b, c)
    ensures Evolves(a, c)
  {
  }

  lemma RefundValid(r: Record, funded: Option<string>)
    requires Valid(r) && (funded.Some? ==> IsFunding(funded.value))
    ensures var f := Refund(r, funded);
            if f.Ok? then
              Valid(f.value) && f.value == r.(funded := f.value.funded) && Value(f.value.funded) >= Value(r.funded)
              && (funded.Some? ==> f.value.funded == funded.value)
            else
              && funded.Some?
              && f.error == if Value(funded.value) < Value(r.funded) then FundingRegression else ValidationError
    ensures Refund(r, funded) == Raised(ValidationError) <==>
            funded.Some? && Value(funded.value) >= Value(r.funded) && |funded.value| > MAX_DROPS_DIGITS
  {
    if funded.Some? && funded.value != r.funded && Value(funded.value) >= Value(r.funded) && IsDrops(funded.value) {
      assert Valid(r.(funded := funded.value));
    }
  }

  // Whatever the arguments and the caller's clock, a mutation that stores a record stores a valid one
  // under the same key, and that record is a possible later state of the one it replaces.
  lemma MutateKeepsRecords(op: Op, current: Option<Record>)
    requires current.Some? ==>
               Valid(current.value) && KeyOf(current.value.network, current.value.channelId) == KeyFor(op)
    ensures var e := Mutate(op, current);
            && (e.write.Some? ==>
                  && Valid(e.write.value)
                  && KeyOf(e.write.value.network, e.write.value.channelId) == KeyFor(op)
                  && (current.Some? ==> Evolves(current.value, e.write.value))
                  && (current.None? ==> op.Create? && e.write.value == op.record))
  {
    if Refusal(op).None? && current.Some? && op.Advance? {
      AdvanceKeepsRecords(op, current.value);
    }
  }

  lemma AdvanceKeepsRecords(op: Op, r: Record)
    requires op.Advance? && Refusal(op).None? && Valid(r)
    ensures var e := AdvanceEffect(op, Some(r));
            e.write.Some? ==> Valid(e.write.value) && Evolves(r, e.write.value)
  {
    if Require(Some(r), op.network, op.channelId).Ok? && !r.finalized {
      RefundValid(r, op.funded);
    }
  }

  // ---- exactly when each mutation succeeds, and what it then stores ----

  // The funding an advance works with.
  function FundingFor(op: Op, r: Record): string
    requires op.Advance?
  {
    if op.funded.Some? then op.funded.value else r.funded
  }

  // An advance succeeds exactly on an open channel, under funding that has not shrunk and fits the
  // drops format, for a claim within that funding that exceeds the stored one and pays for the request.
  lemma AdvanceSucceeds(op: Op, r: Record)
    requires op.Advance? && Refusal(op).None? && Valid(r) && IsDrops(op.requested)
    requires r.network == op.network && r.channelId == Upper(op.channelId)
    ensures var e := Mutate(op, Some(r)); var funding := FundingFor(op, r);
            (e.answer.AdvanceResult? && e.answer.status.Advanced?) <==>
              && !r.finalized
              && |funding| <= MAX_DROPS_DIGITS
              && Value(r.funded) <= Value(funding)
              && Value(op.cumulative) <= Value(funding)
              && Value(op.cumulative) > Value(r.cumulative)
              && Value(op.cumulative) >= Value(r.cumulative) + Value(op.requested)
    ensures var e := Mutate(op, Some(r));
            e.answer.AdvanceResult? && e.answer.status.Advanced? ==>
              && Value(e.answer.previous) == Value(r.cumulative)
              && e.write == Some(e.answer.record)
              && e.answer.record == r.(funded := FundingFor(op, r), cumulative := op.cumulative,
                                       signature := Upper(op.signature), updatedAt := Max(r.updatedAt, op.timestamp))
  {
    RefundValid(r, op.funded);
    var f := Refund(r, op.funded);
    if !r.finalized && f.Ok? && Value(op.cumulative) <= Value(f.value.funded) {
      EvaluateSpecification(Some(MarkOf(f.value)), op.cumulative, op.requested, op.signature,
                            Max(r.updatedAt, op.timestamp));
      if Value(op.cumulative) > Value(r.cumulative)
         && Value(op.cumulative) >= Value(r.cumulative) + Value(op.requested) {
        UpperIdempotent(op.signature);
        assert Valid(f.value.(cumulative := op.cumulative, signature := Upper(op.signature),
                              updatedAt := Max(r.updatedAt, op.timestamp)));
      }
    }
  }

  // An advance that is not accepted leaves the stored claim, its signature and its clock alone.
  lemma RejectedAdvanceKeepsClaim(op: Op, r: Record)
    requires op.Advance? && Refusal(op).None? && Valid(r)
    ensures var e := Mutate(op, Some(r));
            e.write.Some? && !(e.answer.AdvanceResult? && e.answer.status.Advanced?) ==>
              e.write.value == r.(funded := FundingFor(op, r)) && e.answer.AdvanceResult?
  {
    RefundValid(r, op.funded);
  }

  // Revalidating what a mutation built rejects it exactly when a text the caller supplied is longer
  // than its field: funding beyond twenty digits, an overlong reference, an overlong reason.
  lemma RevalidationRejectsExactly(op: Op, r: Record)
    requires Refusal(op).None? && Valid(r) && (op.Advance? || op.MarkRedeemed? || op.Finalize?)
    requires op.Advance? ==> IsDrops(op.requested)
    requires r.network == op.network && r.channelId == Upper(op.channelId)
    ensures Mutate(op, Some(r)).answer == Failed(ValidationError) <==>
              match op
              case Advance(_, _, _, _, _, funded, _) =>
                !r.finalized && funded.Some? && |funded.value| > MAX_DROPS_DIGITS
                && Value(funded.value) >= Value(r.funded)
              case MarkRedeemed(_, _, cumulative, reference, _) =>
                && Value(r.redeemed) < Value(cumulative) <= Value(r.cumulative)
                && reference.Some? && |reference.value| > MAX_REFERENCE_LENGTH
              case Finalize(_, _, reason, expected, _) =>
                !r.finalized && (expected.Some? ==> expected.value == r.cumulative) && |reason| > MAX_REASON_LENGTH
              case _ => false
  {
    if op.Advance? {
      AdvanceRejectsExactly(op, r);
    }
  }

  lemma AdvanceRejectsExactly(op: Op, r: Record)
    requires op.Advance? && Refusal(op).None? && Valid(r) && IsDrops(op.requested)
    requires r.network == op.network && r.channelId == Upper(op.channelId)
    ensures Mutate(op, Some(r)).answer == Failed(ValidationError) <==>
              !r.finalized && op.funded.Some? && |op.funded.value| > MAX_DROPS_DIGITS
              && Value(op.funded.value) >= Value(r.funded)
  {
    RefundValid(r, op.funded);
    var f := Refund(r, op.funded);
    if !r.finalized && f.Ok? && Value(op.cumulative) <= Value(f.value.funded) {
      AdvanceSucceeds(op, r);
      EvaluateSpecification(Some(MarkOf(f.value)), op.cumulative, op.requested, op.signature,
                            Max(r.updatedAt, op.timestamp));
    }
  }

  // ---- which error, and what recording and closing store ----

  // A settlement is recorded exactly for an amount between what is redeemed and what is claimed, with a reference
  // that fits; an amount already redeemed changes nothing, and each refusal has its own error.
  lemma RedeemSucceeds(op: Op, r: Record)
    requires op.MarkRedeemed? && Refusal(op).None? && Valid(r)
    requires r.network == op.network && r.channelId == Upper(op.channelId)
    ensures var e := Mutate(op, Some(r)); var amount := Value(op.cumulative);
            var at := if op.timestamp > r.updatedAt then op.timestamp else r.updatedAt;
            var paid := r.(redeemed := op.cumulative, redeemedAt := Some(at), redemptionReference := op.reference,
                           updatedAt := at);
            && (e.answer.Updated? <==>
                  && Value(r.redeemed) <= amount <= Value(r.cumulative)
                  && (amount == Value(r.redeemed) || op.reference.None?
                      || |op.reference.value| <= MAX_REFERENCE_LENGTH))
            && (e.answer.Updated? ==>
                  if amount == Value(r.redeemed) then e == Effect(Updated(r), None)
                  else Valid(paid) && e == Effect(Updated(paid), Some(paid)))
            && (!e.answer.Updated? ==> e.write.None?)
            && (e.answer == Failed(RedeemedRegression) <==> amount < Value(r.redeemed))
            && (e.answer == Failed(RedeemedExceedsCumulative) <==> amount > Value(r.cumulative))
  {
  }

  // A channel is finalized exactly when it still has the expected claim and the reason fits; finalizing it again
  // changes nothing.
  lemma FinalizeSucceeds(op: Op, r: Record)
    requires op.Finalize? && Refusal(op).None? && Valid(r)
    requires r.network == op.network && r.channelId == Upper(op.channelId)
    ensures var e := Mutate(op, Some(r));
            var at := if op.timestamp > r.updatedAt then op.timestamp else r.updatedAt;
            var closed := r.(finalized := true, finalizedAt := Some(at), finalizedReason := Some(op.reason),
                             updatedAt := at);
            var expected := op.expected.None? || op.expected.value == r.cumulative;
            && (e.answer.Updated? <==> expected && (r.finalized || |op.reason| <= MAX_REASON_LENGTH))
            && (e.answer.Updated? ==>
                  if r.finalized then e == Effect(Updated(r), None)
                  else Valid(closed) && e == Effect(Updated(closed), Some(closed)))
            && (!e.answer.Updated? ==> e.write.None?)
            && (e.answer == Failed(ChannelStateChanged) <==> !expected)
  {
  }

  // Every refusal of an advance has its own error or status, tried in this order.
  lemma AdvanceRefusals(op: Op, r: Record)
    requires op.Advance? && Refusal(op).None? && Valid(r) && IsDrops(op.requested)
    requires r.network == op.network && r.channelId == Upper(op.channelId)
    ensures var a := Mutate(op, Some(r)).answer; var funding, amount := FundingFor(op, r), Value(op.cumulative);
            var fits := !r.finalized && Value(r.funded) <= Value(funding) && |funding| <= MAX_DROPS_DIGITS;
            && (a == Failed(ChannelFinalized) <==> r.finalized)
            && (a == Failed(FundingRegression) <==> !r.finalized && Value(funding) < Value(r.funded))
            && (a == Failed(ChannelExhausted) <==> fits && amount > Value(funding))
            && (a.AdvanceResult? <==> fits && amount <= Value(funding))
            && (a.AdvanceResult? ==>
                  && (a.status.Replay? <==> amount == Value(r.cumulative))
                  && (a.status.Regressed? <==> amount < Value(r.cumulative))
                  && (a.status.Short? <==> Value(r.cumulative) < amount < Value(r.cumulative) + Value(op.requested))
                  && IsDigits(a.previous) && Value(a.previous) == Value(r.cumulative)
                  && (a.exactReplay <==> op.cumulative == r.cumulative && Upper(op.signature) == Upper(r.signature)))
  {
    RefundValid(r, op.funded);
    var f := Refund(r, op.funded);
    if !r.finalized && f.Ok? && Value(op.cumulative) <= Value(f.value.funded) {
      EvaluateSpecification(Some(MarkOf(f.value)), op.cumulative, op.requested, op.signature,
                            Max(r.updatedAt, op.timestamp));
      AdvanceSucceeds(op, r);
    }
  }

  // A new channel is stored as given, the same record again is no news, and any other one conflicts; nothing but a
  // creation works without a record, nor one of another channel.
  lemma CreateSucceeds(op: Op, current: Option<Record>)
    requires Refusal(op).None? && (current.Some? ==> Valid(current.value))
    ensures var e := Mutate(op, current);
            && (op.Create? ==>
                  e == if current.None? then Effect(Created(true, op.record), Some(op.record))
                       else if current.value == op.record then Effect(Created(false, op.record), None)
                       else Effect(Failed(ChannelConflict), None))
            && (op.Get? ==> e == Effect(Found(current), None))
            && (!op.Create? && !op.Get? ==> (e.answer == Failed(ChannelNotFound) <==> current.None?))
            && (!op.Create? && !op.Get? && current.Some? ==>
                  (e.answer == Failed(CorruptChannelState) <==>
                     current.value.network != op.network || current.value.channelId != Upper(op.channelId)))
  {
    if op.Advance? && current.Some? { RefundValid(current.value, op.funded); }
  }

  // An operation gets as far as the record exactly when its arguments are well formed; a reason must be given, and
  // a new funding must be a positive amount.
  lemma ArgumentsMatter(op: Op, current: Option<Record>)
    requires current.Some? ==> Valid(current.value)
    ensures Refusal(op).None? <==>
              match op
              case Create(record) => Valid(record)
              case Get(_, channelId) => IsChannelId(channelId)
              case Advance(_, channelId, cumulative, _, signature, funded, _) =>
                && IsChannelId(channelId) && IsDrops(cumulative) && 1 <= |signature| <= 144 && IsHex(signature)
                && (funded.Some? ==> IsDigits(funded.value) && Value(funded.value) > 0)
              case MarkRedeemed(_, channelId, cumulative, _, _) => IsChannelId(channelId) && IsDrops(cumulative)
              case Finalize(_, channelId, reason, expected, _) =>
                IsChannelId(channelId) && reason != "" && (expected.Some? ==> IsDrops(expected.value))
    ensures Refusal(op).Some? ==> Mutate(op, current) == Effect(Failed(Refusal(op).value), None)
  {
    assert IsDigits("") && Value("") == 0;
  }
}
