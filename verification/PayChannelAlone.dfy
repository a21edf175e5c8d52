// What one request or one sweep comes to when nobody else takes a step: vouchers, openings, imports, closes and
// settlements, from any state that a run can reach.
module PayChannelAlone {
  import opened Options
  import opened DropAmounts
  import opened HighWater
  import opened PayChannelRecords
  import opened PayChannelProtocol
  import opened PayChannelSafety

  // ---- stepping one process ----

  // The state `s` with this channel and this process; without a process when it has ended.
  function With(s: State, ch: string, id: nat, c: Channel, p: Option<Process>): State {
    s.(channels := s.channels[ch := c], tasks := if p.Some? then s.tasks[id := Task(ch, p.value)] else s.tasks - {id})
  }

  // Room for one more process.
  function Next1(s: State): State { s.(nextId := s.nextId + 1) }

  lemma WithIs(s: State, ch: string, id: nat, c: Channel, p: Option<Process>)
    ensures var t := With(s, ch, id, c, p);
            && ChannelAt(t, ch) == c && t.now == s.now && t.signed == s.signed
            && (p.Some? ==> id in t.tasks && t.tasks[id] == Task(ch, p.value)) && (p.None? ==> id !in t.tasks)
  {
  }

  lemma StepWith(cfg: Config, s: State, ch: string, id: nat, c: Channel, p: Process, i: Input, m: Move)
    requires id !in s.tasks && Usable(c) && Steppable(p)
    requires Step(cfg, With(s, ch, id, c, Some(p)), id, ch, p, i) == Some(m)
    ensures Next(cfg, With(s, ch, id, c, Some(p)), Proceed(id, i)) == With(s, ch, id, m.channel, m.next)
  {
    hide Step, Usable, Steppable;
    var t := With(s, ch, id, c, Some(p));
    assert t.channels[ch := m.channel] == s.channels[ch := m.channel];
    if m.next.Some? {
      assert t.tasks[id := Task(ch, m.next.value)] == s.tasks[id := Task(ch, m.next.value)];
    } else {
      assert t.tasks - {id} == s.tasks - {id};
    }
  }

  // A step that fails, or a process that has ended, changes nothing.
  lemma StuckWith(cfg: Config, s: State, ch: string, id: nat, c: Channel, p: Process, i: Input)
    requires id !in s.tasks && Usable(c) && Steppable(p)
    requires Step(cfg, With(s, ch, id, c, Some(p)), id, ch, p, i) == None
    ensures Next(cfg, With(s, ch, id, c, Some(p)), Proceed(id, i)) == With(s, ch, id, c, Some(p))
  {
    hide Step, Usable, Steppable;
  }

  lemma OverWith(cfg: Config, s: State, ch: string, id: nat, c: Channel, i: Input)
    ensures Next(cfg, With(s, ch, id, c, None), Proceed(id, i)) == With(s, ch, id, c, None)
  {
  }

  lemma {:induction false} RunOn(cfg: Config, s: State, first: seq<Event>, rest: seq<Event>)
    ensures Run(cfg, s, first + rest) == Run(cfg, Run(cfg, s, first), rest)
  {
    hide Next;
    if rest == [] {
      assert first + rest == first;
    } else {
      var n := |rest| - 1;
      assert (first + rest)[..|first + rest| - 1] == first + rest[..n];
      RunOn(cfg, s, first, rest[..n]);
    }
  }

  lemma RunFirst(cfg: Config, s: State, events: seq<Event>)
    requires events != []
    ensures Run(cfg, s, events) == Run(cfg, Next(cfg, s, events[0]), events[1..])
  {
    hide Next;
    assert [events[0]] + events[1..] == events;
    RunOn(cfg, s, [events[0]], events[1..]);
    assert [events[0]][..0] == [];
    assert Run(cfg, s, []) == s;
  }

  lemma RunOne(cfg: Config, s: State, a: Event)
    ensures Run(cfg, s, [a]) == Next(cfg, s, a)
  {
    hide Next;
    assert [a][..0] == [];
    assert Run(cfg, s, []) == s;
  }

  lemma RunTwo(cfg: Config, s: State, a: Event, b: Event)
    ensures Run(cfg, s, [a, b]) == Next(cfg, Next(cfg, s, a), b)
  {
    hide Next, Run;
    RunFirst(cfg, s, [a, b]);
    assert [a, b][1..] == [b];
    RunOne(cfg, Next(cfg, s, a), b);
  }

  lemma RunThree(cfg: Config, s: State, a: Event, b: Event, c: Event)
    ensures Run(cfg, s, [a, b, c]) == Next(cfg, Next(cfg, Next(cfg, s, a), b), c)
  {
    hide Next, Run;
    RunFirst(cfg, s, [a, b, c]);
    assert [a, b, c][1..] == [b, c];
    RunTwo(cfg, Next(cfg, s, a), b, c);
  }

  lemma RunFour(cfg: Config, s: State, a: Event, b: Event, c: Event, d: Event)
    ensures Run(cfg, s, [a, b, c, d]) == Next(cfg, Next(cfg, Next(cfg, Next(cfg, s, a), b), c), d)
  {
    hide Next, Run;
    RunFirst(cfg, s, [a, b, c, d]);
    assert [a, b, c, d][1..] == [b, c, d];
    RunThree(cfg, Next(cfg, s, a), b, c, d);
  }

  // What a state of a run says about an open, registered channel.
  lemma RegisteredOk(cfg: Config, s: State, ch: string)
    requires Inv(cfg, s) && ChannelAt(s, ch).record.Some?
    ensures var c := ChannelAt(s, ch);
            && Usable(c) && Valid(c.record.value) && Bound(cfg, ch, c.record.value) && c.ledger.Some?
            && c.ledger.value.balance <= Value(c.record.value.cumulative)
            && Value(c.record.value.funded) <= c.ledger.value.amount
            && Value(c.record.value.redeemed) <= c.ledger.value.balance <= c.ledger.value.amount
  {
    ChannelAtOk(cfg, s, ch);
  }

  lemma NextIsFresh(cfg: Config, s: State)
    requires Inv(cfg, s)
    ensures s.nextId !in s.tasks
  {
  }

  // ---- a voucher or a close up to its advance ----

  // What the ledger says of the channel's amount.
  predicate Tells(text: string, c: Channel) {
    IsDigits(text) && text != "" && c.ledger.Some? && Value(text) == c.ledger.value.amount
  }

  // The claim exceeds the stored one and pays for the request on top.
  predicate PaysOver(q: Request, r: Record)
    requires IsDigits(q.amount) && IsDigits(q.requested) && IsDigits(r.cumulative)
  {
    Value(q.amount) > Value(r.cumulative) && Value(q.amount) >= Value(r.cumulative) + Value(q.requested)
  }

  lemma LookRegistered(cfg: Config, s: State, ch: string, id: nat, c: Channel, q: Request, i: Input)
    requires id !in s.tasks && WellFormedRequest(q) && Usable(c) && c.record.Some? && Bound(cfg, ch, c.record.value)
    requires !c.record.value.finalized
    ensures var signed := Signed(s.signed, ch, q.amount, q.signature);
            Next(cfg, With(s, ch, id, c, Some(Looking(q))), Proceed(id, i)) ==
              With(s, ch, id, c, if !signed then None
                                 else if cfg.verifier then Some(Verifying(q, c.record.value))
                                 else Some(Advancing(q, c.record.value, None)))
  {
    hide Valid, Bound, WellFormedRequest, Next;
    DropsOf(q);
    WithIs(s, ch, id, c, Some(Looking(q)));
    var t := With(s, ch, id, c, Some(Looking(q)));
    var signed := Signed(s.signed, ch, q.amount, q.signature);
    var next := if !signed then None
                else if cfg.verifier then Some(Verifying(q, c.record.value))
                else Some(Advancing(q, c.record.value, None));
    assert Step(cfg, t, id, ch, Looking(q), i) == Some(Move(c, next));
    StepWith(cfg, s, ch, id, c, Looking(q), i, Move(c, next));
  }

  lemma DropsOf(q: Request)
    requires WellFormedRequest(q)
    ensures IsDrops(q.amount) && IsDigits(q.amount) && IsDrops(q.requested) && IsDigits(q.requested)
  {
  }

  lemma VerifyAgainstLedger(cfg: Config, s: State, ch: string, id: nat, c: Channel, q: Request, r: Record, i: Input)
    requires id !in s.tasks && WellFormedRequest(q) && Usable(c) && Tells(i.text, c)
    requires c.ledger.value.balance <= c.ledger.value.amount
    ensures var p, covered := Verifying(q, r), c.ledger.value.balance <= Value(q.amount) <= c.ledger.value.amount;
            Next(cfg, With(s, ch, id, c, Some(p)), Proceed(id, i)) ==
              With(s, ch, id, c, Some(if covered then Advancing(q, r, Some(i.text)) else p))
  {
    hide Valid, Next;
    DropsOf(q);
    var p := Verifying(q, r);
    WithIs(s, ch, id, c, Some(p));
    if c.ledger.value.balance <= Value(q.amount) <= c.ledger.value.amount {
      StepWith(cfg, s, ch, id, c, p, i, Move(c, Some(Advancing(q, r, Some(i.text)))));
    } else {
      StuckWith(cfg, s, ch, id, c, p, i);
    }
  }

  // The funding that a request works with.
  function Funding(funding: Option<string>, r: Record): string { if funding.Some? then funding.value else r.funded }

  // The claim is within funding that has not shrunk and fits the drops format, exceeds the stored one and pays.
  predicate IsPaid(q: Request, funding: Option<string>, r: Record)
    requires IsDigits(q.amount) && IsDigits(q.requested) && Valid(r) && (funding.Some? ==> IsDigits(funding.value))
  {
    && |Funding(funding, r)| <= MAX_DROPS_DIGITS && Value(r.funded) <= Value(Funding(funding, r))
    && Value(q.amount) <= Value(Funding(funding, r)) && PaysOver(q, r)
  }

  // The record with the new claim.
  function Claimed(q: Request, funding: Option<string>, r: Record, clock: int): Record {
    r.(funded := Funding(funding, r), cumulative := q.amount, signature := Upper(q.signature),
       updatedAt := if clock > r.updatedAt then clock else r.updatedAt)
  }

  // A close that repeats the stored claim to the letter.
  predicate Repeats(q: Request, r: Record) {
    q.kind.CloseAction? && q.amount == r.cumulative && Upper(q.signature) == Upper(r.signature)
  }

  // How a close goes on with the claim it found or made.
  function Onwards(cfg: Config, q: Request, r: Record): Process
    requires IsDigits(r.cumulative) && IsDigits(r.redeemed)
  {
    if cfg.settler && Value(r.redeemed) < Value(r.cumulative) then Leasing(q, r) else Finalizing(CloseJob(q), r, None)
  }

  lemma AdvanceEffects(cfg: Config, ch: string, q: Request, funding: Option<string>, r: Record, i: Input)
    requires WellFormedRequest(q) && Valid(r) && Bound(cfg, ch, r) && !r.finalized && ch == Upper(ch) && IsChannelId(ch)
    requires funding.Some? ==> IsFunding(funding.value)
    requires IsPaid(q, funding, r)
    ensures var e := Mutate(AdvanceOp(cfg, ch, q, funding, i), Some(r));
            && e.answer.AdvanceResult? && e.answer.status.Advanced?
            && e.write == Some(e.answer.record) && e.answer.record == Claimed(q, funding, r, i.clock)
  {
    hide Mutate, Valid, IsDrops, IsChannelId, Upper;
    RequestOk(cfg, ch, q, funding, i);
    AdvanceSucceeds(AdvanceOp(cfg, ch, q, funding, i), r);
  }

  lemma RequestOk(cfg: Config, ch: string, q: Request, funding: Option<string>, i: Input)
    requires WellFormedRequest(q) && IsChannelId(ch) && (funding.Some? ==> IsFunding(funding.value))
    ensures Refusal(AdvanceOp(cfg, ch, q, funding, i)).None?
  {
  }

  // Funding that has not shrunk and fits the drops format.
  predicate IsFit(funding: Option<string>, r: Record)
    requires Valid(r) && (funding.Some? ==> IsDigits(funding.value))
  {
    |Funding(funding, r)| <= MAX_DROPS_DIGITS && Value(r.funded) <= Value(Funding(funding, r))
  }

  lemma ReplayEffects(cfg: Config, ch: string, q: Request, funding: Option<string>, r: Record, i: Input)
    requires WellFormedRequest(q) && Valid(r) && Bound(cfg, ch, r) && !r.finalized && ch == Upper(ch) && IsChannelId(ch)
    requires funding.Some? ==> IsFunding(funding.value)
    requires IsFit(funding, r) && q.amount == r.cumulative && Upper(q.signature) == Upper(r.signature)
    ensures var e := Mutate(AdvanceOp(cfg, ch, q, funding, i), Some(r));
            && e.answer.AdvanceResult? && e.answer.status.Replay? && e.answer.exactReplay
            && e.answer.record == r.(funded := Funding(funding, r))
            && e.write == if Funding(funding, r) == r.funded then None else Some(e.answer.record)
  {
    var op := AdvanceOp(cfg, ch, q, funding, i);
    RequestOk(cfg, ch, q, funding, i);
    RefundValid(r, funding);
    var f := Refund(r, funding);
    RefundFits(r, funding);
    EvaluateSpecification(Some(MarkOf(f.value)), op.cumulative, op.requested, op.signature,
                          if op.timestamp > r.updatedAt then op.timestamp else r.updatedAt);
  }

  lemma RefundFits(r: Record, funding: Option<string>)
    requires Valid(r) && (funding.Some? ==> IsFunding(funding.value)) && IsFit(funding, r)
    ensures Refund(r, funding) == Ok(r.(funded := Funding(funding, r)))
  {
    RefundValid(r, funding);
  }

  // Anything else leaves the claim, its signature and its clock alone, and is no replay of them.
  lemma OtherEffects(cfg: Config, ch: string, q: Request, funding: Option<string>, r: Record, i: Input)
    requires WellFormedRequest(q) && Valid(r) && Bound(cfg, ch, r) && !r.finalized && ch == Upper(ch) && IsChannelId(ch)
    requires funding.Some? ==> IsFunding(funding.value)
    requires !IsPaid(q, funding, r)
    requires !(IsFit(funding, r) && q.amount == r.cumulative && Upper(q.signature) == Upper(r.signature))
    ensures var e := Mutate(AdvanceOp(cfg, ch, q, funding, i), Some(r));
            && (e.write.Some? ==> e.write.value == r.(funded := Funding(funding, r)))
            && !(e.answer.AdvanceResult? && (e.answer.status.Advanced? || e.answer.exactReplay))
  {
    var op := AdvanceOp(cfg, ch, q, funding, i);
    hide Valid;
    RequestOk(cfg, ch, q, funding, i);
    NotAdvanced(cfg, ch, q, funding, r, i);
    RejectedAdvanceKeepsClaim(op, r);
    NotReplayed(op, r);
  }

  lemma NotAdvanced(cfg: Config, ch: string, q: Request, funding: Option<string>, r: Record, i: Input)
    requires WellFormedRequest(q) && Valid(r) && Bound(cfg, ch, r) && !r.finalized && ch == Upper(ch) && IsChannelId(ch)
    requires funding.Some? ==> IsFunding(funding.value)
    requires !IsPaid(q, funding, r)
    ensures var e := Mutate(AdvanceOp(cfg, ch, q, funding, i), Some(r));
            !(e.answer.AdvanceResult? && e.answer.status.Advanced?)
  {
    hide Mutate, Valid, IsDrops, IsChannelId, Upper;
    RequestOk(cfg, ch, q, funding, i);
    AdvanceSucceeds(AdvanceOp(cfg, ch, q, funding, i), r);
  }

  lemma NotReplayed(op: Op, r: Record)
    requires op.Advance? && Refusal(op).None? && Valid(r)
    requires !(IsFit(op.funded, r) && op.cumulative == r.cumulative && Upper(op.signature) == Upper(r.signature))
    ensures var e := Mutate(op, Some(r)); !(e.answer.AdvanceResult? && e.answer.exactReplay)
  {
    RefundValid(r, op.funded);
  }

  // An open, registered channel that a claim on `ch` may work with.
  predicate Claimable(cfg: Config, ch: string, c: Channel) {
    && IsNormalId(ch) && c.record.Some? && Valid(c.record.value) && Bound(cfg, ch, c.record.value)
    && !c.record.value.finalized
  }

  function Accepted(c: Channel, q: Request, funding: Option<string>, clock: int): Channel
    requires c.record.Some? && IsDigits(q.amount) && IsDigits(q.requested) && Valid(c.record.value)
  {
    var r := c.record.value;
    c.(record := Some(Claimed(q, funding, r, clock)),
       accepted := c.accepted + [Acceptance(Value(r.cumulative), Value(q.amount), Value(q.requested))])
  }

  function Refunded(c: Channel, funding: Option<string>): Channel
    requires c.record.Some?
  {
    c.(record := Some(c.record.value.(funded := Funding(funding, c.record.value))))
  }

  lemma ClaimedIsValid(cfg: Config, ch: string, q: Request, funding: Option<string>, r: Record, i: Input)
    requires WellFormedRequest(q) && Valid(r) && Bound(cfg, ch, r) && !r.finalized && IsNormalId(ch)
    requires (funding.Some? ==> IsFunding(funding.value)) && IsPaid(q, funding, r)
    ensures Valid(Claimed(q, funding, r, i.clock))
  {
    hide Valid, Mutate, Evolves;
    AdvanceEffects(cfg, ch, q, funding, r, i);
    AdvanceHasEffect(cfg, ch, q, funding, r, i);
  }

  lemma RefundedIsValid(r: Record, funding: Option<string>)
    requires Valid(r) && (funding.Some? ==> IsFunding(funding.value)) && IsFit(funding, r)
    ensures Valid(r.(funded := Funding(funding, r)))
  {
    RefundFits(r, funding);
    RefundValid(r, funding);
  }

  lemma AcceptedAlone(cfg: Config, s: State, ch: string, id: nat, c: Channel, q: Request, r: Record,
                      funding: Option<string>, i: Input)
    requires id !in s.tasks && Claimable(cfg, ch, c) && WellFormedRequest(q)
    requires (funding.Some? ==> IsFunding(funding.value)) && IsPaid(q, funding, c.record.value)
    ensures Valid(Claimed(q, funding, c.record.value, i.clock))
    ensures Next(cfg, With(s, ch, id, c, Some(Advancing(q, r, funding))), Proceed(id, i)) ==
              With(s, ch, id, Accepted(c, q, funding, i.clock),
                   if q.kind.CloseAction? then Some(Onwards(cfg, q, Claimed(q, funding, c.record.value, i.clock)))
                   else None)
  {
    hide Mutate, Next, Evolves;
    var p := Advancing(q, r, funding);
    AdvanceEffects(cfg, ch, q, funding, c.record.value, i);
    ClaimedIsValid(cfg, ch, q, funding, c.record.value, i);
    WithIs(s, ch, id, c, Some(p));
    StepWith(cfg, s, ch, id, c, p, i,
             Move(Accepted(c, q, funding, i.clock),
                  if q.kind.CloseAction? then Some(Onwards(cfg, q, Claimed(q, funding, c.record.value, i.clock)))
                  else None));
  }

  lemma ReplayedAlone(cfg: Config, s: State, ch: string, id: nat, c: Channel, q: Request, r: Record,
                      funding: Option<string>, i: Input)
    requires id !in s.tasks && Claimable(cfg, ch, c) && WellFormedRequest(q)
    requires (funding.Some? ==> IsFunding(funding.value)) && Repeats(q, c.record.value)
             && IsFit(funding, c.record.value)
    ensures Valid(Refunded(c, funding).record.value)
    ensures Next(cfg, With(s, ch, id, c, Some(Advancing(q, r, funding))), Proceed(id, i)) ==
              With(s, ch, id, Refunded(c, funding), Some(Onwards(cfg, q, Refunded(c, funding).record.value)))
  {
    hide Mutate, Next, Evolves;
    var p := Advancing(q, r, funding);
    ReplayEffects(cfg, ch, q, funding, c.record.value, i);
    RefundedIsValid(c.record.value, funding);
    WithIs(s, ch, id, c, Some(p));
    StepWith(cfg, s, ch, id, c, p, i,
             Move(Refunded(c, funding), Some(Onwards(cfg, q, Refunded(c, funding).record.value))));
  }

  lemma RefusedAlone(cfg: Config, s: State, ch: string, id: nat, c: Channel, q: Request, r: Record,
                     funding: Option<string>, i: Input)
    requires id !in s.tasks && Claimable(cfg, ch, c) && WellFormedRequest(q)
    requires (funding.Some? ==> IsFunding(funding.value)) && !IsPaid(q, funding, c.record.value)
    requires !(Repeats(q, c.record.value) && IsFit(funding, c.record.value))
    ensures var t := Next(cfg, With(s, ch, id, c, Some(Advancing(q, r, funding))), Proceed(id, i));
            t == With(s, ch, id, c, None) || t == With(s, ch, id, Refunded(c, funding), None)
  {
    hide Mutate, Next, Evolves, Valid, IsFit;
    var p := Advancing(q, r, funding);
    var e := Mutate(AdvanceOp(cfg, ch, q, funding, i), c.record);
    if IsFit(funding, c.record.value) && q.amount == c.record.value.cumulative
       && Upper(q.signature) == Upper(c.record.value.signature) {
      ReplayEffects(cfg, ch, q, funding, c.record.value, i);
    } else {
      OtherEffects(cfg, ch, q, funding, c.record.value, i);
    }
    WithIs(s, ch, id, c, Some(p));
    StepWith(cfg, s, ch, id, c, p, i, Move(Store(c, e), None));
  }

  lemma ClaimStarts(cfg: Config, s: State, ch: string, q: Request)
    requires ChannelAt(s, ch).record.Some? && IsNormalId(ch) && WellFormedRequest(q) && !q.kind.OpenAction?
    ensures Next(cfg, s, StartClaim(ch, q)) == With(Next1(s), ch, s.nextId, ChannelAt(s, ch), Some(Looking(q)))
  {
    assert s.channels[ch := s.channels[ch]] == s.channels;
  }

  // Signed, and within what the ledger has paid out and holds.
  predicate IsCovered(s: State, ch: string, q: Request)
    requires WellFormedRequest(q) && ChannelAt(s, ch).ledger.Some?
  {
    var l := ChannelAt(s, ch).ledger.value;
    Signed(s.signed, ch, q.amount, q.signature) && l.balance <= Value(q.amount) <= l.amount
  }

  // What a claim request leaves: the accepted claim, a replayed one, or the stored one.
  ghost predicate ClaimEnds(cfg: Config, s: State, t: State, ch: string, q: Request, funding: Option<string>,
                            clock: int)
    requires WellFormedRequest(q) && ChannelAt(s, ch).record.Some? && Valid(ChannelAt(s, ch).record.value)
    requires funding.Some? ==> IsDigits(funding.value)
  {
    var c, id := ChannelAt(s, ch), s.nextId;
    if IsPaid(q, funding, c.record.value) then
      && Valid(Claimed(q, funding, c.record.value, clock))
      && t == With(Next1(s), ch, id, Accepted(c, q, funding, clock),
                   if q.kind.CloseAction? then Some(Onwards(cfg, q, Claimed(q, funding, c.record.value, clock)))
                   else None)
    else if Repeats(q, c.record.value) && IsFit(funding, c.record.value) then
      && Valid(Refunded(c, funding).record.value)
      && t == With(Next1(s), ch, id, Refunded(c, funding), Some(Onwards(cfg, q, Refunded(c, funding).record.value)))
    else t == With(Next1(s), ch, id, c, None) || t == With(Next1(s), ch, id, Refunded(c, funding), None)
  }

  lemma ClaimAdvances(cfg: Config, s: State, ch: string, q: Request, r: Record, funding: Option<string>, i: Input)
    requires Inv(cfg, s) && Claimable(cfg, ch, ChannelAt(s, ch)) && WellFormedRequest(q)
    requires funding.Some? ==> IsFunding(funding.value)
    ensures var p := Advancing(q, r, funding);
            ClaimEnds(cfg, s, Next(cfg, With(Next1(s), ch, s.nextId, ChannelAt(s, ch), Some(p)), Proceed(s.nextId, i)),
                      ch, q, funding, i.clock)
  {
    hide Next, Valid, Inv, IsPaid, IsFit, Repeats;
    var c := ChannelAt(s, ch);
    NextIsFresh(cfg, s);
    if IsPaid(q, funding, c.record.value) {
      AcceptedAlone(cfg, Next1(s), ch, s.nextId, c, q, r, funding, i);
    } else if Repeats(q, c.record.value) && IsFit(funding, c.record.value) {
      ReplayedAlone(cfg, Next1(s), ch, s.nextId, c, q, r, funding, i);
    } else {
      RefusedAlone(cfg, Next1(s), ch, s.nextId, c, q, r, funding, i);
    }
  }

  lemma OpenIsClaimable(cfg: Config, s: State, ch: string)
    requires Inv(cfg, s) && IsNormalId(ch) && ChannelAt(s, ch).record.Some? && !ChannelAt(s, ch).record.value.finalized
    ensures Claimable(cfg, ch, ChannelAt(s, ch))
  {
    RegisteredOk(cfg, s, ch);
  }

  lemma ClaimableIs(cfg: Config, ch: string, c: Channel)
    requires Claimable(cfg, ch, c)
    ensures Usable(c) && c.record.Some? && Valid(c.record.value) && Bound(cfg, ch, c.record.value)
    ensures !c.record.value.finalized
  {
  }

  lemma SameMembers(s: State)
    ensures Next1(s).tasks == s.tasks && Next1(s).signed == s.signed && Next1(s).channels == s.channels
    ensures Next1(s).now == s.now
  {
  }

  lemma LedgerFunds(cfg: Config, ch: string, c: Channel, text: string)
    requires Tells(text, c) && c.record.Some? && Valid(c.record.value)
    requires Value(c.record.value.funded) <= c.ledger.value.amount
    ensures IsFunding(text) && IsDigits(text) && c.ledger.Some?
  {
  }

  lemma CoveredIs(s: State, ch: string, q: Request)
    requires WellFormedRequest(q) && ChannelAt(s, ch).ledger.Some?
    ensures IsDigits(q.amount)
    ensures IsCovered(s, ch, q) <==>
              Signed(s.signed, ch, q.amount, q.signature)
              && ChannelAt(s, ch).ledger.value.balance <= Value(q.amount) <= ChannelAt(s, ch).ledger.value.amount
  {
  }

  // A claim that the ledger does not cover gets no further, whatever the next answer says.
  lemma StillStuck(cfg: Config, s: State, ch: string, id: nat, c: Channel, q: Request, r: Record, i: Input)
    requires id !in s.tasks && WellFormedRequest(q) && Usable(c) && c.ledger.Some? && IsDigits(q.amount)
    requires !(c.ledger.value.balance <= Value(q.amount) <= c.ledger.value.amount)
    ensures var t := With(s, ch, id, c, Some(Verifying(q, r))); Next(cfg, t, Proceed(id, i)) == t
  {
    hide Valid, Next;
    WithIs(s, ch, id, c, Some(Verifying(q, r)));
    StuckWith(cfg, s, ch, id, c, Verifying(q, r), i);
  }

  // With a ledger verifier, a claim that is unsigned or not covered by the ledger changes nothing, and every other
  // one is decided with the ledger's amount as the funding.
  lemma VerifiedClaim(cfg: Config, s: State, ch: string, q: Request, i0: Input, i1: Input, i2: Input)
    requires Inv(cfg, s) && IsNormalId(ch) && WellFormedRequest(q) && !q.kind.OpenAction? && cfg.verifier
    requires ChannelAt(s, ch).record.Some? && !ChannelAt(s, ch).record.value.finalized
             && Tells(i1.text, ChannelAt(s, ch))
    ensures Valid(ChannelAt(s, ch).record.value)
    ensures var id := s.nextId;
            var t := Run(cfg, s, [StartClaim(ch, q), Proceed(id, i0), Proceed(id, i1), Proceed(id, i2)]);
            if IsCovered(s, ch, q) then ClaimEnds(cfg, s, t, ch, q, Some(i1.text), i2.clock)
            else ChannelAt(t, ch) == ChannelAt(s, ch)
  {
    hide *;
    var id, c := s.nextId, ChannelAt(s, ch);
    RegisteredOk(cfg, s, ch);
    OpenIsClaimable(cfg, s, ch);
    NextIsFresh(cfg, s);
    RunFour(cfg, s, StartClaim(ch, q), Proceed(id, i0), Proceed(id, i1), Proceed(id, i2));
    ClaimStarts(cfg, s, ch, q);
    SameMembers(s);
    ClaimableIs(cfg, ch, c);
    DropsOf(q);
    LookRegistered(cfg, Next1(s), ch, id, c, q, i0);
    LedgerFunds(cfg, ch, c, i1.text);
    CoveredIs(s, ch, q);
    if Signed(s.signed, ch, q.amount, q.signature) {
      VerifyAgainstLedger(cfg, Next1(s), ch, id, c, q, c.record.value, i1);
      if IsCovered(s, ch, q) {
        ClaimAdvances(cfg, s, ch, q, c.record.value, Some(i1.text), i2);
      } else {
        StillStuck(cfg, Next1(s), ch, id, c, q, c.record.value, i2);
        WithIs(Next1(s), ch, id, c, Some(Verifying(q, c.record.value)));
      }
    } else {
      OverWith(cfg, Next1(s), ch, id, c, i1);
      OverWith(cfg, Next1(s), ch, id, c, i2);
      WithIs(Next1(s), ch, id, c, None);
    }
  }

  // So a claim on an open channel is stored, with the ledger's amount as its funding, if and only if the payer
  // signed it, the ledger covers it, the funding has not shrunk and fits the drops format, and it exceeds the
  // stored claim and pays for the request; otherwise the stored claim stays.
  lemma LedgerBackedClaim(cfg: Config, s: State, ch: string, q: Request, i0: Input, i1: Input, i2: Input)
    requires Inv(cfg, s) && IsNormalId(ch) && WellFormedRequest(q) && !q.kind.OpenAction? && cfg.verifier
    requires ChannelAt(s, ch).record.Some? && !ChannelAt(s, ch).record.value.finalized
             && Tells(i1.text, ChannelAt(s, ch))
    ensures Valid(ChannelAt(s, ch).record.value)
    ensures var id, c := s.nextId, ChannelAt(s, ch);
            var t := Run(cfg, s, [StartClaim(ch, q), Proceed(id, i0), Proceed(id, i1), Proceed(id, i2)]);
            var r, c' := c.record.value, ChannelAt(t, ch);
            var paid := IsCovered(s, ch, q) && |i1.text| <= MAX_DROPS_DIGITS && Value(r.funded) <= c.ledger.value.amount
                        && PaysOver(q, r);
            && c'.record.Some?
            && (c'.record.value.cumulative != r.cumulative <==> paid)
            && (paid ==>
                  && c'.record.value.cumulative == q.amount && IsDigits(c'.record.value.funded)
                  && Value(c'.record.value.funded) == c.ledger.value.amount
                  && c' == Accepted(c, q, Some(i1.text), i2.clock))
            && (!paid ==> c' == c || c' == Refunded(c, Some(i1.text)))
            && (q.kind.VoucherAction? && paid ==> id !in t.tasks)
  {
    hide Inv, Run, Valid, ChannelAt, Upper;
    VerifiedClaim(cfg, s, ch, q, i0, i1, i2);
    var id, c := s.nextId, ChannelAt(s, ch);
    var t := Run(cfg, s, [StartClaim(ch, q), Proceed(id, i0), Proceed(id, i1), Proceed(id, i2)]);
    ClaimShows(cfg, s, t, ch, q, Some(i1.text), i2.clock);
  }

  lemma ClaimShows(cfg: Config, s: State, t: State, ch: string, q: Request, funding: Option<string>, clock: int)
    requires WellFormedRequest(q) && ChannelAt(s, ch).record.Some? && Valid(ChannelAt(s, ch).record.value)
    requires funding.Some? ==> IsDigits(funding.value)
    ensures var c := ChannelAt(s, ch);
            ClaimEnds(cfg, s, t, ch, q, funding, clock) ==>
              if IsPaid(q, funding, c.record.value) then
                && ChannelAt(t, ch) == Accepted(c, q, funding, clock)
                && ChannelAt(t, ch).record.value.cumulative == q.amount != c.record.value.cumulative
                && (q.kind.VoucherAction? ==> s.nextId !in t.tasks)
              else ChannelAt(t, ch) == c || ChannelAt(t, ch) == Refunded(c, funding)
  {
  }

  // A ledger answer that is no amount, or that has more paid out than it holds, stops the claim.
  lemma BadAnswerStops(cfg: Config, s: State, ch: string, id: nat, c: Channel, q: Request, r: Record, i: Input)
    requires id !in s.tasks && WellFormedRequest(q) && Usable(c)
    requires i.text == "" || !IsDigits(i.text) || c.ledger.None? || c.ledger.value.balance > c.ledger.value.amount
    ensures var t := With(s, ch, id, c, Some(Verifying(q, r))); Next(cfg, t, Proceed(id, i)) == t
  {
    hide Next, Valid;
    StuckWith(cfg, s, ch, id, c, Verifying(q, r), i);
  }

  // Without a ledger verifier the stored funding decides.
  lemma UnverifiedClaim(cfg: Config, s: State, ch: string, q: Request, i0: Input, i1: Input)
    requires Inv(cfg, s) && IsNormalId(ch) && WellFormedRequest(q) && !q.kind.OpenAction? && !cfg.verifier
    requires ChannelAt(s, ch).record.Some? && !ChannelAt(s, ch).record.value.finalized
    ensures Valid(ChannelAt(s, ch).record.value) && IsDigits(q.amount)
    ensures var id := s.nextId; var t := Run(cfg, s, [StartClaim(ch, q), Proceed(id, i0), Proceed(id, i1)]);
            if Signed(s.signed, ch, q.amount, q.signature) then ClaimEnds(cfg, s, t, ch, q, None, i1.clock)
            else ChannelAt(t, ch) == ChannelAt(s, ch)
  {
    hide *;
    var id, c := s.nextId, ChannelAt(s, ch);
    RegisteredOk(cfg, s, ch);
    OpenIsClaimable(cfg, s, ch);
    NextIsFresh(cfg, s);
    RunThree(cfg, s, StartClaim(ch, q), Proceed(id, i0), Proceed(id, i1));
    ClaimStarts(cfg, s, ch, q);
    SameMembers(s);
    ClaimableIs(cfg, ch, c);
    DropsOf(q);
    LookRegistered(cfg, Next1(s), ch, id, c, q, i0);
    if Signed(s.signed, ch, q.amount, q.signature) {
      ClaimAdvances(cfg, s, ch, q, c.record.value, None, i1);
    } else {
      OverWith(cfg, Next1(s), ch, id, c, i1);
      WithIs(Next1(s), ch, id, c, None);
    }
  }
}
