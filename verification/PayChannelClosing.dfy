// How a channel's life goes when nobody else takes a step: opening, importing, closing and sweeping.
module PayChannelClosing {
  import opened Options
  import opened DropAmounts
  import opened HighWater
  import opened PayChannelRecords
  import opened PayChannelProtocol
  import opened PayChannelSafety
  import opened PayChannelAlone

  // ---- settling and closing ----

  // Nobody holds an unexpired lease.
  predicate LeaseFree(c: Channel, clock: int) { c.lease.None? || c.lease.value.expires <= clock }

  // A registered channel whose claim is not paid out yet.
  predicate Owing(cfg: Config, ch: string, c: Channel, r: Record) {
    && IsNormalId(ch) && c.record == Some(r) && Valid(r) && Bound(cfg, ch, r) && Unsettled(r) && c.ledger.Some?
    && c.ledger.value.balance <= Value(r.cumulative)
  }

  function Leased(c: Channel, id: nat, i: Input): Channel { c.(lease := Some(Lease(id, i.clock + i.seconds * 1000))) }

  function Submitted(c: Channel, r: Record): Channel
    requires IsDigits(r.cumulative)
  {
    c.(submitted := c.submitted + {Value(r.cumulative)})
  }

  // The ledger has validated the claim.
  function PaidOut(c: Channel, r: Record): Channel
    requires IsDigits(r.cumulative) && c.ledger.Some?
  {
    c.(ledger := Some(c.ledger.value.(balance := Value(r.cumulative))))
  }

  function Later(a: int, b: int): int { if b > a then b else a }

  // The record once its whole claim is marked redeemed.
  function Redeemed(r: Record, i: Input): Record {
    var at := Later(r.updatedAt, i.clock);
    r.(redeemed := r.cumulative, redeemedAt := Some(at), redemptionReference := Some(i.text), updatedAt := at)
  }

  function Closed(r: Record, reason: string, i: Input): Record {
    var at := Later(r.updatedAt, i.clock);
    r.(finalized := true, finalizedAt := Some(at), finalizedReason := Some(reason), updatedAt := at)
  }

  lemma TakesLease(cfg: Config, s: State, ch: string, id: nat, c: Channel, q: Request, r: Record, i: Input)
    requires id !in s.tasks && WellFormedRequest(q) && Usable(c)
    requires i.clock <= s.now && i.seconds > 0 && LeaseFree(c, i.clock)
    ensures Next(cfg, With(s, ch, id, c, Some(Leasing(q, r))), Proceed(id, i)) ==
              With(s, ch, id, Leased(c, id, i), Some(Reloading(q, r, Some(i.clock + i.seconds * 1000))))
  {
    hide Next, Valid;
    var p := Leasing(q, r);
    WithIs(s, ch, id, c, Some(p));
    StepWith(cfg, s, ch, id, c, p, i, Move(Leased(c, id, i), Some(Reloading(q, r, Some(i.clock + i.seconds * 1000)))));
  }

  // Somebody else's lease makes a close on an unpaid claim wait: nothing is submitted or closed.
  lemma WaitsForLease(cfg: Config, s: State, ch: string, id: nat, c: Channel, q: Request, r: Record, i: Input, j: Input)
    requires id !in s.tasks && WellFormedRequest(q) && Usable(c) && Owing(cfg, ch, c, r)
    requires i.clock <= s.now && i.seconds > 0 && !LeaseFree(c, i.clock)
    ensures ChannelAt(Run(cfg, With(s, ch, id, c, Some(Leasing(q, r))), [Proceed(id, i), Proceed(id, j)]), ch) == c
  {
    hide Next, Valid, Run;
    var p, p' := Leasing(q, r), Reloading(q, r, None);
    RunTwo(cfg, With(s, ch, id, c, Some(p)), Proceed(id, i), Proceed(id, j));
    WithIs(s, ch, id, c, Some(p));
    WithIs(s, ch, id, c, Some(p'));
    StepWith(cfg, s, ch, id, c, p, i, Move(c, Some(p')));
    StuckWith(cfg, s, ch, id, c, p', j);
  }

  lemma ReloadsSame(cfg: Config, s: State, ch: string, id: nat, c: Channel, q: Request, r: Record, expires: int,
                    i: Input)
    requires id !in s.tasks && WellFormedRequest(q) && Usable(c) && Owing(cfg, ch, c, r)
    ensures Next(cfg, With(s, ch, id, c, Some(Reloading(q, r, Some(expires)))), Proceed(id, i)) ==
              With(s, ch, id, c, Some(Settling(CloseJob(q), r, expires)))
  {
    hide Next, Valid;
    var p := Reloading(q, r, Some(expires));
    WithIs(s, ch, id, c, Some(p));
    StepWith(cfg, s, ch, id, c, p, i, Move(c, Some(Settling(CloseJob(q), r, expires))));
  }

  lemma Submits(cfg: Config, s: State, ch: string, id: nat, c: Channel, job: Job, r: Record, expires: int, i: Input)
    requires id !in s.tasks && Usable(c) && IsDigits(r.cumulative)
    ensures Next(cfg, With(s, ch, id, c, Some(Settling(job, r, expires))), Proceed(id, i)) ==
              With(s, ch, id, Submitted(c, r), Some(Waiting(job, r, expires)))
  {
    hide Next, Valid;
    var p := Settling(job, r, expires);
    WithIs(s, ch, id, c, Some(p));
    StepWith(cfg, s, ch, id, c, p, i, Move(Submitted(c, r), Some(Waiting(job, r, expires))));
  }

  lemma LedgerPays(cfg: Config, s: State, ch: string, id: nat, c: Channel, p: Process, r: Record)
    requires IsDigits(r.cumulative) && c.ledger.Some? && c.ledger.value.balance <= Value(r.cumulative)
    requires Value(r.cumulative) in c.submitted
    ensures Next(cfg, With(s, ch, id, c, Some(p)), ValidateClaim(ch, Value(r.cumulative))) ==
              With(s, ch, id, PaidOut(c, r), Some(p))
  {
    var t := With(s, ch, id, c, Some(p));
    assert t.channels[ch := PaidOut(c, r)] == s.channels[ch := PaidOut(c, r)];
    if c.ledger.value.balance == Value(r.cumulative) { assert PaidOut(c, r) == c; }
  }

  lemma SeesPayment(cfg: Config, s: State, ch: string, id: nat, c: Channel, job: Job, r: Record, expires: int, i: Input)
    requires id !in s.tasks && Usable(c) && IsDigits(r.cumulative) && c.ledger.Some?
    requires c.ledger.value.balance >= Value(r.cumulative)
    ensures Next(cfg, With(s, ch, id, c, Some(Waiting(job, r, expires))), Proceed(id, i)) ==
              With(s, ch, id, c, Some(Redeeming(job, r, expires)))
  {
    hide Next, Valid;
    var p := Waiting(job, r, expires);
    WithIs(s, ch, id, c, Some(p));
    StepWith(cfg, s, ch, id, c, p, i, Move(c, Some(Redeeming(job, r, expires))));
  }

  lemma RedeemedIsValid(r: Record, i: Input)
    requires Valid(r) && Unsettled(r) && |i.text| <= MAX_REFERENCE_LENGTH
    ensures Valid(Redeemed(r, i)) && !Unsettled(Redeemed(r, i))
  {
  }

  lemma ClosedIsValid(r: Record, reason: string, i: Input)
    requires Valid(r) && !r.finalized && |reason| <= MAX_REASON_LENGTH
    ensures Valid(Closed(r, reason, i))
  {
  }

  // Recording the settlement: a close goes on to let its lease go, an idle sweep to finalize, and another sweep
  // to let go.
  lemma Records(cfg: Config, s: State, ch: string, id: nat, c: Channel, job: Job, r: Record, expires: int, i: Input)
    requires id !in s.tasks && Usable(c) && Owing(cfg, ch, c, r) && |i.text| <= MAX_REFERENCE_LENGTH
    ensures Next(cfg, With(s, ch, id, c, Some(Redeeming(job, r, expires))), Proceed(id, i)) ==
              With(s, ch, id, c.(record := Some(Redeemed(r, i))),
                   Some(if job.CloseJob? then Releasing(job, Redeemed(r, i), expires)
                        else if job.idle then Finalizing(job, r, Some(expires)) else Releasing(job, r, expires)))
  {
    hide Next, Mutate, Valid;
    var p := Redeeming(job, r, expires);
    WithIs(s, ch, id, c, Some(p));
    RedeemEffects(cfg, ch, r, i);
    StepWith(cfg, s, ch, id, c, p, i,
             Move(c.(record := Some(Redeemed(r, i))),
                  Some(if job.CloseJob? then Releasing(job, Redeemed(r, i), expires)
                       else if job.idle then Finalizing(job, r, Some(expires)) else Releasing(job, r, expires))));
  }

  lemma RedeemEffects(cfg: Config, ch: string, r: Record, i: Input)
    requires IsNormalId(ch) && Valid(r) && Bound(cfg, ch, r) && Unsettled(r) && |i.text| <= MAX_REFERENCE_LENGTH
    ensures Mutate(RedeemOp(cfg, ch, r, i), Some(r)) == Effect(Updated(Redeemed(r, i)), Some(Redeemed(r, i)))
  {
    hide Mutate;
    RedeemSucceeds(RedeemOp(cfg, ch, r, i), r);
  }

  lemma FinalizeEffects(cfg: Config, ch: string, job: Job, r0: Record, r: Record, i: Input)
    requires IsNormalId(ch) && Valid(r) && Bound(cfg, ch, r) && !r.finalized && Expected(job, r0) == r.cumulative
    ensures var reason := if job.CloseJob? then "closed" else "idle-close";
            Mutate(FinalizeOp(cfg, ch, job, r0, i), Some(r)) ==
              Effect(Updated(Closed(r, reason, i)), Some(Closed(r, reason, i)))
  {
    hide Mutate;
    FinalizeSucceeds(FinalizeOp(cfg, ch, job, r0, i), r);
  }

  // Letting the lease go: a close goes on to finalize, a sweep ends.
  lemma LetsGo(cfg: Config, s: State, ch: string, id: nat, c: Channel, job: Job, r: Record, expires: int, i: Input)
    requires id !in s.tasks && Usable(c) && c.lease == Some(Lease(id, expires))
    ensures Next(cfg, With(s, ch, id, c, Some(Releasing(job, r, expires))), Proceed(id, i)) ==
              With(s, ch, id, c.(lease := None), if job.CloseJob? then Some(Finalizing(job, r, None)) else None)
  {
    hide Next, Valid;
    var p := Releasing(job, r, expires);
    WithIs(s, ch, id, c, Some(p));
    StepWith(cfg, s, ch, id, c, p, i,
             Move(c.(lease := None), if job.CloseJob? then Some(Finalizing(job, r, None)) else None));
  }

  // Finalizing on the expected claim.
  lemma Finalizes(cfg: Config, s: State, ch: string, id: nat, c: Channel, job: Job, r0: Record, lease: Option<int>,
                  i: Input)
    requires id !in s.tasks && Usable(c) && IsNormalId(ch) && c.record.Some? && Bound(cfg, ch, c.record.value)
    requires !c.record.value.finalized && Expected(job, r0) == c.record.value.cumulative
    ensures var reason := if job.CloseJob? then "closed" else "idle-close";
            Next(cfg, With(s, ch, id, c, Some(Finalizing(job, r0, lease))), Proceed(id, i)) ==
              With(s, ch, id, c.(record := Some(Closed(c.record.value, reason, i))),
                   if lease.Some? then Some(Releasing(job, r0, lease.value)) else None)
  {
    hide Next, Mutate, Valid;
    var p := Finalizing(job, r0, lease);
    WithIs(s, ch, id, c, Some(p));
    FinalizeEffects(cfg, ch, job, r0, c.record.value, i);
    var reason := if job.CloseJob? then "closed" else "idle-close";
    StepWith(cfg, s, ch, id, c, p, i,
             Move(c.(record := Some(Closed(c.record.value, reason, i))),
                  if lease.Some? then Some(Releasing(job, r0, lease.value)) else None));
  }

  // The channel once its claim is submitted, validated and marked redeemed.
  function Settled(c: Channel, r: Record, i: Input): Channel
    requires IsDigits(r.cumulative) && c.ledger.Some?
  {
    PaidOut(Submitted(c, r), r).(record := Some(Redeemed(r, i)))
  }

  lemma SubmittedIs(cfg: Config, ch: string, c: Channel, r: Record)
    requires Owing(cfg, ch, c, r)
    ensures IsDigits(r.cumulative) && Usable(c) && Usable(Submitted(c, r)) && Submitted(c, r).ledger.Some?
    ensures Value(r.cumulative) in Submitted(c, r).submitted && Submitted(c, r).ledger == c.ledger
    ensures Usable(PaidOut(Submitted(c, r), r)) && Owing(cfg, ch, PaidOut(Submitted(c, r), r), r)
    ensures PaidOut(Submitted(c, r), r).ledger.value.balance == Value(r.cumulative) >= c.ledger.value.balance
  {
  }

  // Submitting, the ledger validating, seeing it and recording it.
  lemma SettlesAlone(cfg: Config, s: State, ch: string, id: nat, c: Channel, job: Job, r: Record, expires: int,
                     a: Input, b: Input, i: Input)
    requires id !in s.tasks && Owing(cfg, ch, c, r) && |i.text| <= MAX_REFERENCE_LENGTH
    ensures IsDigits(r.cumulative) && c.ledger.Some?
    ensures Run(cfg, With(s, ch, id, c, Some(Settling(job, r, expires))),
                [Proceed(id, a), ValidateClaim(ch, Value(r.cumulative)), Proceed(id, b), Proceed(id, i)]) ==
              With(s, ch, id, Settled(c, r, i),
                   Some(if job.CloseJob? then Releasing(job, Redeemed(r, i), expires)
                        else if job.idle then Finalizing(job, r, Some(expires)) else Releasing(job, r, expires)))
  {
    hide *;
    OwingIs(cfg, ch, c, r);
    SubmittedIs(cfg, ch, c, r);
    var p := Waiting(job, r, expires);
    RunFour(cfg, With(s, ch, id, c, Some(Settling(job, r, expires))), Proceed(id, a),
            ValidateClaim(ch, Value(r.cumulative)), Proceed(id, b), Proceed(id, i));
    Submits(cfg, s, ch, id, c, job, r, expires, a);
    LedgerPays(cfg, s, ch, id, Submitted(c, r), p, r);
    SeesPayment(cfg, s, ch, id, PaidOut(Submitted(c, r), r), job, r, expires, b);
    Records(cfg, s, ch, id, PaidOut(Submitted(c, r), r), job, r, expires, i);
    SettledIs(c, r, i);
  }

  lemma SettledIs(c: Channel, r: Record, i: Input)
    requires IsDigits(r.cumulative) && c.ledger.Some?
    ensures Submitted(c, r).ledger.Some?
    ensures Settled(c, r, i) == PaidOut(Submitted(c, r), r).(record := Some(Redeemed(r, i)))
  {
  }

  lemma OwingIs(cfg: Config, ch: string, c: Channel, r: Record)
    requires Owing(cfg, ch, c, r)
    ensures c.ledger.Some? && c.ledger.value.balance <= Value(r.cumulative) && Valid(r) && Unsettled(r)
            && Bound(cfg, ch, r)
    ensures IsNormalId(ch) && c.record == Some(r)
  {
  }

  // What a close asks of the outside once it has its claim: a lease, the ledger's validation, a reference that
  // fits, and nothing else.
  predicate Goes(c: Channel, now: int, lease: Input, redeem: Input) {
    lease.clock <= now && lease.seconds > 0 && LeaseFree(c, lease.clock) && |redeem.text| <= MAX_REFERENCE_LENGTH
  }

  // A close on an unpaid claim ends with the claim redeemed, the channel finalized, and no lease left.
  lemma ClosesOwing(cfg: Config, s: State, ch: string, id: nat, c: Channel, q: Request, r: Record, i: seq<Input>)
    requires |i| == 7 && id !in s.tasks && WellFormedRequest(q) && Owing(cfg, ch, c, r) && !r.finalized
    requires q.amount == r.cumulative && Goes(c, s.now, i[0], i[4])
    ensures IsDigits(r.cumulative) && c.ledger.Some?
    ensures Run(cfg, With(s, ch, id, c, Some(Leasing(q, r))),
                [Proceed(id, i[0]), Proceed(id, i[1])]
                + [Proceed(id, i[2]), ValidateClaim(ch, Value(r.cumulative)), Proceed(id, i[3]), Proceed(id, i[4])]
                + [Proceed(id, i[5]), Proceed(id, i[6])]) ==
              With(s, ch, id, Settled(c, r, i[4]).(lease := None,
                                                   record := Some(Closed(Redeemed(r, i[4]), "closed", i[6]))), None)
  {
    hide *;
    var expires := i[0].clock + i[0].seconds * 1000;
    var start := With(s, ch, id, c, Some(Leasing(q, r)));
    var first := [Proceed(id, i[0]), Proceed(id, i[1])];
    OwingIs(cfg, ch, c, r);
    SubmittedIs(cfg, ch, c, r);
    GoesIs(c, s.now, i[0], i[4]);
    LeasedIs(cfg, ch, c, id, i[0], r);
    RunTwo(cfg, start, Proceed(id, i[0]), Proceed(id, i[1]));
    TakesLease(cfg, s, ch, id, c, q, r, i[0]);
    ReloadsSame(cfg, s, ch, id, Leased(c, id, i[0]), q, r, expires, i[1]);
    var second := [Proceed(id, i[2]), ValidateClaim(ch, Value(r.cumulative)), Proceed(id, i[3]), Proceed(id, i[4])];
    RunOn(cfg, start, first, second);
    SettlesAlone(cfg, s, ch, id, Leased(c, id, i[0]), CloseJob(q), r, expires, i[2], i[3], i[4]);
    RunOn(cfg, start, first + second, [Proceed(id, i[5]), Proceed(id, i[6])]);
    ClosesSettled(cfg, s, ch, id, c, q, r, i[0], i[4], i[5], i[6]);
  }

  lemma GoesIs(c: Channel, now: int, lease: Input, redeem: Input)
    requires Goes(c, now, lease, redeem)
    ensures lease.clock <= now && lease.seconds > 0 && LeaseFree(c, lease.clock)
            && |redeem.text| <= MAX_REFERENCE_LENGTH
  {
  }

  lemma LeasedIs(cfg: Config, ch: string, c: Channel, id: nat, i: Input, r: Record)
    requires Owing(cfg, ch, c, r)
    ensures Owing(cfg, ch, Leased(c, id, i), r) && Usable(Leased(c, id, i))
    ensures Leased(c, id, i).lease == Some(Lease(id, i.clock + i.seconds * 1000)) && Leased(c, id, i).ledger == c.ledger
  {
  }

  lemma ClosesSettled(cfg: Config, s: State, ch: string, id: nat, c: Channel, q: Request, r: Record, lease: Input,
                      redeem: Input, a: Input, b: Input)
    requires id !in s.tasks && Owing(cfg, ch, c, r) && !r.finalized && q.amount == r.cumulative
    requires |redeem.text| <= MAX_REFERENCE_LENGTH && IsDigits(r.cumulative) && c.ledger.Some?
    ensures Leased(c, id, lease).ledger.Some?
    ensures var job, paid := CloseJob(q), Redeemed(r, redeem);
            Run(cfg, With(s, ch, id, Settled(Leased(c, id, lease), r, redeem),
                          Some(Releasing(job, paid, lease.clock + lease.seconds * 1000))),
                [Proceed(id, a), Proceed(id, b)])
              == With(s, ch, id, Settled(c, r, redeem).(lease := None, record := Some(Closed(paid, "closed", b))), None)
  {
    hide Run, Next, Valid, Redeemed, Closed;
    var job, paid, expires := CloseJob(q), Redeemed(r, redeem), lease.clock + lease.seconds * 1000;
    var d := Settled(Leased(c, id, lease), r, redeem);
    RedeemedKeeps(cfg, ch, r, redeem);
    RunTwo(cfg, With(s, ch, id, d, Some(Releasing(job, paid, expires))), Proceed(id, a), Proceed(id, b));
    LetsGo(cfg, s, ch, id, d, job, paid, expires, a);
    Finalizes(cfg, s, ch, id, d.(lease := None), job, paid, None, b);
  }

  lemma RedeemedKeeps(cfg: Config, ch: string, r: Record, i: Input)
    requires Valid(r) && Unsettled(r) && Bound(cfg, ch, r) && |i.text| <= MAX_REFERENCE_LENGTH
    ensures var paid := Redeemed(r, i);
            && Valid(paid) && Bound(cfg, ch, paid) && paid.finalized == r.finalized && paid.cumulative == r.cumulative
  {
    RedeemedIsValid(r, i);
  }

  // ---- a close from its request on ----

  function ClaimEvents(ch: string, q: Request, id: nat, i: seq<Input>): seq<Event>
    requires |i| >= 2
  {
    [StartClaim(ch, q), Proceed(id, i[0]), Proceed(id, i[1])] + if |i| > 2 then [Proceed(id, i[2])] else []
  }

  // The payer signed the claim and, where there is a verifier, the ledger covers it and its amount is the funding.
  predicate GetsThrough(cfg: Config, s: State, ch: string, q: Request, funding: Option<string>, i: seq<Input>)
    requires WellFormedRequest(q)
  {
    if cfg.verifier then
      && |i| == 3 && Tells(i[1].text, ChannelAt(s, ch)) && IsCovered(s, ch, q)
      && funding == Some(i[1].text)
    else |i| == 2 && funding.None? && Signed(s.signed, ch, q.amount, q.signature)
  }

  // A close whose claim gets through and pays has it stored and goes on.
  lemma CloseIsStored(cfg: Config, s: State, ch: string, q: Request, funding: Option<string>, i: seq<Input>)
    requires Inv(cfg, s) && IsNormalId(ch) && WellFormedRequest(q) && q.kind.CloseAction?
    requires ChannelAt(s, ch).record.Some? && !ChannelAt(s, ch).record.value.finalized
    requires Valid(ChannelAt(s, ch).record.value) && GetsThrough(cfg, s, ch, q, funding, i)
    requires IsDigits(q.amount) && IsDigits(q.requested) && (funding.Some? ==> IsDigits(funding.value))
    requires IsPaid(q, funding, ChannelAt(s, ch).record.value)
    ensures var c, clock := ChannelAt(s, ch), i[|i| - 1].clock; var r := Claimed(q, funding, c.record.value, clock);
            Run(cfg, s, ClaimEvents(ch, q, s.nextId, i))
            == With(Next1(s), ch, s.nextId, Accepted(c, q, funding, clock),
                    Some(if cfg.settler then Leasing(q, r) else Finalizing(CloseJob(q), r, None)))
  {
    hide Inv, Valid, Run, IsPaid, Claimed, Accepted, With, ClaimEnds, IsCovered, Tells, Signed;
    var id := s.nextId;
    var t := Run(cfg, s, ClaimEvents(ch, q, id, i));
    if cfg.verifier {
      assert ClaimEvents(ch, q, id, i) == [StartClaim(ch, q), Proceed(id, i[0]), Proceed(id, i[1]), Proceed(id, i[2])];
      VerifiedClaim(cfg, s, ch, q, i[0], i[1], i[2]);
    } else {
      assert ClaimEvents(ch, q, id, i) == [StartClaim(ch, q), Proceed(id, i[0]), Proceed(id, i[1])];
      UnverifiedClaim(cfg, s, ch, q, i[0], i[1]);
    }
    CloseClaims(cfg, s, t, ch, q, funding, i[|i| - 1].clock);
  }

  lemma FundingIs(cfg: Config, s: State, ch: string, q: Request, funding: Option<string>, i: seq<Input>)
    requires WellFormedRequest(q) && GetsThrough(cfg, s, ch, q, funding, i) && IsDigits(q.amount)
    ensures |i| >= 2 && (funding.Some? ==> IsDigits(funding.value))
  {
  }

  lemma FundingFits(cfg: Config, s: State, ch: string, q: Request, funding: Option<string>, i: seq<Input>)
    requires WellFormedRequest(q) && GetsThrough(cfg, s, ch, q, funding, i) && ChannelAt(s, ch).record.Some?
    requires Valid(ChannelAt(s, ch).record.value) && IsDigits(q.amount) && IsDigits(q.requested)
    requires (funding.Some? ==> IsDigits(funding.value)) && IsPaid(q, funding, ChannelAt(s, ch).record.value)
    ensures funding.Some? ==> IsFunding(funding.value)
  {
  }

  function SettleEvents(ch: string, amount: nat, id: nat, i: seq<Input>): seq<Event>
    requires |i| == 7
  {
    [Proceed(id, i[0]), Proceed(id, i[1])]
    + [Proceed(id, i[2]), ValidateClaim(ch, amount), Proceed(id, i[3]), Proceed(id, i[4])]
    + [Proceed(id, i[5]), Proceed(id, i[6])]
  }

  // The channel is closed for good on this claim, all of it paid out, and nobody holds its lease.
  predicate ClosedOn(t: State, ch: string, amount: string, reason: string, reference: string) {
    var c := ChannelAt(t, ch);
    && c.record.Some? && c.ledger.Some? && IsDigits(amount)
    && c.record.value.finalized && c.record.value.finalizedReason == Some(reason)
    && c.record.value.cumulative == amount && c.record.value.redeemed == amount
    && c.record.value.redemptionReference == Some(reference)
    && c.ledger.value.balance == Value(amount) && c.lease.None?
  }

  // A close whose claim gets through and pays, with the lease free and a settlement that validates, ends with the
  // channel finalized and its whole claim redeemed.
  lemma CloseAlone(cfg: Config, s: State, ch: string, q: Request, funding: Option<string>, i: seq<Input>, j: seq<Input>)
    requires Inv(cfg, s) && IsNormalId(ch) && WellFormedRequest(q) && q.kind.CloseAction? && cfg.settler && |j| == 7
    requires ChannelAt(s, ch).record.Some? && !ChannelAt(s, ch).record.value.finalized
    requires Valid(ChannelAt(s, ch).record.value) && GetsThrough(cfg, s, ch, q, funding, i)
    requires IsDigits(q.amount) && IsDigits(q.requested) && (funding.Some? ==> IsDigits(funding.value))
    requires IsPaid(q, funding, ChannelAt(s, ch).record.value) && Goes(ChannelAt(s, ch), s.now, j[0], j[4])
    ensures |i| >= 2
    ensures var id := s.nextId;
            var t := Run(cfg, s, ClaimEvents(ch, q, id, i) + SettleEvents(ch, Value(q.amount), id, j));
            ClosedOn(t, ch, q.amount, "closed", j[4].text) && id !in t.tasks
  {
    hide *;
    FundingIs(cfg, s, ch, q, funding, i);
    FundingFits(cfg, s, ch, q, funding, i);
    var id, c, clock := s.nextId, ChannelAt(s, ch), i[|i| - 1].clock;
    CloseIsStored(cfg, s, ch, q, funding, i);
    NextIsFresh(cfg, s);
    SameMembers(s);
    DropsOf(q);
    var c', r := Accepted(c, q, funding, clock), Claimed(q, funding, c.record.value, clock);
    AcceptedOwes(cfg, s, ch, q, funding, clock);
    GoesStill(c, q, funding, clock, s.now, j[0], j[4]);
    RunOn(cfg, s, ClaimEvents(ch, q, id, i), SettleEvents(ch, Value(q.amount), id, j));
    SettleEventsAre(ch, Value(q.amount), id, j);
    ClosesOwing(cfg, Next1(s), ch, id, c', q, r, j);
    ClosedShows(cfg, Next1(s), ch, id, c', r, j[4], j[6]);
  }

  lemma SettleEventsAre(ch: string, amount: nat, id: nat, i: seq<Input>)
    requires |i| == 7
    ensures SettleEvents(ch, amount, id, i) ==
              [Proceed(id, i[0]), Proceed(id, i[1])]
              + [Proceed(id, i[2]), ValidateClaim(ch, amount), Proceed(id, i[3]), Proceed(id, i[4])]
              + [Proceed(id, i[5]), Proceed(id, i[6])]
  {
  }

  // A close that pays goes on to settle its claim when a settler is configured, and to finalize when none is.
  lemma CloseClaims(cfg: Config, s: State, t: State, ch: string, q: Request, funding: Option<string>, clock: int)
    requires WellFormedRequest(q) && q.kind.CloseAction? && ChannelAt(s, ch).record.Some?
    requires Valid(ChannelAt(s, ch).record.value) && (funding.Some? ==> IsDigits(funding.value))
    requires IsPaid(q, funding, ChannelAt(s, ch).record.value) && ClaimEnds(cfg, s, t, ch, q, funding, clock)
    ensures var r := Claimed(q, funding, ChannelAt(s, ch).record.value, clock);
            t == With(Next1(s), ch, s.nextId, Accepted(ChannelAt(s, ch), q, funding, clock),
                      Some(if cfg.settler then Leasing(q, r) else Finalizing(CloseJob(q), r, None)))
  {
    hide Accepted, With;
    RedeemedIsBelow(q, funding, ChannelAt(s, ch).record.value);
  }

  lemma RedeemedIsBelow(q: Request, funding: Option<string>, r: Record)
    requires WellFormedRequest(q) && Valid(r) && (funding.Some? ==> IsDigits(funding.value)) && IsPaid(q, funding, r)
    ensures Value(r.redeemed) < Value(q.amount)
  {
  }

  lemma AcceptedOwes(cfg: Config, s: State, ch: string, q: Request, funding: Option<string>, clock: int)
    requires Inv(cfg, s) && IsNormalId(ch) && WellFormedRequest(q) && ChannelAt(s, ch).record.Some?
    requires !ChannelAt(s, ch).record.value.finalized && Valid(ChannelAt(s, ch).record.value)
    requires (funding.Some? ==> IsFunding(funding.value)) && IsPaid(q, funding, ChannelAt(s, ch).record.value)
    ensures var c := ChannelAt(s, ch); var r := Claimed(q, funding, c.record.value, clock);
            Owing(cfg, ch, Accepted(c, q, funding, clock), r) && !r.finalized && q.amount == r.cumulative
  {
    hide Inv, Valid;
    RegisteredOk(cfg, s, ch);
    ClaimedIsValid(cfg, ch, q, funding, ChannelAt(s, ch).record.value, Input(clock, "", "", 0));
    RedeemedIsBelow(q, funding, ChannelAt(s, ch).record.value);
  }

  lemma GoesStill(c: Channel, q: Request, funding: Option<string>, clock: int, now: int, lease: Input, redeem: Input)
    requires Goes(c, now, lease, redeem) && c.record.Some? && WellFormedRequest(q) && Valid(c.record.value)
    ensures Goes(Accepted(c, q, funding, clock), now, lease, redeem)
  {
    hide Valid, Claimed;
  }

  lemma ClosedShows(cfg: Config, s: State, ch: string, id: nat, c: Channel, r: Record, redeem: Input, close: Input)
    requires Owing(cfg, ch, c, r)
    ensures IsDigits(r.cumulative) && c.ledger.Some?
    ensures var d := Settled(c, r, redeem).(lease := None,
                                            record := Some(Closed(Redeemed(r, redeem), "closed", close)));
            var t := With(s, ch, id, d, None);
            ClosedOn(t, ch, r.cumulative, "closed", redeem.text) && id !in t.tasks
  {
  }

  // Without a settler the close finalizes at once, and leaves what is redeemed as it was.
  lemma CloseWithoutSettler(cfg: Config, s: State, ch: string, q: Request, funding: Option<string>, i: seq<Input>,
                            j: Input)
    requires Inv(cfg, s) && IsNormalId(ch) && WellFormedRequest(q) && q.kind.CloseAction? && !cfg.settler
    requires ChannelAt(s, ch).record.Some? && !ChannelAt(s, ch).record.value.finalized
    requires Valid(ChannelAt(s, ch).record.value) && GetsThrough(cfg, s, ch, q, funding, i)
    requires IsDigits(q.amount) && IsDigits(q.requested) && (funding.Some? ==> IsDigits(funding.value))
    requires IsPaid(q, funding, ChannelAt(s, ch).record.value)
    ensures |i| >= 2
    ensures var id, c, clock := s.nextId, ChannelAt(s, ch), i[|i| - 1].clock;
            var r := Claimed(q, funding, c.record.value, clock);
            var t := Run(cfg, s, ClaimEvents(ch, q, id, i) + [Proceed(id, j)]);
            && ChannelAt(t, ch) == Accepted(c, q, funding, clock).(record := Some(Closed(r, "closed", j)))
            && id !in t.tasks
  {
    hide *;
    FundingIs(cfg, s, ch, q, funding, i);
    FundingFits(cfg, s, ch, q, funding, i);
    var id, c, clock := s.nextId, ChannelAt(s, ch), i[|i| - 1].clock;
    var t := Run(cfg, s, ClaimEvents(ch, q, id, i));
    CloseIsStored(cfg, s, ch, q, funding, i);
    NextIsFresh(cfg, s);
    SameMembers(s);
    DropsOf(q);
    var c', r := Accepted(c, q, funding, clock), Claimed(q, funding, c.record.value, clock);
    AcceptedIsClosable(cfg, s, ch, q, funding, clock);
    RunOn(cfg, s, ClaimEvents(ch, q, id, i), [Proceed(id, j)]);
    RunOne(cfg, t, Proceed(id, j));
    Finalizes(cfg, Next1(s), ch, id, c', CloseJob(q), r, None, j);
    WithIs(Next1(s), ch, id, c'.(record := Some(Closed(r, "closed", j))), None);
  }

  lemma AcceptedIsClosable(cfg: Config, s: State, ch: string, q: Request, funding: Option<string>, clock: int)
    requires Inv(cfg, s) && IsNormalId(ch) && WellFormedRequest(q) && ChannelAt(s, ch).record.Some?
    requires !ChannelAt(s, ch).record.value.finalized && Valid(ChannelAt(s, ch).record.value)
    requires (funding.Some? ==> IsFunding(funding.value)) && IsPaid(q, funding, ChannelAt(s, ch).record.value)
    ensures var c := ChannelAt(s, ch); var r := Claimed(q, funding, c.record.value, clock);
            var c' := Accepted(c, q, funding, clock);
            && c'.record == Some(r) && Usable(c') && Bound(cfg, ch, r) && !r.finalized
            && Expected(CloseJob(q), r) == r.cumulative
  {
    hide Inv, Valid;
    RegisteredOk(cfg, s, ch);
    ClaimedIsValid(cfg, ch, q, funding, ChannelAt(s, ch).record.value, Input(clock, "", "", 0));
  }

  // ---- sweeps ----

  lemma SweepStartsOn(cfg: Config, s: State, ch: string, idle: bool, r: Record)
    requires cfg.settler && ChannelAt(s, ch).record == Some(r) && Valid(r) && Unsettled(r) && !(idle && r.finalized)
    ensures Next(cfg, s, StartSweep(ch, idle)) ==
              With(Next1(s), ch, s.nextId, ChannelAt(s, ch), Some(SweepLeasing(r, idle)))
  {
    hide Valid;
    WellTypedOf(r);
    assert s.channels[ch := s.channels[ch]] == s.channels;
  }

  lemma WellTypedOf(r: Record)
    requires Valid(r)
    ensures WellTyped(r)
  {
  }

  lemma SweepTakesLease(cfg: Config, s: State, ch: string, id: nat, c: Channel, r: Record, idle: bool, i: Input)
    requires id !in s.tasks && Usable(c) && i.clock <= s.now && i.seconds > 0
    ensures Next(cfg, With(s, ch, id, c, Some(SweepLeasing(r, idle))), Proceed(id, i)) ==
              if LeaseFree(c, i.clock) then
                With(s, ch, id, Leased(c, id, i), Some(Settling(SweepJob(idle), r, i.clock + i.seconds * 1000)))
              else With(s, ch, id, c, None)
  {
    hide Next, Valid;
    var p := SweepLeasing(r, idle);
    WithIs(s, ch, id, c, Some(p));
    StepWith(cfg, s, ch, id, c, p, i,
             if LeaseFree(c, i.clock) then
               Move(Leased(c, id, i), Some(Settling(SweepJob(idle), r, i.clock + i.seconds * 1000)))
             else Move(c, None));
  }

  // A sweep leaves a channel alone whose lease somebody holds.
  lemma SweepSkipsLeased(cfg: Config, s: State, ch: string, idle: bool, r: Record, i: Input)
    requires Inv(cfg, s) && cfg.settler && ChannelAt(s, ch).record == Some(r) && Valid(r) && Unsettled(r)
    requires !(idle && r.finalized) && i.clock <= s.now && i.seconds > 0 && !LeaseFree(ChannelAt(s, ch), i.clock)
    ensures var t := Run(cfg, s, [StartSweep(ch, idle), Proceed(s.nextId, i)]);
            ChannelAt(t, ch) == ChannelAt(s, ch) && s.nextId !in t.tasks
  {
    hide Inv, Valid, Next, Run;
    var id, c := s.nextId, ChannelAt(s, ch);
    NextIsFresh(cfg, s);
    SameMembers(s);
    RunTwo(cfg, s, StartSweep(ch, idle), Proceed(id, i));
    SweepStartsOn(cfg, s, ch, idle, r);
    SweepTakesLease(cfg, Next1(s), ch, id, c, r, idle, i);
    WithIs(Next1(s), ch, id, c, None);
  }

  // The end of a sweep: let go, after finalizing an idle channel.
  function SweepTail(id: nat, idle: bool, a: Input, b: Input): seq<Event> {
    if idle then [Proceed(id, a), Proceed(id, b)] else [Proceed(id, b)]
  }

  lemma SweepEnds(cfg: Config, s: State, ch: string, id: nat, c: Channel, r: Record, idle: bool, expires: int,
                  redeem: Input, a: Input, b: Input)
    requires id !in s.tasks && Owing(cfg, ch, c, r) && (idle ==> !r.finalized) && |redeem.text| <= MAX_REFERENCE_LENGTH
    requires c.lease == Some(Lease(id, expires)) && IsDigits(r.cumulative) && c.ledger.Some?
    ensures var paid, job := Redeemed(r, redeem), SweepJob(idle);
            Run(cfg, With(s, ch, id, Settled(c, r, redeem),
                          Some(if idle then Finalizing(job, r, Some(expires)) else Releasing(job, r, expires))),
                SweepTail(id, idle, a, b)) ==
              With(s, ch, id, Settled(c, r, redeem).(lease := None,
                                                     record := Some(if idle then Closed(paid, "idle-close", a)
                                                                    else paid)),
                   None)
  {
    hide Run, Next, Valid, Redeemed, Closed;
    var paid, job, d := Redeemed(r, redeem), SweepJob(idle), Settled(c, r, redeem);
    RedeemedKeeps(cfg, ch, r, redeem);
    if idle {
      var start := With(s, ch, id, d, Some(Finalizing(job, r, Some(expires))));
      var closed := d.(record := Some(Closed(paid, "idle-close", a)));
      RunTwo(cfg, start, Proceed(id, a), Proceed(id, b));
      Finalizes(cfg, s, ch, id, d, job, r, Some(expires), a);
      ClosedIsValid(paid, "idle-close", a);
      LetsGo(cfg, s, ch, id, closed, job, r, expires, b);
    } else {
      RunOne(cfg, With(s, ch, id, d, Some(Releasing(job, r, expires))), Proceed(id, b));
      LetsGo(cfg, s, ch, id, d, job, r, expires, b);
    }
  }

  function SweepEvents(ch: string, amount: nat, id: nat, idle: bool, i: seq<Input>): seq<Event>
    requires |i| == 6
  {
    [StartSweep(ch, idle), Proceed(id, i[0])]
    + [Proceed(id, i[1]), ValidateClaim(ch, amount), Proceed(id, i[2]), Proceed(id, i[3])]
    + SweepTail(id, idle, i[4], i[5])
  }

  lemma SweepEventsAre(ch: string, amount: nat, id: nat, idle: bool, i: seq<Input>)
    requires |i| == 6
    ensures SweepEvents(ch, amount, id, idle, i) ==
              [StartSweep(ch, idle), Proceed(id, i[0])]
              + [Proceed(id, i[1]), ValidateClaim(ch, amount), Proceed(id, i[2]), Proceed(id, i[3])]
              + SweepTail(id, idle, i[4], i[5])
  {
  }

  lemma OwingHere(cfg: Config, s: State, ch: string, r: Record)
    requires Inv(cfg, s) && IsNormalId(ch) && ChannelAt(s, ch).record == Some(r) && Valid(r) && Unsettled(r)
    ensures Owing(cfg, ch, ChannelAt(s, ch), r) && Usable(ChannelAt(s, ch)) && IsDigits(r.cumulative)
    ensures ChannelAt(s, ch).ledger.Some?
  {
    hide Inv, Valid;
    RegisteredOk(cfg, s, ch);
    WellTypedOf(r);
  }

  // A sweep over an unpaid claim, with the lease free and a settlement that validates, leaves the whole claim
  // redeemed and no lease; it finalizes the channel exactly when it found it idle.
  lemma SweepAlone(cfg: Config, s: State, ch: string, idle: bool, r: Record, i: seq<Input>)
    requires |i| == 6 && Inv(cfg, s) && IsNormalId(ch) && cfg.settler
    requires ChannelAt(s, ch).record == Some(r) && Valid(r) && Unsettled(r) && !(idle && r.finalized)
    requires Goes(ChannelAt(s, ch), s.now, i[0], i[3])
    ensures IsDigits(r.cumulative) && ChannelAt(s, ch).ledger.Some?
    ensures var id := s.nextId; var t := Run(cfg, s, SweepEvents(ch, Value(r.cumulative), id, idle, i));
            var paid := Redeemed(r, i[3]);
            && ChannelAt(t, ch) ==
                 Settled(ChannelAt(s, ch), r, i[3])
                   .(lease := None, record := Some(if idle then Closed(paid, "idle-close", i[4]) else paid))
            && id !in t.tasks
  {
    hide *;
    var id, c, expires := s.nextId, ChannelAt(s, ch), i[0].clock + i[0].seconds * 1000;
    OwingHere(cfg, s, ch, r);
    var d, amount := Leased(c, id, i[0]), Value(r.cumulative);
    NextIsFresh(cfg, s);
    SameMembers(s);
    GoesIs(c, s.now, i[0], i[3]);
    LeasedIs(cfg, ch, c, id, i[0], r);
    SweepEventsAre(ch, amount, id, idle, i);
    var first := [StartSweep(ch, idle), Proceed(id, i[0])];
    var second := [Proceed(id, i[1]), ValidateClaim(ch, amount), Proceed(id, i[2]), Proceed(id, i[3])];
    RunTwo(cfg, s, StartSweep(ch, idle), Proceed(id, i[0]));
    SweepStartsOn(cfg, s, ch, idle, r);
    SweepTakesLease(cfg, Next1(s), ch, id, c, r, idle, i[0]);
    RunOn(cfg, s, first, second);
    SettlesAlone(cfg, Next1(s), ch, id, d, SweepJob(idle), r, expires, i[1], i[2], i[3]);
    RunOn(cfg, s, first + second, SweepTail(id, idle, i[4], i[5]));
    SweepEnds(cfg, Next1(s), ch, id, d, r, idle, expires, i[3], i[4], i[5]);
    SweepShows(Next1(s), ch, id, c, r, idle, i[0], i[3], i[4]);
  }

  lemma SweepShows(s: State, ch: string, id: nat, c: Channel, r: Record, idle: bool, lease: Input, redeem: Input,
                   a: Input)
    requires IsDigits(r.cumulative) && c.ledger.Some?
    ensures Leased(c, id, lease).ledger.Some?
    ensures var paid := Redeemed(r, redeem); var record := Some(if idle then Closed(paid, "idle-close", a) else paid);
            var t := With(s, ch, id, Settled(Leased(c, id, lease), r, redeem).(lease := None, record := record), None);
            ChannelAt(t, ch) == Settled(c, r, redeem).(lease := None, record := record) && id !in t.tasks
  {
    hide Redeemed, Closed;
  }

  // A sweep finalizes an idle channel that owes nothing, and leaves every other one that owes nothing alone.
  lemma SweepClosesIdle(cfg: Config, s: State, ch: string, idle: bool, r: Record, i: Input)
    requires Inv(cfg, s) && IsNormalId(ch) && cfg.settler && ChannelAt(s, ch).record == Some(r) && Valid(r)
             && !Unsettled(r)
    ensures var t := Run(cfg, s, [StartSweep(ch, idle), Proceed(s.nextId, i)]);
            && ChannelAt(t, ch) == (if idle && !r.finalized then
                                      ChannelAt(s, ch).(record := Some(Closed(r, "idle-close", i)))
                                    else ChannelAt(s, ch))
            && s.nextId !in t.tasks
  {
    hide Inv, Valid, Next, Run, Closed, Unsettled;
    var id, c := s.nextId, ChannelAt(s, ch);
    NextIsFresh(cfg, s);
    SameMembers(s);
    RegisteredOk(cfg, s, ch);
    RunTwo(cfg, s, StartSweep(ch, idle), Proceed(id, i));
    SettledSweepStarts(cfg, s, ch, idle, r);
    if idle && !r.finalized {
      Finalizes(cfg, Next1(s), ch, id, c, SweepJob(idle), r, None, i);
      WithIs(Next1(s), ch, id, c.(record := Some(Closed(r, "idle-close", i))), None);
    } else {
      NoTask(cfg, s, id, i);
    }
  }

  lemma NoTask(cfg: Config, s: State, id: nat, i: Input)
    requires id !in s.tasks
    ensures Next(cfg, s, Proceed(id, i)) == s
  {
  }

  lemma SettledSweepStarts(cfg: Config, s: State, ch: string, idle: bool, r: Record)
    requires cfg.settler && ChannelAt(s, ch).record == Some(r) && Valid(r) && !Unsettled(r)
    ensures Next(cfg, s, StartSweep(ch, idle)) ==
              if idle && !r.finalized then
                With(Next1(s), ch, s.nextId, ChannelAt(s, ch), Some(Finalizing(SweepJob(idle), r, None)))
              else s
  {
    hide Valid;
    WellTypedOf(r);
    assert s.channels[ch := s.channels[ch]] == s.channels;
  }

  // ---- a close that finds the record changed ----

  // A close that finds another party's record under its lease stops there, with its lease kept.
  lemma ForeignRecordStops(cfg: Config, s: State, ch: string, id: nat, c: Channel, q: Request, r: Record,
                           lease: Option<int>, i: Input)
    requires id !in s.tasks && WellFormedRequest(q) && Usable(c) && c.record.Some? && !Bound(cfg, ch, c.record.value)
    ensures var t := With(s, ch, id, c, Some(Reloading(q, r, lease))); Next(cfg, t, Proceed(id, i)) == t
  {
    hide Next, Valid;
    StuckWith(cfg, s, ch, id, c, Reloading(q, r, lease), i);
  }

  // A close whose claim was overtaken between its advance and its lease lets the lease go and ends; it submits and
  // finalizes nothing.
  lemma CloseGivesWay(cfg: Config, s: State, ch: string, id: nat, c: Channel, q: Request, r: Record, expires: int,
                      i: Input, j: Input)
    requires id !in s.tasks && WellFormedRequest(q) && Usable(c) && c.record.Some? && Bound(cfg, ch, c.record.value)
    requires c.lease == Some(Lease(id, expires))
    requires c.record.value.cumulative != r.cumulative || c.record.value.signature != r.signature
    ensures Run(cfg, With(s, ch, id, c, Some(Reloading(q, r, Some(expires)))), [Proceed(id, i), Proceed(id, j)]) ==
              With(s, ch, id, c.(lease := None), None)
  {
    hide Next, Valid, Run;
    var p, p' := Reloading(q, r, Some(expires)), Discarding(q, expires);
    RunTwo(cfg, With(s, ch, id, c, Some(p)), Proceed(id, i), Proceed(id, j));
    WithIs(s, ch, id, c, Some(p));
    WithIs(s, ch, id, c, Some(p'));
    StepWith(cfg, s, ch, id, c, p, i, Move(c, Some(p')));
    StepWith(cfg, s, ch, id, c, p', j, Move(c.(lease := None), None));
  }

  // A close whose claim somebody else has settled meanwhile submits nothing, and finalizes: after letting its lease
  // go if it has one, at once if not.
  lemma CloseAfterOthers(cfg: Config, s: State, ch: string, id: nat, c: Channel, q: Request, r: Record,
                         i: Input, j: Input, k: Input)
    requires id !in s.tasks && WellFormedRequest(q) && Usable(c) && IsNormalId(ch) && c.record.Some?
    requires Bound(cfg, ch, c.record.value) && !Unsettled(c.record.value) && !c.record.value.finalized
    requires c.record.value.cumulative == r.cumulative == q.amount && c.record.value.signature == r.signature
    ensures var latest := c.record.value;
            Run(cfg, With(s, ch, id, c, Some(Reloading(q, r, None))), [Proceed(id, i), Proceed(id, j)]) ==
              With(s, ch, id, c.(record := Some(Closed(latest, "closed", j))), None)
    ensures var latest := c.record.value;
            forall expires: int | c.lease == Some(Lease(id, expires)) ::
              Run(cfg, With(s, ch, id, c, Some(Reloading(q, r, Some(expires)))),
                  [Proceed(id, i), Proceed(id, j), Proceed(id, k)])
                == With(s, ch, id, c.(lease := None, record := Some(Closed(latest, "closed", k))), None)
  {
    hide Next, Valid, Run, Closed;
    var latest, job := c.record.value, CloseJob(q);
    var p, p' := Reloading(q, r, None), Finalizing(job, latest, None);
    RunTwo(cfg, With(s, ch, id, c, Some(p)), Proceed(id, i), Proceed(id, j));
    WithIs(s, ch, id, c, Some(p));
    StepWith(cfg, s, ch, id, c, p, i, Move(c, Some(p')));
    Finalizes(cfg, s, ch, id, c, job, latest, None, j);
    if c.lease.Some? && c.lease.value.owner == id {
      var expires := c.lease.value.expires;
      WithLease(cfg, s, ch, id, c, q, r, expires, i, j, k);
    }
  }

  lemma WithLease(cfg: Config, s: State, ch: string, id: nat, c: Channel, q: Request, r: Record, expires: int, i: Input,
                  j: Input, k: Input)
    requires id !in s.tasks && WellFormedRequest(q) && Usable(c) && IsNormalId(ch) && c.record.Some?
    requires Bound(cfg, ch, c.record.value) && !Unsettled(c.record.value) && !c.record.value.finalized
    requires c.record.value.cumulative == r.cumulative == q.amount && c.record.value.signature == r.signature
    requires c.lease == Some(Lease(id, expires))
    ensures Run(cfg, With(s, ch, id, c, Some(Reloading(q, r, Some(expires)))),
                [Proceed(id, i), Proceed(id, j), Proceed(id, k)])
              == With(s, ch, id, c.(lease := None, record := Some(Closed(c.record.value, "closed", k))), None)
  {
    hide Next, Valid, Run, Closed;
    var latest, job := c.record.value, CloseJob(q);
    var p, p' := Reloading(q, r, Some(expires)), Releasing(job, latest, expires);
    RunThree(cfg, With(s, ch, id, c, Some(p)), Proceed(id, i), Proceed(id, j), Proceed(id, k));
    WithIs(s, ch, id, c, Some(p));
    StepWith(cfg, s, ch, id, c, p, i, Move(c, Some(p')));
    LetsGo(cfg, s, ch, id, c, job, latest, expires, j);
    Finalizes(cfg, s, ch, id, c.(lease := None), job, latest, None, k);
  }
}
