// The PayChannel ledger: open, voucher and close requests and the redemption worker, any number of
// each, interleaved at every await against shared records, the XRP Ledger, leases and a clock.
module PayChannelProtocol {
  import opened Options
  import opened DropAmounts
  import opened HighWater
  import opened PayChannelRecords

  // Which hooks a deployment configures.
  datatype Config = Config(network: string, payer: string, recipient: string, settler: bool, loader: bool,
                           verifier: bool)

  // A channel on the validated ledger; `opening` is set when its PaymentChannelCreate came through here.
  datatype LedgerEntry = LedgerEntry(amount: nat, balance: nat, opening: Option<nat>)

  datatype Lease = Lease(owner: nat, expires: int)

  datatype Acceptance = Acceptance(previous: nat, cumulative: nat, requested: nat)

  // `submitted` holds the claim amounts ever handed to the ledger; `base` is the cumulative amount the
  // record was created with and `accepted` lists the advances since.
  datatype Channel = Channel(
    ledger: Option<LedgerEntry>, record: Option<Record>, lease: Option<Lease>,
    submitted: set<nat>, base: nat, accepted: seq<Acceptance>)

  datatype Kind = OpenAction | VoucherAction | CloseAction

  datatype Request = Request(kind: Kind, amount: string, signature: string, requested: string)

  // Who is settling: a close request or a worker sweep.
  datatype Job = CloseJob(q: Request) | SweepJob(idle: bool)

  // Program counters, each naming the store or ledger call about to be made, with local snapshots.
  datatype Process =
    | OpenLooking(q: Request, funded: string)
    | OpenCreating(q: Request, funded: string, candidate: Record)
    | OpenRereading(q: Request, funded: string)
    | OpenAdvancing(q: Request, record: Record)
    | Looking(q: Request)
    | Loading(q: Request)
    | Creating(q: Request, candidate: Record)
    | Rereading(q: Request)
    | Verifying(q: Request, record: Record)
    | Advancing(q: Request, record: Record, funding: Option<string>)
    | Leasing(q: Request, record: Record)
    | Reloading(q: Request, record: Record, lease: Option<int>)
    | Discarding(q: Request, expires: int)
    | SweepLeasing(record: Record, idle: bool)
    | Settling(job: Job, record: Record, expires: int)
    | Waiting(job: Job, record: Record, expires: int)
    | Redeeming(job: Job, record: Record, expires: int)
    | Releasing(job: Job, record: Record, expires: int)
    | Finalizing(job: Job, record: Record, lease: Option<int>)

  datatype Task = Task(channelId: string, process: Process)

  // `signed` holds what the payer has signed: channel, amount, signature.
  datatype State = State(now: int, signed: set<(string, nat, string)>, channels: map<string, Channel>,
                         tasks: map<nat, Task>, nextId: nat)

  // What one step receives from outside: a clock reading, a ledger text and a lease length.
  datatype Input = Input(clock: int, text: string, text2: string, seconds: nat)

  datatype Event =
    | OpenOnLedger(channelId: string, amount: nat)
    | FundOnLedger(channelId: string, extra: nat)
    | ValidateClaim(channelId: string, amount: nat)
    | Sign(channelId: string, amount: nat, signature: string)
    | Tick(clock: int)
    | StartOpen(channelId: string, q: Request, funded: string)
    | StartClaim(channelId: string, q: Request)
    | StartSweep(channelId: string, idle: bool)
    | Proceed(id: nat, input: Input)
    | Stop(id: nat)

  const NO_CHANNEL := Channel(None, None, None, {}, 0, [])

  function ChannelAt(s: State, ch: string): Channel { if ch in s.channels then s.channels[ch] else NO_CHANNEL }

  predicate Signed(signed: set<(string, nat, string)>, ch: string, amount: string, signature: string)
    requires IsDigits(amount)
  {
    (ch, Value(amount), Upper(signature)) in signed
  }

  // The envelope and payload checks made before any await.
  predicate WellFormedRequest(q: Request) { IsDrops(q.amount) && IsSignature(q.signature) && IsDrops(q.requested) }

  // `_assert_record_binding`.
  predicate Bound(cfg: Config, ch: string, r: Record) {
    r.network == cfg.network && r.channelId == ch && r.payer == cfg.payer && r.recipient == cfg.recipient
  }

  predicate Unsettled(r: Record)
    requires WellTyped(r)
  {
    Value(r.redeemed) < Value(r.cumulative)
  }

  // What a finalization expects the stored cumulative amount to be.
  function Expected(job: Job, r: Record): string { if job.CloseJob? then job.q.amount else r.cumulative }

  // The record `_verify_open` registers for a channel it has just opened.
  function OpenCandidate(cfg: Config, ch: string, funded: string, clock: int): Record {
    Record(cfg.network, ch, cfg.payer, cfg.recipient, funded, "0", "", "0", clock, clock, false, None, None, None, None)
  }

  // The record `_load_paychannel_record` imports from the validated ledger.
  function ImportCandidate(cfg: Config, ch: string, amount: string, balance: string, clock: int): Record
    requires IsDigits(balance)
  {
    var claimed := Value(balance) > 0;
    Record(cfg.network, ch, cfg.payer, cfg.recipient, amount, balance, if claimed then "00" else "", balance,
           clock, clock, false, None, None, if claimed then Some(clock) else None,
           if claimed then Some("ledger-import") else None)
  }

  datatype Move = Move(channel: Channel, next: Option<Process>)

  function Store(c: Channel, e: Effect): Channel { if e.write.Some? then c.(record := e.write) else c }

  predicate Usable(c: Channel) { c.record.Some? ==> Valid(c.record.value) }

  // After the open path has a record: check it, then advance or finish.
  function OpenFound(cfg: Config, ch: string, q: Request, funded: string, r: Record): Option<Process>
    requires IsDrops(q.amount)
  {
    if Bound(cfg, ch, r) && r.funded == funded && Value(q.amount) > 0 then Some(OpenAdvancing(q, r)) else None
  }

  // After the claim path has a record: binding, finalization and signature checks.
  function ClaimFound(cfg: Config, s: State, ch: string, q: Request, r: Record): Option<Process>
    requires IsDrops(q.amount)
  {
    if !Bound(cfg, ch, r) || r.finalized || !Signed(s.signed, ch, q.amount, q.signature) then None
    else if cfg.verifier then Some(Verifying(q, r))
    else Some(Advancing(q, r, None))
  }

  function AfterAdvance(cfg: Config, q: Request, r: Record): Process
    requires WellTyped(r)
  {
    if cfg.settler && Unsettled(r) then Leasing(q, r) else Finalizing(CloseJob(q), r, None)
  }

  function AdvanceOp(cfg: Config, ch: string, q: Request, funding: Option<string>, i: Input): Op {
    Advance(cfg.network, ch, q.amount, q.requested, q.signature, funding, i.clock)
  }

  // What a request does with the effect of its `advance`, recording the acceptance if there is one.
  function Advanced(cfg: Config, q: Request, c: Channel, e: Effect): Move
    requires Usable(c) && WellFormedRequest(q)
  {
    var stored := Store(c, e);
    if !e.answer.AdvanceResult? then Move(stored, None)
    else if e.answer.status.Advanced? then
      var previous := if c.record.Some? then Value(c.record.value.cumulative) else 0;
      Move(stored.(accepted := c.accepted + [Acceptance(previous, Value(q.amount), Value(q.requested))]),
           if q.kind.CloseAction? && WellTyped(e.answer.record) then Some(AfterAdvance(cfg, q, e.answer.record))
           else None)
    else if q.kind.CloseAction? && e.answer.exactReplay && !e.answer.record.finalized && WellTyped(e.answer.record) then
      Move(stored, Some(AfterAdvance(cfg, q, e.answer.record)))
    else Move(stored, None)
  }

  // What a settlement does with the effect of its `mark_redeemed`.
  function Redeemed(job: Job, r: Record, expires: int, c: Channel, e: Effect): Option<Move> {
    if !e.answer.Updated? then None
    else if job.CloseJob? then Some(Move(Store(c, e), Some(Releasing(job, e.answer.record, expires))))
    else if job.idle then Some(Move(Store(c, e), Some(Finalizing(job, r, Some(expires)))))
    else Some(Move(Store(c, e), Some(Releasing(job, r, expires))))
  }

  function Release(c: Channel, id: nat): Channel {
    if c.lease.Some? && c.lease.value.owner == id then c.(lease := None) else c
  }

  // `claim_redemption`: an unexpired lease refuses; otherwise a new one is placed.
  function TakeLease(c: Channel, id: nat, i: Input): (Option<int>, Channel) {
    if c.lease.Some? && c.lease.value.expires > i.clock then (None, c)
    else
      var expires := i.clock + i.seconds * 1000;
      (Some(expires), c.(lease := Some(Lease(id, expires))))
  }

  // `create` followed by a record, or a reread on conflict.
  function CreateMove(c: Channel, candidate: Record): (Channel, Option<Record>)
    requires Usable(c)
  {
    var e := Mutate(Create(candidate), c.record);
    (if e.write.Some? then Store(c, e).(base := Value(candidate.cumulative)) else c,
     if e.answer.Created? then Some(e.answer.record) else None)
  }

  // ---- the steps, one per program counter; no result means that the call fails there ----

  function OpenLookStep(cfg: Config, ch: string, q: Request, funded: string, c: Channel, i: Input): Option<Move>
    requires IsDrops(q.amount)
  {
    if c.record.Some? then Some(Move(c, OpenFound(cfg, ch, q, funded, c.record.value)))
    else if i.clock < 0 then None
    else Some(Move(c, Some(OpenCreating(q, funded, OpenCandidate(cfg, ch, funded, i.clock)))))
  }

  function OpenCreateStep(cfg: Config, ch: string, q: Request, funded: string, candidate: Record, c: Channel)
    : Option<Move>
    requires IsDrops(q.amount) && Usable(c)
  {
    var (c', r) := CreateMove(c, candidate);
    Some(Move(c', if r.Some? then OpenFound(cfg, ch, q, funded, r.value) else Some(OpenRereading(q, funded))))
  }

  function OpenRereadStep(cfg: Config, ch: string, q: Request, funded: string, c: Channel): Option<Move>
    requires IsDrops(q.amount)
  {
    if c.record.None? then None else Some(Move(c, OpenFound(cfg, ch, q, funded, c.record.value)))
  }

  function LookStep(cfg: Config, s: State, ch: string, q: Request, c: Channel): Option<Move>
    requires IsDrops(q.amount)
  {
    if c.record.Some? then Some(Move(c, ClaimFound(cfg, s, ch, q, c.record.value)))
    else if cfg.loader then Some(Move(c, Some(Loading(q))))
    else None
  }

  function LoadStep(cfg: Config, ch: string, q: Request, c: Channel, i: Input): Option<Move> {
    if c.ledger.None? || c.ledger.value.amount == 0 || c.ledger.value.balance > c.ledger.value.amount || i.clock < 0
       || !IsDrops(i.text) || Value(i.text) != c.ledger.value.amount
       || !IsDrops(i.text2) || Value(i.text2) != c.ledger.value.balance then None
    else Some(Move(c, Some(Creating(q, ImportCandidate(cfg, ch, i.text, i.text2, i.clock)))))
  }

  function CreateStep(cfg: Config, s: State, ch: string, q: Request, candidate: Record, c: Channel): Option<Move>
    requires IsDrops(q.amount) && Usable(c)
  {
    var (c', r) := CreateMove(c, candidate);
    Some(Move(c', if r.Some? then ClaimFound(cfg, s, ch, q, r.value) else Some(Rereading(q))))
  }

  function RereadStep(cfg: Config, s: State, ch: string, q: Request, c: Channel): Option<Move>
    requires IsDrops(q.amount)
  {
    if c.record.None? then None else Some(Move(c, ClaimFound(cfg, s, ch, q, c.record.value)))
  }

  // `_verify_channel_ledger`: the ledger amount becomes the validated funding.
  function VerifyStep(q: Request, r: Record, c: Channel, i: Input): Option<Move>
    requires IsDrops(q.amount)
  {
    if c.ledger.None? || !IsDigits(i.text) || i.text == "" || Value(i.text) != c.ledger.value.amount
       || Value(q.amount) > c.ledger.value.amount || Value(q.amount) < c.ledger.value.balance
       || c.ledger.value.balance > c.ledger.value.amount then None
    else Some(Move(c, Some(Advancing(q, r, Some(i.text)))))
  }

  function AdvanceStep(cfg: Config, ch: string, q: Request, funding: Option<string>, c: Channel, i: Input): Option<Move>
    requires Usable(c) && WellFormedRequest(q)
  {
    Some(Advanced(cfg, q, c, Mutate(AdvanceOp(cfg, ch, q, funding, i), c.record)))
  }

  function LeaseStep(now: int, id: nat, q: Request, r: Record, c: Channel, i: Input): Option<Move> {
    if i.clock > now || i.seconds == 0 then None
    else var (lease, c') := TakeLease(c, id, i); Some(Move(c', Some(Reloading(q, r, lease))))
  }

  // The close path re-reads the record after trying for the lease.
  function ReloadStep(cfg: Config, ch: string, q: Request, r: Record, lease: Option<int>, c: Channel): Option<Move>
    requires Usable(c)
  {
    if c.record.None? || !Bound(cfg, ch, c.record.value) then None
    else
      var latest := c.record.value;
      if latest.cumulative != r.cumulative || latest.signature != r.signature then
        if lease.Some? then Some(Move(c, Some(Discarding(q, lease.value)))) else None
      else if Unsettled(latest) then
        if lease.Some? then Some(Move(c, Some(Settling(CloseJob(q), latest, lease.value)))) else None
      else if lease.Some? then Some(Move(c, Some(Releasing(CloseJob(q), latest, lease.value))))
      else Some(Move(c, Some(Finalizing(CloseJob(q), latest, None))))
  }

  // The worker does not: it settles the record it scanned.
  function SweepLeaseStep(now: int, id: nat, r: Record, idle: bool, c: Channel, i: Input): Option<Move> {
    if i.clock > now || i.seconds == 0 then None
    else
      var (lease, c') := TakeLease(c, id, i);
      Some(Move(c', if lease.Some? then Some(Settling(SweepJob(idle), r, lease.value)) else None))
  }

  function SettleStep(job: Job, r: Record, expires: int, c: Channel): Option<Move>
    requires IsDigits(r.cumulative)
  {
    Some(Move(c.(submitted := c.submitted + {Value(r.cumulative)}), Some(Waiting(job, r, expires))))
  }

  // The settler reports success only for a validated claim.
  function WaitStep(job: Job, r: Record, expires: int, c: Channel): Option<Move>
    requires IsDigits(r.cumulative)
  {
    if c.ledger.Some? && c.ledger.value.balance >= Value(r.cumulative) then
      Some(Move(c, Some(Redeeming(job, r, expires))))
    else None
  }

  function RedeemOp(cfg: Config, ch: string, r: Record, i: Input): Op {
    MarkRedeemed(cfg.network, ch, r.cumulative, Some(i.text), i.clock)
  }

  function RedeemStep(cfg: Config, ch: string, job: Job, r: Record, expires: int, c: Channel, i: Input): Option<Move>
    requires Usable(c)
  {
    Redeemed(job, r, expires, c, Mutate(RedeemOp(cfg, ch, r, i), c.record))
  }

  function ReleaseStep(id: nat, job: Job, r: Record, c: Channel): Option<Move> {
    Some(Move(Release(c, id), if job.CloseJob? then Some(Finalizing(job, r, None)) else None))
  }

  function FinalizeOp(cfg: Config, ch: string, job: Job, r: Record, i: Input): Op {
    Finalize(cfg.network, ch, if job.CloseJob? then "closed" else "idle-close", Some(Expected(job, r)), i.clock)
  }

  function Finalized(job: Job, r: Record, lease: Option<int>, c: Channel, e: Effect): Option<Move> {
    if !e.answer.Updated? then None
    else Some(Move(Store(c, e), if lease.Some? then Some(Releasing(job, r, lease.value)) else None))
  }

  function FinalizeStep(cfg: Config, ch: string, job: Job, r: Record, lease: Option<int>, c: Channel, i: Input)
    : Option<Move>
    requires Usable(c)
  {
    Finalized(job, r, lease, c, Mutate(FinalizeOp(cfg, ch, job, r, i), c.record))
  }

  // What a process must carry for its next step to be defined.
  predicate Steppable(p: Process) {
    match p
    case Settling(_, r, _) => IsDigits(r.cumulative)
    case Waiting(_, r, _) => IsDigits(r.cumulative)
    case SweepLeasing(_, _) => true
    case Redeeming(_, _, _) => true
    case Releasing(_, _, _) => true
    case Finalizing(_, _, _) => true
    case _ => WellFormedRequest(p.q)
  }

  // One await-to-await step of process `id` on its channel.
  function Step(cfg: Config, s: State, id: nat, ch: string, p: Process, i: Input): Option<Move>
    requires Usable(ChannelAt(s, ch)) && Steppable(p)
  {
    var c := ChannelAt(s, ch);
    match p
    case OpenLooking(q, funded) => OpenLookStep(cfg, ch, q, funded, c, i)
    case OpenCreating(q, funded, candidate) => OpenCreateStep(cfg, ch, q, funded, candidate, c)
    case OpenRereading(q, funded) => OpenRereadStep(cfg, ch, q, funded, c)
    case OpenAdvancing(q, _) => AdvanceStep(cfg, ch, q, None, c, i)
    case Looking(q) => LookStep(cfg, s, ch, q, c)
    case Loading(q) => LoadStep(cfg, ch, q, c, i)
    case Creating(q, candidate) => CreateStep(cfg, s, ch, q, candidate, c)
    case Rereading(q) => RereadStep(cfg, s, ch, q, c)
    case Verifying(q, r) => VerifyStep(q, r, c, i)
    case Advancing(q, _, funding) => AdvanceStep(cfg, ch, q, funding, c, i)
    case Leasing(q, r) => LeaseStep(s.now, id, q, r, c, i)
    case Reloading(q, r, lease) => ReloadStep(cfg, ch, q, r, lease, c)
    case Discarding(_, _) => Some(Move(Release(c, id), None))
    case SweepLeasing(r, idle) => SweepLeaseStep(s.now, id, r, idle, c, i)
    case Settling(job, r, expires) => SettleStep(job, r, expires, c)
    case Waiting(job, r, expires) => WaitStep(job, r, expires, c)
    case Redeeming(job, r, expires) => RedeemStep(cfg, ch, job, r, expires, c, i)
    case Releasing(job, r, _) => ReleaseStep(id, job, r, c)
    case Finalizing(job, r, lease) => FinalizeStep(cfg, ch, job, r, lease, c, i)
  }

  // ---- what every reachable state satisfies ----

  // Advances since `base` chain up to `top`, each above the one before by at least what was requested.
  predicate Chain(base: nat, accepted: seq<Acceptance>, top: nat)
    decreases |accepted|
  {
    if accepted == [] then base == top
    else
      var last := accepted[|accepted| - 1];
      && last.cumulative == top && last.previous < top && last.previous + last.requested <= top
      && Chain(base, accepted[..|accepted| - 1], last.previous)
  }

  predicate ChannelOk(cfg: Config, signed: set<(string, nat, string)>, ch: string, c: Channel) {
    && (c.ledger.Some? ==>
          && c.ledger.value.balance <= c.ledger.value.amount
          && (c.ledger.value.opening.Some? ==> c.ledger.value.opening.value <= c.ledger.value.amount))
    && (c.record.None? ==>
          && c.submitted == {} && c.accepted == []
          && (c.ledger.Some? && c.ledger.value.opening.Some? ==> c.ledger.value.balance == 0))
    && (c.record.Some? ==>
          var r := c.record.value;
          && Valid(r) && Bound(cfg, ch, r) && c.ledger.Some?
          && Value(r.redeemed) <= c.ledger.value.balance <= Value(r.cumulative)
          && Value(r.funded) <= c.ledger.value.amount
          && (forall a | a in c.submitted :: a <= Value(r.cumulative))
          && (Unsettled(r) ==> Signed(signed, ch, r.cumulative, r.signature))
          && (cfg.settler && r.finalized ==> Value(r.redeemed) == Value(r.cumulative))
          && Chain(c.base, c.accepted, Value(r.cumulative)))
  }

  // `r` is this channel's record as it was at some earlier moment.
  predicate Behind(r: Record, c: Channel) {
    Valid(r) && c.record.Some? && Valid(c.record.value) && Evolves(r, c.record.value)
  }

  // The process holds the lease, or the lease it took has expired.
  predicate Holds(c: Channel, id: nat, expires: int, now: int) {
    c.lease == Some(Lease(id, expires)) || expires <= now
  }

  predicate CandidateOk(cfg: Config, ch: string, c: Channel, r: Record) {
    && Valid(r) && Bound(cfg, ch, r) && !r.finalized && !Unsettled(r)
    && c.ledger.Some? && Value(r.funded) <= c.ledger.value.amount
    && (c.record.None? ==> Value(r.cumulative) == c.ledger.value.balance)
  }

  // The stored redemption already covers what the job is about to finalize.
  predicate Covered(cfg: Config, job: Job, r: Record, c: Channel) {
    && Behind(r, c) && IsDrops(Expected(job, r)) && Value(Expected(job, r)) <= Value(r.cumulative)
    && (cfg.settler ==> Value(c.record.value.redeemed) >= Value(Expected(job, r)))
  }

  predicate JobOk(job: Job, r: Record) { job.CloseJob? ==> WellFormedRequest(job.q) && job.q.amount == r.cumulative }

  predicate OpenedFor(q: Request, funded: string, signed: set<(string, nat, string)>, ch: string, c: Channel) {
    && WellFormedRequest(q) && IsDrops(funded) && Value(funded) > 0
    && c.ledger.Some? && c.ledger.value.opening == Some(Value(funded)) && Value(funded) <= c.ledger.value.amount
    && (Value(q.amount) > 0 ==> Signed(signed, ch, q.amount, q.signature))
  }

  predicate ProcessOk(cfg: Config, signed: set<(string, nat, string)>, now: int, id: nat, ch: string, p: Process,
                      c: Channel)
  {
    match p
    case OpenLooking(q, funded) => OpenedFor(q, funded, signed, ch, c)
    case OpenCreating(q, funded, candidate) => OpenedFor(q, funded, signed, ch, c) && CandidateOk(cfg, ch, c, candidate)
    case OpenRereading(q, funded) => OpenedFor(q, funded, signed, ch, c)
    case OpenAdvancing(q, r) => WellFormedRequest(q) && Signed(signed, ch, q.amount, q.signature) && Behind(r, c)
    case Looking(q) => WellFormedRequest(q)
    case Loading(q) => WellFormedRequest(q)
    case Creating(q, candidate) => WellFormedRequest(q) && CandidateOk(cfg, ch, c, candidate)
    case Rereading(q) => WellFormedRequest(q)
    case Verifying(q, r) => WellFormedRequest(q) && Signed(signed, ch, q.amount, q.signature) && Behind(r, c)
    case Advancing(q, r, funding) =>
      && WellFormedRequest(q) && Signed(signed, ch, q.amount, q.signature) && Behind(r, c) && c.ledger.Some?
      && (funding.Some? ==> IsDigits(funding.value) && Value(funding.value) <= c.ledger.value.amount)
    case Leasing(q, r) => WellFormedRequest(q) && q.amount == r.cumulative && Behind(r, c)
    case Reloading(q, r, lease) =>
      && WellFormedRequest(q) && q.amount == r.cumulative && Behind(r, c)
      && (lease.Some? ==> Holds(c, id, lease.value, now))
    case Discarding(q, expires) => WellFormedRequest(q) && Holds(c, id, expires, now)
    case SweepLeasing(r, _) => Behind(r, c) && Signed(signed, ch, r.cumulative, r.signature)
    case Settling(job, r, expires) =>
      JobOk(job, r) && Behind(r, c) && Holds(c, id, expires, now) && Signed(signed, ch, r.cumulative, r.signature)
    case Waiting(job, r, expires) => JobOk(job, r) && Behind(r, c) && Holds(c, id, expires, now)
    case Redeeming(job, r, expires) =>
      && JobOk(job, r) && Behind(r, c) && Holds(c, id, expires, now)
      && c.ledger.Some? && Value(r.cumulative) <= c.ledger.value.balance
    case Releasing(job, r, expires) =>
      && Holds(c, id, expires, now) && Behind(r, c)
      && (job.CloseJob? ==> Covered(cfg, job, r, c))
    case Finalizing(job, r, lease) =>
      && Covered(cfg, job, r, c)
      && (lease.Some? ==> Holds(c, id, lease.value, now) && job.SweepJob?)
  }

  // How a step by process `id` may change a channel, as every other process sees it.
  predicate Rely(c: Channel, c': Channel, now: int, id: nat) {
    && (c.ledger.Some? ==>
          && c'.ledger.Some? && c'.ledger.value.opening == c.ledger.value.opening
          && c.ledger.value.amount <= c'.ledger.value.amount && c.ledger.value.balance <= c'.ledger.value.balance
          && (c'.record.None? ==> c'.ledger.value.balance == c.ledger.value.balance))
    && (c.record.Some? ==>
          c'.record.Some? && Valid(c.record.value) && Valid(c'.record.value)
          && Evolves(c.record.value, c'.record.value))
    && (c'.lease == c.lease || (c.lease.Some? ==> c.lease.value.owner == id || c.lease.value.expires <= now))
  }

  lemma BehindStable(r: Record, c: Channel, c': Channel, now: int, id: nat)
    requires Behind(r, c) && Rely(c, c', now, id)
    ensures Behind(r, c')
  {
    EvolvesTransitive(r, c.record.value, c'.record.value);
  }

  // A process keeps its facts while others step, time passes and the payer signs more.
  lemma ProcessStable(cfg: Config, signed: set<(string, nat, string)>, signed': set<(string, nat, string)>,
                      now: int, now': int,
                      id: nat, ch: string, p: Process, c: Channel, c': Channel, mover: nat)
    requires ProcessOk(cfg, signed, now, id, ch, p, c)
    requires Rely(c, c', now, mover) && mover != id && signed <= signed' && now <= now'
    ensures ProcessOk(cfg, signed', now', id, ch, p, c')
  {
    if !p.OpenLooking? && !p.OpenCreating? && !p.OpenRereading? && !p.Looking? && !p.Loading? && !p.Creating?
       && !p.Rereading? && !p.Discarding? {
      BehindStable(p.record, c, c', now, mover);
    }
  }

  // ---- every step keeps them ----

  // A move that the other processes tolerate and that leaves its own process with its facts.
  predicate MoveOk(cfg: Config, s: State, id: nat, ch: string, c: Channel, m: Move) {
    && Rely(c, m.channel, s.now, id)
    && ChannelOk(cfg, s.signed, ch, m.channel)
    && (m.next.Some? ==> ProcessOk(cfg, s.signed, s.now, id, ch, m.next.value, m.channel))
  }

  // Only the lease or the submitted claims change.
  lemma SameRecordOk(cfg: Config, s: State, id: nat, ch: string, c: Channel, c': Channel)
    requires ChannelOk(cfg, s.signed, ch, c) && c' == c.(lease := c'.lease, submitted := c'.submitted)
    requires c'.lease == c.lease || (c.lease.Some? ==> c.lease.value.owner == id || c.lease.value.expires <= s.now)
    requires c'.submitted == c.submitted
             || (c.record.Some? && forall a | a in c'.submitted - c.submitted :: a <= Value(c.record.value.cumulative))
    ensures Rely(c, c', s.now, id) && ChannelOk(cfg, s.signed, ch, c')
  {
    if c.record.Some? {
      assert forall a | a in c'.submitted :: a in c.submitted || a in c'.submitted - c.submitted;
    }
  }

  // Replacing the record without touching its claim or funding.
  lemma SameClaimOk(cfg: Config, s: State, id: nat, ch: string, c: Channel, r': Record)
    requires ChannelOk(cfg, s.signed, ch, c) && c.record.Some?
    requires var r := c.record.value;
             && Valid(r') && Evolves(r, r')
             && r'.cumulative == r.cumulative && r'.signature == r.signature && r'.funded == r.funded
             && Value(r'.redeemed) <= c.ledger.value.balance
             && (cfg.settler && r'.finalized ==> Value(r'.redeemed) == Value(r'.cumulative))
    ensures ChannelOk(cfg, s.signed, ch, c.(record := Some(r'))) && Rely(c, c.(record := Some(r')), s.now, id)
  {
  }

  lemma ClaimFoundOk(cfg: Config, s: State, id: nat, ch: string, q: Request, c: Channel)
    requires ChannelOk(cfg, s.signed, ch, c) && WellFormedRequest(q) && c.record.Some?
    ensures var next := ClaimFound(cfg, s, ch, q, c.record.value);
            next.Some? ==> ProcessOk(cfg, s.signed, s.now, id, ch, next.value, c)
  {
  }

  lemma OpenFoundOk(cfg: Config, s: State, id: nat, ch: string, q: Request, funded: string, c: Channel)
    requires ChannelOk(cfg, s.signed, ch, c) && OpenedFor(q, funded, s.signed, ch, c) && c.record.Some?
    ensures var next := OpenFound(cfg, ch, q, funded, c.record.value);
            next.Some? ==> ProcessOk(cfg, s.signed, s.now, id, ch, next.value, c)
  {
  }

  lemma CreateOk(cfg: Config, s: State, ch: string, c: Channel, candidate: Record, id: nat)
    requires ChannelOk(cfg, s.signed, ch, c) && CandidateOk(cfg, ch, c, candidate)
    ensures var (c', r) := CreateMove(c, candidate);
            && Rely(c, c', s.now, id) && ChannelOk(cfg, s.signed, ch, c')
            && (r.Some? ==> c'.record == r) && c'.ledger == c.ledger
  {
  }

  // What `advance` guarantees about its effect on the stored record `r`.
  predicate AdvanceEffectOk(q: Request, funding: Option<string>, r: Record, e: Effect)
    requires Valid(r) && WellFormedRequest(q)
  {
    && (e.write.Some? ==> Valid(e.write.value) && Evolves(r, e.write.value))
    && (if e.answer.AdvanceResult? && e.answer.status.Advanced? then
          && !r.finalized && e.write == Some(e.answer.record)
          && Value(r.cumulative) < Value(q.amount) && Value(r.cumulative) + Value(q.requested) <= Value(q.amount)
          && e.answer.record.cumulative == q.amount && e.answer.record.signature == Upper(q.signature)
          && e.answer.record.redeemed == r.redeemed && !e.answer.record.finalized
        else
          e.write.Some? ==> e.write.value == r.(funded := e.write.value.funded) && !r.finalized)
    && (e.write.Some? && e.write.value.funded != r.funded ==> funding.Some? && e.write.value.funded == funding.value)
    && (e.answer.AdvanceResult? && e.answer.exactReplay ==>
          && e.answer.record.cumulative == q.amount && e.answer.record.redeemed == r.redeemed
          && e.answer.record == (if e.write.Some? then e.write.value else r))
  }

  lemma AdvanceHasEffect(cfg: Config, ch: string, q: Request, funding: Option<string>, r: Record, i: Input)
    requires WellFormedRequest(q) && Valid(r) && Bound(cfg, ch, r)
    ensures AdvanceEffectOk(q, funding, r, Mutate(AdvanceOp(cfg, ch, q, funding, i), Some(r)))
  {
    var op := AdvanceOp(cfg, ch, q, funding, i);
    if Refusal(op).None? {
      AdvanceKeepsRecords(op, r);
      AdvanceSucceeds(op, r);
      RejectedAdvanceKeepsClaim(op, r);
      ExactReplayIsStored(op, r);
    }
  }

  // An exact replay reports the stored claim, with at most its funding refreshed.
  lemma ExactReplayIsStored(op: Op, r: Record)
    requires op.Advance? && Refusal(op).None? && Valid(r)
    ensures var e := Mutate(op, Some(r));
            e.answer.AdvanceResult? && e.answer.exactReplay ==>
              && e.answer.record.cumulative == op.cumulative && e.answer.record.redeemed == r.redeemed
              && e.answer.record == (if e.write.Some? then e.write.value else r)
  {
    RefundValid(r, op.funded);
  }

  // Storing an advance: the new claim is signed, funded and chained to the last one.
  lemma AcceptedOk(cfg: Config, s: State, id: nat, ch: string, q: Request, funding: Option<string>, c: Channel,
                   e: Effect)
    requires ChannelOk(cfg, s.signed, ch, c) && WellFormedRequest(q) && c.record.Some? && c.ledger.Some?
    requires Signed(s.signed, ch, q.amount, q.signature)
    requires funding.Some? ==> IsDigits(funding.value) && Value(funding.value) <= c.ledger.value.amount
    requires AdvanceEffectOk(q, funding, c.record.value, e)
    requires e.answer.AdvanceResult? && e.answer.status.Advanced?
    ensures var c' := Advanced(cfg, q, c, e).channel;
            Rely(c, c', s.now, id) && ChannelOk(cfg, s.signed, ch, c') && c'.record == Some(e.answer.record)
  {
    var m := Advanced(cfg, q, c, e);
    assert m.channel.accepted[..|m.channel.accepted| - 1] == c.accepted;
    UpperIdempotent(q.signature);
  }

  lemma RefundedOk(cfg: Config, s: State, id: nat, ch: string, q: Request, funding: Option<string>, c: Channel,
                   e: Effect)
    requires ChannelOk(cfg, s.signed, ch, c) && WellFormedRequest(q) && c.record.Some? && c.ledger.Some?
    requires funding.Some? ==> IsDigits(funding.value) && Value(funding.value) <= c.ledger.value.amount
    requires AdvanceEffectOk(q, funding, c.record.value, e)
    requires !(e.answer.AdvanceResult? && e.answer.status.Advanced?)
    ensures Rely(c, Store(c, e), s.now, id) && ChannelOk(cfg, s.signed, ch, Store(c, e))
  {
  }

  lemma AfterAdvanceOk(cfg: Config, s: State, id: nat, ch: string, q: Request, c: Channel)
    requires ChannelOk(cfg, s.signed, ch, c) && c.record.Some? && WellFormedRequest(q)
             && c.record.value.cumulative == q.amount
    ensures ProcessOk(cfg, s.signed, s.now, id, ch, AfterAdvance(cfg, q, c.record.value), c)
  {
  }

  predicate IsAccepted(e: Effect) { e.answer.AdvanceResult? && e.answer.status.Advanced? }

  // What the three lemmas about an advance start from.
  predicate AdvanceReady(cfg: Config, s: State, ch: string, q: Request, funding: Option<string>, c: Channel, e: Effect)
  {
    && ChannelOk(cfg, s.signed, ch, c) && WellFormedRequest(q) && c.record.Some? && c.ledger.Some?
    && Signed(s.signed, ch, q.amount, q.signature)
    && (funding.Some? ==> IsDigits(funding.value) && Value(funding.value) <= c.ledger.value.amount)
    && AdvanceEffectOk(q, funding, c.record.value, e)
  }

  lemma AcceptedMoveOk(cfg: Config, s: State, id: nat, ch: string, q: Request, funding: Option<string>,
                       c: Channel, e: Effect)
    requires AdvanceReady(cfg, s, ch, q, funding, c, e) && IsAccepted(e)
    ensures MoveOk(cfg, s, id, ch, c, Advanced(cfg, q, c, e))
  {
    hide Evolves, Rely, ProcessOk, Chain, AfterAdvance;
    var m := Advanced(cfg, q, c, e);
    AcceptedOk(cfg, s, id, ch, q, funding, c, e);
    if m.next.Some? { AfterAdvanceOk(cfg, s, id, ch, q, m.channel); }
  }

  lemma RefundedMoveOk(cfg: Config, s: State, id: nat, ch: string, q: Request, funding: Option<string>,
                       c: Channel, e: Effect)
    requires AdvanceReady(cfg, s, ch, q, funding, c, e) && !IsAccepted(e)
    ensures MoveOk(cfg, s, id, ch, c, Advanced(cfg, q, c, e))
  {
    hide Evolves, Rely, ProcessOk, Chain, AfterAdvance;
    var m := Advanced(cfg, q, c, e);
    RefundedOk(cfg, s, id, ch, q, funding, c, e);
    if m.next.Some? { AfterAdvanceOk(cfg, s, id, ch, q, m.channel); }
  }

  lemma AdvancedOk(cfg: Config, s: State, id: nat, ch: string, q: Request, funding: Option<string>,
                   c: Channel, e: Effect)
    requires AdvanceReady(cfg, s, ch, q, funding, c, e)
    ensures MoveOk(cfg, s, id, ch, c, Advanced(cfg, q, c, e))
  {
    hide *;
    if IsAccepted(e) {
      AcceptedMoveOk(cfg, s, id, ch, q, funding, c, e);
    } else {
      RefundedMoveOk(cfg, s, id, ch, q, funding, c, e);
    }
  }

  // What `mark_redeemed` guarantees about its effect on the stored record `r`.
  predicate RedeemEffectOk(cumulative: string, r: Record, e: Effect)
    requires Valid(r) && IsDrops(cumulative)
  {
    && (e.write.Some? ==>
          && Valid(e.write.value) && Evolves(r, e.write.value) && e.answer == Updated(e.write.value)
          && e.write.value.cumulative == r.cumulative && e.write.value.signature == r.signature
          && e.write.value.funded == r.funded && e.write.value.finalized == r.finalized
          && Value(r.redeemed) < Value(cumulative))
    && (e.answer.Updated? ==>
          && e.answer.record == (if e.write.Some? then e.write.value else r)
          && Value(e.answer.record.redeemed) == Value(cumulative))
  }

  lemma RedeemHasEffect(cfg: Config, ch: string, r0: Record, r: Record, i: Input)
    requires Valid(r) && Bound(cfg, ch, r) && IsDrops(r0.cumulative)
    ensures RedeemEffectOk(r0.cumulative, r, Mutate(RedeemOp(cfg, ch, r0, i), Some(r)))
  {
    MutateKeepsRecords(RedeemOp(cfg, ch, r0, i), Some(r));
  }

  lemma RedeemedOk(cfg: Config, s: State, id: nat, ch: string, p: Process, c: Channel, e: Effect)
    requires ChannelOk(cfg, s.signed, ch, c) && p.Redeeming? && ProcessOk(cfg, s.signed, s.now, id, ch, p, c)
    requires RedeemEffectOk(p.record.cumulative, c.record.value, e) && e.answer.Updated?
    ensures var c' := Store(c, e); Rely(c, c', s.now, id) && ChannelOk(cfg, s.signed, ch, c')
    ensures var c' := Store(c, e); c' == c.(record := Some(e.answer.record)) && Behind(p.record, c')
    ensures Evolves(e.answer.record, e.answer.record)
  {
    var r' := e.answer.record;
    SameClaimOk(cfg, s, id, ch, c, r');
    EvolvesTransitive(p.record, c.record.value, r');
  }

  // What `finalize` guarantees about its effect on the stored record `r`.
  predicate FinalizeEffectOk(expected: string, r: Record, e: Effect)
    requires Valid(r) && IsDrops(expected)
  {
    && (e.answer.Updated? ==> r.cumulative == expected)
    && (e.write.Some? ==>
          && e.answer.Updated? && !r.finalized && Valid(e.write.value) && Evolves(r, e.write.value)
          && e.write.value.cumulative == r.cumulative && e.write.value.signature == r.signature
          && e.write.value.funded == r.funded && e.write.value.redeemed == r.redeemed && e.write.value.finalized)
  }

  lemma FinalizeHasEffect(cfg: Config, ch: string, job: Job, r0: Record, r: Record, i: Input)
    requires Valid(r) && Bound(cfg, ch, r) && IsDrops(Expected(job, r0))
    ensures FinalizeEffectOk(Expected(job, r0), r, Mutate(FinalizeOp(cfg, ch, job, r0, i), Some(r)))
  {
    MutateKeepsRecords(FinalizeOp(cfg, ch, job, r0, i), Some(r));
  }

  lemma FinalizedOk(cfg: Config, s: State, id: nat, ch: string, p: Process, c: Channel, e: Effect)
    requires ChannelOk(cfg, s.signed, ch, c) && p.Finalizing? && ProcessOk(cfg, s.signed, s.now, id, ch, p, c)
    requires FinalizeEffectOk(Expected(p.job, p.record), c.record.value, e)
    ensures var c' := Store(c, e); Rely(c, c', s.now, id) && ChannelOk(cfg, s.signed, ch, c') && Behind(p.record, c')
  {
    if e.write.Some? {
      SameClaimOk(cfg, s, id, ch, c, e.write.value);
      BehindStable(p.record, c, Store(c, e), s.now, id);
    }
  }

  // ---- one step of any process ----

  predicate StepOk(cfg: Config, s: State, id: nat, ch: string, c: Channel, m: Option<Move>) {
    m.Some? ==> MoveOk(cfg, s, id, ch, c, m.value)
  }

  lemma OpenLookOk(cfg: Config, s: State, id: nat, ch: string, p: Process, c: Channel, i: Input)
    requires p.OpenLooking? && IsChannelId(ch) && Upper(ch) == ch
    requires ChannelOk(cfg, s.signed, ch, c) && ProcessOk(cfg, s.signed, s.now, id, ch, p, c)
    ensures StepOk(cfg, s, id, ch, c, OpenLookStep(cfg, ch, p.q, p.funded, c, i))
  {
    SameRecordOk(cfg, s, id, ch, c, c);
    if c.record.Some? {
      OpenFoundOk(cfg, s, id, ch, p.q, p.funded, c);
    } else if i.clock >= 0 {
      assert Value("0") == 0 by { assert "0"[..0] == ""; }
      assert Valid(OpenCandidate(cfg, ch, p.funded, i.clock));
    }
  }

  lemma OpenCreateOk(cfg: Config, s: State, id: nat, ch: string, p: Process, c: Channel, i: Input)
    requires p.OpenCreating? && IsChannelId(ch) && Upper(ch) == ch
    requires ChannelOk(cfg, s.signed, ch, c) && ProcessOk(cfg, s.signed, s.now, id, ch, p, c)
    ensures StepOk(cfg, s, id, ch, c, OpenCreateStep(cfg, ch, p.q, p.funded, p.candidate, c))
  {
    hide Mutate;
    CreateOk(cfg, s, ch, c, p.candidate, id);
    var (c', r) := CreateMove(c, p.candidate);
    if r.Some? { OpenFoundOk(cfg, s, id, ch, p.q, p.funded, c'); }
  }

  lemma OpenRereadOk(cfg: Config, s: State, id: nat, ch: string, p: Process, c: Channel, i: Input)
    requires p.OpenRereading? && IsChannelId(ch) && Upper(ch) == ch
    requires ChannelOk(cfg, s.signed, ch, c) && ProcessOk(cfg, s.signed, s.now, id, ch, p, c)
    ensures StepOk(cfg, s, id, ch, c, OpenRereadStep(cfg, ch, p.q, p.funded, c))
  {
    SameRecordOk(cfg, s, id, ch, c, c);
    if c.record.Some? { OpenFoundOk(cfg, s, id, ch, p.q, p.funded, c); }
  }

  lemma OpenAdvanceOk(cfg: Config, s: State, id: nat, ch: string, p: Process, c: Channel, i: Input)
    requires p.OpenAdvancing? && IsChannelId(ch) && Upper(ch) == ch
    requires ChannelOk(cfg, s.signed, ch, c) && ProcessOk(cfg, s.signed, s.now, id, ch, p, c)
    ensures StepOk(cfg, s, id, ch, c, AdvanceStep(cfg, ch, p.q, None, c, i))
  {
    hide Mutate, Evolves;
    AdvanceHasEffect(cfg, ch, p.q, None, c.record.value, i);
    AdvancedOk(cfg, s, id, ch, p.q, None, c, Mutate(AdvanceOp(cfg, ch, p.q, None, i), c.record));
  }

  lemma LookOk(cfg: Config, s: State, id: nat, ch: string, p: Process, c: Channel, i: Input)
    requires p.Looking? && IsChannelId(ch) && Upper(ch) == ch
    requires ChannelOk(cfg, s.signed, ch, c) && ProcessOk(cfg, s.signed, s.now, id, ch, p, c)
    ensures StepOk(cfg, s, id, ch, c, LookStep(cfg, s, ch, p.q, c))
  {
    SameRecordOk(cfg, s, id, ch, c, c);
    if c.record.Some? { ClaimFoundOk(cfg, s, id, ch, p.q, c); }
  }

  lemma ImportOk(cfg: Config, ch: string, q: Request, c: Channel, i: Input)
    requires IsChannelId(ch) && Upper(ch) == ch && LoadStep(cfg, ch, q, c, i).Some?
    ensures CandidateOk(cfg, ch, c, ImportCandidate(cfg, ch, i.text, i.text2, i.clock))
  {
    assert Valid(ImportCandidate(cfg, ch, i.text, i.text2, i.clock)) by {
      assert Upper("00") == "00" && Upper("") == "";
    }
  }

  lemma LoadOk(cfg: Config, s: State, id: nat, ch: string, p: Process, c: Channel, i: Input)
    requires p.Loading? && IsChannelId(ch) && Upper(ch) == ch
    requires ChannelOk(cfg, s.signed, ch, c) && ProcessOk(cfg, s.signed, s.now, id, ch, p, c)
    ensures StepOk(cfg, s, id, ch, c, LoadStep(cfg, ch, p.q, c, i))
  {
    hide Evolves, Chain, CandidateOk, ImportCandidate;
    SameRecordOk(cfg, s, id, ch, c, c);
    if LoadStep(cfg, ch, p.q, c, i).Some? {
      ImportOk(cfg, ch, p.q, c, i);
    }
  }

  lemma CreateStepOk(cfg: Config, s: State, id: nat, ch: string, p: Process, c: Channel, i: Input)
    requires p.Creating? && IsChannelId(ch) && Upper(ch) == ch
    requires ChannelOk(cfg, s.signed, ch, c) && ProcessOk(cfg, s.signed, s.now, id, ch, p, c)
    ensures StepOk(cfg, s, id, ch, c, CreateStep(cfg, s, ch, p.q, p.candidate, c))
  {
    hide Mutate;
    CreateOk(cfg, s, ch, c, p.candidate, id);
    var (c', r) := CreateMove(c, p.candidate);
    if r.Some? { ClaimFoundOk(cfg, s, id, ch, p.q, c'); }
  }

  lemma RereadOk(cfg: Config, s: State, id: nat, ch: string, p: Process, c: Channel, i: Input)
    requires p.Rereading? && IsChannelId(ch) && Upper(ch) == ch
    requires ChannelOk(cfg, s.signed, ch, c) && ProcessOk(cfg, s.signed, s.now, id, ch, p, c)
    ensures StepOk(cfg, s, id, ch, c, RereadStep(cfg, s, ch, p.q, c))
  {
    SameRecordOk(cfg, s, id, ch, c, c);
    if c.record.Some? { ClaimFoundOk(cfg, s, id, ch, p.q, c); }
  }

  lemma VerifyOk(cfg: Config, s: State, id: nat, ch: string, p: Process, c: Channel, i: Input)
    requires p.Verifying? && IsChannelId(ch) && Upper(ch) == ch
    requires ChannelOk(cfg, s.signed, ch, c) && ProcessOk(cfg, s.signed, s.now, id, ch, p, c)
    ensures StepOk(cfg, s, id, ch, c, VerifyStep(p.q, p.record, c, i))
  {
    hide Valid, Evolves;
    SameRecordOk(cfg, s, id, ch, c, c);
  }

  lemma AdvanceOk(cfg: Config, s: State, id: nat, ch: string, p: Process, c: Channel, i: Input)
    requires p.Advancing? && IsChannelId(ch) && Upper(ch) == ch
    requires ChannelOk(cfg, s.signed, ch, c) && ProcessOk(cfg, s.signed, s.now, id, ch, p, c)
    ensures StepOk(cfg, s, id, ch, c, AdvanceStep(cfg, ch, p.q, p.funding, c, i))
  {
    hide Mutate, Evolves;
    AdvanceHasEffect(cfg, ch, p.q, p.funding, c.record.value, i);
    AdvancedOk(cfg, s, id, ch, p.q, p.funding, c, Mutate(AdvanceOp(cfg, ch, p.q, p.funding, i), c.record));
  }

  lemma LeaseOk(cfg: Config, s: State, id: nat, ch: string, p: Process, c: Channel, i: Input)
    requires p.Leasing? && IsChannelId(ch) && Upper(ch) == ch
    requires ChannelOk(cfg, s.signed, ch, c) && ProcessOk(cfg, s.signed, s.now, id, ch, p, c)
    ensures StepOk(cfg, s, id, ch, c, LeaseStep(s.now, id, p.q, p.record, c, i))
  {
    hide Valid, Evolves;
    if i.clock <= s.now {
      SameRecordOk(cfg, s, id, ch, c, TakeLease(c, id, i).1);
    }
  }

  lemma LatestOk(cfg: Config, s: State, id: nat, ch: string, q: Request, lease: Option<int>, c: Channel)
    requires ChannelOk(cfg, s.signed, ch, c) && c.record.Some?
    requires WellFormedRequest(q) && q.amount == c.record.value.cumulative
             && (lease.Some? ==> Holds(c, id, lease.value, s.now))
    ensures Unsettled(c.record.value) && lease.Some? ==>
              ProcessOk(cfg, s.signed, s.now, id, ch, Settling(CloseJob(q), c.record.value, lease.value), c)
    ensures !Unsettled(c.record.value) && lease.Some? ==>
              ProcessOk(cfg, s.signed, s.now, id, ch, Releasing(CloseJob(q), c.record.value, lease.value), c)
    ensures !Unsettled(c.record.value) ==>
              ProcessOk(cfg, s.signed, s.now, id, ch, Finalizing(CloseJob(q), c.record.value, None), c)
  {
  }

  lemma ReloadFacts(cfg: Config, s: State, id: nat, ch: string, p: Process, c: Channel)
    requires p.Reloading? && ProcessOk(cfg, s.signed, s.now, id, ch, p, c)
    ensures WellFormedRequest(p.q) && p.q.amount == p.record.cumulative && c.record.Some?
    ensures p.lease.Some? ==>
              Holds(c, id, p.lease.value, s.now)
              && ProcessOk(cfg, s.signed, s.now, id, ch, Discarding(p.q, p.lease.value), c)
  {
  }

  lemma ReloadNextOk(cfg: Config, s: State, id: nat, ch: string, p: Process, c: Channel)
    requires ChannelOk(cfg, s.signed, ch, c) && p.Reloading? && ProcessOk(cfg, s.signed, s.now, id, ch, p, c)
    ensures var m := ReloadStep(cfg, ch, p.q, p.record, p.lease, c);
            m.Some? ==>
              && m.value.channel == c && m.value.next.Some?
              && ProcessOk(cfg, s.signed, s.now, id, ch, m.value.next.value, c)
  {
    hide ProcessOk, Chain, Holds, WellFormedRequest;
    ReloadFacts(cfg, s, id, ch, p, c);
    if c.record.value.cumulative == p.record.cumulative {
      LatestOk(cfg, s, id, ch, p.q, p.lease, c);
    }
  }

  lemma ReloadOk(cfg: Config, s: State, id: nat, ch: string, p: Process, c: Channel, i: Input)
    requires p.Reloading? && IsChannelId(ch) && Upper(ch) == ch
    requires ChannelOk(cfg, s.signed, ch, c) && ProcessOk(cfg, s.signed, s.now, id, ch, p, c)
    ensures StepOk(cfg, s, id, ch, c, ReloadStep(cfg, ch, p.q, p.record, p.lease, c))
  {
    SameRecordOk(cfg, s, id, ch, c, c);
    ReloadNextOk(cfg, s, id, ch, p, c);
  }

  lemma DiscardOk(cfg: Config, s: State, id: nat, ch: string, p: Process, c: Channel, i: Input)
    requires p.Discarding? && IsChannelId(ch) && Upper(ch) == ch
    requires ChannelOk(cfg, s.signed, ch, c) && ProcessOk(cfg, s.signed, s.now, id, ch, p, c)
    ensures StepOk(cfg, s, id, ch, c, Some(Move(Release(c, id), None)))
  {
    hide Valid, Evolves;
    SameRecordOk(cfg, s, id, ch, c, Release(c, id));
  }

  lemma SweepLeaseOk(cfg: Config, s: State, id: nat, ch: string, p: Process, c: Channel, i: Input)
    requires p.SweepLeasing? && IsChannelId(ch) && Upper(ch) == ch
    requires ChannelOk(cfg, s.signed, ch, c) && ProcessOk(cfg, s.signed, s.now, id, ch, p, c)
    ensures StepOk(cfg, s, id, ch, c, SweepLeaseStep(s.now, id, p.record, p.idle, c, i))
  {
    hide Valid, Evolves;
    if i.clock <= s.now {
      SameRecordOk(cfg, s, id, ch, c, TakeLease(c, id, i).1);
    }
  }

  lemma SettleOk(cfg: Config, s: State, id: nat, ch: string, p: Process, c: Channel, i: Input)
    requires p.Settling? && IsChannelId(ch) && Upper(ch) == ch
    requires ChannelOk(cfg, s.signed, ch, c) && ProcessOk(cfg, s.signed, s.now, id, ch, p, c)
    ensures StepOk(cfg, s, id, ch, c, SettleStep(p.job, p.record, p.expires, c))
  {
    SameRecordOk(cfg, s, id, ch, c, c.(submitted := c.submitted + {Value(p.record.cumulative)}));
  }

  lemma WaitOk(cfg: Config, s: State, id: nat, ch: string, p: Process, c: Channel, i: Input)
    requires p.Waiting? && IsChannelId(ch) && Upper(ch) == ch
    requires ChannelOk(cfg, s.signed, ch, c) && ProcessOk(cfg, s.signed, s.now, id, ch, p, c)
    ensures StepOk(cfg, s, id, ch, c, WaitStep(p.job, p.record, p.expires, c))
  {
    hide Valid, Evolves;
    SameRecordOk(cfg, s, id, ch, c, c);
  }

  lemma RedeemedNextOk(cfg: Config, s: State, id: nat, ch: string, job: Job, r: Record, expires: int, c: Channel)
    requires JobOk(job, r) && Behind(r, c) && Holds(c, id, expires, s.now)
    requires Value(c.record.value.redeemed) == Value(r.cumulative)
    ensures job.CloseJob? ==> ProcessOk(cfg, s.signed, s.now, id, ch, Releasing(job, c.record.value, expires), c)
    ensures job.SweepJob? ==> ProcessOk(cfg, s.signed, s.now, id, ch, Releasing(job, r, expires), c)
    ensures job.SweepJob? ==> ProcessOk(cfg, s.signed, s.now, id, ch, Finalizing(job, r, Some(expires)), c)
  {
  }

  lemma RedeemedMoveOk(cfg: Config, s: State, id: nat, ch: string, p: Process, c: Channel, e: Effect)
    requires ChannelOk(cfg, s.signed, ch, c) && p.Redeeming? && ProcessOk(cfg, s.signed, s.now, id, ch, p, c)
    requires RedeemEffectOk(p.record.cumulative, c.record.value, e)
    ensures StepOk(cfg, s, id, ch, c, Redeemed(p.job, p.record, p.expires, c, e))
  {
    hide Valid, Evolves;
    if e.answer.Updated? {
      RedeemedOk(cfg, s, id, ch, p, c, e);
      RedeemedNextOk(cfg, s, id, ch, p.job, p.record, p.expires, Store(c, e));
    }
  }

  lemma RedeemOk(cfg: Config, s: State, id: nat, ch: string, p: Process, c: Channel, i: Input)
    requires p.Redeeming? && IsChannelId(ch) && Upper(ch) == ch
    requires ChannelOk(cfg, s.signed, ch, c) && ProcessOk(cfg, s.signed, s.now, id, ch, p, c)
    ensures StepOk(cfg, s, id, ch, c, RedeemStep(cfg, ch, p.job, p.record, p.expires, c, i))
  {
    hide Mutate, Evolves;
    RedeemHasEffect(cfg, ch, p.record, c.record.value, i);
    RedeemedMoveOk(cfg, s, id, ch, p, c, Mutate(RedeemOp(cfg, ch, p.record, i), c.record));
  }

  lemma ReleaseOk(cfg: Config, s: State, id: nat, ch: string, p: Process, c: Channel, i: Input)
    requires p.Releasing? && IsChannelId(ch) && Upper(ch) == ch
    requires ChannelOk(cfg, s.signed, ch, c) && ProcessOk(cfg, s.signed, s.now, id, ch, p, c)
    ensures StepOk(cfg, s, id, ch, c, ReleaseStep(id, p.job, p.record, c))
  {
    hide Valid, Evolves;
    SameRecordOk(cfg, s, id, ch, c, Release(c, id));
  }

  lemma FinalizedNextOk(cfg: Config, s: State, id: nat, ch: string, p: Process, c: Channel, c': Channel)
    requires p.Finalizing? && ProcessOk(cfg, s.signed, s.now, id, ch, p, c) && Behind(p.record, c')
             && c'.lease == c.lease
    ensures p.lease.Some? ==> ProcessOk(cfg, s.signed, s.now, id, ch, Releasing(p.job, p.record, p.lease.value), c')
  {
  }

  lemma FinalizedMoveOk(cfg: Config, s: State, id: nat, ch: string, p: Process, c: Channel, e: Effect)
    requires ChannelOk(cfg, s.signed, ch, c) && p.Finalizing? && ProcessOk(cfg, s.signed, s.now, id, ch, p, c)
    requires FinalizeEffectOk(Expected(p.job, p.record), c.record.value, e)
    ensures StepOk(cfg, s, id, ch, c, Finalized(p.job, p.record, p.lease, c, e))
  {
    hide Valid, Evolves;
    if e.answer.Updated? {
      FinalizedOk(cfg, s, id, ch, p, c, e);
      FinalizedNextOk(cfg, s, id, ch, p, c, Store(c, e));
    }
  }

  lemma FinalizeOk(cfg: Config, s: State, id: nat, ch: string, p: Process, c: Channel, i: Input)
    requires p.Finalizing? && IsChannelId(ch) && Upper(ch) == ch
    requires ChannelOk(cfg, s.signed, ch, c) && ProcessOk(cfg, s.signed, s.now, id, ch, p, c)
    ensures StepOk(cfg, s, id, ch, c, FinalizeStep(cfg, ch, p.job, p.record, p.lease, c, i))
  {
    hide Mutate, Evolves;
    FinalizeHasEffect(cfg, ch, p.job, p.record, c.record.value, i);
    FinalizedMoveOk(cfg, s, id, ch, p, c, Mutate(FinalizeOp(cfg, ch, p.job, p.record, i), c.record));
  }
}
