// Whole runs of the PayChannel protocol and what holds in every state they reach.
module PayChannelSafety {
  import opened Options
  import opened DropAmounts
  import opened HighWater
  import opened PayChannelRecords
  import opened PayChannelProtocol

  predicate IsNormalId(ch: string) { IsChannelId(ch) && Upper(ch) == ch }

  function SetChannel(s: State, ch: string, c: Channel): State { s.(channels := s.channels[ch := c]) }

  function Spawn(s: State, ch: string, p: Process): State {
    s.(tasks := s.tasks[s.nextId := Task(ch, p)], nextId := s.nextId + 1)
  }

  // The open path before its first store call: the envelope and amount checks, a validated
  // PaymentChannelCreate for this channel, and a proven claim signature.
  predicate OpenStarts(s: State, ch: string, q: Request, funded: string) {
    && IsNormalId(ch) && WellFormedRequest(q) && q.kind.OpenAction? && IsDrops(funded)
    && 0 < Value(funded) && Value(q.requested) <= Value(q.amount) <= Value(funded)
    && ChannelAt(s, ch).ledger.Some? && ChannelAt(s, ch).ledger.value.opening == Some(Value(funded))
    && (Value(q.amount) > 0 ==> Signed(s.signed, ch, q.amount, q.signature))
  }

  // What the worker does first with a record it scanned.
  function SweepStart(r: Record, idle: bool): Option<Process> {
    if (idle && r.finalized) || !WellTyped(r) then None
    else if Unsettled(r) then Some(SweepLeasing(r, idle))
    else if idle then Some(Finalizing(SweepJob(idle), r, None))
    else None
  }

  // One event; an event that is not possible changes nothing.
  function Next(cfg: Config, s: State, e: Event): State {
    match e
    case OpenOnLedger(ch, amount) =>
      if !IsNormalId(ch) || ChannelAt(s, ch).ledger.Some? || amount == 0 then s
      else SetChannel(s, ch, ChannelAt(s, ch).(ledger := Some(LedgerEntry(amount, 0, Some(amount)))))
    case FundOnLedger(ch, extra) =>
      var c := ChannelAt(s, ch);
      if c.ledger.None? then s
      else SetChannel(s, ch, c.(ledger := Some(c.ledger.value.(amount := c.ledger.value.amount + extra))))
    case ValidateClaim(ch, amount) =>
      var c := ChannelAt(s, ch);
      if c.ledger.None? || amount !in c.submitted || amount <= c.ledger.value.balance then s
      else SetChannel(s, ch, c.(ledger := Some(c.ledger.value.(balance := amount))))
    case Sign(ch, amount, signature) => s.(signed := s.signed + {(ch, amount, signature)})
    case Tick(clock) => if clock < s.now then s else s.(now := clock)
    case StartOpen(ch, q, funded) => if OpenStarts(s, ch, q, funded) then Spawn(s, ch, OpenLooking(q, funded)) else s
    case StartClaim(ch, q) =>
      if IsNormalId(ch) && WellFormedRequest(q) && !q.kind.OpenAction? then Spawn(s, ch, Looking(q)) else s
    case StartSweep(ch, idle) =>
      if !cfg.settler || ChannelAt(s, ch).record.None? then s
      else
        var p := SweepStart(ChannelAt(s, ch).record.value, idle);
        if p.Some? then Spawn(s, ch, p.value) else s
    case Proceed(id, input) =>
      if id !in s.tasks || !Usable(ChannelAt(s, s.tasks[id].channelId)) || !Steppable(s.tasks[id].process) then s
      else
        var ch := s.tasks[id].channelId;
        var m := Step(cfg, s, id, ch, s.tasks[id].process, input);
        if m.None? then s
        else
          var t := SetChannel(s, ch, m.value.channel);
          t.(tasks := if m.value.next.Some? then s.tasks[id := Task(ch, m.value.next.value)] else s.tasks - {id})
    case Stop(id) => s.(tasks := s.tasks - {id})
  }

  function Run(cfg: Config, s: State, events: seq<Event>): State {
    if events == [] then s else Next(cfg, Run(cfg, s, events[..|events| - 1]), events[|events| - 1])
  }

  // Nothing registered and nobody running; channels opened elsewhere may exist on the ledger.
  predicate Initial(s: State) {
    && s.tasks == map[]
    && forall ch | ch in s.channels ::
         && IsNormalId(ch)
         && s.channels[ch] == NO_CHANNEL.(ledger := s.channels[ch].ledger)
         && (s.channels[ch].ledger.Some? ==>
               s.channels[ch].ledger.value.opening.None?
               && s.channels[ch].ledger.value.balance <= s.channels[ch].ledger.value.amount)
  }

  predicate Inv(cfg: Config, s: State) {
    && (forall ch | ch in s.channels :: IsNormalId(ch) && ChannelOk(cfg, s.signed, ch, s.channels[ch]))
    && (forall id | id in s.tasks ::
          && id < s.nextId && IsNormalId(s.tasks[id].channelId)
          && ProcessOk(cfg, s.signed, s.now, id, s.tasks[id].channelId, s.tasks[id].process,
                       ChannelAt(s, s.tasks[id].channelId)))
  }

  lemma ChannelAtOk(cfg: Config, s: State, ch: string)
    requires Inv(cfg, s)
    ensures ChannelOk(cfg, s.signed, ch, ChannelAt(s, ch))
  {
  }

  lemma ChannelOkSigned(cfg: Config, signed: set<(string, nat, string)>, signed': set<(string, nat, string)>,
                        ch: string, c: Channel)
    requires ChannelOk(cfg, signed, ch, c) && signed <= signed'
    ensures ChannelOk(cfg, signed', ch, c)
  {
  }

  // One channel changes within its rely condition; every other process keeps its facts.
  lemma ChannelChangeKeepsInv(cfg: Config, s: State, t: State, ch: string, id: nat)
    requires Inv(cfg, s) && IsNormalId(ch)
    requires t.channels == s.channels[ch := ChannelAt(t, ch)] && s.now <= t.now && s.signed <= t.signed
             && s.nextId <= t.nextId
    requires Rely(ChannelAt(s, ch), ChannelAt(t, ch), s.now, id) && ChannelOk(cfg, t.signed, ch, ChannelAt(t, ch))
    requires forall j | j in t.tasks && j != id :: j in s.tasks && t.tasks[j] == s.tasks[j]
    requires id in t.tasks ==>
               id < t.nextId && IsNormalId(t.tasks[id].channelId)
               && ProcessOk(cfg, t.signed, t.now, id, t.tasks[id].channelId, t.tasks[id].process,
                            ChannelAt(t, t.tasks[id].channelId))
    ensures Inv(cfg, t)
  {
    forall x | x in t.channels ensures IsNormalId(x) && ChannelOk(cfg, t.signed, x, t.channels[x]) {
      if x != ch { ChannelOkSigned(cfg, s.signed, t.signed, x, s.channels[x]); }
    }
    forall j | j in t.tasks && j != id
      ensures ProcessOk(cfg, t.signed, t.now, j, t.tasks[j].channelId, t.tasks[j].process,
                        ChannelAt(t, t.tasks[j].channelId))
    {
      var x, p := s.tasks[j].channelId, s.tasks[j].process;
      var c, c' := ChannelAt(s, x), ChannelAt(t, x);
      if x != ch {
        assert c' == c;
        ChannelAtOk(cfg, s, x);
        SameRecordOk(cfg, s, id, x, c, c);
      }
      ProcessStable(cfg, s.signed, t.signed, s.now, t.now, j, x, p, c, c', id);
    }
  }

  // Nothing changes on any channel.
  lemma QuietKeepsInv(cfg: Config, s: State, t: State)
    requires Inv(cfg, s) && t.channels == s.channels && s.now <= t.now && s.signed <= t.signed && s.nextId <= t.nextId
    requires forall j | j in t.tasks :: j in s.tasks && t.tasks[j] == s.tasks[j]
    ensures Inv(cfg, t)
  {
    forall x | x in t.channels ensures ChannelOk(cfg, t.signed, x, t.channels[x]) {
      ChannelOkSigned(cfg, s.signed, t.signed, x, s.channels[x]);
    }
    forall j | j in t.tasks
      ensures ProcessOk(cfg, t.signed, t.now, j, t.tasks[j].channelId, t.tasks[j].process,
                        ChannelAt(t, t.tasks[j].channelId))
    {
      var x := s.tasks[j].channelId;
      ChannelAtOk(cfg, s, x);
      SameRecordOk(cfg, s, j + 1, x, ChannelAt(s, x), ChannelAt(s, x));
      ProcessStable(cfg, s.signed, t.signed, s.now, t.now, j, x, s.tasks[j].process, ChannelAt(s, x), ChannelAt(t, x),
                    j + 1);
    }
  }

  lemma SpawnKeepsInv(cfg: Config, s: State, ch: string, p: Process)
    requires Inv(cfg, s) && IsNormalId(ch) && ProcessOk(cfg, s.signed, s.now, s.nextId, ch, p, ChannelAt(s, ch))
    ensures Inv(cfg, Spawn(s, ch, p))
  {
  }

  lemma SweepStartOk(cfg: Config, s: State, ch: string, idle: bool)
    requires Inv(cfg, s) && cfg.settler && ChannelAt(s, ch).record.Some?
    ensures var p := SweepStart(ChannelAt(s, ch).record.value, idle);
            p.Some? ==> ProcessOk(cfg, s.signed, s.now, s.nextId, ch, p.value, ChannelAt(s, ch))
  {
    ChannelAtOk(cfg, s, ch);
  }

  lemma OpenStepKeeps(cfg: Config, s: State, id: nat, ch: string, p: Process, i: Input)
    requires IsNormalId(ch) && ChannelOk(cfg, s.signed, ch, ChannelAt(s, ch))
    requires ProcessOk(cfg, s.signed, s.now, id, ch, p, ChannelAt(s, ch))
    requires p.OpenLooking? || p.OpenCreating? || p.OpenRereading? || p.OpenAdvancing?
    ensures Usable(ChannelAt(s, ch)) && Steppable(p)
    ensures StepOk(cfg, s, id, ch, ChannelAt(s, ch), Step(cfg, s, id, ch, p, i))
  {
    hide Mutate, Evolves, MoveOk;
    var c := ChannelAt(s, ch);
    match p
    case OpenLooking(_, _) => OpenLookOk(cfg, s, id, ch, p, c, i);
    case OpenCreating(_, _, _) => OpenCreateOk(cfg, s, id, ch, p, c, i);
    case OpenRereading(_, _) => OpenRereadOk(cfg, s, id, ch, p, c, i);
    case OpenAdvancing(_, _) => OpenAdvanceOk(cfg, s, id, ch, p, c, i);
  }

  lemma ClaimStepKeeps(cfg: Config, s: State, id: nat, ch: string, p: Process, i: Input)
    requires IsNormalId(ch) && ChannelOk(cfg, s.signed, ch, ChannelAt(s, ch))
    requires ProcessOk(cfg, s.signed, s.now, id, ch, p, ChannelAt(s, ch))
    requires p.Looking? || p.Loading? || p.Creating? || p.Rereading? || p.Verifying? || p.Advancing?
    ensures Usable(ChannelAt(s, ch)) && Steppable(p)
    ensures StepOk(cfg, s, id, ch, ChannelAt(s, ch), Step(cfg, s, id, ch, p, i))
  {
    hide Mutate, Evolves, MoveOk;
    var c := ChannelAt(s, ch);
    match p
    case Looking(_) => LookOk(cfg, s, id, ch, p, c, i);
    case Loading(_) => LoadOk(cfg, s, id, ch, p, c, i);
    case Creating(_, _) => CreateStepOk(cfg, s, id, ch, p, c, i);
    case Rereading(_) => RereadOk(cfg, s, id, ch, p, c, i);
    case Verifying(_, _) => VerifyOk(cfg, s, id, ch, p, c, i);
    case Advancing(_, _, _) => AdvanceOk(cfg, s, id, ch, p, c, i);
  }

  lemma LeaseStepKeeps(cfg: Config, s: State, id: nat, ch: string, p: Process, i: Input)
    requires IsNormalId(ch) && ChannelOk(cfg, s.signed, ch, ChannelAt(s, ch))
    requires ProcessOk(cfg, s.signed, s.now, id, ch, p, ChannelAt(s, ch))
    requires p.Leasing? || p.Reloading? || p.Discarding? || p.SweepLeasing?
    ensures Usable(ChannelAt(s, ch)) && Steppable(p)
    ensures StepOk(cfg, s, id, ch, ChannelAt(s, ch), Step(cfg, s, id, ch, p, i))
  {
    hide Mutate, Evolves, MoveOk;
    var c := ChannelAt(s, ch);
    match p
    case Leasing(_, _) => LeaseOk(cfg, s, id, ch, p, c, i);
    case Reloading(_, _, _) => ReloadOk(cfg, s, id, ch, p, c, i);
    case Discarding(_, _) => DiscardOk(cfg, s, id, ch, p, c, i);
    case SweepLeasing(_, _) => SweepLeaseOk(cfg, s, id, ch, p, c, i);
  }

  lemma SettleStepKeeps(cfg: Config, s: State, id: nat, ch: string, p: Process, i: Input)
    requires IsNormalId(ch) && ChannelOk(cfg, s.signed, ch, ChannelAt(s, ch))
    requires ProcessOk(cfg, s.signed, s.now, id, ch, p, ChannelAt(s, ch))
    requires p.Settling? || p.Waiting? || p.Redeeming? || p.Releasing? || p.Finalizing?
    ensures Usable(ChannelAt(s, ch)) && Steppable(p)
    ensures StepOk(cfg, s, id, ch, ChannelAt(s, ch), Step(cfg, s, id, ch, p, i))
  {
    hide Mutate, Evolves, MoveOk, Chain, Rely;
    var c := ChannelAt(s, ch);
    match p
    case Settling(_, _, _) => SettleOk(cfg, s, id, ch, p, c, i);
    case Waiting(_, _, _) => WaitOk(cfg, s, id, ch, p, c, i);
    case Redeeming(_, _, _) => RedeemOk(cfg, s, id, ch, p, c, i);
    case Releasing(_, _, _) => ReleaseOk(cfg, s, id, ch, p, c, i);
    case Finalizing(_, _, _) => FinalizeOk(cfg, s, id, ch, p, c, i);
  }

  lemma StepKeepsProcess(cfg: Config, s: State, id: nat, ch: string, p: Process, i: Input)
    requires IsNormalId(ch) && ChannelOk(cfg, s.signed, ch, ChannelAt(s, ch))
    requires ProcessOk(cfg, s.signed, s.now, id, ch, p, ChannelAt(s, ch))
    ensures Usable(ChannelAt(s, ch)) && Steppable(p)
    ensures StepOk(cfg, s, id, ch, ChannelAt(s, ch), Step(cfg, s, id, ch, p, i))
  {
    hide StepOk, ProcessOk, ChannelOk, Usable, Steppable, Step;
    if p.OpenLooking? || p.OpenCreating? || p.OpenRereading? || p.OpenAdvancing? {
      OpenStepKeeps(cfg, s, id, ch, p, i);
    } else if p.Looking? || p.Loading? || p.Creating? || p.Rereading? || p.Verifying? || p.Advancing? {
      ClaimStepKeeps(cfg, s, id, ch, p, i);
    } else if p.Leasing? || p.Reloading? || p.Discarding? || p.SweepLeasing? {
      LeaseStepKeeps(cfg, s, id, ch, p, i);
    } else {
      SettleStepKeeps(cfg, s, id, ch, p, i);
    }
  }

  lemma ProceedKeepsInv(cfg: Config, s: State, id: nat, i: Input)
    requires Inv(cfg, s) && id in s.tasks
    ensures Inv(cfg, Next(cfg, s, Proceed(id, i)))
  {
    hide ProcessOk, ChannelOk, Step;
    var ch := s.tasks[id].channelId;
    ChannelAtOk(cfg, s, ch);
    StepKeepsProcess(cfg, s, id, ch, s.tasks[id].process, i);
    var t := Next(cfg, s, Proceed(id, i));
    if Step(cfg, s, id, ch, s.tasks[id].process, i).Some? {
      ChannelChangeKeepsInv(cfg, s, t, ch, id);
    }
  }

  lemma LedgerKeepsInv(cfg: Config, s: State, e: Event)
    requires Inv(cfg, s) && (e.OpenOnLedger? || e.FundOnLedger? || e.ValidateClaim?)
    ensures Inv(cfg, Next(cfg, s, e))
  {
    hide Evolves, Chain, ProcessOk;
    var t := Next(cfg, s, e);
    var ch := e.channelId;
    ChannelAtOk(cfg, s, ch);
    if t != s {
      if ChannelAt(s, ch).record.Some? { EvolvesReflexive(ChannelAt(s, ch).record.value); }
      assert t.channels == s.channels[ch := ChannelAt(t, ch)];
      ChannelChangeKeepsInv(cfg, s, t, ch, s.nextId);
    }
  }

  lemma SweepKeepsInv(cfg: Config, s: State, ch: string, idle: bool)
    requires Inv(cfg, s)
    ensures Inv(cfg, Next(cfg, s, StartSweep(ch, idle)))
  {
    if cfg.settler && ch in s.channels && s.channels[ch].record.Some? {
      SweepStartOk(cfg, s, ch, idle);
      var p := SweepStart(ChannelAt(s, ch).record.value, idle);
      if p.Some? { SpawnKeepsInv(cfg, s, ch, p.value); }
    }
  }

  lemma NextKeepsInv(cfg: Config, s: State, e: Event)
    requires Inv(cfg, s)
    ensures Inv(cfg, Next(cfg, s, e))
  {
    match e
    case OpenOnLedger(_, _) => LedgerKeepsInv(cfg, s, e);
    case FundOnLedger(_, _) => LedgerKeepsInv(cfg, s, e);
    case ValidateClaim(_, _) => LedgerKeepsInv(cfg, s, e);
    case Sign(_, _, _) => QuietKeepsInv(cfg, s, Next(cfg, s, e));
    case Tick(_) => QuietKeepsInv(cfg, s, Next(cfg, s, e));
    case StartOpen(ch, q, funded) =>
      ChannelAtOk(cfg, s, ch);
      if OpenStarts(s, ch, q, funded) { SpawnKeepsInv(cfg, s, ch, OpenLooking(q, funded)); }
    case StartClaim(ch, q) => if IsNormalId(ch) && WellFormedRequest(q) { SpawnKeepsInv(cfg, s, ch, Looking(q)); }
    case StartSweep(ch, idle) => SweepKeepsInv(cfg, s, ch, idle);
    case Proceed(id, i) => if id in s.tasks { ProceedKeepsInv(cfg, s, id, i); }
    case Stop(_) => QuietKeepsInv(cfg, s, Next(cfg, s, e));
  }

  lemma {:induction false} RunKeepsInv(cfg: Config, s: State, events: seq<Event>)
    requires Inv(cfg, s)
    ensures Inv(cfg, Run(cfg, s, events))
  {
    if events != [] {
      RunKeepsInv(cfg, s, events[..|events| - 1]);
      NextKeepsInv(cfg, Run(cfg, s, events[..|events| - 1]), events[|events| - 1]);
    }
  }

  // ---- the properties ----

  lemma InitialInv(cfg: Config, s: State)
    requires Initial(s)
    ensures Inv(cfg, s)
  {
  }

  lemma ReachableInv(cfg: Config, s: State, events: seq<Event>)
    requires Initial(s)
    ensures Inv(cfg, Run(cfg, s, events))
  {
    InitialInv(cfg, s);
    RunKeepsInv(cfg, s, events);
  }

  // No process is ever stuck on a record or a local value that its next step cannot work with.
  lemma ProcessesCanStep(cfg: Config, s: State, events: seq<Event>, id: nat, i: Input)
    requires Initial(s)
    ensures var t := Run(cfg, s, events);
            id in t.tasks ==> Usable(ChannelAt(t, t.tasks[id].channelId)) && Steppable(t.tasks[id].process)
  {
    hide ProcessOk, ChannelOk, Step, Usable, Steppable;
    var t := Run(cfg, s, events);
    ReachableInv(cfg, s, events);
    if id in t.tasks {
      ChannelAtOk(cfg, t, t.tasks[id].channelId);
      StepKeepsProcess(cfg, t, id, t.tasks[id].channelId, t.tasks[id].process, i);
    }
  }

  // In every state that any run reaches, whatever was interleaved, abandoned, delayed or funded, each
  // registered channel keeps redeemed <= ledger balance <= cumulative <= funded <= ledger amount.
  lemma AccountingHolds(cfg: Config, s: State, events: seq<Event>, ch: string)
    requires Initial(s)
    ensures var c := ChannelAt(Run(cfg, s, events), ch);
            c.record.Some? ==>
              && Valid(c.record.value) && c.ledger.Some?
              && Value(c.record.value.redeemed) <= c.ledger.value.balance <= Value(c.record.value.cumulative)
              && Value(c.record.value.cumulative) <= Value(c.record.value.funded) <= c.ledger.value.amount
  {
    ReachableInv(cfg, s, events);
    ChannelAtOk(cfg, Run(cfg, s, events), ch);
  }

  // With a settler configured, every finalized channel is fully redeemed in every reachable state.
  lemma FinalizedIsRedeemed(cfg: Config, s: State, events: seq<Event>, ch: string)
    requires Initial(s) && cfg.settler
    ensures var c := ChannelAt(Run(cfg, s, events), ch);
            c.record.Some? && c.record.value.finalized ==>
              Valid(c.record.value) && Value(c.record.value.redeemed) == Value(c.record.value.cumulative)
  {
    ReachableInv(cfg, s, events);
    ChannelAtOk(cfg, Run(cfg, s, events), ch);
  }

  predicate IsFinalized(c: Channel) { c.record.Some? && c.record.value.finalized }

  // An effect whose record, if it stores one, is no more final than the channel was.
  predicate Unfinal(e: Effect, c: Channel) { e.write.Some? && e.write.value.finalized ==> IsFinalized(c) }

  lemma AdvanceUnfinal(cfg: Config, ch: string, q: Request, funding: Option<string>, c: Channel, i: Input)
    requires c.record.Some? && Valid(c.record.value) && Bound(cfg, ch, c.record.value) && WellFormedRequest(q)
    ensures Unfinal(Mutate(AdvanceOp(cfg, ch, q, funding, i), c.record), c)
  {
    AdvanceHasEffect(cfg, ch, q, funding, c.record.value, i);
  }

  lemma CreateUnfinal(cfg: Config, ch: string, c: Channel, candidate: Record)
    requires CandidateOk(cfg, ch, c, candidate) && Usable(c)
    ensures IsFinalized(CreateMove(c, candidate).0) ==> IsFinalized(c)
  {
  }

  lemma RedeemUnfinal(cfg: Config, s: State, id: nat, ch: string, p: Process, c: Channel, i: Input)
    requires ChannelOk(cfg, s.signed, ch, c) && p.Redeeming? && ProcessOk(cfg, s.signed, s.now, id, ch, p, c)
    ensures Usable(c) && Unfinal(Mutate(RedeemOp(cfg, ch, p.record, i), c.record), c)
  {
    hide Mutate, Evolves, Chain;
    RedeemHasEffect(cfg, ch, p.record, c.record.value, i);
  }

  lemma FinalizeExpects(cfg: Config, s: State, id: nat, ch: string, p: Process, c: Channel, i: Input)
    requires ChannelOk(cfg, s.signed, ch, c) && p.Finalizing? && ProcessOk(cfg, s.signed, s.now, id, ch, p, c)
    ensures Usable(c) && c.record.Some?
    ensures var e := Mutate(FinalizeOp(cfg, ch, p.job, p.record, i), c.record);
            e.answer.Updated? ==> c.record.value.cumulative == Expected(p.job, p.record)
  {
    hide Mutate, Evolves, Chain;
    FinalizeHasEffect(cfg, ch, p.job, p.record, c.record.value, i);
  }

  // Only a finalize call finalizes, and only on the amount it expects.
  lemma OnlyFinalizeFinalizes(cfg: Config, s: State, id: nat, ch: string, p: Process, i: Input)
    requires IsNormalId(ch) && ChannelOk(cfg, s.signed, ch, ChannelAt(s, ch))
    requires ProcessOk(cfg, s.signed, s.now, id, ch, p, ChannelAt(s, ch)) && Usable(ChannelAt(s, ch)) && Steppable(p)
    ensures var c := ChannelAt(s, ch); var m := Step(cfg, s, id, ch, p, i);
            m.Some? && IsFinalized(m.value.channel) && !IsFinalized(c) ==>
              p.Finalizing? && c.record.Some? && c.record.value.cumulative == Expected(p.job, p.record)
  {
    hide Mutate, Valid, Evolves, Chain, CreateMove;
    var c := ChannelAt(s, ch);
    if p.OpenCreating? || p.Creating? {
      CreateUnfinal(cfg, ch, c, p.candidate);
    } else if p.OpenAdvancing? {
      AdvanceUnfinal(cfg, ch, p.q, None, c, i);
    } else if p.Advancing? {
      AdvanceUnfinal(cfg, ch, p.q, p.funding, c, i);
    } else if p.Redeeming? {
      RedeemUnfinal(cfg, s, id, ch, p, c, i);
    } else if p.Finalizing? {
      FinalizeExpects(cfg, s, id, ch, p, c, i);
    }
  }

  lemma FinalizerBehind(cfg: Config, signed: set<(string, nat, string)>, now: int, id: nat, ch: string, p: Process,
                        c: Channel)
    requires p.Finalizing? && ProcessOk(cfg, signed, now, id, ch, p, c)
    requires c.record.value.cumulative == Expected(p.job, p.record)
    ensures c.record.value.cumulative == p.record.cumulative && c.record.value.signature == p.record.signature
  {
  }

  // A step that finalizes a channel belongs to a process whose snapshot already holds the stored claim:
  // no voucher accepted after the snapshot is ever closed over.
  lemma FinalizerSawTheClaim(cfg: Config, s: State, events: seq<Event>, id: nat, i: Input)
    requires Initial(s)
    ensures var t := Run(cfg, s, events); var t' := Next(cfg, t, Proceed(id, i));
            id in t.tasks ==>
              var ch, p := t.tasks[id].channelId, t.tasks[id].process;
              IsFinalized(ChannelAt(t', ch)) && !IsFinalized(ChannelAt(t, ch)) ==>
                && p.Finalizing? && ChannelAt(t, ch).record.Some?
                && ChannelAt(t, ch).record.value.cumulative == Expected(p.job, p.record) == p.record.cumulative
                && ChannelAt(t, ch).record.value.signature == p.record.signature
  {
    hide ProcessOk, ChannelOk, Step;
    var t := Run(cfg, s, events);
    ReachableInv(cfg, s, events);
    if id in t.tasks {
      var ch, p := t.tasks[id].channelId, t.tasks[id].process;
      ChannelAtOk(cfg, t, ch);
      StepKeepsProcess(cfg, t, id, ch, p, i);
      OnlyFinalizeFinalizes(cfg, t, id, ch, p, i);
      if p.Finalizing? && ChannelAt(t, ch).record.Some?
         && ChannelAt(t, ch).record.value.cumulative == Expected(p.job, p.record) {
        FinalizerBehind(cfg, t.signed, t.now, id, ch, p, ChannelAt(t, ch));
      }
    }
  }

  // The expiry of the lease a process settles under, from the moment it may submit until it lets go.
  function LeaseOf(p: Process): Option<int> {
    match p
    case Reloading(_, _, lease) => lease
    case Discarding(_, expires) => Some(expires)
    case Settling(_, _, expires) => Some(expires)
    case Waiting(_, _, expires) => Some(expires)
    case Redeeming(_, _, expires) => Some(expires)
    case Releasing(_, _, expires) => Some(expires)
    case Finalizing(_, _, lease) => lease
    case _ => None
  }

  lemma LeaseOfHolds(cfg: Config, signed: set<(string, nat, string)>, now: int, id: nat, ch: string, p: Process,
                     c: Channel)
    requires ProcessOk(cfg, signed, now, id, ch, p, c) && LeaseOf(p).Some? && LeaseOf(p).value > now
    ensures c.lease == Some(Lease(id, LeaseOf(p).value))
  {
  }

  // Two settlements of one channel never overlap while both leases are unexpired.
  lemma SettlementsDoNotOverlap(cfg: Config, s: State, events: seq<Event>, a: nat, b: nat)
    requires Initial(s)
    ensures var t := Run(cfg, s, events);
            a in t.tasks && b in t.tasks && t.tasks[a].channelId == t.tasks[b].channelId
            && LeaseOf(t.tasks[a].process).Some? && LeaseOf(t.tasks[b].process).Some?
            && LeaseOf(t.tasks[a].process).value > t.now && LeaseOf(t.tasks[b].process).value > t.now
            ==> a == b
  {
    var t := Run(cfg, s, events);
    ReachableInv(cfg, s, events);
    forall id | id in t.tasks && LeaseOf(t.tasks[id].process).Some? && LeaseOf(t.tasks[id].process).value > t.now
      ensures ChannelAt(t, t.tasks[id].channelId).lease == Some(Lease(id, LeaseOf(t.tasks[id].process).value))
    {
      LeaseOfHolds(cfg, t.signed, t.now, id, t.tasks[id].channelId, t.tasks[id].process,
                   ChannelAt(t, t.tasks[id].channelId));
    }
  }

  // A step takes a lease away from another process only after that lease has expired.
  lemma LeaseOutlivesOthers(cfg: Config, s: State, events: seq<Event>, id: nat, i: Input, ch: string)
    requires Initial(s)
    ensures var t := Run(cfg, s, events); var t' := Next(cfg, t, Proceed(id, i));
            var lease := ChannelAt(t, ch).lease;
            lease.Some? && ChannelAt(t', ch).lease != lease ==> lease.value.owner == id || lease.value.expires <= t.now
  {
    hide ProcessOk, ChannelOk, Step;
    var t := Run(cfg, s, events);
    ReachableInv(cfg, s, events);
    if id in t.tasks {
      ChannelAtOk(cfg, t, t.tasks[id].channelId);
      StepKeepsProcess(cfg, t, id, t.tasks[id].channelId, t.tasks[id].process, i);
    }
  }

  lemma SettlingIsSigned(cfg: Config, signed: set<(string, nat, string)>, now: int, id: nat, ch: string, p: Process,
                         c: Channel)
    requires p.Settling? && ProcessOk(cfg, signed, now, id, ch, p, c) && ChannelOk(cfg, signed, ch, c)
    ensures Valid(p.record) && Signed(signed, ch, p.record.cumulative, p.record.signature)
    ensures c.record.Some? && Valid(c.record.value) && c.ledger.Some?
    ensures Value(p.record.cumulative) <= Value(c.record.value.cumulative) <= c.ledger.value.amount
  {
  }

  // Every claim about to be handed to the ledger is one the payer signed for exactly its amount, no
  // larger than the stored cumulative amount and hence covered by the channel's ledger funding.
  lemma SettlementsAreSigned(cfg: Config, s: State, events: seq<Event>, id: nat)
    requires Initial(s)
    ensures var t := Run(cfg, s, events);
            id in t.tasks && t.tasks[id].process.Settling? ==>
              var ch, r := t.tasks[id].channelId, t.tasks[id].process.record;
              var c := ChannelAt(t, ch);
              && Valid(r) && Signed(t.signed, ch, r.cumulative, r.signature)
              && c.record.Some? && Valid(c.record.value) && c.ledger.Some?
              && Value(r.cumulative) <= Value(c.record.value.cumulative) <= c.ledger.value.amount
  {
    var t := Run(cfg, s, events);
    ReachableInv(cfg, s, events);
    if id in t.tasks && t.tasks[id].process.Settling? {
      var ch := t.tasks[id].channelId;
      ChannelAtOk(cfg, t, ch);
      SettlingIsSigned(cfg, t.signed, t.now, id, ch, t.tasks[id].process, ChannelAt(t, ch));
    }
  }

  function Requested(accepted: seq<Acceptance>): nat {
    if accepted == [] then 0 else Requested(accepted[..|accepted| - 1]) + accepted[|accepted| - 1].requested
  }

  lemma {:induction false} ChainPays(base: nat, accepted: seq<Acceptance>, top: nat)
    requires Chain(base, accepted, top)
    ensures base + Requested(accepted) <= top
    ensures forall j | 0 <= j < |accepted| :: base <= accepted[j].previous < accepted[j].cumulative <= top
    ensures forall j, k | 0 <= j < k < |accepted| :: accepted[j].cumulative < accepted[k].cumulative
  {
    if accepted != [] {
      ChainPays(base, accepted[..|accepted| - 1], accepted[|accepted| - 1].previous);
    }
  }

  // Accepted cumulative amounts strictly increase, and all the requests they paid for together cost at
  // most what the claim has grown by, hence at most the funding.
  lemma AcceptedRequestsArePaid(cfg: Config, s: State, events: seq<Event>, ch: string)
    requires Initial(s)
    ensures var c := ChannelAt(Run(cfg, s, events), ch);
            && (c.record.Some? ==>
                  && Valid(c.record.value)
                  && Requested(c.accepted) <= Value(c.record.value.cumulative) - c.base <= Value(c.record.value.funded))
            && (c.record.None? ==> c.accepted == [])
            && (forall j, k | 0 <= j < k < |c.accepted| :: c.accepted[j].cumulative < c.accepted[k].cumulative)
  {
    ReachableInv(cfg, s, events);
    var c := ChannelAt(Run(cfg, s, events), ch);
    ChannelAtOk(cfg, Run(cfg, s, events), ch);
    if c.record.Some? {
      ChainPays(c.base, c.accepted, Value(c.record.value.cumulative));
    }
  }

  // Later states of a run only ever extend a record, so what held of it at finalization holds for good.
  lemma {:induction false} RecordsEvolveOverRuns(cfg: Config, s: State, events: seq<Event>, ch: string)
    requires Inv(cfg, s) && ChannelAt(s, ch).record.Some?
    ensures Behind(ChannelAt(s, ch).record.value, ChannelAt(Run(cfg, s, events), ch))
  {
    ChannelAtOk(cfg, s, ch);
    if events != [] {
      var t := Run(cfg, s, events[..|events| - 1]);
      RunKeepsInv(cfg, s, events[..|events| - 1]);
      RecordsEvolveOverRuns(cfg, s, events[..|events| - 1], ch);
      NextOnlyEvolves(cfg, t, events[|events| - 1], ch);
      EvolvesTransitive(ChannelAt(s, ch).record.value, ChannelAt(t, ch).record.value,
                        ChannelAt(Run(cfg, s, events), ch).record.value);
    }
  }

  lemma BehindItself(cfg: Config, signed: set<(string, nat, string)>, ch: string, c: Channel, c': Channel)
    requires ChannelOk(cfg, signed, ch, c) && c.record.Some? && c'.record == c.record
    ensures Behind(c.record.value, c')
  {
  }

  lemma NextOnlyEvolves(cfg: Config, s: State, e: Event, ch: string)
    requires Inv(cfg, s) && ChannelAt(s, ch).record.Some?
    ensures Behind(ChannelAt(s, ch).record.value, ChannelAt(Next(cfg, s, e), ch))
  {
    hide ProcessOk, ChannelOk, Step;
    var c, t := ChannelAt(s, ch), Next(cfg, s, e);
    ChannelAtOk(cfg, s, ch);
    if e.Proceed? && e.id in s.tasks && s.tasks[e.id].channelId == ch {
      StepKeepsProcess(cfg, s, e.id, ch, s.tasks[e.id].process, e.input);
      if Step(cfg, s, e.id, ch, s.tasks[e.id].process, e.input).None? {
        BehindItself(cfg, s.signed, ch, c, c);
      }
    } else {
      BehindItself(cfg, s.signed, ch, c, ChannelAt(t, ch));
    }
  }
}
