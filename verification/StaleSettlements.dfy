// When a settlement may hand the ledger an amount that the store already marks redeemed.  A close reads
// the record again under its lease; a worker settles the record it scanned.
module StaleSettlements {
  import opened Options
  import opened DropAmounts
  import opened HighWater
  import opened PayChannelRecords
  import opened PayChannelProtocol
  import opened PayChannelSafety

  // What the store marks redeemed on a channel.
  function StoredRedeemed(c: Channel): nat {
    if c.record.Some? && IsDigits(c.record.value.redeemed) then Value(c.record.value.redeemed) else 0
  }

  // The process is about to submit, under an unexpired lease, a claim that is already marked redeemed.
  predicate Resubmits(s: State, id: nat)
    requires id in s.tasks
  {
    var p := s.tasks[id].process;
    && p.Settling? && p.expires > s.now && IsDigits(p.record.cumulative)
    && Value(p.record.cumulative) <= StoredRedeemed(ChannelAt(s, s.tasks[id].channelId))
  }

  predicate IsClosing(p: Process) { p.Settling? && p.job.CloseJob? }

  predicate ClosesAreFresh(s: State) {
    forall id | id in s.tasks && IsClosing(s.tasks[id].process) :: !Resubmits(s, id)
  }

  // A settlement is recorded less than `lateness` after its lease expires; zero means under the lease.
  predicate InTime(s: State, e: Event, lateness: nat) {
    e.Proceed? && e.id in s.tasks && s.tasks[e.id].process.Redeeming? ==>
      s.now < s.tasks[e.id].process.expires + lateness
  }

  predicate RecordsInTime(cfg: Config, s: State, events: seq<Event>, lateness: nat)
    decreases |events|
  {
    events == [] ||
    (RecordsInTime(cfg, s, events[..|events| - 1], lateness)
     && InTime(Run(cfg, s, events[..|events| - 1]), events[|events| - 1], lateness))
  }

  // ---- the redeemed amount stands still under an unexpired lease ----

  lemma AdvanceKeepsRedeemed(cfg: Config, ch: string, q: Request, funding: Option<string>, c: Channel, i: Input)
    requires c.record.Some? && Valid(c.record.value) && Bound(cfg, ch, c.record.value) && WellFormedRequest(q)
    ensures var e := Mutate(AdvanceOp(cfg, ch, q, funding, i), c.record);
            e.write.Some? ==> e.write.value.redeemed == c.record.value.redeemed
  {
    hide Mutate, Evolves;
    AdvanceHasEffect(cfg, ch, q, funding, c.record.value, i);
  }

  lemma FinalizeKeepsRedeemed(cfg: Config, s: State, id: nat, ch: string, p: Process, c: Channel, i: Input)
    requires ChannelOk(cfg, s.signed, ch, c) && p.Finalizing? && ProcessOk(cfg, s.signed, s.now, id, ch, p, c)
    ensures c.record.Some? && Usable(c)
    ensures var e := Mutate(FinalizeOp(cfg, ch, p.job, p.record, i), c.record);
            e.write.Some? ==> e.write.value.redeemed == c.record.value.redeemed
  {
    hide Mutate, Evolves, Chain;
    FinalizeHasEffect(cfg, ch, p.job, p.record, c.record.value, i);
  }

  lemma CreateKeepsRecord(c: Channel, candidate: Record)
    requires c.record.Some? && Usable(c)
    ensures CreateMove(c, candidate).0.record == c.record
  {
  }

  // Only recording a settlement changes what an existing record says is redeemed.
  lemma OnlyRedeemRedeems(cfg: Config, s: State, id: nat, ch: string, p: Process, i: Input)
    requires IsNormalId(ch) && ChannelOk(cfg, s.signed, ch, ChannelAt(s, ch)) && ChannelAt(s, ch).record.Some?
    requires ProcessOk(cfg, s.signed, s.now, id, ch, p, ChannelAt(s, ch))
    requires Usable(ChannelAt(s, ch)) && Steppable(p)
    ensures var m := Step(cfg, s, id, ch, p, i);
            m.Some? && !p.Redeeming? ==>
              m.value.channel.record.Some?
              && m.value.channel.record.value.redeemed == ChannelAt(s, ch).record.value.redeemed
  {
    hide Mutate, Valid, Evolves, Chain, CreateMove;
    var c := ChannelAt(s, ch);
    if p.OpenCreating? || p.Creating? {
      CreateKeepsRecord(c, p.candidate);
    } else if p.OpenAdvancing? {
      AdvanceKeepsRedeemed(cfg, ch, p.q, None, c, i);
    } else if p.Advancing? {
      AdvanceKeepsRedeemed(cfg, ch, p.q, p.funding, c, i);
    } else if p.Finalizing? {
      FinalizeKeepsRedeemed(cfg, s, id, ch, p, c, i);
    }
  }

  // The process holds an unexpired lease on a registered channel.
  predicate Leased(s: State, id: nat) {
    && id in s.tasks && ChannelAt(s, s.tasks[id].channelId).record.Some?
    && LeaseOf(s.tasks[id].process).Some? && LeaseOf(s.tasks[id].process).value > s.now
  }

  // Under unexpired leases nobody else can be recording a settlement.
  lemma NobodyElseRecords(cfg: Config, s: State, id: nat, other: nat)
    requires Inv(cfg, s) && Leased(s, id) && other in s.tasks && other != id
    requires s.tasks[other].channelId == s.tasks[id].channelId
    ensures s.tasks[other].process.Redeeming? ==> s.tasks[other].process.expires <= s.now
  {
    hide ProcessOk, ChannelOk;
    var ch := s.tasks[id].channelId;
    LeaseOfHolds(cfg, s.signed, s.now, id, ch, s.tasks[id].process, ChannelAt(s, ch));
    if s.tasks[other].process.Redeeming? && s.tasks[other].process.expires > s.now {
      LeaseOfHolds(cfg, s.signed, s.now, other, ch, s.tasks[other].process, ChannelAt(s, ch));
    }
  }

  lemma ProceedKeepsRedeemed(cfg: Config, s: State, id: nat, e: Event)
    requires Inv(cfg, s) && Leased(s, id) && e.Proceed? && e.id != id && InTime(s, e, 0)
    ensures var ch := s.tasks[id].channelId;
            StoredRedeemed(ChannelAt(Next(cfg, s, e), ch)) == StoredRedeemed(ChannelAt(s, ch))
  {
    hide ProcessOk, ChannelOk, Step, StepOk;
    var ch := s.tasks[id].channelId;
    if e.id in s.tasks && s.tasks[e.id].channelId == ch {
      NobodyElseRecords(cfg, s, id, e.id);
      ChannelAtOk(cfg, s, ch);
      StepKeepsProcess(cfg, s, e.id, ch, s.tasks[e.id].process, e.input);
      OnlyRedeemRedeems(cfg, s, e.id, ch, s.tasks[e.id].process, e.input);
    }
  }

  // While a process holds its lease, nobody else's step changes the redeemed amount of its channel.
  lemma RedeemedStays(cfg: Config, s: State, id: nat, e: Event)
    requires Inv(cfg, s) && Leased(s, id) && !(e.Proceed? && e.id == id) && InTime(s, e, 0)
    ensures var ch, t := s.tasks[id].channelId, Next(cfg, s, e);
            && StoredRedeemed(ChannelAt(t, ch)) == StoredRedeemed(ChannelAt(s, ch))
            && ChannelAt(t, ch).record.Some?
            && (id in t.tasks ==> t.tasks[id] == s.tasks[id])
  {
    hide ProcessOk, ChannelOk, Step, StepOk, Inv;
    assert id < s.nextId by { IdsAreUsed(cfg, s, id); }
    NextOnlyEvolves(cfg, s, e, s.tasks[id].channelId);
    if e.Proceed? { ProceedKeepsRedeemed(cfg, s, id, e); }
  }

  lemma IdsAreUsed(cfg: Config, s: State, id: nat)
    requires Inv(cfg, s) && id in s.tasks
    ensures id < s.nextId
  {
  }

  // Identifiers are not used again, and the clock does not fall.
  lemma TaskWaitsOneEvent(cfg: Config, s: State, e: Event, id: nat)
    requires id < s.nextId && !(e.Proceed? && e.id == id)
    ensures var t := Next(cfg, s, e);
            s.nextId <= t.nextId && s.now <= t.now && (id in t.tasks ==> id in s.tasks && t.tasks[id] == s.tasks[id])
  {
    hide Step, OpenStarts, SweepStart;
  }

  predicate NoStepOf(id: nat, events: seq<Event>) { forall e | e in events :: !(e.Proceed? && e.id == id) }

  lemma {:induction false} TaskWaits(cfg: Config, s: State, events: seq<Event>, id: nat)
    requires id < s.nextId && NoStepOf(id, events)
    ensures var t := Run(cfg, s, events);
            id < t.nextId && s.now <= t.now && (id in t.tasks ==> id in s.tasks && t.tasks[id] == s.tasks[id])
  {
    hide Next;
    if events != [] {
      TaskWaits(cfg, s, events[..|events| - 1], id);
      TaskWaitsOneEvent(cfg, Run(cfg, s, events[..|events| - 1]), events[|events| - 1], id);
    }
  }

  // From the step that takes a lease on, until its holder steps again, the redeemed amount stands still.
  lemma {:induction false} LeaseFreezesRedeemed(cfg: Config, s: State, events: seq<Event>, id: nat)
    requires Inv(cfg, s) && Leased(s, id) && RecordsInTime(cfg, s, events, 0) && NoStepOf(id, events)
    ensures var t := Run(cfg, s, events); var ch := s.tasks[id].channelId;
            id in t.tasks && LeaseOf(s.tasks[id].process).value > t.now ==>
              && t.tasks[id] == s.tasks[id] && Leased(t, id)
              && StoredRedeemed(ChannelAt(t, ch)) == StoredRedeemed(ChannelAt(s, ch))
  {
    hide Inv, Next, StoredRedeemed;
    IdsAreUsed(cfg, s, id);
    if events != [] {
      var before, e := events[..|events| - 1], events[|events| - 1];
      var t := Run(cfg, s, before);
      LeaseFreezesRedeemed(cfg, s, before, id);
      RunKeepsInv(cfg, s, before);
      TaskWaits(cfg, s, before, id);
      TaskWaitsOneEvent(cfg, t, e, id);
      if id in Next(cfg, t, e).tasks && LeaseOf(s.tasks[id].process).value > Next(cfg, t, e).now {
        RedeemedStays(cfg, t, id, e);
      }
    }
  }

  // ---- closes ----

  lemma ReloadClosesFresh(cfg: Config, ch: string, q: Request, r: Record, lease: Option<int>, c: Channel)
    requires Usable(c)
    ensures var m := ReloadStep(cfg, ch, q, r, lease, c);
            m.Some? && m.value.next.Some? && IsClosing(m.value.next.value) ==>
              && WellTyped(m.value.next.value.record)
              && StoredRedeemed(m.value.channel) < Value(m.value.next.value.record.cumulative)
  {
  }

  lemma OthersDoNotClose(cfg: Config, s: State, id: nat, ch: string, p: Process, i: Input)
    requires Usable(ChannelAt(s, ch)) && Steppable(p) && !p.Reloading?
    ensures var m := Step(cfg, s, id, ch, p, i);
            m.Some? && m.value.next.Some? ==> !IsClosing(m.value.next.value)
  {
    hide Mutate, TakeLease, CreateMove, Valid, Bound, Signed, Unsettled, WellTyped, Value;
  }

  // A close begins to settle only on a record that it has just read and found unsettled.
  lemma OnlyReloadCloses(cfg: Config, s: State, id: nat, ch: string, p: Process, i: Input)
    requires Usable(ChannelAt(s, ch)) && Steppable(p)
    ensures var m := Step(cfg, s, id, ch, p, i);
            m.Some? && m.value.next.Some? && IsClosing(m.value.next.value) ==>
              && WellTyped(m.value.next.value.record)
              && StoredRedeemed(m.value.channel) < Value(m.value.next.value.record.cumulative)
  {
    hide *;
    if p.Reloading? {
      ReloadClosesFresh(cfg, ch, p.q, p.record, p.lease, ChannelAt(s, ch));
      StepReloads(cfg, s, id, ch, p, i);
    } else {
      OthersDoNotClose(cfg, s, id, ch, p, i);
    }
  }

  lemma StepReloads(cfg: Config, s: State, id: nat, ch: string, p: Process, i: Input)
    requires Usable(ChannelAt(s, ch)) && Steppable(p) && p.Reloading?
    ensures Step(cfg, s, id, ch, p, i) == ReloadStep(cfg, ch, p.q, p.record, p.lease, ChannelAt(s, ch))
  {
    hide ReloadStep, Usable, Steppable;
  }

  lemma ArrivesFresh(cfg: Config, s: State, id: nat, i: Input)
    requires Inv(cfg, s) && id in s.tasks
    ensures var t := Next(cfg, s, Proceed(id, i));
            id in t.tasks && t != s && IsClosing(t.tasks[id].process) ==> !Resubmits(t, id)
  {
    hide ProcessOk, ChannelOk, Step, StepOk, StoredRedeemed, IsClosing;
    var ch, p := s.tasks[id].channelId, s.tasks[id].process;
    ChannelAtOk(cfg, s, ch);
    StepKeepsProcess(cfg, s, id, ch, p, i);
    OnlyReloadCloses(cfg, s, id, ch, p, i);
  }

  lemma SpawnsNoClose(cfg: Config, s: State, e: Event, id: nat)
    requires id !in s.tasks && id in Next(cfg, s, e).tasks
    ensures !IsClosing(Next(cfg, s, e).tasks[id].process)
  {
    hide Step, OpenStarts;
  }

  lemma StaysFresh(cfg: Config, s: State, e: Event, id: nat)
    requires Inv(cfg, s) && ClosesAreFresh(s) && InTime(s, e, 0)
    requires id in Next(cfg, s, e).tasks && IsClosing(Next(cfg, s, e).tasks[id].process)
    requires id in s.tasks && !(e.Proceed? && e.id == id)
    ensures !Resubmits(Next(cfg, s, e), id)
  {
    hide Inv, StoredRedeemed;
    var t := Next(cfg, s, e);
    IdsAreUsed(cfg, s, id);
    TaskWaitsOneEvent(cfg, s, e, id);
    if t.tasks[id].process.expires > t.now {
      CloseIsRegistered(cfg, s, id);
      RedeemedStays(cfg, s, id, e);
    }
  }

  lemma CloseIsRegistered(cfg: Config, s: State, id: nat)
    requires Inv(cfg, s) && id in s.tasks && s.tasks[id].process.Settling?
    ensures ChannelAt(s, s.tasks[id].channelId).record.Some?
  {
  }

  lemma NextKeepsFresh(cfg: Config, s: State, e: Event)
    requires Inv(cfg, s) && ClosesAreFresh(s) && InTime(s, e, 0)
    ensures ClosesAreFresh(Next(cfg, s, e))
  {
    hide Inv, Next, IsClosing, Resubmits, InTime;
    var t := Next(cfg, s, e);
    forall id | id in t.tasks && IsClosing(t.tasks[id].process) ensures !Resubmits(t, id) {
      if id !in s.tasks {
        SpawnsNoClose(cfg, s, e, id);
      } else if e.Proceed? && e.id == id && t != s {
        ArrivesFresh(cfg, s, id, e.input);
      } else if t != s {
        StaysFresh(cfg, s, e, id);
      }
    }
  }

  lemma {:induction false} RunKeepsFresh(cfg: Config, s: State, events: seq<Event>)
    requires Initial(s) && RecordsInTime(cfg, s, events, 0)
    ensures ClosesAreFresh(Run(cfg, s, events))
  {
    hide Next, Resubmits, InTime;
    if events != [] {
      RunKeepsFresh(cfg, s, events[..|events| - 1]);
      ReachableInv(cfg, s, events[..|events| - 1]);
      NextKeepsFresh(cfg, Run(cfg, s, events[..|events| - 1]), events[|events| - 1]);
    }
  }

  // ---- sweeps ----

  lemma TakesLease(cfg: Config, s: State, id: nat, i: Input)
    requires Inv(cfg, s) && id in s.tasks && s.tasks[id].process.SweepLeasing?
    ensures var t := Next(cfg, s, Proceed(id, i)); var ch, p := s.tasks[id].channelId, s.tasks[id].process;
            id in t.tasks && t.tasks[id].process.Settling? ==>
              && t.tasks[id] == Task(ch, Settling(SweepJob(p.idle), p.record, t.tasks[id].process.expires))
              && t.now == s.now && ChannelAt(t, ch).record == ChannelAt(s, ch).record && ChannelAt(s, ch).record.Some?
              && IsDigits(p.record.cumulative)
  {
    hide Evolves, ChannelOk, Chain;
  }

  // Under the bound, a worker resubmits an amount exactly when the record already showed it redeemed as
  // the worker took its lease: reading the record again, as a close does, would have told.
  lemma SweepResubmitsExactly(cfg: Config, s: State, before: seq<Event>, id: nat, i: Input, after: seq<Event>)
    requires Initial(s) && id in Run(cfg, s, before).tasks
    requires Run(cfg, s, before).tasks[id].process.SweepLeasing?
    requires RecordsInTime(cfg, Next(cfg, Run(cfg, s, before), Proceed(id, i)), after, 0)
    requires NoStepOf(id, after)
    ensures var t := Run(cfg, s, before); var u := Run(cfg, Next(cfg, t, Proceed(id, i)), after);
            id in u.tasks && u.tasks[id].process.Settling? && u.tasks[id].process.expires > u.now ==>
              && IsDigits(t.tasks[id].process.record.cumulative)
              && (Resubmits(u, id) <==>
                    Value(t.tasks[id].process.record.cumulative) <= StoredRedeemed(ChannelAt(t, t.tasks[id].channelId)))
  {
    hide Inv, Next, StoredRedeemed, Run;
    var t := Run(cfg, s, before);
    var t' := Next(cfg, t, Proceed(id, i));
    ReachableInv(cfg, s, before);
    NextKeepsInv(cfg, t, Proceed(id, i));
    TakesLease(cfg, t, id, i);
    IdsAreUsed(cfg, t, id);
    NextIdGrows(cfg, t, Proceed(id, i));
    TaskWaits(cfg, t', after, id);
    var u := Run(cfg, t', after);
    if id in u.tasks && u.tasks[id].process.Settling? && u.tasks[id].process.expires > u.now {
      LeaseFreezesRedeemed(cfg, t', after, id);
      SameStoredRedeemed(ChannelAt(t, t.tasks[id].channelId), ChannelAt(t', t.tasks[id].channelId));
    }
  }

  lemma SameStoredRedeemed(c: Channel, c': Channel)
    requires c'.record == c.record
    ensures StoredRedeemed(c') == StoredRedeemed(c)
  {
  }

  lemma NextIdGrows(cfg: Config, s: State, e: Event)
    ensures s.nextId <= Next(cfg, s, e).nextId
  {
    hide Step, OpenStarts, SweepStart;
  }

  // ---- runs that resubmit ----

  function Zeros(n: nat): string { seq(n, i requires 0 <= i < n => '0') }

  const CHANNEL := Zeros(64)
  const DEPLOYMENT := Config("xrpl:0", "payer", "recipient", true, false, false)
  const OPENING := Request(OpenAction, "5", "00", "5")
  const CLOSING := Request(CloseAction, "5", "00", "0")
  const FIRST := Input(0, "reference", "", 1)
  const UNSETTLED := Record("xrpl:0", CHANNEL, "payer", "recipient", "9", "5", "00", "0", 0, 0,
                            false, None, None, None, None)

  function Settled(at: int): Record {
    UNSETTLED.(redeemed := "5", redeemedAt := Some(at), redemptionReference := Some("reference"), updatedAt := at)
  }

  const REGISTERED := Channel(Some(LedgerEntry(9, 0, Some(9))), Some(UNSETTLED), None, {}, 0, [Acceptance(0, 5, 5)])

  // The one channel, the one signature, and whoever is running.
  function At(now: int, c: Channel, tasks: map<nat, Task>, nextId: nat): State {
    State(now, {(CHANNEL, 5, "00")}, map[CHANNEL := c], tasks, nextId)
  }

  lemma OneDigit(c: char)
    requires IsDigit(c)
    ensures IsDrops([c]) && Value([c]) == Digit(c)
  {
    assert [c][..0] == "";
  }

  lemma Texts()
    ensures IsDrops("0") && Value("0") == 0 && IsDrops("5") && Value("5") == 5 && IsDrops("9") && Value("9") == 9
    ensures IsSignature("00") && Upper("00") == "00" && Upper("") == ""
    ensures IsNormalId(CHANNEL)
    ensures WellFormedRequest(OPENING) && WellFormedRequest(CLOSING)
  {
    OneDigit('0');
    OneDigit('5');
    OneDigit('9');
    assert "0" == ['0'] && "5" == ['5'] && "9" == ['9'];
  }

  const NOBODY := State(0, {}, map[], map[], 0)

  // Starting from nothing these events lead to `s`, and every settlement is recorded in time.
  predicate Reaches(lateness: nat, events: seq<Event>, s: State) {
    Run(DEPLOYMENT, NOBODY, events) == s && RecordsInTime(DEPLOYMENT, NOBODY, events, lateness)
  }

  lemma Extend(lateness: nat, before: seq<Event>, s: State, e: Event, t: State) returns (events: seq<Event>)
    requires Reaches(lateness, before, s) && InTime(s, e, lateness) && Next(DEPLOYMENT, s, e) == t
    ensures Reaches(lateness, events, t)
  {
    hide Next, InTime;
    events := before + [e];
    assert events[..|before|] == before;
  }

  lemma RecordsAreValid()
    ensures Valid(UNSETTLED) && Unsettled(UNSETTLED)
    ensures Valid(OpenCandidate(DEPLOYMENT, CHANNEL, "9", 0))
    ensures forall at: int | at >= 0 :: Valid(Settled(at)) && !Unsettled(Settled(at))
  {
    Texts();
  }

  // The opening claim is accepted.
  lemma OpeningAdvances()
    ensures Valid(OpenCandidate(DEPLOYMENT, CHANNEL, "9", 0))
    ensures var e := Mutate(AdvanceOp(DEPLOYMENT, CHANNEL, OPENING, None, FIRST),
                            Some(OpenCandidate(DEPLOYMENT, CHANNEL, "9", 0)));
            e.answer.AdvanceResult? && e.answer.status.Advanced? && e.write == Some(UNSETTLED)
            && e.answer.record == UNSETTLED
  {
    Texts();
    RecordsAreValid();
    AdvanceSucceeds(AdvanceOp(DEPLOYMENT, CHANNEL, OPENING, None, FIRST), OpenCandidate(DEPLOYMENT, CHANNEL, "9", 0));
  }

  // The closing claim repeats it exactly.
  lemma ClosingReplays()
    ensures Valid(UNSETTLED)
    ensures var e := Mutate(AdvanceOp(DEPLOYMENT, CHANNEL, CLOSING, None, FIRST), Some(UNSETTLED));
            e.answer.AdvanceResult? && e.answer.status.Replay? && e.answer.exactReplay && e.write == None
            && e.answer.record == UNSETTLED
  {
    Texts();
    RecordsAreValid();
  }

  lemma RedeemSettles(at: int)
    requires at >= 0
    ensures Valid(UNSETTLED)
    ensures var e := Mutate(RedeemOp(DEPLOYMENT, CHANNEL, UNSETTLED, Input(at, "reference", "", 1)), Some(UNSETTLED));
            e.answer == Updated(Settled(at)) && e.write == Some(Settled(at))
  {
    Texts();
    RecordsAreValid();
  }

  lemma ProceedsTo(now: int, c: Channel, tasks: map<nat, Task>, nextId: nat, id: nat, p: Process, i: Input, m: Move)
    requires id in tasks && tasks[id] == Task(CHANNEL, p) && Usable(c) && Steppable(p)
    requires Step(DEPLOYMENT, At(now, c, tasks, nextId), id, CHANNEL, p, i) == Some(m)
    ensures Next(DEPLOYMENT, At(now, c, tasks, nextId), Proceed(id, i)) ==
              At(now, m.channel, if m.next.Some? then tasks[id := Task(CHANNEL, m.next.value)] else tasks - {id},
                 nextId)
  {
    hide Step, Usable, Steppable, Zeros;
    assert map[CHANNEL := c][CHANNEL := m.channel] == map[CHANNEL := m.channel];
  }

  const OPENED := NO_CHANNEL.(ledger := Some(LedgerEntry(9, 0, Some(9))))

  function Candidate(): Record { OpenCandidate(DEPLOYMENT, CHANNEL, "9", 0) }

  // The channel is opened on the ledger, its claim is signed, and the open request starts.
  lemma OpenBegins(lateness: nat) returns (events: seq<Event>)
    ensures Reaches(lateness, events, At(0, OPENED, map[0 := Task(CHANNEL, OpenLooking(OPENING, "9"))], 1))
  {
    hide Zeros, IsChannelId, Upper, Value, IsDigits, IsDrops, IsSignature, WellFormedRequest;
    Texts();
    var begun := State(0, {}, map[CHANNEL := OPENED], map[], 0);
    events := Extend(lateness, [], NOBODY, OpenOnLedger(CHANNEL, 9), begun);
    events := Extend(lateness, events, begun, Sign(CHANNEL, 5, "00"), At(0, OPENED, map[], 0));
    var none: map<nat, Task> := map[];
    assert none[0 := Task(CHANNEL, OpenLooking(OPENING, "9"))] == map[0 := Task(CHANNEL, OpenLooking(OPENING, "9"))];
    events := Extend(lateness, events, At(0, OPENED, map[], 0), StartOpen(CHANNEL, OPENING, "9"),
                     At(0, OPENED, map[0 := Task(CHANNEL, OpenLooking(OPENING, "9"))], 1));
  }

  lemma OpenSteps()
    ensures Valid(Candidate()) && WellFormedRequest(OPENING)
    ensures OpenLookStep(DEPLOYMENT, CHANNEL, OPENING, "9", OPENED, FIRST)
              == Some(Move(OPENED, Some(OpenCreating(OPENING, "9", Candidate()))))
    ensures OpenCreateStep(DEPLOYMENT, CHANNEL, OPENING, "9", Candidate(), OPENED)
              == Some(Move(OPENED.(record := Some(Candidate())), Some(OpenAdvancing(OPENING, Candidate()))))
    ensures AdvanceStep(DEPLOYMENT, CHANNEL, OPENING, None, OPENED.(record := Some(Candidate())), FIRST)
              == Some(Move(REGISTERED, None))
  {
    hide AdvanceEffect;
    Texts();
    OpeningAdvances();
    var c, none: seq<Acceptance> := OPENED.(record := Some(Candidate())), [];
    var e := Mutate(AdvanceOp(DEPLOYMENT, CHANNEL, OPENING, None, FIRST), c.record);
    assert none + [Acceptance(0, 5, 5)] == [Acceptance(0, 5, 5)];
    assert PayChannelProtocol.Advanced(DEPLOYMENT, OPENING, c, e).channel == REGISTERED;
  }

  // The open request runs through and leaves a record with an unsettled claim of 5.
  lemma Registers(lateness: nat) returns (events: seq<Event>)
    ensures Reaches(lateness, events, At(0, REGISTERED, map[], 1))
  {
    hide Zeros, Valid, Candidate, Value, IsDigits, OpenLookStep, OpenCreateStep, AdvanceStep, Next, Reaches;
    OpenSteps();
    events := OpenBegins(lateness);
    var e := Proceed(0, FIRST);
    var look: map<nat, Task> := map[0 := Task(CHANNEL, OpenLooking(OPENING, "9"))];
    var create: map<nat, Task> := map[0 := Task(CHANNEL, OpenCreating(OPENING, "9", Candidate()))];
    var advance: map<nat, Task> := map[0 := Task(CHANNEL, OpenAdvancing(OPENING, Candidate()))];
    ProceedsTo(0, OPENED, look, 1, 0, OpenLooking(OPENING, "9"), FIRST,
               Move(OPENED, Some(OpenCreating(OPENING, "9", Candidate()))));
    assert look[0 := create[0]] == create;
    events := Extend(lateness, events, At(0, OPENED, look, 1), e, At(0, OPENED, create, 1));
    var made := OPENED.(record := Some(Candidate()));
    ProceedsTo(0, OPENED, create, 1, 0, OpenCreating(OPENING, "9", Candidate()), FIRST,
               Move(made, Some(OpenAdvancing(OPENING, Candidate()))));
    assert create[0 := advance[0]] == advance;
    events := Extend(lateness, events, At(0, OPENED, create, 1), e, At(0, made, advance, 1));
    ProceedsTo(0, made, advance, 1, 0, OpenAdvancing(OPENING, Candidate()), FIRST, Move(REGISTERED, None));
    assert advance - {0} == map[];
    events := Extend(lateness, events, At(0, made, advance, 1), e, At(0, REGISTERED, map[], 1));
  }

  // Two processes on the channel, a sweep first.
  function Two(a: Process, b: Process): map<nat, Task> { map[1 := Task(CHANNEL, a), 2 := Task(CHANNEL, b)] }

  lemma FirstMoves(lateness: nat, before: seq<Event>, now: int, c: Channel, a: Process, b: Process, i: Input, m: Move)
    returns (events: seq<Event>)
    requires Reaches(lateness, before, At(now, c, Two(a, b), 3)) && Usable(c) && Steppable(a) && m.next.Some?
    requires Step(DEPLOYMENT, At(now, c, Two(a, b), 3), 1, CHANNEL, a, i) == Some(m)
    requires a.Redeeming? ==> now < a.expires + lateness
    ensures Reaches(lateness, events, At(now, m.channel, Two(m.next.value, b), 3))
  {
    hide Zeros, Step, Usable, Steppable, Next, Reaches;
    ProceedsTo(now, c, Two(a, b), 3, 1, a, i, m);
    assert Two(a, b)[1 := Task(CHANNEL, m.next.value)] == Two(m.next.value, b);
    events := Extend(lateness, before, At(now, c, Two(a, b), 3), Proceed(1, i),
                     At(now, m.channel, Two(m.next.value, b), 3));
  }

  lemma SecondMoves(lateness: nat, before: seq<Event>, now: int, c: Channel, a: Process, b: Process, i: Input, m: Move)
    returns (events: seq<Event>)
    requires Reaches(lateness, before, At(now, c, Two(a, b), 3)) && Usable(c) && Steppable(b) && m.next.Some?
    requires Step(DEPLOYMENT, At(now, c, Two(a, b), 3), 2, CHANNEL, b, i) == Some(m)
    requires b.Redeeming? ==> now < b.expires + lateness
    ensures Reaches(lateness, events, At(now, m.channel, Two(a, m.next.value), 3))
  {
    hide Zeros, Step, Usable, Steppable, Next, Reaches;
    ProceedsTo(now, c, Two(a, b), 3, 2, b, i, m);
    assert Two(a, b)[2 := Task(CHANNEL, m.next.value)] == Two(a, m.next.value);
    events := Extend(lateness, before, At(now, c, Two(a, b), 3), Proceed(2, i),
                     At(now, m.channel, Two(a, m.next.value), 3));
  }

  const SWEEP := SweepJob(false)

  // The first sweep has submitted the claim of 5, and the ledger has validated it.
  const PAID := REGISTERED.(ledger := Some(LedgerEntry(9, 5, Some(9))), lease := Some(Lease(1, 1000)), submitted := {5})

  const LEASED := REGISTERED.(lease := Some(Lease(1, 1000)))
  const SENT := LEASED.(submitted := {5})

  lemma SweepSteps()
    ensures Usable(REGISTERED) && Usable(LEASED) && Usable(SENT) && Usable(PAID) && IsDigits(UNSETTLED.cumulative)
    ensures SweepLeaseStep(0, 1, UNSETTLED, false, REGISTERED, FIRST) ==
              Some(Move(LEASED, Some(Settling(SWEEP, UNSETTLED, 1000))))
    ensures SettleStep(SWEEP, UNSETTLED, 1000, LEASED) == Some(Move(SENT, Some(Waiting(SWEEP, UNSETTLED, 1000))))
    ensures WaitStep(SWEEP, UNSETTLED, 1000, PAID) == Some(Move(PAID, Some(Redeeming(SWEEP, UNSETTLED, 1000))))
  {
    hide Valid;
    RecordsAreValid();
    Texts();
    var none: set<nat> := {};
    assert none + {5} == {5};
  }

  // The first sweep takes the lease and settles; the other process waits.
  lemma FirstSettles(lateness: nat, before: seq<Event>, b: Process) returns (events: seq<Event>)
    requires Reaches(lateness, before, At(0, REGISTERED, Two(SweepLeasing(UNSETTLED, false), b), 3))
    ensures Reaches(lateness, events, At(0, PAID, Two(Redeeming(SWEEP, UNSETTLED, 1000), b), 3))
  {
    hide Zeros, Usable, SweepLeaseStep, SettleStep, WaitStep, Two, Reaches, Next, IsDigits;
    SweepSteps();
    events := FirstMoves(lateness, before, 0, REGISTERED, SweepLeasing(UNSETTLED, false), b, FIRST,
                         Move(LEASED, Some(Settling(SWEEP, UNSETTLED, 1000))));
    events := FirstMoves(lateness, events, 0, LEASED, Settling(SWEEP, UNSETTLED, 1000), b, FIRST,
                         Move(SENT, Some(Waiting(SWEEP, UNSETTLED, 1000))));
    Validates(Two(Waiting(SWEEP, UNSETTLED, 1000), b));
    events := Extend(lateness, events, At(0, SENT, Two(Waiting(SWEEP, UNSETTLED, 1000), b), 3),
                     ValidateClaim(CHANNEL, 5),
                     At(0, PAID, Two(Waiting(SWEEP, UNSETTLED, 1000), b), 3));
    events := FirstMoves(lateness, events, 0, PAID, Waiting(SWEEP, UNSETTLED, 1000), b, FIRST,
                         Move(PAID, Some(Redeeming(SWEEP, UNSETTLED, 1000))));
  }

  lemma Validates(tasks: map<nat, Task>)
    ensures Next(DEPLOYMENT, At(0, SENT, tasks, 3), ValidateClaim(CHANNEL, 5)) == At(0, PAID, tasks, 3)
  {
    assert map[CHANNEL := SENT][CHANNEL := PAID] == map[CHANNEL := PAID];
  }

  // Starting a sweep of the registered channel.
  lemma SweepStarts(tasks: map<nat, Task>, n: nat)
    ensures Next(DEPLOYMENT, At(0, REGISTERED, tasks, n), StartSweep(CHANNEL, false)) ==
              At(0, REGISTERED, tasks[n := Task(CHANNEL, SweepLeasing(UNSETTLED, false))], n + 1)
  {
    hide Valid;
    RecordsAreValid();
    Texts();
  }

  function RedeemedAt(at: int, lease: Option<Lease>): Channel { PAID.(record := Some(Settled(at)), lease := lease) }

  lemma RedeemMoves(at: int, lease: Option<Lease>)
    requires at >= 0
    ensures Usable(PAID.(lease := lease))
    ensures RedeemStep(DEPLOYMENT, CHANNEL, SWEEP, UNSETTLED, 1000, PAID.(lease := lease),
                       Input(at, "reference", "", 1))
              == Some(Move(RedeemedAt(at, lease), Some(Releasing(SWEEP, UNSETTLED, 1000))))
  {
    hide Mutate, Valid;
    RedeemSettles(at);
  }

  lemma Spawns(a: Process, b: Process)
    ensures var none: map<nat, Task> := map[];
            none[1 := Task(CHANNEL, a)] == map[1 := Task(CHANNEL, a)]
    ensures map[1 := Task(CHANNEL, a)][2 := Task(CHANNEL, b)] == Two(a, b)
    ensures Two(a, b) - {1} == map[2 := Task(CHANNEL, b)]
    ensures map[2 := Task(CHANNEL, b)][2 := Task(CHANNEL, a)] == map[2 := Task(CHANNEL, a)]
  {
  }

  // Two sweeps scan the same unsettled record; the first one settles, records and releases.
  lemma FirstSweepEnds() returns (events: seq<Event>)
    ensures Reaches(0, events, At(0, RedeemedAt(0, None), map[2 := Task(CHANNEL, SweepLeasing(UNSETTLED, false))], 3))
  {
    hide Zeros, Usable, Next, RedeemStep, Two, Reaches, RedeemedAt;
    var waiting := SweepLeasing(UNSETTLED, false);
    Spawns(waiting, waiting);
    var none: map<nat, Task> := map[];
    var one: map<nat, Task> := map[1 := Task(CHANNEL, waiting)];
    events := Registers(0);
    SweepStarts(none, 1);
    events := Extend(0, events, At(0, REGISTERED, none, 1), StartSweep(CHANNEL, false), At(0, REGISTERED, one, 2));
    SweepStarts(one, 2);
    events := Extend(0, events, At(0, REGISTERED, one, 2), StartSweep(CHANNEL, false),
                     At(0, REGISTERED, Two(waiting, waiting), 3));
    events := FirstSettles(0, events, waiting);
    RedeemMoves(0, PAID.lease);
    assert PAID.(lease := PAID.lease) == PAID;
    events := FirstMoves(0, events, 0, PAID, Redeeming(SWEEP, UNSETTLED, 1000), waiting, FIRST,
                         Move(RedeemedAt(0, PAID.lease), Some(Releasing(SWEEP, UNSETTLED, 1000))));
    events := FirstReleases(events, waiting);
  }

  lemma FirstReleases(before: seq<Event>, b: Process) returns (events: seq<Event>)
    requires Reaches(0, before, At(0, RedeemedAt(0, PAID.lease), Two(Releasing(SWEEP, UNSETTLED, 1000), b), 3))
    ensures Reaches(0, events, At(0, RedeemedAt(0, None), map[2 := Task(CHANNEL, b)], 3))
  {
    hide Zeros, Valid, Next, Reaches;
    RecordsAreValid();
    var releasing := Releasing(SWEEP, UNSETTLED, 1000);
    Spawns(releasing, b);
    ProceedsTo(0, RedeemedAt(0, PAID.lease), Two(releasing, b), 3, 1, releasing, FIRST,
               Move(RedeemedAt(0, None), None));
    events := Extend(0, before, At(0, RedeemedAt(0, PAID.lease), Two(releasing, b), 3), Proceed(1, FIRST),
                     At(0, RedeemedAt(0, None), map[2 := Task(CHANNEL, b)], 3));
  }

  // A run, with every settlement recorded under its lease, in which a second sweep is about to submit,
  // under a lease of its own, the claim that the first one has settled and recorded.
  lemma StaleSweepResubmits() returns (events: seq<Event>)
    ensures Initial(NOBODY) && RecordsInTime(DEPLOYMENT, NOBODY, events, 0)
    ensures var t := Run(DEPLOYMENT, NOBODY, events);
            2 in t.tasks && Resubmits(t, 2) && t.tasks[2].process.job.SweepJob?
  {
    hide Zeros, Valid, Next, Run, RecordsInTime;
    RecordsAreValid();
    Texts();
    events := FirstSweepEnds();
    var leased := RedeemedAt(0, Some(Lease(2, 1000)));
    var waiting, settling := SweepLeasing(UNSETTLED, false), Settling(SWEEP, UNSETTLED, 1000);
    Spawns(settling, waiting);
    var one: map<nat, Task> := map[2 := Task(CHANNEL, waiting)];
    ProceedsTo(0, RedeemedAt(0, None), one, 3, 2, waiting, FIRST, Move(leased, Some(settling)));
    events := Extend(0, events, At(0, RedeemedAt(0, None), one, 3), Proceed(2, FIRST),
                     At(0, leased, map[2 := Task(CHANNEL, settling)], 3));
  }

  lemma CloseSteps()
    ensures Usable(REGISTERED) && WellFormedRequest(CLOSING)
    ensures forall s: State | s.signed == {(CHANNEL, 5, "00")} ::
              LookStep(DEPLOYMENT, s, CHANNEL, CLOSING, REGISTERED)
                == Some(Move(REGISTERED, Some(Advancing(CLOSING, UNSETTLED, None))))
    ensures AdvanceStep(DEPLOYMENT, CHANNEL, CLOSING, None, REGISTERED, FIRST)
              == Some(Move(REGISTERED, Some(Leasing(CLOSING, UNSETTLED))))
  {
    hide Mutate, Valid;
    Texts();
    RecordsAreValid();
    ClosingReplays();
  }

  // A sweep has scanned the record and a close is about to take the lease.
  lemma CloseBegins(lateness: nat) returns (events: seq<Event>)
    ensures Reaches(lateness, events,
                    At(0, REGISTERED, Two(SweepLeasing(UNSETTLED, false), Leasing(CLOSING, UNSETTLED)), 3))
  {
    hide Zeros, Usable, Next, LookStep, AdvanceStep, Two, Reaches, IsDigits, IsDrops;
    CloseSteps();
    var sweeping := SweepLeasing(UNSETTLED, false);
    Spawns(sweeping, Looking(CLOSING));
    var none: map<nat, Task> := map[];
    var one: map<nat, Task> := map[1 := Task(CHANNEL, sweeping)];
    events := Registers(lateness);
    SweepStarts(none, 1);
    events := Extend(lateness, events, At(0, REGISTERED, none, 1), StartSweep(CHANNEL, false),
                     At(0, REGISTERED, one, 2));
    CloseStarts(one, 2);
    events := Extend(lateness, events, At(0, REGISTERED, one, 2), StartClaim(CHANNEL, CLOSING),
                     At(0, REGISTERED, Two(sweeping, Looking(CLOSING)), 3));
    events := SecondMoves(lateness, events, 0, REGISTERED, sweeping, Looking(CLOSING), FIRST,
                          Move(REGISTERED, Some(Advancing(CLOSING, UNSETTLED, None))));
    events := SecondMoves(lateness, events, 0, REGISTERED, sweeping, Advancing(CLOSING, UNSETTLED, None), FIRST,
                          Move(REGISTERED, Some(Leasing(CLOSING, UNSETTLED))));
  }

  lemma CloseStarts(tasks: map<nat, Task>, n: nat)
    ensures Next(DEPLOYMENT, At(0, REGISTERED, tasks, n), StartClaim(CHANNEL, CLOSING)) ==
              At(0, REGISTERED, tasks[n := Task(CHANNEL, Looking(CLOSING))], n + 1)
  {
    Texts();
  }

  const LATER := Input(1000, "reference", "", 1)

  lemma LaterSteps()
    ensures var c := PAID.(lease := Some(Lease(2, 2000)));
            && Usable(PAID) && Usable(c) && WellFormedRequest(CLOSING)
            && LeaseStep(1000, 2, CLOSING, UNSETTLED, PAID, LATER) ==
                 Some(Move(c, Some(Reloading(CLOSING, UNSETTLED, Some(2000)))))
            && ReloadStep(DEPLOYMENT, CHANNEL, CLOSING, UNSETTLED, Some(2000), c)
                 == Some(Move(c, Some(Settling(CloseJob(CLOSING), UNSETTLED, 2000))))
  {
    hide Valid;
    Texts();
    RecordsAreValid();
  }

  lemma Ticks(tasks: map<nat, Task>)
    ensures Next(DEPLOYMENT, At(0, PAID, tasks, 3), Tick(1000)) == At(1000, PAID, tasks, 3)
  {
  }

  // With settlements recorded as late as `lateness` after their leases, the close takes over the lease that
  // has just expired, reads the record as unsettled, and then the first sweep records its settlement.
  lemma LateRecord(lateness: nat) returns (events: seq<Event>)
    requires lateness > 0
    ensures Reaches(lateness, events,
                    At(1000, RedeemedAt(1000, Some(Lease(2, 2000))),
                       Two(Releasing(SWEEP, UNSETTLED, 1000), Settling(CloseJob(CLOSING), UNSETTLED, 2000)), 3))
  {
    hide Zeros, Usable, Next, LeaseStep, ReloadStep, RedeemStep, Two, Reaches, IsDigits, IsDrops;
    LaterSteps();
    Texts();
    var sweeping := Redeeming(SWEEP, UNSETTLED, 1000);
    var closing := Leasing(CLOSING, UNSETTLED);
    var c := PAID.(lease := Some(Lease(2, 2000)));
    events := CloseBegins(lateness);
    events := FirstSettles(lateness, events, closing);
    Ticks(Two(sweeping, closing));
    events := Extend(lateness, events, At(0, PAID, Two(sweeping, closing), 3), Tick(1000),
                     At(1000, PAID, Two(sweeping, closing), 3));
    events := SecondMoves(lateness, events, 1000, PAID, sweeping, closing, LATER,
                          Move(c, Some(Reloading(CLOSING, UNSETTLED, Some(2000)))));
    events := SecondMoves(lateness, events, 1000, c, sweeping, Reloading(CLOSING, UNSETTLED, Some(2000)), LATER,
                          Move(c, Some(Settling(CloseJob(CLOSING), UNSETTLED, 2000))));
    RedeemMoves(1000, Some(Lease(2, 2000)));
    events := FirstMoves(lateness, events, 1000, c, sweeping, Settling(CloseJob(CLOSING), UNSETTLED, 2000), LATER,
                         Move(RedeemedAt(1000, Some(Lease(2, 2000))), Some(Releasing(SWEEP, UNSETTLED, 1000))));
  }

  // No close is ever about to submit, under its lease, an amount already marked redeemed.
  ghost predicate ClosesNeverResubmit(lateness: nat) {
    forall cfg: Config, s: State, events: seq<Event> | Initial(s) && RecordsInTime(cfg, s, events, lateness) ::
      ClosesAreFresh(Run(cfg, s, events))
  }

  lemma LateRecordResubmits(lateness: nat)
    requires lateness > 0
    ensures !ClosesNeverResubmit(lateness)
  {
    hide Zeros, Valid, Run, RecordsInTime;
    var events := LateRecord(lateness);
    Texts();
    var t := Run(DEPLOYMENT, NOBODY, events);
    assert 2 in t.tasks && IsClosing(t.tasks[2].process) && Resubmits(t, 2);
    assert !ClosesAreFresh(t);
  }

  // Reading the record again protects every close exactly when settlements are recorded before their
  // leases expire: one that is recorded any later can be missed.
  lemma ClosesNeverResubmitExactly(lateness: nat)
    ensures ClosesNeverResubmit(lateness) <==> lateness == 0
  {
    hide Run, RecordsInTime, ClosesAreFresh, Initial;
    if lateness > 0 {
      LateRecordResubmits(lateness);
    } else {
      forall cfg: Config, s: State, events: seq<Event> | Initial(s) && RecordsInTime(cfg, s, events, lateness)
        ensures ClosesAreFresh(Run(cfg, s, events))
      {
        RunKeepsFresh(cfg, s, events);
      }
    }
  }
}
