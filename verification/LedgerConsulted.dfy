// A deployment with a ledger verifier advances no claim without having read the ledger in that very request.
module LedgerConsulted {
  import opened Options
  import opened DropAmounts
  import opened HighWater
  import opened PayChannelRecords
  import opened PayChannelProtocol
  import opened PayChannelSafety
  import opened StaleSettlements

  // The ledger holds this amount and covers this claim.
  predicate LedgerSays(c: Channel, amount: string, funding: string) {
    && IsDigits(amount) && IsDigits(funding) && c.ledger.Some? && Value(funding) == c.ledger.value.amount
    && c.ledger.value.balance <= Value(amount) <= c.ledger.value.amount
  }

  // At some moment of the run the request was under way and the ledger held `funding` and covered its claim.
  ghost predicate WasRead(cfg: Config, s: State, events: seq<Event>, id: nat, ch: string, q: Request, funding: string) {
    exists k | 0 <= k <= |events| ::
      var u := Run(cfg, s, events[..k]);
      && id in u.tasks && u.tasks[id].channelId == ch && u.tasks[id].process.Verifying? && u.tasks[id].process.q == q
      && LedgerSays(ChannelAt(u, ch), q.amount, funding)
  }

  lemma ReadBefore(cfg: Config, s: State, events: seq<Event>, id: nat, ch: string, q: Request, funding: string)
    requires events != [] && WasRead(cfg, s, events[..|events| - 1], id, ch, q, funding)
    ensures WasRead(cfg, s, events, id, ch, q, funding)
  {
    hide Run, LedgerSays;
    var before := events[..|events| - 1];
    var k :| 0 <= k <= |before| && var u := Run(cfg, s, before[..k]);
             && id in u.tasks && u.tasks[id].channelId == ch && u.tasks[id].process.Verifying?
             && u.tasks[id].process.q == q && LedgerSays(ChannelAt(u, ch), q.amount, funding);
    assert before[..k] == events[..k];
  }

  lemma ReadNow(cfg: Config, s: State, events: seq<Event>, id: nat, ch: string, q: Request, funding: string)
    requires events != []
    requires var u := Run(cfg, s, events[..|events| - 1]);
             && id in u.tasks && u.tasks[id].channelId == ch && u.tasks[id].process.Verifying?
             && u.tasks[id].process.q == q && LedgerSays(ChannelAt(u, ch), q.amount, funding)
    ensures WasRead(cfg, s, events, id, ch, q, funding)
  {
    hide Run, LedgerSays;
    assert events[..|events| - 1] == events[..|events| - 1];
  }

  // With a verifier, only a request that has just read the ledger is sent on to advance.
  lemma OnlyVerifiedAdvance(cfg: Config, s: State, id: nat, ch: string, p: Process, i: Input)
    requires cfg.verifier && Usable(ChannelAt(s, ch)) && Steppable(p)
    ensures var m := Step(cfg, s, id, ch, p, i);
            m.Some? && m.value.next.Some? && m.value.next.value.Advancing? ==>
              var a := m.value.next.value;
              && p.Verifying? && p.q == a.q && a.funding.Some?
              && LedgerSays(ChannelAt(s, ch), a.q.amount, a.funding.value)
  {
    hide Mutate, TakeLease, CreateMove, Valid, Bound, Unsettled, WellTyped, Value;
  }

  lemma ArrivesRead(cfg: Config, s: State, id: nat, i: Input)
    requires Inv(cfg, s) && cfg.verifier && id in s.tasks
    ensures var t := Next(cfg, s, Proceed(id, i));
            id in t.tasks && t.tasks[id].process.Advancing? && t != s ==>
              var ch, p, a := s.tasks[id].channelId, s.tasks[id].process, t.tasks[id].process;
              && t.tasks[id].channelId == ch && p.Verifying? && p.q == a.q && a.funding.Some?
              && LedgerSays(ChannelAt(s, ch), a.q.amount, a.funding.value)
  {
    hide ProcessOk, ChannelOk, Step, StepOk, LedgerSays;
    var ch, p := s.tasks[id].channelId, s.tasks[id].process;
    ChannelAtOk(cfg, s, ch);
    StepKeepsProcess(cfg, s, id, ch, p, i);
    OnlyVerifiedAdvance(cfg, s, id, ch, p, i);
  }

  lemma SpawnsNoAdvance(cfg: Config, s: State, e: Event, id: nat)
    requires id !in s.tasks && id in Next(cfg, s, e).tasks
    ensures !Next(cfg, s, e).tasks[id].process.Advancing?
  {
    hide Step, OpenStarts;
  }

  // In every reachable state, a voucher or close about to advance carries as its funding what the ledger held at an
  // earlier moment of the same request, when its claim was within it and not below what the ledger had paid out.
  lemma {:induction false} LedgerIsConsulted(cfg: Config, s: State, events: seq<Event>, id: nat)
    requires Initial(s) && cfg.verifier
    ensures var t := Run(cfg, s, events);
            id in t.tasks && t.tasks[id].process.Advancing? ==>
              var p := t.tasks[id].process;
              p.funding.Some? && WasRead(cfg, s, events, id, t.tasks[id].channelId, p.q, p.funding.value)
  {
    hide Next, WasRead, LedgerSays, Inv;
    if events == [] {
      NobodyAtFirst(cfg, s, id);
    } else {
      var before, e := events[..|events| - 1], events[|events| - 1];
      var u := Run(cfg, s, before);
      var t := Next(cfg, u, e);
      ReachableInv(cfg, s, before);
      LedgerIsConsulted(cfg, s, before, id);
      if id in t.tasks && t.tasks[id].process.Advancing? {
        if id !in u.tasks {
          SpawnsNoAdvance(cfg, u, e, id);
        } else if e.Proceed? && e.id == id && t != u {
          ArrivesRead(cfg, u, id, e.input);
          ReadNow(cfg, s, events, id, t.tasks[id].channelId, t.tasks[id].process.q, t.tasks[id].process.funding.value);
        } else {
          IdsAreUsed(cfg, u, id);
          if t != u { TaskWaitsOneEvent(cfg, u, e, id); }
          ReadBefore(cfg, s, events, id, t.tasks[id].channelId, t.tasks[id].process.q,
                     t.tasks[id].process.funding.value);
        }
      }
    }
  }

  lemma NobodyAtFirst(cfg: Config, s: State, id: nat)
    requires Initial(s)
    ensures id !in Run(cfg, s, []).tasks
  {
  }
}
