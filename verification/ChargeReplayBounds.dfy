// The time bounds that the charge protocol needs are the right ones: without either of them some
// deployment pays out one challenge twice.
module ChargeReplayBounds {
  import opened ChargeReplay
  import opened Clocks

  ghost predicate ReceiptsAreUnique(s: State) {
    forall a, b | a in s.runs && b in s.runs && s.runs[a].receipt && s.runs[b].receipt
                  && s.runs[a].challenge == s.runs[b].challenge :: a == b
  }

  // Whatever the challenges, the clock and the interleaving, no challenge yields two receipts.
  ghost predicate PaysAtMostOnce(settings: Settings) {
    forall cfg: Config, now: int, events: seq<Event> | cfg.settings == settings && Honest(cfg) ::
      ReceiptsAreUnique(RunAll(cfg, Start(now), events))
  }

  lemma RunAppend(cfg: Config, s: State, events: seq<Event>, e: Event)
    ensures RunAll(cfg, s, events + [e]) == Next(cfg, RunAll(cfg, s, events), e)
  {
    assert (events + [e])[..|events|] == events;
  }

  function Checked(cfg: Config, challenge: string, digest: string, now: int): Run
    requires now < cfg.expires(challenge)
  {
    Run(challenge, digest, false, Phase.Retained, now, RetentionSeconds(cfg, challenge, now), false, 0, false, false,
        false, false)
  }

  function Held(cfg: Config, r: Run, now: int): Run {
    r.(phase := Marking(true), holds := true, until := now + Max(r.retention, cfg.settings.pendingTtl) * SECOND)
  }

  function Paid(cfg: Config, r: Run, now: int): Run {
    r.(phase := Ended, holds := true, until := now + Max(r.retention, cfg.settings.processedTtl) * SECOND,
       marked := true, receipt := true)
  }

  // A push run checks its challenge.
  lemma Check(cfg: Config, now: int, before: seq<Event>, s: State, id: nat, challenge: string, digest: string)
    returns (events: seq<Event>)
    requires s == RunAll(cfg, Start(now), before) && id !in s.runs
    requires s.now < cfg.expires(challenge) && cfg.txInvoice(digest) == cfg.invoice(challenge)
    ensures RunAll(cfg, Start(now), events) == Update(s, id, Checked(cfg, challenge, digest, s.now))
  {
    hide RunAll, RetentionSeconds, Next;
    var begun := Update(s, id, Run(challenge, digest, false, Validating, 0, 0, false, 0, false, false, false, false));
    RunAppend(cfg, Start(now), before, Begin(id, challenge, digest, false));
    events := before + [Begin(id, challenge, digest, false)];
    BeginAndRetain(cfg, s, id, challenge, digest, begun);
    RunAppend(cfg, Start(now), events, Retain(id));
    events := events + [Retain(id)];
  }

  lemma BeginAndRetain(cfg: Config, s: State, id: nat, challenge: string, digest: string, begun: State)
    requires id !in s.runs && s.now < cfg.expires(challenge) && cfg.txInvoice(digest) == cfg.invoice(challenge)
    requires begun ==
               Update(s, id, Run(challenge, digest, false, Validating, 0, 0, false, 0, false, false, false, false))
    ensures Next(cfg, s, Begin(id, challenge, digest, false)) == begun
    ensures Next(cfg, begun, Retain(id)) == Update(s, id, Checked(cfg, challenge, digest, s.now))
  {
    hide RetentionSeconds;
    assert begun.runs[id := Checked(cfg, challenge, digest, s.now)] ==
             s.runs[id := Checked(cfg, challenge, digest, s.now)];
  }

  // It reserves free keys and matches.
  lemma Hold(cfg: Config, now: int, before: seq<Event>, s: State, id: nat, r: Run) returns (events: seq<Event>)
    requires s == RunAll(cfg, Start(now), before) && id in s.runs && s.runs[id] == r
    requires r.phase.Retained? && !r.pull && s.now <= r.checkedAt + cfg.settings.slack
    requires forall k | k in KeysOf(cfg, r) :: !Live(s.store, k, s.now)
    ensures var h := Held(cfg, r, s.now);
            RunAll(cfg, Start(now), events) ==
              State(s.now, Put(s.store, KeysOf(cfg, r), Marker(Pending(id), h.until)), s.runs[id := h])
  {
    hide Put, KeysOf;
    RunAppend(cfg, Start(now), before, Reserve(id));
    events := before + [Reserve(id)];
    RunAppend(cfg, Start(now), events, Match(id, true));
    events := events + [Match(id, true)];
    assert RunAll(cfg, Start(now), events).runs == s.runs[id := Held(cfg, r, s.now)];
  }

  // It marks and is paid.
  lemma Finish(cfg: Config, now: int, before: seq<Event>, s: State, id: nat, r: Run) returns (events: seq<Event>)
    requires s == RunAll(cfg, Start(now), before) && id in s.runs && s.runs[id] == r && r.phase == Marking(true)
             && r.holds
    requires s.now < r.until + cfg.settings.lateness
    ensures var p := Paid(cfg, r, s.now);
            RunAll(cfg, Start(now), events) ==
              State(s.now, Put(s.store, KeysOf(cfg, r), Marker(Processed, p.until)), s.runs[id := p])
  {
    hide Put, KeysOf;
    RunAppend(cfg, Start(now), before, Mark(id, ValidatedPaid));
    events := before + [Mark(id, ValidatedPaid)];
    assert RunAll(cfg, Start(now), events).runs == s.runs[id := Paid(cfg, r, s.now)];
  }

  lemma PassTime(cfg: Config, now: int, before: seq<Event>, s: State, clock: int) returns (events: seq<Event>)
    requires s == RunAll(cfg, Start(now), before) && s.now <= clock
    ensures RunAll(cfg, Start(now), events) == s.(now := clock)
  {
    RunAppend(cfg, Start(now), before, Tick(clock));
    events := before + [Tick(clock)];
  }

  lemma PutAt(store: map<Key, Marker>, keys: set<Key>, m: Marker, k: Key, now: int)
    ensures Live(Put(store, keys, m), k, now) <==> (if k in keys then now < m.until else Live(store, k, now))
  {
  }

  // Everything at once, from a state in which both keys are free.
  lemma PayNow(cfg: Config, now: int, before: seq<Event>, s: State, id: nat, challenge: string, digest: string)
    returns (events: seq<Event>, p: Run)
    requires s == RunAll(cfg, Start(now), before) && id !in s.runs
    requires s.now < cfg.expires(challenge) && cfg.txInvoice(digest) == cfg.invoice(challenge)
    requires !Live(s.store, Invoice(cfg.invoice(challenge)), s.now) && !Live(s.store, Blob(digest), s.now)
    ensures p.receipt && p.challenge == challenge && p.digest == digest
    ensures p.until == s.now + Max(RetentionSeconds(cfg, challenge, s.now), cfg.settings.processedTtl) * SECOND
    ensures var t := RunAll(cfg, Start(now), events);
            && t.now == s.now && t.runs == s.runs[id := p]
            && forall k, at :: Live(t.store, k, at) <==>
                 if k in {Invoice(cfg.invoice(challenge)), Blob(digest)} then at < p.until else Live(s.store, k, at)
  {
    hide Put;
    var r := Checked(cfg, challenge, digest, s.now);
    events := Check(cfg, now, before, s, id, challenge, digest);
    var s1 := Update(s, id, r);
    events := Hold(cfg, now, events, s1, id, r);
    var h := Held(cfg, r, s.now);
    var s2 := State(s.now, Put(s.store, KeysOf(cfg, r), Marker(Pending(id), h.until)), s1.runs[id := h]);
    events := Finish(cfg, now, events, s2, id, h);
    p := Paid(cfg, h, s.now);
    var t := RunAll(cfg, Start(now), events);
    assert t.runs == s.runs[id := p];
    forall k, at ensures Live(t.store, k, at) <==> if k in KeysOf(cfg, r) then at < p.until else Live(s.store, k, at) {
      PutAt(s2.store, KeysOf(cfg, r), Marker(Processed, p.until), k, at);
      PutAt(s.store, KeysOf(cfg, r), Marker(Pending(id), h.until), k, at);
    }
  }

  // Too slow a reservation: it was checked just before the challenge expired and comes when the first
  // run's markers lapse.
  lemma SlowReservation(cfg: Config, c: string, first: string, second: string) returns (events: seq<Event>)
    requires var t := cfg.settings;
             t.slack > Margin(t) && cfg.expires(c) == (t.pendingTtl + t.processedTtl + 1) * SECOND
    requires cfg.txInvoice(first) == cfg.txInvoice(second) == cfg.invoice(c) && first != second
    ensures !ReceiptsAreUnique(RunAll(cfg, Start(0), events))
  {
    hide RunAll, Next, Live, Put, RetentionSeconds;
    var expiry := cfg.expires(c);
    var lapse := expiry + Margin(cfg.settings);
    NothingRun(cfg);
    NothingLive();
    var p: Run;
    events, p := PayNow(cfg, 0, [], Start(0), 0, c, first);
    FirstLapses(cfg, c);
    var s1 := RunAll(cfg, Start(0), events);
    events := PassTime(cfg, 0, events, s1, expiry - 1);
    var r := Checked(cfg, c, second, expiry - 1);
    events := Check(cfg, 0, events, s1.(now := expiry - 1), 1, c, second);
    var s3 := Update(s1.(now := expiry - 1), 1, r);
    events := PassTime(cfg, 0, events, s3, lapse);
    events := HoldAndFinish(cfg, events, s3.(now := lapse), 1, r);
    TwoReceipts(RunAll(cfg, Start(0), events), 0, 1);
  }

  lemma HoldAndFinish(cfg: Config, before: seq<Event>, s: State, id: nat, r: Run) returns (events: seq<Event>)
    requires s == RunAll(cfg, Start(0), before) && id in s.runs && s.runs[id] == r
    requires r.phase.Retained? && !r.pull && s.now <= r.checkedAt + cfg.settings.slack && r.retention > 0
    requires forall k | k in KeysOf(cfg, r) :: !Live(s.store, k, s.now)
    ensures RunAll(cfg, Start(0), events).runs == s.runs[id := Paid(cfg, Held(cfg, r, s.now), s.now)]
  {
    hide RunAll, Next, Live, Put, RetentionSeconds;
    events := Hold(cfg, 0, before, s, id, r);
    var h := Held(cfg, r, s.now);
    var s1 := State(s.now, Put(s.store, KeysOf(cfg, r), Marker(Pending(id), h.until)), s.runs[id := h]);
    events := Finish(cfg, 0, events, s1, id, h);
  }

  lemma NothingRun(cfg: Config)
    ensures RunAll(cfg, Start(0), []) == Start(0)
  {
  }

  lemma NothingLive()
    ensures forall k, at :: !Live(map[], k, at)
  {
  }

  // The first run's markers last exactly to the margin after the expiry.
  lemma FirstLapses(cfg: Config, c: string)
    requires cfg.expires(c) == (cfg.settings.pendingTtl + cfg.settings.processedTtl + 1) * SECOND
    ensures Max(RetentionSeconds(cfg, c, 0), cfg.settings.processedTtl) * SECOND ==
              cfg.expires(c) + Margin(cfg.settings)
  {
  }

  lemma TwoReceipts(t: State, a: nat, b: nat)
    requires a != b && a in t.runs && b in t.runs && t.runs[a].receipt && t.runs[b].receipt
    requires t.runs[a].challenge == t.runs[b].challenge
    ensures !ReceiptsAreUnique(t)
  {
  }

  // Longer than any marker of the early run.
  function Long(settings: Settings): nat {
    settings.timeout + CLOCK_SKEW_SECONDS + settings.pendingTtl + settings.processedTtl + 1
  }

  // Too late a mark: it belongs to another challenge of the same invoice, its own reservation lapsed long
  // ago, and it cuts short the marker that the paid run had left.
  lemma LateMark(cfg: Config, early: string, c: string, zero: string, one: string, two: string)
    returns (events: seq<Event>)
    requires cfg.settings.lateness > 0 && cfg.expires(early) == SECOND
             && cfg.expires(c) == 3 * Long(cfg.settings) * SECOND
    requires cfg.txInvoice(zero) == cfg.txInvoice(one) == cfg.txInvoice(two) == cfg.invoice(c) == cfg.invoice(early)
    requires zero != one && one != two && two != zero
    ensures !ReceiptsAreUnique(RunAll(cfg, Start(0), events))
  {
    hide RunAll, Next, Live, Put, RetentionSeconds;
    // the early challenge's run reserves and matches, and then dawdles
    var r := Checked(cfg, early, zero, 0);
    var h := Held(cfg, r, 0);
    events := EarlyRunHolds(cfg, early, zero, r, h);
    var s := State(0, Put(map[], KeysOf(cfg, r), Marker(Pending(0), h.until)), map[0 := h]);
    EarlyLifetimes(cfg, early, zero, r, h);
    // its reservation lapses, and the other challenge is paid
    events := PassTime(cfg, 0, events, s, h.until);
    FreeAfter(cfg, r, h.until);
    var p: Run;
    events, p := PayNow(cfg, 0, events, s.(now := h.until), 1, c, one);
    FreeOf(cfg, r, h, Blob(two), Paid(cfg, h, h.until).until);
    events := PaidAgain(cfg, events, RunAll(cfg, Start(0), events), h, early, c, two, 0, 1, 2);
  }

  lemma EarlyRunHolds(cfg: Config, early: string, zero: string, r: Run, h: Run) returns (events: seq<Event>)
    requires cfg.expires(early) == SECOND && cfg.txInvoice(zero) == cfg.invoice(early)
    requires r == Checked(cfg, early, zero, 0) && h == Held(cfg, r, 0)
    ensures RunAll(cfg, Start(0), events) ==
              State(0, Put(map[], KeysOf(cfg, r), Marker(Pending(0), h.until)), map[0 := h])
  {
    hide RunAll, Next, Live, Put, RetentionSeconds;
    NothingRun(cfg);
    NothingLive();
    events := Check(cfg, 0, [], Start(0), 0, early, zero);
    events := Hold(cfg, 0, events, Update(Start(0), 0, r), 0, r);
    assert map[0 := r][0 := h] == map[0 := h];
  }

  // Both of the early run's markers end well before the other challenge does.
  lemma EarlyLifetimes(cfg: Config, early: string, zero: string, r: Run, h: Run)
    requires cfg.expires(early) == SECOND && r == Checked(cfg, early, zero, 0) && h == Held(cfg, r, 0)
    ensures 0 < h.until <= Long(cfg.settings) * SECOND
    ensures h.until < Paid(cfg, h, h.until).until <= h.until + Long(cfg.settings) * SECOND
  {
  }

  lemma FreeAfter(cfg: Config, r: Run, until: int)
    ensures forall k, v :: !Live(Put(map[], KeysOf(cfg, r), Marker(v, until)), k, until)
  {
  }

  lemma FreeOf(cfg: Config, r: Run, h: Run, k: Key, at: int)
    requires k !in KeysOf(cfg, r)
    ensures !Live(Put(map[], KeysOf(cfg, r), Marker(Pending(0), h.until)), k, at)
  {
  }

  // The late mark, whose marker lapses before the other challenge expires, and the second payment.
  lemma PaidAgain(cfg: Config, before: seq<Event>, s: State, h: Run, early: string, c: string, two: string,
                  lateId: nat, paidId: nat, againId: nat) returns (events: seq<Event>)
    requires s == RunAll(cfg, Start(0), before) && s.now < h.until + cfg.settings.lateness && lateId != paidId
             && paidId != againId && againId != lateId
    requires lateId in s.runs && s.runs[lateId] == h && h.phase == Marking(true) && h.holds && h.challenge == early
    requires paidId in s.runs && s.runs[paidId].receipt && s.runs[paidId].challenge == c && againId !in s.runs
    requires cfg.invoice(c) == cfg.invoice(early) == cfg.txInvoice(two) && h.digest != two
    requires s.now < Paid(cfg, h, s.now).until < cfg.expires(c)
    requires !Live(s.store, Blob(two), Paid(cfg, h, s.now).until)
    ensures !ReceiptsAreUnique(RunAll(cfg, Start(0), events))
  {
    hide RunAll, Next, Live, Put, RetentionSeconds;
    events := Finish(cfg, 0, before, s, lateId, h);
    var q := Paid(cfg, h, s.now);
    var s1 := State(s.now, Put(s.store, KeysOf(cfg, h), Marker(Processed, q.until)), s.runs[lateId := q]);
    events := PassTime(cfg, 0, events, s1, q.until);
    PutAt(s.store, KeysOf(cfg, h), Marker(Processed, q.until), Blob(two), q.until);
    PutAt(s.store, KeysOf(cfg, h), Marker(Processed, q.until), Invoice(cfg.invoice(c)), q.until);
    var p: Run;
    events, p := PayNow(cfg, 0, events, s1.(now := q.until), againId, c, two);
    TwoReceipts(RunAll(cfg, Start(0), events), paidId, againId);
  }

  // A deployment in which every challenge names the same invoice, and all but one expire at `expiry`.
  function SharedInvoice(settings: Settings, early: string, expiry: int): Config {
    Config(settings, (c: string) => "", (c: string) => if c == early then SECOND else expiry, (d: string) => "",
           (c: string) => false)
  }

  lemma SlowReservationPaysTwice(settings: Settings)
    requires settings.slack > Margin(settings)
    ensures !PaysAtMostOnce(settings)
  {
    hide RunAll;
    var cfg := SharedInvoice(settings, "early", (settings.pendingTtl + settings.processedTtl + 1) * SECOND);
    var events := SlowReservation(cfg, "challenge", "first", "second");
    assert cfg.settings == settings && Honest(cfg) && !ReceiptsAreUnique(RunAll(cfg, Start(0), events));
  }

  lemma LateMarkPaysTwice(settings: Settings)
    requires settings.lateness > 0
    ensures !PaysAtMostOnce(settings)
  {
    hide RunAll;
    var cfg := SharedInvoice(settings, "early", 3 * Long(settings) * SECOND);
    var events := LateMark(cfg, "early", "other", "zero", "one", "two");
    assert cfg.settings == settings && Honest(cfg) && !ReceiptsAreUnique(RunAll(cfg, Start(0), events));
  }

  // One challenge yields at most one receipt, over all challenges and all runs, if and only if no run may
  // reserve later than the validation timeout and 60 seconds after its expiry check, and none marks on a
  // lapsed reservation whose invoice other challenges share.
  lemma PaysAtMostOnceExactly(settings: Settings)
    ensures PaysAtMostOnce(settings) <==> Timely(settings)
  {
    if settings.lateness > 0 {
      LateMarkPaysTwice(settings);
    } else if settings.slack > Margin(settings) {
      SlowReservationPaysTwice(settings);
    } else {
      forall cfg: Config, now: int, events: seq<Event> | cfg.settings == settings && Honest(cfg)
        ensures ReceiptsAreUnique(RunAll(cfg, Start(now), events))
      {
        AllUnique(cfg, now, events);
      }
    }
  }

  lemma AllUnique(cfg: Config, now: int, events: seq<Event>)
    requires Honest(cfg) && Timely(cfg.settings)
    ensures ReceiptsAreUnique(RunAll(cfg, Start(now), events))
  {
    hide RunAll, Honest;
    var s := RunAll(cfg, Start(now), events);
    forall a, b | a in s.runs && b in s.runs && s.runs[a].receipt && s.runs[b].receipt
                  && s.runs[a].challenge == s.runs[b].challenge
      ensures a == b
    {
      OneReceiptPerChallenge(cfg, now, events, a, b);
    }
  }
}
