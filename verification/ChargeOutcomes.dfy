// What a charge comes to: a receipt only for a transaction that paid, told from the events of any run of
// the protocol, and the whole outcome of a charge that nobody disturbs.
module ChargeOutcomes {
  import opened Clocks
  import opened ChargeReplay

  // ---- a receipt needs a payment, whatever interleaves ----

  // The run of the event is where it can hear it.
  predicate Listens(s: State, e: Event) {
    match e
    case Match(id, _) => id in s.runs && s.runs[id].phase.Matching?
    case Submit(id, _) => id in s.runs && s.runs[id].phase.Submitting?
    case Poll(id, _) => id in s.runs && s.runs[id].phase.Polling?
    case _ => false
  }

  // Somewhere in the history this event happened and its run listened.
  ghost predicate Heard(cfg: Config, now: int, events: seq<Event>, e: Event) {
    exists j | 0 <= j < |events| :: events[j] == e && Listens(RunAll(cfg, Start(now), events[..j]), e)
  }

  lemma HeardStep(cfg: Config, now: int, events: seq<Event>, e: Event)
    requires events != []
    ensures var before := events[..|events| - 1];
            Heard(cfg, now, events, e) <==>
              Heard(cfg, now, before, e) || (events[|events| - 1] == e && Listens(RunAll(cfg, Start(now), before), e))
  {
    hide RunAll, Listens;
    var n := |events| - 1;
    forall j | 0 <= j < n ensures events[..n][..j] == events[..j] && events[..n][j] == events[j] {
    }
  }

  // How far a run has come tells that it has heard of a match, an accepted submission and a payment.
  predicate Tells(r: Run, matched: bool, accepted: bool, paid: bool) {
    && (r.phase.Submitting? || r.phase.Polling? || r.phase.Marking? || r.receipt ==> matched)
    && (r.phase.Submitting? || r.phase.Polling? ==> r.pull)
    && (r.phase.Polling? || (r.pull && (r.phase.Marking? || r.receipt)) ==> accepted)
    && (r.pull && (r.phase == Marking(true) || r.receipt) ==> paid)
    && (r.phase.Validating? || r.phase.Retained? || r.phase.Matching? ==> !r.receipt)
  }

  // A mismatch, a rejected submission, a wrong amount or a failed validation leaves nowhere to go but past a
  // receipt.
  predicate Excludes(r: Run, refused: bool, wrong: bool) {
    && (wrong ==> !r.receipt && (r.phase == Marking(false) || r.phase.Ended?))
    && (refused ==> !r.receipt && (r.phase.Releasing? || r.phase.Ended?))
    && (r.receipt ==> r.phase.Ended? || r.phase.Releasing?)
    && (r.phase.Matching? || r.phase.Submitting? || r.phase.Polling? || r.phase == Marking(false) ==> !r.receipt)
    && (r.phase == Marking(false) ==> r.pull)
    && (r.phase.Submitting? || r.phase.Polling? ==> r.pull)
  }

  ghost predicate Refused(cfg: Config, now: int, events: seq<Event>, id: nat) {
    || Heard(cfg, now, events, Match(id, false)) || Heard(cfg, now, events, Submit(id, Rejected))
    || Heard(cfg, now, events, Poll(id, ValidatedFailed))
  }

  ghost predicate Told(cfg: Config, now: int, events: seq<Event>, id: nat, r: Run) {
    && Tells(r, Heard(cfg, now, events, Match(id, true)), Heard(cfg, now, events, Submit(id, Accepted)),
             Heard(cfg, now, events, Poll(id, ValidatedPaid)))
    && Excludes(r, Refused(cfg, now, events, id), Heard(cfg, now, events, Poll(id, ValidatedWrongAmount)))
  }

  // The event keeps both, with what the run may have heard just now.
  predicate Kept(cfg: Config, s: State, e: Event, id: nat, matched: bool, accepted: bool, paid: bool,
                 refused: bool, wrong: bool) {
    var t, heard := Next(cfg, s, e), Listens(s, e);
    && id in t.runs
    && Tells(t.runs[id], matched || (heard && e == Match(id, true)), accepted || (heard && e == Submit(id, Accepted)),
             paid || (heard && e == Poll(id, ValidatedPaid)))
    && Excludes(t.runs[id],
                refused || (heard && (e == Match(id, false) || e == Submit(id, Rejected)
                                      || e == Poll(id, ValidatedFailed))),
                wrong || (heard && e == Poll(id, ValidatedWrongAmount)))
  }

  lemma TurnsKeep(cfg: Config, s: State, e: Event, id: nat, matched: bool, accepted: bool, paid: bool,
           refused: bool, wrong: bool)
    requires id in s.runs && Tells(s.runs[id], matched, accepted, paid) && Excludes(s.runs[id], refused, wrong)
    requires (e.Match? || e.Stop?) && e.id == id
    ensures Kept(cfg, s, e, id, matched, accepted, paid, refused, wrong)
  {
    hide RetentionSeconds, Live, Put, Unreserve, KeysOf, RetainStep, ReserveStep, MarkStep, ReleaseStep;
    hide SubmitStep, PollStep;
  }

  lemma AnswersKeep(cfg: Config, s: State, e: Event, id: nat, matched: bool, accepted: bool, paid: bool,
           refused: bool, wrong: bool)
    requires id in s.runs && Tells(s.runs[id], matched, accepted, paid) && Excludes(s.runs[id], refused, wrong)
    requires (e.Submit? || e.Poll?) && e.id == id
    ensures Kept(cfg, s, e, id, matched, accepted, paid, refused, wrong)
  {
    hide RetentionSeconds, Live, Put, Unreserve, KeysOf, RetainStep, ReserveStep, MarkStep, ReleaseStep;
    hide MatchStep;
  }

  lemma CallsKeep(cfg: Config, s: State, e: Event, id: nat, matched: bool, accepted: bool, paid: bool,
           refused: bool, wrong: bool)
    requires id in s.runs && Tells(s.runs[id], matched, accepted, paid) && Excludes(s.runs[id], refused, wrong)
    requires (e.Retain? || e.Release?) && e.id == id
    ensures Kept(cfg, s, e, id, matched, accepted, paid, refused, wrong)
  {
    hide RetentionSeconds, Live, Put, Unreserve, KeysOf, MatchStep, SubmitStep, PollStep, MarkStep, ReserveStep;
  }

  lemma ReserveKeeps(cfg: Config, s: State, e: Event, id: nat, matched: bool, accepted: bool, paid: bool,
           refused: bool, wrong: bool)
    requires id in s.runs && Tells(s.runs[id], matched, accepted, paid) && Excludes(s.runs[id], refused, wrong)
    requires e.Reserve? && e.id == id
    ensures Kept(cfg, s, e, id, matched, accepted, paid, refused, wrong)
  {
    hide RetentionSeconds, Live, Put, Unreserve, KeysOf, MatchStep, SubmitStep, PollStep, MarkStep, RetainStep,
    ReleaseStep;
  }

  lemma MarkKeeps(cfg: Config, s: State, e: Event, id: nat, matched: bool, accepted: bool, paid: bool,
           refused: bool, wrong: bool)
    requires id in s.runs && Tells(s.runs[id], matched, accepted, paid) && Excludes(s.runs[id], refused, wrong)
    requires e.Mark? && e.id == id
    ensures Kept(cfg, s, e, id, matched, accepted, paid, refused, wrong)
  {
    hide RetentionSeconds, Live, Put, Unreserve, KeysOf, MatchStep, SubmitStep, PollStep, RetainStep, ReserveStep,
    ReleaseStep;
  }

  lemma OthersKeep(cfg: Config, s: State, e: Event, id: nat, matched: bool, accepted: bool, paid: bool,
                   refused: bool, wrong: bool)
    requires id in s.runs && Tells(s.runs[id], matched, accepted, paid) && Excludes(s.runs[id], refused, wrong)
    requires e.Tick? || e.Begin? || e.id != id
    ensures Kept(cfg, s, e, id, matched, accepted, paid, refused, wrong)
  {
    hide Tells, Excludes;
    OthersStand(cfg, s, e, id);
  }

  lemma OthersStand(cfg: Config, s: State, e: Event, id: nat)
    requires id in s.runs && (e.Tick? || e.Begin? || e.id != id)
    ensures id in Next(cfg, s, e).runs && Next(cfg, s, e).runs[id] == s.runs[id]
  {
    hide RetentionSeconds, Live, Put, Unreserve, KeysOf, MatchStep, SubmitStep, PollStep;
  }

  lemma StepKeeps(cfg: Config, s: State, e: Event, id: nat, matched: bool, accepted: bool, paid: bool,
                  refused: bool, wrong: bool)
    requires id in s.runs && Tells(s.runs[id], matched, accepted, paid) && Excludes(s.runs[id], refused, wrong)
    ensures Kept(cfg, s, e, id, matched, accepted, paid, refused, wrong)
  {
    hide *;
    if e.Tick? || e.Begin? || e.id != id {
      OthersKeep(cfg, s, e, id, matched, accepted, paid, refused, wrong);
    } else if e.Match? || e.Stop? {
      TurnsKeep(cfg, s, e, id, matched, accepted, paid, refused, wrong);
    } else if e.Submit? || e.Poll? {
      AnswersKeep(cfg, s, e, id, matched, accepted, paid, refused, wrong);
    } else if e.Mark? {
      MarkKeeps(cfg, s, e, id, matched, accepted, paid, refused, wrong);
    } else if e.Reserve? {
      ReserveKeeps(cfg, s, e, id, matched, accepted, paid, refused, wrong);
    } else {
      CallsKeep(cfg, s, e, id, matched, accepted, paid, refused, wrong);
    }
  }

  lemma {:induction false} HeardRuns(cfg: Config, now: int, events: seq<Event>, e: Event)
    requires Heard(cfg, now, events, e)
    ensures e.Match? || e.Submit? || e.Poll?
    ensures e.id in RunAll(cfg, Start(now), events).runs
  {
    hide Heard;
    if events == [] {
      NothingHeard(cfg, now, e);
    } else {
      var before := events[..|events| - 1];
      HeardStep(cfg, now, events, e);
      if Heard(cfg, now, before, e) { HeardRuns(cfg, now, before, e); }
      RunsStay(cfg, RunAll(cfg, Start(now), before), events[|events| - 1]);
    }
  }

  lemma NothingHeard(cfg: Config, now: int, e: Event)
    ensures !Heard(cfg, now, [], e)
  {
  }

  lemma RunsStay(cfg: Config, s: State, e: Event)
    ensures s.runs.Keys <= Next(cfg, s, e).runs.Keys
  {
  }

  lemma {:induction false} RunsTell(cfg: Config, now: int, events: seq<Event>, id: nat)
    ensures var s := RunAll(cfg, Start(now), events);
            id in s.runs ==> Told(cfg, now, events, id, s.runs[id])
  {
    hide Heard, Next, Told;
    if events != [] {
      var before, e := events[..|events| - 1], events[|events| - 1];
      var s := RunAll(cfg, Start(now), before);
      RunsTell(cfg, now, before, id);
      if id in s.runs {
        StepTells(cfg, now, events, id);
      } else if id in Next(cfg, s, e).runs {
        FreshTells(cfg, now, events, id);
      }
    }
  }

  lemma FreshTells(cfg: Config, now: int, events: seq<Event>, id: nat)
    requires events != [] && id !in RunAll(cfg, Start(now), events[..|events| - 1]).runs
    requires id in RunAll(cfg, Start(now), events).runs
    ensures Told(cfg, now, events, id, RunAll(cfg, Start(now), events).runs[id])
  {
    hide Heard;
    forall e: Event | (e.Match? || e.Submit? || e.Poll?) && e.id == id ensures !Heard(cfg, now, events, e) {
      HeardStep(cfg, now, events, e);
      if Heard(cfg, now, events[..|events| - 1], e) { HeardRuns(cfg, now, events[..|events| - 1], e); }
    }
  }

  lemma StepTells(cfg: Config, now: int, events: seq<Event>, id: nat)
    requires events != []
    requires var s := RunAll(cfg, Start(now), events[..|events| - 1]);
             id in s.runs && Told(cfg, now, events[..|events| - 1], id, s.runs[id])
    ensures var t := RunAll(cfg, Start(now), events); id in t.runs && Told(cfg, now, events, id, t.runs[id])
  {
    hide Heard, Next, Listens, Tells, Excludes;
    var before, e := events[..|events| - 1], events[|events| - 1];
    var s := RunAll(cfg, Start(now), before);
    HeardStep(cfg, now, events, Match(id, true));
    HeardStep(cfg, now, events, Submit(id, Accepted));
    HeardStep(cfg, now, events, Poll(id, ValidatedPaid));
    HeardStep(cfg, now, events, Match(id, false));
    HeardStep(cfg, now, events, Submit(id, Rejected));
    HeardStep(cfg, now, events, Poll(id, ValidatedWrongAmount));
    HeardStep(cfg, now, events, Poll(id, ValidatedFailed));
    StepKeeps(cfg, s, e, id, Heard(cfg, now, before, Match(id, true)), Heard(cfg, now, before, Submit(id, Accepted)),
              Heard(cfg, now, before, Poll(id, ValidatedPaid)), Refused(cfg, now, before, id),
              Heard(cfg, now, before, Poll(id, ValidatedWrongAmount)));
  }

  // A pull charge gets its receipt only after its transaction was matched, its submission was accepted and a
  // poll found that it validated and paid; whoever hears of a wrong amount, a failed validation, a rejected
  // submission or a mismatch never gets one.
  lemma ReceiptsArePaid(cfg: Config, now: int, events: seq<Event>, id: nat)
    ensures var s := RunAll(cfg, Start(now), events);
            id in s.runs && s.runs[id].receipt ==>
              && Heard(cfg, now, events, Match(id, true))
              && (s.runs[id].pull ==>
                    && Heard(cfg, now, events, Submit(id, Accepted))
                    && Heard(cfg, now, events, Poll(id, ValidatedPaid)))
              && !Heard(cfg, now, events, Match(id, false)) && !Heard(cfg, now, events, Submit(id, Rejected))
              && !Heard(cfg, now, events, Poll(id, ValidatedWrongAmount))
              && !Heard(cfg, now, events, Poll(id, ValidatedFailed))
  {
    hide Heard;
    RunsTell(cfg, now, events, id);
  }

  // ---- a charge that nobody disturbs ----

  // Nobody holds the invoice or the transaction of this charge.
  predicate Unclaimed(cfg: Config, s: State, challenge: string, digest: string) {
    !Live(s.store, Invoice(cfg.invoice(challenge)), s.now) && !Live(s.store, Blob(digest), s.now)
  }

  function Opening(id: nat, challenge: string, digest: string, pull: bool): seq<Event> {
    [Begin(id, challenge, digest, pull), Retain(id), Reserve(id)]
  }

  lemma {:induction false} RunOn(cfg: Config, s: State, first: seq<Event>, rest: seq<Event>)
    ensures RunAll(cfg, s, first + rest) == RunAll(cfg, RunAll(cfg, s, first), rest)
  {
    hide Next;
    if rest == [] {
      assert first + rest == first;
    } else {
      var n := |rest| - 1;
      assert (first + rest)[..|first + rest| - 1] == first + rest[..n];
      RunOn(cfg, s, first, rest[..n]);
    }
  }

  lemma RunThree(cfg: Config, s: State, a: Event, b: Event, c: Event)
    ensures RunAll(cfg, s, [a, b, c]) == Next(cfg, Next(cfg, Next(cfg, s, a), b), c)
  {
    hide Next;
    assert [a, b, c][..2] == [a, b] && [a, b][..1] == [a] && [a][..0] == [];
    assert RunAll(cfg, s, []) == s;
    assert RunAll(cfg, s, [a]) == Next(cfg, s, a);
    assert RunAll(cfg, s, [a, b]) == Next(cfg, Next(cfg, s, a), b);
  }

  // What a reservation leaves: a run that waits to match, and its marker on both keys past the challenge.
  ghost predicate Reserved(cfg: Config, s: State, t: State, id: nat, challenge: string, digest: string, pull: bool) {
    && id in t.runs && t.now == s.now
    && var r := t.runs[id];
       && r == Run(challenge, digest, pull, Matching, s.now, r.retention, true, r.until, false, false, false, false)
       && r.retention > 0 && r.until > s.now
       && r.until >= cfg.expires(challenge) + Margin(cfg.settings)
       && s.now + r.retention * SECOND >= cfg.expires(challenge) + Margin(cfg.settings)
       && t.store == Put(s.store, KeysOf(cfg, r), Marker(Pending(id), r.until))
  }

  function Begun(challenge: string, digest: string, pull: bool): Run {
    Run(challenge, digest, pull, Validating, 0, 0, false, 0, false, false, false, false)
  }

  lemma BeginStep(cfg: Config, s: State, id: nat, challenge: string, digest: string, pull: bool)
    requires id !in s.runs
    ensures Next(cfg, s, Begin(id, challenge, digest, pull)) ==
              if s.now < cfg.expires(challenge) then Update(s, id, Begun(challenge, digest, pull)) else s
  {
  }

  lemma RetainNext(cfg: Config, s: State, id: nat, challenge: string, digest: string, pull: bool)
    requires id in s.runs && s.runs[id] == Begun(challenge, digest, pull) && s.now < cfg.expires(challenge)
    ensures var t := Next(cfg, s, Retain(id));
            if cfg.txInvoice(digest) != cfg.invoice(challenge) then t == s
            else
              && id in t.runs && t == Update(s, id, t.runs[id]) && t.runs[id].retention > 0
              && t.runs[id] == Begun(challenge, digest, pull).(phase := Phase.Retained, checkedAt := s.now,
                                                               retention := t.runs[id].retention)
              && s.now + t.runs[id].retention * SECOND >= cfg.expires(challenge) + Margin(cfg.settings)
  {
    hide Margin;
  }

  lemma ReserveNext(cfg: Config, s: State, id: nat, challenge: string, digest: string, pull: bool)
    requires id in s.runs
    requires s.runs[id] == Begun(challenge, digest, pull).(phase := Phase.Retained, checkedAt := s.now,
                                                           retention := s.runs[id].retention)
    requires s.runs[id].retention > 0
    requires s.now + s.runs[id].retention * SECOND >= cfg.expires(challenge) + Margin(cfg.settings)
    ensures var t := Next(cfg, s, Reserve(id));
            if Unclaimed(cfg, s, challenge, digest) then Reserved(cfg, s, t, id, challenge, digest, pull)
            else id in t.runs && !t.runs[id].holds && t.store == s.store
  {
    hide Margin, Put;
    assert KeysOf(cfg, s.runs[id]) == {Invoice(cfg.invoice(challenge)), Blob(digest)};
  }

  lemma NoRun(cfg: Config, s: State, id: nat)
    requires id !in s.runs
    ensures Next(cfg, s, Retain(id)) == s && Next(cfg, s, Reserve(id)) == s
  {
  }

  lemma NotYetRetained(cfg: Config, s: State, id: nat)
    requires id in s.runs && s.runs[id].phase.Validating?
    ensures Next(cfg, s, Reserve(id)) == s
  {
  }

  // A charge reserves if and only if its challenge has not expired, its transaction carries the challenge's
  // invoice, and neither the invoice nor the transaction is claimed; otherwise the store is left alone.
  lemma ReservesExactly(cfg: Config, s: State, id: nat, challenge: string, digest: string, pull: bool)
    requires id !in s.runs
    ensures var t := RunAll(cfg, s, Opening(id, challenge, digest, pull));
            if && s.now < cfg.expires(challenge) && cfg.txInvoice(digest) == cfg.invoice(challenge)
               && Unclaimed(cfg, s, challenge, digest) then Reserved(cfg, s, t, id, challenge, digest, pull)
            else (id in t.runs ==> !t.runs[id].holds) && t.store == s.store
  {
    hide Next, Reserved, Unclaimed, Margin;
    RunThree(cfg, s, Begin(id, challenge, digest, pull), Retain(id), Reserve(id));
    BeginStep(cfg, s, id, challenge, digest, pull);
    var begun := Next(cfg, s, Begin(id, challenge, digest, pull));
    if s.now >= cfg.expires(challenge) {
      NoRun(cfg, s, id);
    } else {
      RetainNext(cfg, begun, id, challenge, digest, pull);
      if cfg.txInvoice(digest) != cfg.invoice(challenge) {
        NotYetRetained(cfg, begun, id);
      } else {
        var retained := Next(cfg, begun, Retain(id));
        ReserveNext(cfg, retained, id, challenge, digest, pull);
        SameClaims(cfg, s, retained, challenge, digest);
        ReservedFrom(cfg, retained, s, Next(cfg, retained, Reserve(id)), id, challenge, digest, pull);
      }
    }
  }

  lemma SameClaims(cfg: Config, s: State, t: State, challenge: string, digest: string)
    requires t.store == s.store && t.now == s.now
    ensures Unclaimed(cfg, t, challenge, digest) == Unclaimed(cfg, s, challenge, digest)
  {
  }

  lemma ReservedFrom(cfg: Config, s: State, s': State, t: State, id: nat, challenge: string, digest: string, pull: bool)
    requires s.store == s'.store && s.now == s'.now
    ensures Reserved(cfg, s, t, id, challenge, digest, pull) == Reserved(cfg, s', t, id, challenge, digest, pull)
  {
  }

  // Both keys carry this reservation still, both are used up until past the challenge, or both are free.
  datatype Fate = Held | Used | Free

  predicate KeyIs(cfg: Config, t: State, id: nat, challenge: string, k: Key, fate: Fate) {
    match fate
    case Held => k in t.store && t.store[k].value == Pending(id) && t.now < t.store[k].until
    case Used =>
      && k in t.store && t.store[k].value == Processed && t.now < t.store[k].until
      && t.store[k].until >= cfg.expires(challenge) + Margin(cfg.settings)
    case Free => k !in t.store
  }

  predicate KeysAre(cfg: Config, t: State, id: nat, challenge: string, digest: string, fate: Fate) {
    && KeyIs(cfg, t, id, challenge, Invoice(cfg.invoice(challenge)), fate)
    && KeyIs(cfg, t, id, challenge, Blob(digest), fate)
  }

  ghost predicate OthersSame(cfg: Config, s: State, t: State, challenge: string, digest: string) {
    forall k | k !in {Invoice(cfg.invoice(challenge)), Blob(digest)} ::
      (k in t.store <==> k in s.store) && (k in s.store ==> t.store[k] == s.store[k])
  }

  // The run in phase `phase` after its reservation, with its keys as `fate` says and every other key as in `s`.
  ghost predicate Stands(cfg: Config, s: State, t: State, id: nat, r: Run, fate: Fate) {
    && t.now == s.now && id in t.runs && t.runs[id] == r
    && KeysAre(cfg, t, id, r.challenge, r.digest, fate) && OthersSame(cfg, s, t, r.challenge, r.digest)
  }

  predicate InHand(cfg: Config, s: State, r: Run) {
    && !r.receipt && r.until > s.now && r.retention > 0
    && s.now + r.retention * SECOND >= cfg.expires(r.challenge) + Margin(cfg.settings)
  }

  lemma ReservedStands(cfg: Config, s: State, t: State, id: nat, challenge: string, digest: string, pull: bool)
    requires Reserved(cfg, s, t, id, challenge, digest, pull)
    ensures id in t.runs && t.runs[id].phase.Matching? && t.runs[id].pull == pull && InHand(cfg, s, t.runs[id])
    ensures t.runs[id].challenge == challenge && t.runs[id].digest == digest
    ensures Stands(cfg, s, t, id, t.runs[id], Held)
  {
    assert KeysOf(cfg, t.runs[id]) == {Invoice(cfg.invoice(challenge)), Blob(digest)};
  }

  lemma UpdateStands(cfg: Config, s: State, t: State, id: nat, r: Run, r': Run, fate: Fate)
    requires Stands(cfg, s, t, id, r, fate) && r'.challenge == r.challenge && r'.digest == r.digest
    ensures Stands(cfg, s, Update(t, id, r'), id, r', fate)
  {
    hide Margin, Live;
  }

  // An event that only moves the run's program counter.
  lemma CounterNext(cfg: Config, t: State, id: nat, e: Event)
    requires e.Match? || e.Submit? || e.Poll?
    requires e.id == id && id in t.runs
    ensures e.Match? && t.runs[id].phase.Matching? ==> Next(cfg, t, e) == Update(t, id, MatchStep(t.runs[id], e.ok))
    ensures e.Submit? && t.runs[id].phase.Submitting? ==>
              Next(cfg, t, e) == Update(t, id, SubmitStep(t.runs[id], e.outcome))
    ensures e.Poll? && t.runs[id].phase.Polling? ==> Next(cfg, t, e) == Update(t, id, PollStep(t.runs[id], e.outcome))
  {
    hide MatchStep, SubmitStep, PollStep;
  }

  // Submitting or polling leaves everything but the counter and what is recorded of the submission.
  predicate SameCharge(r: Run, r': Run) {
    && r'.challenge == r.challenge && r'.digest == r.digest && r'.pull == r.pull && r'.until == r.until
    && r'.retention == r.retention && r'.receipt == r.receipt
  }

  lemma CounterSame(r: Run, ok: bool, outcome: Outcome)
    ensures SameCharge(r, MatchStep(r, ok)) && SameCharge(r, SubmitStep(r, outcome))
            && SameCharge(r, PollStep(r, outcome))
  {
  }

  lemma CounterStands(cfg: Config, s: State, t: State, id: nat, r: Run, e: Event, fate: Fate)
    requires Stands(cfg, s, t, id, r, fate) && InHand(cfg, s, r)
    requires (e.Match? && r.phase.Matching?) || (e.Submit? && r.phase.Submitting?) || (e.Poll? && r.phase.Polling?)
    requires e.id == id
    ensures var u := Next(cfg, t, e);
            && id in u.runs && InHand(cfg, s, u.runs[id]) && Stands(cfg, s, u, id, u.runs[id], fate)
            && SameCharge(r, u.runs[id])
            && u.runs[id] == (if e.Match? then MatchStep(r, e.ok) else if e.Submit? then SubmitStep(r, e.outcome)
                              else PollStep(r, e.outcome))
  {
    hide Next, Stands, Margin, MatchStep, SubmitStep, PollStep;
    StandsIs(cfg, s, t, id, r, fate);
    CounterNext(cfg, t, id, e);
    if e.Match? { CounterSame(r, e.ok, Accepted); } else { CounterSame(r, true, e.outcome); }
    UpdateStands(cfg, s, t, id, r, Next(cfg, t, e).runs[id], fate);
  }

  lemma StandsIs(cfg: Config, s: State, t: State, id: nat, r: Run, fate: Fate)
    requires Stands(cfg, s, t, id, r, fate)
    ensures id in t.runs && t.runs[id] == r && t.now == s.now
  {
  }

  // An event that the run's phase does not allow.
  lemma NothingHappens(cfg: Config, t: State, id: nat, e: Event)
    requires id in t.runs && (e.Match? || e.Submit? || e.Poll? || e.Mark? || e.Release?) && e.id == id
    requires var p := t.runs[id].phase;
             && (e.Match? ==> !p.Matching?) && (e.Submit? ==> !p.Submitting?) && (e.Poll? ==> !p.Polling?)
             && (e.Mark? ==> !p.Marking?) && (e.Release? ==> !p.Releasing?)
    ensures Next(cfg, t, e) == t
  {
  }

  // Marking writes both keys, whatever they carry.
  lemma MarkNext(cfg: Config, t: State, id: nat, r: Run, outcome: Outcome)
    requires id in t.runs && t.runs[id] == r && r.phase.Marking? && t.now < r.until && !r.receipt
    ensures var u := Next(cfg, t, Mark(id, outcome));
            && id in u.runs && u.now == t.now && u.runs[id].challenge == r.challenge && u.runs[id].digest == r.digest
            && u.runs[id].receipt == (!outcome.Lost? && !outcome.LostAfterEffect? && r.phase.pays)
            && u.runs[id].phase == (if (outcome.Lost? || outcome.LostAfterEffect?) && !r.pull then Releasing else Ended)
            && u.store == if outcome.Lost? then t.store
                          else Put(t.store, KeysOf(cfg, r), Marker(Processed, UsedUntil(cfg, t.now, r)))
  {
    hide Put, KeysOf;
  }

  function UsedUntil(cfg: Config, now: int, r: Run): int {
    now + Max(r.retention, cfg.settings.processedTtl) * SECOND
  }

  lemma PutUses(cfg: Config, s: State, t: State, u: State, id: nat, r: Run)
    requires Stands(cfg, s, t, id, r, Held) && InHand(cfg, s, r) && u.now == t.now && id in u.runs
    requires u.runs[id].challenge == r.challenge && u.runs[id].digest == r.digest
    requires u.store == Put(t.store, KeysOf(cfg, r), Marker(Processed, UsedUntil(cfg, t.now, r)))
    ensures Stands(cfg, s, u, id, u.runs[id], Used)
  {
    hide Margin, KeysAre, OthersSame, Put, UsedUntil, KeysOf;
    KeysOfRun(cfg, r);
    UsedLasts(cfg, s, r);
    PutKeys(t.store, {Invoice(cfg.invoice(r.challenge)), Blob(r.digest)}, Marker(Processed, UsedUntil(cfg, t.now, r)));
    KeysUsed(cfg, u, id, r.challenge, r.digest);
    OthersKept(cfg, s, t, u, r.challenge, r.digest);
  }

  lemma KeysOfRun(cfg: Config, r: Run)
    ensures KeysOf(cfg, r) == {Invoice(cfg.invoice(r.challenge)), Blob(r.digest)}
  {
  }

  lemma UsedLasts(cfg: Config, s: State, r: Run)
    requires InHand(cfg, s, r)
    ensures UsedUntil(cfg, s.now, r) > s.now
    ensures UsedUntil(cfg, s.now, r) >= cfg.expires(r.challenge) + Margin(cfg.settings)
  {
    hide Margin;
  }

  lemma PutKeys(store: map<Key, Marker>, keys: set<Key>, m: Marker)
    ensures forall k | k in keys :: k in Put(store, keys, m) && Put(store, keys, m)[k] == m
    ensures forall k | k !in keys ::
              (k in Put(store, keys, m) <==> k in store) && (k in store ==> Put(store, keys, m)[k] == store[k])
  {
  }

  lemma KeysUsed(cfg: Config, u: State, id: nat, challenge: string, digest: string)
    requires forall k | k in {Invoice(cfg.invoice(challenge)), Blob(digest)} ::
               && k in u.store && u.store[k].value == Processed && u.now < u.store[k].until
               && u.store[k].until >= cfg.expires(challenge) + Margin(cfg.settings)
    ensures KeysAre(cfg, u, id, challenge, digest, Used)
  {
    hide Margin;
  }

  lemma OthersKept(cfg: Config, s: State, t: State, u: State, challenge: string, digest: string)
    requires OthersSame(cfg, s, t, challenge, digest)
    requires forall k | k !in {Invoice(cfg.invoice(challenge)), Blob(digest)} ::
               (k in u.store <==> k in t.store) && (k in t.store ==> u.store[k] == t.store[k])
    ensures OthersSame(cfg, s, u, challenge, digest)
  {
  }

  lemma MarkStands(cfg: Config, s: State, t: State, id: nat, r: Run, outcome: Outcome)
    requires Stands(cfg, s, t, id, r, Held) && InHand(cfg, s, r) && r.phase.Marking?
    ensures var u := Next(cfg, t, Mark(id, outcome));
            && id in u.runs && Stands(cfg, s, u, id, u.runs[id], if outcome.Lost? then Held else Used)
            && u.runs[id].receipt == (!outcome.Lost? && !outcome.LostAfterEffect? && r.phase.pays)
            && u.runs[id].phase == (if (outcome.Lost? || outcome.LostAfterEffect?) && !r.pull then Releasing else Ended)
            && u.runs[id].challenge == r.challenge && u.runs[id].digest == r.digest
  {
    hide Margin, Next, Stands, Put, KeysOf, UsedUntil;
    StandsIs(cfg, s, t, id, r, Held);
    MarkNext(cfg, t, id, r, outcome);
    var u := Next(cfg, t, Mark(id, outcome));
    if outcome.Lost? {
      SameStoreStands(cfg, s, t, u, id, r);
    } else {
      PutUses(cfg, s, t, u, id, r);
    }
  }

  lemma SameStoreStands(cfg: Config, s: State, t: State, u: State, id: nat, r: Run)
    requires Stands(cfg, s, t, id, r, Held) && u.now == t.now && id in u.runs && u.store == t.store
    requires u.runs[id].challenge == r.challenge && u.runs[id].digest == r.digest
    ensures Stands(cfg, s, u, id, u.runs[id], Held)
  {
    hide Margin;
  }

  lemma ReleaseStands(cfg: Config, s: State, t: State, id: nat, r: Run, fate: Fate)
    requires Stands(cfg, s, t, id, r, fate) && !fate.Free? && r.phase.Releasing?
    ensures var u := Next(cfg, t, Release(id));
            && id in u.runs && Stands(cfg, s, u, id, u.runs[id], if fate.Held? then Free else fate)
            && u.runs[id].receipt == r.receipt && u.runs[id].phase.Ended?
            && u.runs[id].challenge == r.challenge && u.runs[id].digest == r.digest
  {
    hide Margin;
    assert KeysOf(cfg, r) == {Invoice(cfg.invoice(r.challenge)), Blob(r.digest)};
  }

  function PullCharge(id: nat, ok: bool, submitted: Outcome, polled: Outcome, marked: Outcome): seq<Event> {
    [Match(id, ok), Submit(id, submitted), Poll(id, polled), Mark(id, marked), Release(id)]
  }

  function PushCharge(id: nat, ok: bool, marked: Outcome): seq<Event> { [Match(id, ok), Mark(id, marked), Release(id)] }

  lemma RunFirst(cfg: Config, s: State, events: seq<Event>)
    requires events != []
    ensures RunAll(cfg, s, events) == RunAll(cfg, Next(cfg, s, events[0]), events[1..])
  {
    hide Next;
    assert [events[0]] + events[1..] == events;
    RunOn(cfg, s, [events[0]], events[1..]);
    assert [events[0]][..0] == [];
    assert RunAll(cfg, s, []) == s;
  }

  lemma RunFive(cfg: Config, s: State, a: Event, b: Event, c: Event, d: Event, e: Event)
    ensures RunAll(cfg, s, [a, b, c, d, e]) == Next(cfg, Next(cfg, Next(cfg, Next(cfg, Next(cfg, s, a), b), c), d), e)
  {
    hide Next, RunAll;
    RunFirst(cfg, s, [a, b, c, d, e]);
    RunFirst(cfg, Next(cfg, s, a), [b, c, d, e]);
    assert [a, b, c, d, e][1..] == [b, c, d, e] && [b, c, d, e][1..] == [c, d, e];
    RunThree(cfg, Next(cfg, Next(cfg, s, a), b), c, d, e);
  }

  // Whatever remains of the run's events once it has ended.
  lemma EndedStays(cfg: Config, t: State, id: nat, e: Event)
    requires id in t.runs && t.runs[id].phase.Ended? && (e.Submit? || e.Poll? || e.Mark? || e.Release?) && e.id == id
    ensures Next(cfg, t, e) == t
  {
    hide *;
    EndedIs(t, id);
    NothingHappens(cfg, t, id, e);
  }

  lemma EndedIs(t: State, id: nat)
    requires id in t.runs && t.runs[id].phase.Ended?
    ensures var p := t.runs[id].phase; !p.Matching? && !p.Submitting? && !p.Polling? && !p.Marking? && !p.Releasing?
  {
  }

  // What a pull charge comes to, by what it hears.
  predicate PullPays(ok: bool, submitted: Outcome, polled: Outcome, marked: Outcome) {
    ok && submitted.Accepted? && polled.ValidatedPaid? && !marked.Lost? && !marked.LostAfterEffect?
  }

  function PullFate(ok: bool, submitted: Outcome, polled: Outcome, marked: Outcome): Fate {
    if !ok || submitted.Rejected? || (submitted.Accepted? && polled.ValidatedFailed?) then Free
    else if submitted.Accepted? && (polled.ValidatedPaid? || polled.ValidatedWrongAmount?) && !marked.Lost? then Used
    else Held
  }

  // The last two events of a pull charge, wherever it has come.
  lemma PullEnds(cfg: Config, s: State, t: State, id: nat, r: Run, marked: Outcome)
    requires Stands(cfg, s, t, id, r, Held) && InHand(cfg, s, r) && r.pull
    requires r.phase.Polling? || r.phase.Marking? || r.phase.Releasing? || r.phase.Ended?
    ensures var u := Next(cfg, Next(cfg, t, Mark(id, marked)), Release(id));
            && id in u.runs && u.runs[id].challenge == r.challenge && u.runs[id].digest == r.digest
            && (u.runs[id].receipt <==> r.phase == Marking(true) && !marked.Lost? && !marked.LostAfterEffect?)
            && Stands(cfg, s, u, id, u.runs[id],
                      if r.phase.Releasing? then Free else if r.phase.Marking? && !marked.Lost? then Used else Held)
  {
    hide Next, Stands, Margin;
    StandsIs(cfg, s, t, id, r, Held);
    if r.phase.Marking? {
      MarkStands(cfg, s, t, id, r, marked);
      EndedStays(cfg, Next(cfg, t, Mark(id, marked)), id, Release(id));
    } else {
      NothingHappens(cfg, t, id, Mark(id, marked));
      if r.phase.Releasing? {
        ReleaseStands(cfg, s, t, id, r, Held);
      } else {
        NothingHappens(cfg, t, id, Release(id));
      }
    }
  }

  lemma PullHears(r: Run, ok: bool, submitted: Outcome, polled: Outcome)
    requires r.phase.Matching? && r.pull
    ensures var m := MatchStep(r, ok);
            && m.phase == (if ok then Submitting else Releasing)
            && (ok ==>
                  && SubmitStep(m, submitted).phase ==
                       (if submitted.Accepted? then Polling else if submitted.Rejected? then Releasing else Ended)
                  && (submitted.Accepted? ==>
                        PollStep(SubmitStep(m, submitted), polled).phase ==
                          if polled.ValidatedPaid? then Marking(true)
                          else if polled.ValidatedWrongAmount? then Marking(false)
                          else if polled.ValidatedFailed? then Releasing
                          else if polled.Ambiguous? then Ended
                          else Polling))
  {
  }

  lemma PullMiddle(cfg: Config, s: State, t: State, id: nat, r: Run, ok: bool, submitted: Outcome, polled: Outcome)
    requires Stands(cfg, s, t, id, r, Held) && InHand(cfg, s, r) && r.pull && r.phase.Matching?
    ensures var u := Next(cfg, Next(cfg, Next(cfg, t, Match(id, ok)), Submit(id, submitted)), Poll(id, polled));
            && id in u.runs && Stands(cfg, s, u, id, u.runs[id], Held) && InHand(cfg, s, u.runs[id])
            && SameCharge(r, u.runs[id])
            && u.runs[id].phase ==
                 (if !ok || submitted.Rejected? || (submitted.Accepted? && polled.ValidatedFailed?) then Releasing
                  else if !submitted.Accepted? || polled.Ambiguous? then Ended
                  else if polled.ValidatedPaid? then Marking(true)
                  else if polled.ValidatedWrongAmount? then Marking(false)
                  else Polling)
  {
    hide Next, Stands, Margin, MatchStep, SubmitStep, PollStep, InHand;
    StandsIs(cfg, s, t, id, r, Held);
    PullHears(r, ok, submitted, polled);
    CounterStands(cfg, s, t, id, r, Match(id, ok), Held);
    var u := Next(cfg, t, Match(id, ok));
    if !ok {
      NothingHappens(cfg, u, id, Submit(id, submitted));
      NothingHappens(cfg, u, id, Poll(id, polled));
    } else {
      CounterStands(cfg, s, u, id, u.runs[id], Submit(id, submitted), Held);
      var v := Next(cfg, u, Submit(id, submitted));
      if submitted.Accepted? {
        CounterStands(cfg, s, v, id, v.runs[id], Poll(id, polled), Held);
      } else {
        NothingHappens(cfg, v, id, Poll(id, polled));
      }
    }
  }

  lemma PullFinishes(cfg: Config, s: State, t: State, id: nat, r: Run, ok: bool, submitted: Outcome, polled: Outcome,
                     marked: Outcome)
    requires Stands(cfg, s, t, id, r, Held) && InHand(cfg, s, r) && r.pull && r.phase.Matching?
    ensures var u := RunAll(cfg, t, PullCharge(id, ok, submitted, polled, marked));
            && id in u.runs && u.runs[id].challenge == r.challenge && u.runs[id].digest == r.digest
            && (u.runs[id].receipt <==> PullPays(ok, submitted, polled, marked))
            && Stands(cfg, s, u, id, u.runs[id], PullFate(ok, submitted, polled, marked))
  {
    hide Next, Stands, Margin, RunAll, InHand;
    RunFive(cfg, t, Match(id, ok), Submit(id, submitted), Poll(id, polled), Mark(id, marked), Release(id));
    PullMiddle(cfg, s, t, id, r, ok, submitted, polled);
    var u := Next(cfg, Next(cfg, Next(cfg, t, Match(id, ok)), Submit(id, submitted)), Poll(id, polled));
    PullEnds(cfg, s, u, id, u.runs[id], marked);
  }

  // The whole outcome of a pull charge that nobody disturbs: it has its receipt exactly when it matched, its
  // submission was accepted, it validated and paid, and it was marked; its keys are used up whenever it validated
  // with any amount and was marked, free again when it cannot have taken effect, and held on to otherwise.
  lemma PullOutcome(cfg: Config, s: State, id: nat, challenge: string, digest: string, ok: bool, submitted: Outcome,
                    polled: Outcome, marked: Outcome)
    requires id !in s.runs && s.now < cfg.expires(challenge) && cfg.txInvoice(digest) == cfg.invoice(challenge)
    requires Unclaimed(cfg, s, challenge, digest)
    ensures var t := RunAll(cfg, s, Opening(id, challenge, digest, true)
                            + PullCharge(id, ok, submitted, polled, marked));
            && id in t.runs
            && (t.runs[id].receipt <==> PullPays(ok, submitted, polled, marked))
            && KeysAre(cfg, t, id, challenge, digest, PullFate(ok, submitted, polled, marked))
            && OthersSame(cfg, s, t, challenge, digest)
  {
    hide *;
    var t := RunAll(cfg, s, Opening(id, challenge, digest, true));
    ReservesExactly(cfg, s, id, challenge, digest, true);
    ReservedStands(cfg, s, t, id, challenge, digest, true);
    RunOn(cfg, s, Opening(id, challenge, digest, true), PullCharge(id, ok, submitted, polled, marked));
    PullFinishes(cfg, s, t, id, t.runs[id], ok, submitted, polled, marked);
    StandsSplit(cfg, s, RunAll(cfg, t, PullCharge(id, ok, submitted, polled, marked)), id, challenge, digest,
                PullFate(ok, submitted, polled, marked));
  }

  lemma StandsSplit(cfg: Config, s: State, t: State, id: nat, challenge: string, digest: string, fate: Fate)
    requires id in t.runs && Stands(cfg, s, t, id, t.runs[id], fate)
    requires t.runs[id].challenge == challenge && t.runs[id].digest == digest
    ensures KeysAre(cfg, t, id, challenge, digest, fate) && OthersSame(cfg, s, t, challenge, digest)
  {
  }

  // A push charge has its receipt exactly when it matched and was marked; its keys are free again when it did
  // not match or its mark did not take effect, and used up otherwise.
  lemma PushOutcome(cfg: Config, s: State, id: nat, challenge: string, digest: string, ok: bool, marked: Outcome)
    requires id !in s.runs && s.now < cfg.expires(challenge) && cfg.txInvoice(digest) == cfg.invoice(challenge)
    requires Unclaimed(cfg, s, challenge, digest)
    ensures var t := RunAll(cfg, s, Opening(id, challenge, digest, false) + PushCharge(id, ok, marked));
            && id in t.runs
            && (t.runs[id].receipt <==> ok && !marked.Lost? && !marked.LostAfterEffect?)
            && KeysAre(cfg, t, id, challenge, digest, if ok && !marked.Lost? then Used else Free)
            && OthersSame(cfg, s, t, challenge, digest)
  {
    hide Next, Stands, Margin, RunAll, KeysAre, OthersSame, Reserved, Unclaimed;
    var t := RunAll(cfg, s, Opening(id, challenge, digest, false));
    ReservesExactly(cfg, s, id, challenge, digest, false);
    ReservedStands(cfg, s, t, id, challenge, digest, false);
    RunOn(cfg, s, Opening(id, challenge, digest, false), PushCharge(id, ok, marked));
    RunThree(cfg, t, Match(id, ok), Mark(id, marked), Release(id));
    CounterStands(cfg, s, t, id, t.runs[id], Match(id, ok), Held);
    var u := Next(cfg, t, Match(id, ok));
    StandsIs(cfg, s, u, id, u.runs[id], Held);
    if ok {
      MarkStands(cfg, s, u, id, u.runs[id], marked);
      var v := Next(cfg, u, Mark(id, marked));
      if marked.Lost? || marked.LostAfterEffect? {
        ReleaseStands(cfg, s, v, id, v.runs[id], if marked.Lost? then Held else Used);
      } else {
        StandsIs(cfg, s, v, id, v.runs[id], Used);
        EndedStays(cfg, v, id, Release(id));
      }
    } else {
      NothingHappens(cfg, u, id, Mark(id, marked));
      ReleaseStands(cfg, s, u, id, u.runs[id], Held);
    }
    StandsSplit(cfg, s, Next(cfg, Next(cfg, u, Mark(id, marked)), Release(id)), id, challenge, digest,
                if ok && !marked.Lost? then Used else Free);
  }

  // A charge that shares its invoice with no other may mark at any time after its reservation, and then uses up
  // its keys like any other; where invoices are shared it may not, past the lateness.
  lemma LateMark(cfg: Config, s: State, id: nat)
    requires id in s.runs && s.runs[id].phase.Marking?
    ensures var r, t := s.runs[id], Next(cfg, s, Mark(id, Accepted));
            if cfg.exclusive(r.challenge) || s.now < r.until + cfg.settings.lateness then
              && id in t.runs && t.runs[id].phase.Ended? && (t.runs[id].receipt <==> r.phase.pays)
              && forall k | k in KeysOf(cfg, r) :: k in t.store && t.store[k].value == Processed
            else t == s
  {
  }
}
