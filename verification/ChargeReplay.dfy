// The charge protocol: pull and push runs race to turn one challenge into one receipt, guarded by a
// two-key reservation (invoice and transaction) whose markers lapse.  Store calls are single atomic
// steps; OptimisticTransactions shows why a WATCH loop behaves that way.  Times are in microseconds.
module ChargeReplay {
  import opened Clocks
  import opened Options
  import opened HighWater

  const CLOCK_SKEW_SECONDS := 60

  datatype Key = Invoice(id: string) | Blob(digest: string)

  datatype Value = Pending(reservation: nat) | Processed

  datatype Marker = Marker(value: Value, until: int)

  // What a deployment sets, and how slow its runs may be: at most `slack` from the expiry check to the
  // reservation, and marking less than `lateness` after the reservation has lapsed.
  datatype Settings = Settings(timeout: nat, pendingTtl: nat, processedTtl: nat, slack: nat, lateness: nat)

  // `invoice` and `expires` give what a challenge binds; `txInvoice` the InvoiceID inside the
  // transaction that a digest names; `exclusive` holds of challenges that share their invoice with no
  // other, as every challenge does whose invoice is derived from its own identifier.
  datatype Config = Config(settings: Settings, invoice: string -> string, expires: string -> int,
                           txInvoice: string -> string, exclusive: string -> bool)

  ghost predicate Honest(cfg: Config) {
    forall x, y | cfg.exclusive(x) && cfg.invoice(x) == cfg.invoice(y) :: x == y
  }

  // How much longer than the challenge a marker lives.
  function Margin(settings: Settings): int { (settings.timeout + CLOCK_SKEW_SECONDS) * SECOND }

  // Runs quick enough for the lifetimes that markers get.
  predicate Timely(settings: Settings) { settings.slack <= Margin(settings) && settings.lateness == 0 }

  // `replay_retention_seconds` on an unexpired challenge.
  function RetentionSeconds(cfg: Config, challenge: string, now: int): (r: int)
    requires now < cfg.expires(challenge)
    ensures r > 0 && now + r * SECOND >= cfg.expires(challenge) + Margin(cfg.settings)
  {
    CeilSeconds(cfg.expires(challenge) - now) + cfg.settings.timeout + CLOCK_SKEW_SECONDS
  }

  // Program counters; `pays` tells whether marking is followed by a receipt.
  datatype Phase =
    | Validating | Retained | Matching | Submitting | Polling | Marking(pays: bool) | Releasing | Ended

  // `checkedAt` is when the retention was computed, `until` when the markers lapse.  A run holds
  // from its reservation until an effective release; `submitted` and `cleared` record whether its
  // transaction went out and whether the service then saw it rejected or validated as failed.
  datatype Run = Run(challenge: string, digest: string, pull: bool, phase: Phase, checkedAt: int, retention: int,
                     holds: bool, until: int, marked: bool, submitted: bool, cleared: bool, receipt: bool)

  datatype State = State(now: int, store: map<Key, Marker>, runs: map<nat, Run>)

  datatype Outcome =
    | Accepted | Rejected | Ambiguous | ValidatedPaid | ValidatedWrongAmount | ValidatedFailed | Lost | LostAfterEffect

  datatype Event =
    | Tick(clock: int)
    | Begin(id: nat, challenge: string, digest: string, pull: bool)
    | Retain(id: nat)
    | Reserve(id: nat)
    | Match(id: nat, ok: bool)
    | Submit(id: nat, outcome: Outcome)
    | Poll(id: nat, outcome: Outcome)
    | Mark(id: nat, outcome: Outcome)
    | Release(id: nat)
    | Stop(id: nat)

  function KeysOf(cfg: Config, r: Run): set<Key> { {Invoice(cfg.invoice(r.challenge)), Blob(r.digest)} }

  predicate Live(store: map<Key, Marker>, k: Key, now: int) { k in store && now < store[k].until }

  function Put(store: map<Key, Marker>, keys: set<Key>, m: Marker): map<Key, Marker> {
    map k | k in store.Keys + keys :: if k in keys then m else store[k]
  }

  // `release_pending`: delete each key that still carries this reservation.
  function Unreserve(store: map<Key, Marker>, keys: set<Key>, id: nat, now: int): map<Key, Marker> {
    map k | k in store && !(k in keys && Live(store, k, now) && store[k].value == Pending(id)) :: store[k]
  }

  // ---- the store itself ----

  datatype Reservation = Reservation(invoice: Option<string>, digest: string, id: nat, retention: int)

  function ReservedKeys(invoice: Option<string>, digest: string): set<Key> {
    (if invoice.Some? then {Invoice(invoice.value)} else {}) + {Blob(digest)}
  }

  // The store between the WATCH and the EXEC of one call, at clock reading `now`.
  class RedisReplayStore {
    var store: map<Key, Marker>
    const pendingTtl: nat
    const processedTtl: nat

    constructor (pendingTtl: nat, processedTtl: nat)
      ensures store == map[] && this.pendingTtl == pendingTtl && this.processedTtl == processedTtl
    {
      store, this.pendingTtl, this.processedTtl := map[], pendingTtl, processedTtl;
    }

    // Refuses a lifetime that is not positive or a key that is taken, and then leaves the store alone.
    method Reserve(invoice: Option<string>, digest: string, retention: int, now: int, id: nat)
      returns (r: Attempt<Reservation>)
      modifies this
      ensures var keys := ReservedKeys(invoice, digest);
              if retention <= 0 || exists k | k in keys :: Live(old(store), k, now) then
                r == Raised(ValueError) && store == old(store)
              else
                && r == Ok(Reservation(invoice, digest, id, retention))
                && store == Put(old(store), keys, Marker(Pending(id), now + Max(retention, pendingTtl) * SECOND))
    {
      if retention <= 0 {
        return Raised(ValueError);
      }
      var blob := Blob(digest);
      assert Blob(digest) in ReservedKeys(invoice, digest);
      if Live(store, blob, now) {
        return Raised(ValueError);
      }
      var marker := Marker(Pending(id), now + Max(retention, pendingTtl) * SECOND);
      ghost var before := store;
      if invoice.Some? {
        assert Invoice(invoice.value) in ReservedKeys(invoice, digest);
        if Live(store, Invoice(invoice.value), now) {
          return Raised(ValueError);
        }
        store := store[Invoice(invoice.value) := marker];
      }
      store := store[blob := marker];
      assert store == Put(before, ReservedKeys(invoice, digest), marker);
      r := Ok(Reservation(invoice, digest, id, retention));
    }

    // Overwrites both keys without looking at them.
    method MarkProcessed(r: Reservation, now: int)
      modifies this
      ensures store == Put(old(store), ReservedKeys(r.invoice, r.digest),
                           Marker(Processed, now + Max(r.retention, processedTtl) * SECOND))
    {
      var marker := Marker(Processed, now + Max(r.retention, processedTtl) * SECOND);
      if r.invoice.Some? {
        store := store[Invoice(r.invoice.value) := marker];
      }
      store := store[Blob(r.digest) := marker];
    }

    // Deletes each key that still carries this reservation.
    method ReleasePending(r: Reservation, now: int)
      modifies this
      ensures store == Unreserve(old(store), ReservedKeys(r.invoice, r.digest), r.id, now)
    {
      if r.invoice.Some? {
        var key := Invoice(r.invoice.value);
        if Live(store, key, now) && store[key].value == Pending(r.id) {
          store := store - {key};
        }
      }
      var key := Blob(r.digest);
      if Live(store, key, now) && store[key].value == Pending(r.id) {
        store := store - {key};
      }
    }
  }

  // ---- the protocol ----

  function Update(s: State, id: nat, r: Run): State { s.(runs := s.runs[id := r]) }

  // The transaction must carry the challenge's InvoiceID, and the challenge must not have expired.
  function RetainStep(cfg: Config, s: State, id: nat, r: Run): State {
    if cfg.expires(r.challenge) <= s.now || cfg.txInvoice(r.digest) != cfg.invoice(r.challenge) then s
    else Update(s, id,
                r.(phase := Phase.Retained, checkedAt := s.now, retention := RetentionSeconds(cfg, r.challenge, s.now)))
  }

  // Set both keys if both are free.  The reservation comes within the slack after the expiry check.
  function ReserveStep(cfg: Config, s: State, id: nat, r: Run): State {
    if s.now > r.checkedAt + cfg.settings.slack then s
    else if exists k | k in KeysOf(cfg, r) :: Live(s.store, k, s.now) then Update(s, id, r.(phase := Ended))
    else
      var until := s.now + Max(r.retention, cfg.settings.pendingTtl) * SECOND;
      Update(s, id, r.(phase := Matching, holds := true, until := until))
        .(store := Put(s.store, KeysOf(cfg, r), Marker(Pending(id), until)))
  }

  // Pull submits next; push already knows that its transaction validated.
  function MatchStep(r: Run, ok: bool): Run {
    r.(phase := if !ok then Releasing else if r.pull then Submitting else Marking(true))
  }

  function SubmitStep(r: Run, outcome: Outcome): Run {
    if outcome.Accepted? then r.(phase := Polling, submitted := true)
    else if outcome.Rejected? then r.(phase := Releasing, submitted := true, cleared := true)
    else r.(phase := Ended, submitted := true)
  }

  function PollStep(r: Run, outcome: Outcome): Run {
    if outcome.ValidatedPaid? then r.(phase := Marking(true))
    else if outcome.ValidatedWrongAmount? then r.(phase := Marking(false))
    else if outcome.ValidatedFailed? then r.(phase := Releasing, cleared := true)
    else if outcome.Ambiguous? then r.(phase := Ended)
    else r
  }

  // `mark_processed` overwrites both keys whatever they hold.  When the call fails, pull gives up and
  // push tries to release.  It comes while the reservation still stands or less than the lateness after,
  // or the invoice is exclusive.
  function MarkStep(cfg: Config, s: State, id: nat, r: Run, outcome: Outcome): State
    requires r.phase.Marking?
  {
    if s.now >= r.until + cfg.settings.lateness && !cfg.exclusive(r.challenge) then s
    else
      var failed := if r.pull then Ended else Releasing;
      if outcome.Lost? then Update(s, id, r.(phase := failed))
      else
        var until := s.now + Max(r.retention, cfg.settings.processedTtl) * SECOND;
        var marked := r.(marked := true, until := until,
                         phase := if outcome.LostAfterEffect? then failed else Ended,
                         receipt := !outcome.LostAfterEffect? && r.phase.pays);
        Update(s, id, marked).(store := Put(s.store, KeysOf(cfg, r), Marker(Processed, until)))
  }

  function ReleaseStep(cfg: Config, s: State, id: nat, r: Run): State {
    Update(s, id, r.(phase := Ended, holds := r.marked)).(store := Unreserve(s.store, KeysOf(cfg, r), id, s.now))
  }

  // One event; an event the run's phase does not allow changes nothing.
  function Next(cfg: Config, s: State, e: Event): State {
    if e.Tick? then if e.clock < s.now then s else s.(now := e.clock)
    else if e.Begin? then
      if e.id in s.runs || cfg.expires(e.challenge) <= s.now then s
      else Update(s, e.id, Run(e.challenge, e.digest, e.pull, Validating, 0, 0, false, 0, false, false, false, false))
    else if e.id !in s.runs then s
    else RunStep(cfg, s, e.id, s.runs[e.id], e)
  }

  function RunStep(cfg: Config, s: State, id: nat, r: Run, e: Event): State {
    if e.Retain? && r.phase.Validating? then RetainStep(cfg, s, id, r)
    else if e.Reserve? && r.phase.Retained? then ReserveStep(cfg, s, id, r)
    else if e.Match? && r.phase.Matching? then Update(s, id, MatchStep(r, e.ok))
    else if e.Submit? && r.phase.Submitting? then Update(s, id, SubmitStep(r, e.outcome))
    else if e.Poll? && r.phase.Polling? then Update(s, id, PollStep(r, e.outcome))
    else if e.Mark? && r.phase.Marking? then MarkStep(cfg, s, id, r, e.outcome)
    else if e.Release? && r.phase.Releasing? then ReleaseStep(cfg, s, id, r)
    else if e.Stop? then Update(s, id, r.(phase := Ended))
    else s
  }

  function RunAll(cfg: Config, s: State, events: seq<Event>): State {
    if events == [] then s else Next(cfg, RunAll(cfg, s, events[..|events| - 1]), events[|events| - 1])
  }

  function Start(now: int): State { State(now, map[], map[]) }

  // ---- what every reachable state satisfies ----

  function Deadline(cfg: Config, r: Run): int { cfg.expires(r.challenge) + Margin(cfg.settings) }

  function ValueOf(id: nat, r: Run): Value { if r.marked then Processed else Pending(id) }

  // What a run's program counter says about its history.
  predicate PhaseOk(cfg: Config, now: int, r: Run) {
    && (r.phase.Retained? ==>
          && r.checkedAt <= now && r.checkedAt < cfg.expires(r.challenge) && r.retention > 0
          && now + r.retention * SECOND >= Deadline(cfg, r) && cfg.txInvoice(r.digest) == cfg.invoice(r.challenge))
    && (r.phase.Validating? || r.phase.Retained? ==> !r.holds && !r.submitted && !r.marked && !r.receipt && !r.cleared)
    && (r.phase.Matching? || r.phase.Submitting? || r.phase.Polling? || r.phase.Marking? ==>
          r.holds && !r.marked && !r.cleared)
    && (r.phase.Releasing? ==> r.holds && (r.submitted && !r.marked ==> r.cleared))
    && (r.phase.Matching? || r.phase.Submitting? ==> !r.submitted)
    && (r.submitted || r.phase.Submitting? || r.phase.Polling? ==> r.pull)
    && (r.submitted && !r.cleared ==> r.holds)
    && (r.marked ==> r.holds)
    && (r.receipt ==> r.marked)
  }

  // What a reservation guarantees: its markers stand until `until`, which is no earlier than the last
  // moment at which anybody could still reserve for the same challenge.
  predicate HoldOk(cfg: Config, s: State, id: nat, r: Run) {
    r.holds ==>
      && cfg.txInvoice(r.digest) == cfg.invoice(r.challenge) && r.retention > 0
      && r.until >= Deadline(cfg, r) && s.now + r.retention * SECOND >= Deadline(cfg, r)
      && (s.now < r.until ==>
            forall k | k in KeysOf(cfg, r) :: k in s.store && s.store[k] == Marker(ValueOf(id, r), r.until))
  }

  predicate RunOk(cfg: Config, s: State, id: nat, r: Run) { PhaseOk(cfg, s.now, r) && HoldOk(cfg, s, id, r) }

  ghost predicate Inv(cfg: Config, s: State) {
    && (forall id | id in s.runs :: RunOk(cfg, s, id, s.runs[id]))
    && (forall a, b | a in s.runs && b in s.runs && a != b && s.runs[a].holds && s.runs[b].holds ::
          s.runs[a].challenge != s.runs[b].challenge)
    && (forall a, b | a in s.runs && b in s.runs && a != b && s.runs[a].holds && s.runs[b].holds
          && s.now < s.runs[a].until && s.now < s.runs[b].until ::
          KeysOf(cfg, s.runs[a]) !! KeysOf(cfg, s.runs[b]))
  }

  // The same reservation, seen at a later program counter.
  predicate SameHold(r: Run, r': Run) {
    r' == r.(phase := r'.phase, submitted := r'.submitted, cleared := r'.cleared)
  }

  // A step of one run that leaves the store and its reservation alone.
  lemma LocalKeepsInv(cfg: Config, s: State, id: nat, r: Run)
    requires Inv(cfg, s) && PhaseOk(cfg, s.now, r)
    requires !r.holds || (id in s.runs && SameHold(s.runs[id], r))
    ensures Inv(cfg, Update(s, id, r))
  {
    hide PhaseOk;
    var t := Update(s, id, r);
    forall x | x in t.runs ensures RunOk(cfg, t, x, t.runs[x]) {
      if x in s.runs { assert RunOk(cfg, s, x, s.runs[x]); }
    }
  }

  // A held run whose challenge could still be reserved has live markers.
  lemma HeldBlocksReserve(cfg: Config, s: State, id: nat, r: Run, a: nat)
    requires Timely(cfg.settings) && Inv(cfg, s) && id in s.runs && s.runs[id] == r && r.phase.Retained?
             && s.now <= r.checkedAt + cfg.settings.slack
    requires a in s.runs && s.runs[a].holds && s.runs[a].challenge == r.challenge
    ensures Live(s.store, Invoice(cfg.invoice(r.challenge)), s.now)
  {
    assert RunOk(cfg, s, a, s.runs[a]) && RunOk(cfg, s, id, r);
  }

  lemma ReserveKeepsInv(cfg: Config, s: State, id: nat)
    requires Timely(cfg.settings) && Inv(cfg, s) && id in s.runs && s.runs[id].phase.Retained?
    ensures Inv(cfg, ReserveStep(cfg, s, id, s.runs[id]))
  {
    var r := s.runs[id];
    var t := ReserveStep(cfg, s, id, r);
    assert RunOk(cfg, s, id, r);
    if s.now <= r.checkedAt + cfg.settings.slack {
      if exists k | k in KeysOf(cfg, r) :: Live(s.store, k, s.now) {
        LocalKeepsInv(cfg, s, id, r.(phase := Ended));
      } else {
        forall x | x in t.runs && x != id
          ensures RunOk(cfg, t, x, t.runs[x])
          ensures s.runs[x].holds ==> s.runs[x].challenge != r.challenge
          ensures s.runs[x].holds && s.now < s.runs[x].until ==> KeysOf(cfg, s.runs[x]) !! KeysOf(cfg, r)
        {
          OthersAtReserve(cfg, s, id, x);
        }
        assert RunOk(cfg, t, id, t.runs[id]);
        PairsKept(cfg, s, t, id);
      }
    }
  }

  lemma OthersAtReserve(cfg: Config, s: State, id: nat, x: nat)
    requires Timely(cfg.settings) && Inv(cfg, s) && id in s.runs && s.runs[id].phase.Retained?
             && s.now <= s.runs[id].checkedAt + cfg.settings.slack
    requires forall k | k in KeysOf(cfg, s.runs[id]) :: !Live(s.store, k, s.now)
    requires x in s.runs && x != id
    ensures RunOk(cfg, ReserveStep(cfg, s, id, s.runs[id]), x, s.runs[x])
    ensures s.runs[x].holds ==> s.runs[x].challenge != s.runs[id].challenge
    ensures s.runs[x].holds && s.now < s.runs[x].until ==> KeysOf(cfg, s.runs[x]) !! KeysOf(cfg, s.runs[id])
  {
    var r, o := s.runs[id], s.runs[x];
    assert Invoice(cfg.invoice(r.challenge)) in KeysOf(cfg, r);
    assert RunOk(cfg, s, x, o);
    if o.holds && o.challenge == r.challenge {
      HeldBlocksReserve(cfg, s, id, r, x);
    }
    if o.holds && s.now < o.until {
      forall k | k in KeysOf(cfg, o) ensures k !in KeysOf(cfg, r) {
        assert Live(s.store, k, s.now);
      }
    }
  }

  // Runs that hold live markers elsewhere share no key with a run that is about to mark.
  lemma MarkerIsAlone(cfg: Config, s: State, id: nat, x: nat)
    requires Inv(cfg, s) && Honest(cfg) && Timely(cfg.settings) && id in s.runs && s.runs[id].phase.Marking?
    requires s.now < s.runs[id].until || cfg.exclusive(s.runs[id].challenge)
    requires x in s.runs && x != id && s.runs[x].holds && s.now < s.runs[x].until
    ensures KeysOf(cfg, s.runs[x]) !! KeysOf(cfg, s.runs[id])
  {
    assert RunOk(cfg, s, id, s.runs[id]) && RunOk(cfg, s, x, s.runs[x]);
  }

  lemma OthersAtMark(cfg: Config, s: State, id: nat, until: int, x: nat)
    requires Inv(cfg, s) && Honest(cfg) && Timely(cfg.settings) && id in s.runs && s.runs[id].phase.Marking?
    requires s.now < s.runs[id].until || cfg.exclusive(s.runs[id].challenge)
    requires x in s.runs && x != id
    ensures HoldOk(cfg, s.(store := Put(s.store, KeysOf(cfg, s.runs[id]), Marker(Processed, until))), x, s.runs[x])
    ensures s.runs[x].holds && s.now < s.runs[x].until ==> KeysOf(cfg, s.runs[x]) !! KeysOf(cfg, s.runs[id])
  {
    hide PhaseOk;
    assert RunOk(cfg, s, x, s.runs[x]);
    if s.runs[x].holds && s.now < s.runs[x].until { MarkerIsAlone(cfg, s, id, x); }
  }

  lemma MarkedOk(cfg: Config, s: State, id: nat, outcome: Outcome)
    requires Inv(cfg, s) && id in s.runs && s.runs[id].phase.Marking? && !outcome.Lost?
    requires s.now < s.runs[id].until || cfg.exclusive(s.runs[id].challenge)
    ensures var t := MarkStep(cfg, s, id, s.runs[id], outcome); id in t.runs && RunOk(cfg, t, id, t.runs[id])
  {
    assert RunOk(cfg, s, id, s.runs[id]);
  }

  lemma MarkKeepsInv(cfg: Config, s: State, id: nat, outcome: Outcome)
    requires Inv(cfg, s) && Honest(cfg) && Timely(cfg.settings) && id in s.runs && s.runs[id].phase.Marking?
    ensures Inv(cfg, MarkStep(cfg, s, id, s.runs[id], outcome))
  {
    hide Honest, Put;
    var r := s.runs[id];
    var t := MarkStep(cfg, s, id, r, outcome);
    assert RunOk(cfg, s, id, r);
    if s.now >= r.until + cfg.settings.lateness && !cfg.exclusive(r.challenge) {
    } else if outcome.Lost? {
      LocalKeepsInv(cfg, s, id, t.runs[id]);
    } else {
      forall x | x in t.runs && x != id
        ensures RunOk(cfg, t, x, t.runs[x])
        ensures s.runs[x].holds && s.now < s.runs[x].until ==> KeysOf(cfg, s.runs[x]) !! KeysOf(cfg, r)
      {
        assert RunOk(cfg, s, x, s.runs[x]);
        OthersAtMark(cfg, s, id, t.runs[id].until, x);
      }
      MarkedOk(cfg, s, id, outcome);
      PairsKept(cfg, s, t, id);
    }
  }

  // One run's reservation changed; the pairwise facts follow when it clashes with nobody.
  lemma PairsKept(cfg: Config, s: State, t: State, id: nat)
    requires Inv(cfg, s) && id in s.runs && id in t.runs && t.runs == s.runs[id := t.runs[id]] && t.now == s.now
    requires forall x | x in t.runs :: RunOk(cfg, t, x, t.runs[x])
    requires t.runs[id].challenge == s.runs[id].challenge && t.runs[id].digest == s.runs[id].digest
    requires forall x | x in s.runs && x != id && s.runs[x].holds ::
               && s.runs[x].challenge != s.runs[id].challenge
               && (s.now < s.runs[x].until ==> KeysOf(cfg, s.runs[x]) !! KeysOf(cfg, s.runs[id]))
    ensures Inv(cfg, t)
  {
    hide RunOk;
  }

  lemma ReleaseKeepsInv(cfg: Config, s: State, id: nat)
    requires Inv(cfg, s) && id in s.runs && s.runs[id].phase.Releasing?
    ensures Inv(cfg, Next(cfg, s, Release(id)))
  {
    hide RunOk, Unreserve;
    var t := Next(cfg, s, Release(id));
    RunAtRelease(cfg, s, id, id);
    forall x | x in t.runs ensures RunOk(cfg, t, x, t.runs[x]) {
      RunAtRelease(cfg, s, id, x);
    }
  }

  lemma RunAtRelease(cfg: Config, s: State, id: nat, x: nat)
    requires id in s.runs && x in s.runs && RunOk(cfg, s, x, s.runs[x]) && s.runs[id].phase.Releasing?
    requires RunOk(cfg, s, id, s.runs[id])
    ensures var t := ReleaseStep(cfg, s, id, s.runs[id]); s.runs[id].holds && RunOk(cfg, t, x, t.runs[x])
  {
  }

  lemma TickKeepsInv(cfg: Config, s: State, clock: int)
    requires Inv(cfg, s)
    ensures Inv(cfg, Next(cfg, s, Tick(clock)))
  {
    var t := Next(cfg, s, Tick(clock));
    forall x | x in t.runs ensures RunOk(cfg, t, x, t.runs[x]) {
      assert RunOk(cfg, s, x, s.runs[x]);
    }
  }

  lemma NextKeepsInv(cfg: Config, s: State, e: Event)
    requires Inv(cfg, s) && Honest(cfg) && Timely(cfg.settings)
    ensures Inv(cfg, Next(cfg, s, e))
  {
    hide Inv, RunOk, Honest, Timely;
    if e.Tick? {
      TickKeepsInv(cfg, s, e.clock);
    } else if e.Begin? || e.id !in s.runs {
      if e.Begin? { BeginKeepsInv(cfg, s, e); }
    } else if e.Reserve? {
      if s.runs[e.id].phase.Retained? { ReserveKeepsInv(cfg, s, e.id); }
    } else if e.Mark? {
      if s.runs[e.id].phase.Marking? { MarkKeepsInv(cfg, s, e.id, e.outcome); }
    } else if e.Release? {
      if s.runs[e.id].phase.Releasing? { ReleaseKeepsInv(cfg, s, e.id); }
    } else {
      LocalStepKeepsInv(cfg, s, e);
    }
  }

  lemma BeginKeepsInv(cfg: Config, s: State, e: Event)
    requires Inv(cfg, s) && e.Begin?
    ensures Inv(cfg, Next(cfg, s, e))
  {
    var t := Next(cfg, s, e);
    if t != s { LocalKeepsInv(cfg, s, e.id, t.runs[e.id]); }
  }

  lemma CounterSteps(cfg: Config, now: int, r: Run, ok: bool, outcome: Outcome)
    requires PhaseOk(cfg, now, r)
    ensures r.phase.Matching? ==> PhaseOk(cfg, now, MatchStep(r, ok)) && SameHold(r, MatchStep(r, ok))
    ensures r.phase.Submitting? ==> PhaseOk(cfg, now, SubmitStep(r, outcome)) && SameHold(r, SubmitStep(r, outcome))
    ensures r.phase.Polling? ==> PhaseOk(cfg, now, PollStep(r, outcome)) && SameHold(r, PollStep(r, outcome))
    ensures PhaseOk(cfg, now, r.(phase := Ended))
  {
  }

  lemma LocalStepKeepsInv(cfg: Config, s: State, e: Event)
    requires Inv(cfg, s) && (e.Retain? || e.Match? || e.Submit? || e.Poll? || e.Stop?) && e.id in s.runs
    ensures Inv(cfg, Next(cfg, s, e))
  {
    hide HoldOk, PhaseOk;
    var r := s.runs[e.id];
    assert RunOk(cfg, s, e.id, r);
    if e.Match? && r.phase.Matching? {
      CounterSteps(cfg, s.now, r, e.ok, Accepted);
      LocalKeepsInv(cfg, s, e.id, MatchStep(r, e.ok));
    } else if e.Submit? && r.phase.Submitting? {
      CounterSteps(cfg, s.now, r, true, e.outcome);
      LocalKeepsInv(cfg, s, e.id, SubmitStep(r, e.outcome));
    } else if e.Poll? && r.phase.Polling? {
      CounterSteps(cfg, s.now, r, true, e.outcome);
      LocalKeepsInv(cfg, s, e.id, PollStep(r, e.outcome));
    } else if e.Stop? {
      CounterSteps(cfg, s.now, r, true, Accepted);
      LocalKeepsInv(cfg, s, e.id, r.(phase := Ended));
    } else if e.Retain? && r.phase.Validating? {
      RetainKeepsInv(cfg, s, e.id);
    }
  }

  lemma RetainKeepsInv(cfg: Config, s: State, id: nat)
    requires Inv(cfg, s) && id in s.runs && s.runs[id].phase.Validating?
    ensures Inv(cfg, RetainStep(cfg, s, id, s.runs[id]))
  {
    assert RunOk(cfg, s, id, s.runs[id]);
    var t := RetainStep(cfg, s, id, s.runs[id]);
    if t != s { LocalKeepsInv(cfg, s, id, t.runs[id]); }
  }

  lemma {:induction false} ReachableInv(cfg: Config, now: int, events: seq<Event>)
    requires Honest(cfg) && Timely(cfg.settings)
    ensures Inv(cfg, RunAll(cfg, Start(now), events))
  {
    if events != [] {
      ReachableInv(cfg, now, events[..|events| - 1]);
      NextKeepsInv(cfg, RunAll(cfg, Start(now), events[..|events| - 1]), events[|events| - 1]);
    }
  }

  // ---- the properties ----

  // Whatever runs interleave, crash or time out, one challenge yields at most one receipt.
  lemma OneReceiptPerChallenge(cfg: Config, now: int, events: seq<Event>, a: nat, b: nat)
    requires Honest(cfg) && Timely(cfg.settings)
    ensures var s := RunAll(cfg, Start(now), events);
            a in s.runs && b in s.runs && s.runs[a].receipt && s.runs[b].receipt
            && s.runs[a].challenge == s.runs[b].challenge
            ==> a == b
  {
    ReachableInv(cfg, now, events);
    var s := RunAll(cfg, Start(now), events);
    assert forall id | id in s.runs :: RunOk(cfg, s, id, s.runs[id]);
  }

  // A run that is about to submit finds every earlier submission for its challenge rejected or known to
  // have validated as failed; after an accepted or ambiguous one, nothing more is submitted.
  lemma NoSecondSubmission(cfg: Config, now: int, events: seq<Event>, a: nat, b: nat)
    requires Honest(cfg) && Timely(cfg.settings)
    ensures var s := RunAll(cfg, Start(now), events);
            a in s.runs && b in s.runs && a != b && s.runs[a].challenge == s.runs[b].challenge
            && s.runs[a].submitted && s.runs[b].phase.Submitting?
            ==> s.runs[a].cleared
  {
    ReachableInv(cfg, now, events);
    var s := RunAll(cfg, Start(now), events);
    assert forall id | id in s.runs :: RunOk(cfg, s, id, s.runs[id]);
  }

  // Two standing reservations never share an invoice or a transaction, and each sees its own marker.
  lemma LiveReservationsAreDisjoint(cfg: Config, now: int, events: seq<Event>, a: nat, b: nat)
    requires Honest(cfg) && Timely(cfg.settings)
    ensures var s := RunAll(cfg, Start(now), events);
            a in s.runs && b in s.runs && a != b && s.runs[a].holds && s.runs[b].holds
            && s.now < s.runs[a].until && s.now < s.runs[b].until
            ==> cfg.invoice(s.runs[a].challenge) != cfg.invoice(s.runs[b].challenge)
                && s.runs[a].digest != s.runs[b].digest
    ensures var s := RunAll(cfg, Start(now), events);
            a in s.runs && s.runs[a].holds && s.now < s.runs[a].until
            ==> forall k | k in KeysOf(cfg, s.runs[a]) ::
                  Live(s.store, k, s.now) && s.store[k].value == ValueOf(a, s.runs[a])
  {
    ReachableInv(cfg, now, events);
    var s := RunAll(cfg, Start(now), events);
    assert forall id | id in s.runs :: RunOk(cfg, s, id, s.runs[id]);
    if a in s.runs && b in s.runs {
      assert Invoice(cfg.invoice(s.runs[a].challenge)) in KeysOf(cfg, s.runs[a]);
      assert Blob(s.runs[a].digest) in KeysOf(cfg, s.runs[a]);
    }
  }

  // A live reservation's marker changes only when its own run marks or releases it, and it becomes free
  // only by that release or by lapsing.
  lemma MarkersChangeOnlyByTheirHolder(cfg: Config, now: int, events: seq<Event>, e: Event, a: nat, k: Key)
    requires Honest(cfg) && Timely(cfg.settings)
    ensures var s := RunAll(cfg, Start(now), events); var t := Next(cfg, s, e);
            a in s.runs && s.runs[a].holds && s.now < s.runs[a].until && k in KeysOf(cfg, s.runs[a]) ==>
              && k in s.store
              && ((k !in t.store || t.store[k] != s.store[k]) ==> (e.Mark? || e.Release?) && e.id == a)
              && (!Live(t.store, k, t.now) ==> (e.Release? && e.id == a) || (e.Tick? && e.clock >= s.runs[a].until))
  {
    ReachableInv(cfg, now, events);
    var s := RunAll(cfg, Start(now), events);
    if a in s.runs && s.runs[a].holds && s.now < s.runs[a].until && k in KeysOf(cfg, s.runs[a]) {
      HolderOnly(cfg, s, e, a, k);
    }
  }

  lemma HolderOnly(cfg: Config, s: State, e: Event, a: nat, k: Key)
    requires Inv(cfg, s) && Honest(cfg) && Timely(cfg.settings)
    requires a in s.runs && s.runs[a].holds && s.now < s.runs[a].until && k in KeysOf(cfg, s.runs[a])
    ensures var t := Next(cfg, s, e);
            && k in s.store
            && ((k !in t.store || t.store[k] != s.store[k]) ==> (e.Mark? || e.Release?) && e.id == a)
            && (!Live(t.store, k, t.now) ==> (e.Release? && e.id == a) || (e.Tick? && e.clock >= s.runs[a].until))
  {
    hide RunStep, ReserveStep, MarkStep, ReleaseStep, Put, Unreserve, RunOk, KeysOf, Honest;
    HolderMarked(cfg, s, a, k);
    if e.Reserve? || e.Mark? || e.Release? {
      if e.id in s.runs { WriterSparesHolder(cfg, s, e, a, k); }
    } else {
      StoreIsKept(cfg, s, e);
    }
  }

  lemma HolderMarked(cfg: Config, s: State, a: nat, k: Key)
    requires Inv(cfg, s) && a in s.runs && s.runs[a].holds && s.now < s.runs[a].until && k in KeysOf(cfg, s.runs[a])
    ensures k in s.store && s.store[k] == Marker(ValueOf(a, s.runs[a]), s.runs[a].until) && s.runs[a].retention > 0
  {
    assert RunOk(cfg, s, a, s.runs[a]);
  }

  lemma StoreIsKept(cfg: Config, s: State, e: Event)
    requires !e.Reserve? && !e.Mark? && !e.Release?
    ensures Next(cfg, s, e).store == s.store
    ensures Next(cfg, s, e).now == if e.Tick? && e.clock >= s.now then e.clock else s.now
  {
    hide MatchStep, SubmitStep, PollStep;
  }

  // A call of a store method leaves a standing marker alone unless it is its own run's mark or release.
  lemma WriterSparesHolder(cfg: Config, s: State, e: Event, a: nat, k: Key)
    requires Inv(cfg, s) && Honest(cfg) && Timely(cfg.settings) && (e.Reserve? || e.Mark? || e.Release?)
             && e.id in s.runs
    requires a in s.runs && s.runs[a].holds && s.now < s.runs[a].until && k in KeysOf(cfg, s.runs[a])
    requires k in s.store && s.store[k] == Marker(ValueOf(a, s.runs[a]), s.runs[a].until) && s.runs[a].retention > 0
    ensures var t := Next(cfg, s, e);
            && t.now == s.now
            && ((k !in t.store || t.store[k] != s.store[k]) ==> (e.Mark? || e.Release?) && e.id == a)
            && (!Live(t.store, k, t.now) ==> e.Release? && e.id == a)
  {
    hide RunOk, Honest;
    var r := s.runs[e.id];
    if e.Mark? && e.id != a && r.phase.Marking? && (s.now < r.until || cfg.exclusive(r.challenge)) {
      MarkerIsAlone(cfg, s, e.id, a);
    }
  }
}
