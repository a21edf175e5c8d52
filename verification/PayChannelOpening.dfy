// How a channel comes to be registered when nobody else takes a step: by an opening, or by an import from the
// ledger on the first claim.
module PayChannelOpening {
  import opened Options
  import opened DropAmounts
  import opened HighWater
  import opened PayChannelRecords
  import opened PayChannelProtocol
  import opened PayChannelSafety
  import opened PayChannelAlone

  // ---- openings ----

  // A new record for the deployment's parties.
  function Opened(cfg: Config, ch: string, funded: string, clock: int): Record {
    Record(cfg.network, ch, cfg.payer, cfg.recipient, funded, "0", "", "0", clock, clock, false, None, None, None, None)
  }

  lemma OpenBegins(cfg: Config, s: State, ch: string, q: Request, funded: string)
    requires OpenStarts(s, ch, q, funded)
    ensures Next(cfg, s, StartOpen(ch, q, funded)) ==
              With(Next1(s), ch, s.nextId, ChannelAt(s, ch), Some(OpenLooking(q, funded)))
  {
    hide Value, IsChannelId;
    assert s.channels[ch := s.channels[ch]] == s.channels;
  }

  lemma ZeroIs()
    ensures IsDrops("0") && Value("0") == 0
  {
    assert "0"[..0] == "";
  }

  lemma OpenedIsValid(cfg: Config, ch: string, funded: string, clock: int)
    requires IsNormalId(ch) && IsDrops(funded) && Value(funded) > 0 && clock >= 0
    ensures Valid(Opened(cfg, ch, funded, clock)) && Bound(cfg, ch, Opened(cfg, ch, funded, clock))
  {
    ZeroIs();
  }

  lemma LooksNew(cfg: Config, s: State, ch: string, id: nat, c: Channel, q: Request, funded: string, i: Input)
    requires id !in s.tasks && WellFormedRequest(q) && c.record.None? && i.clock >= 0
    ensures Next(cfg, With(s, ch, id, c, Some(OpenLooking(q, funded))), Proceed(id, i)) ==
              With(s, ch, id, c, Some(OpenCreating(q, funded, Opened(cfg, ch, funded, i.clock))))
  {
    hide Next;
    var p := OpenLooking(q, funded);
    WithIs(s, ch, id, c, Some(p));
    StepWith(cfg, s, ch, id, c, p, i, Move(c, Some(OpenCreating(q, funded, Opened(cfg, ch, funded, i.clock)))));
  }

  // Registering a record that nobody else has registered.
  function Registered(c: Channel, r: Record): Channel
    requires IsDigits(r.cumulative)
  {
    c.(record := Some(r), base := Value(r.cumulative))
  }

  lemma CreatesNew(c: Channel, r: Record)
    requires c.record.None? && Valid(r)
    ensures Usable(c) && IsDigits(r.cumulative) && CreateMove(c, r) == (Registered(c, r), Some(r))
  {
  }

  lemma Creates(cfg: Config, s: State, ch: string, id: nat, c: Channel, q: Request, funded: string, r: Record, i: Input)
    requires id !in s.tasks && WellFormedRequest(q) && c.record.None? && Valid(r) && Bound(cfg, ch, r)
             && r.funded == funded
    ensures IsDigits(r.cumulative) && IsDigits(q.amount)
    ensures Next(cfg, With(s, ch, id, c, Some(OpenCreating(q, funded, r))), Proceed(id, i)) ==
              With(s, ch, id, Registered(c, r), if Value(q.amount) > 0 then Some(OpenAdvancing(q, r)) else None)
  {
    hide Next, CreateMove, Valid;
    DropsOf(q);
    CreatesNew(c, r);
    var p := OpenCreating(q, funded, r);
    WithIs(s, ch, id, c, Some(p));
    StepWith(cfg, s, ch, id, c, p, i,
             Move(Registered(c, r), if Value(q.amount) > 0 then Some(OpenAdvancing(q, r)) else None));
  }

  lemma AdvancesOpen(cfg: Config, s: State, ch: string, id: nat, c: Channel, q: Request, r: Record, i: Input)
    requires id !in s.tasks && Claimable(cfg, ch, c) && WellFormedRequest(q) && q.kind.OpenAction?
    requires IsPaid(q, None, c.record.value)
    ensures Next(cfg, With(s, ch, id, c, Some(OpenAdvancing(q, r))), Proceed(id, i)) ==
              With(s, ch, id, Accepted(c, q, None, i.clock), None)
  {
    hide Mutate, Next, Evolves, Valid;
    var p := OpenAdvancing(q, r);
    AdvanceEffects(cfg, ch, q, None, c.record.value, i);
    WithIs(s, ch, id, c, Some(p));
    StepWith(cfg, s, ch, id, c, p, i, Move(Accepted(c, q, None, i.clock), None));
  }

  // An opening of a channel that is not registered yet registers it with the funding of its PaymentChannelCreate,
  // and with the initial claim if there is one.
  lemma OpenAlone(cfg: Config, s: State, ch: string, q: Request, funded: string, a: Input, b: Input, d: Input)
    requires Inv(cfg, s) && OpenStarts(s, ch, q, funded) && ChannelAt(s, ch).record.None? && a.clock >= 0
    ensures IsDigits(q.amount) && IsDigits(q.requested) && Valid(Opened(cfg, ch, funded, a.clock))
    ensures var id, r := s.nextId, Opened(cfg, ch, funded, a.clock);
            var t := Run(cfg, s, [StartOpen(ch, q, funded), Proceed(id, a), Proceed(id, b), Proceed(id, d)]);
            && IsDigits(r.cumulative)
            && ChannelAt(t, ch) ==
                 (if Value(q.amount) > 0 then Accepted(Registered(ChannelAt(s, ch), r), q, None, d.clock)
                  else Registered(ChannelAt(s, ch), r))
            && id !in t.tasks
  {
    hide *;
    var id, c, r := s.nextId, ChannelAt(s, ch), Opened(cfg, ch, funded, a.clock);
    OpenStartsIs(cfg, s, ch, q, funded);
    OpenedIsValid(cfg, ch, funded, a.clock);
    OpenedIs(cfg, ch, funded, a.clock);
    NextIsFresh(cfg, s);
    SameMembers(s);
    DropsOf(q);
    RunFour(cfg, s, StartOpen(ch, q, funded), Proceed(id, a), Proceed(id, b), Proceed(id, d));
    OpenBegins(cfg, s, ch, q, funded);
    LooksNew(cfg, Next1(s), ch, id, c, q, funded, a);
    Creates(cfg, Next1(s), ch, id, c, q, funded, r, b);
    var c' := Registered(c, r);
    if Value(q.amount) > 0 {
      NewIsClaimable(cfg, s, ch, q, funded, a.clock);
      AdvancesOpen(cfg, Next1(s), ch, id, c', q, r, d);
      WithIs(Next1(s), ch, id, Accepted(c', q, None, d.clock), None);
    } else {
      OverWith(cfg, Next1(s), ch, id, c', d);
      WithIs(Next1(s), ch, id, c', None);
    }
  }

  lemma OpenStartsIs(cfg: Config, s: State, ch: string, q: Request, funded: string)
    requires OpenStarts(s, ch, q, funded)
    ensures IsNormalId(ch) && WellFormedRequest(q) && q.kind.OpenAction? && IsDrops(funded) && IsDigits(funded)
    ensures Value(funded) > 0
  {
  }

  lemma OpenedIs(cfg: Config, ch: string, funded: string, clock: int)
    ensures var r := Opened(cfg, ch, funded, clock); r.funded == funded && IsDigits(r.cumulative)
  {
  }

  lemma NewIsClaimable(cfg: Config, s: State, ch: string, q: Request, funded: string, clock: int)
    requires OpenStarts(s, ch, q, funded) && clock >= 0 && IsDigits(q.amount) && Value(q.amount) > 0
    ensures var r := Opened(cfg, ch, funded, clock);
            && Valid(r) && IsDigits(q.requested) && Claimable(cfg, ch, Registered(ChannelAt(s, ch), r))
            && IsPaid(q, None, r) && Registered(ChannelAt(s, ch), r).record == Some(r)
  {
    OpenedIsValid(cfg, ch, funded, clock);
    ZeroIs();
  }

  // ---- imports ----

  // The record of a channel that only the ledger knows.
  function Imported(cfg: Config, ch: string, amount: string, balance: string, clock: int): Record
    requires IsDigits(balance)
  {
    var r := Opened(cfg, ch, amount, clock).(cumulative := balance, redeemed := balance);
    if Value(balance) == 0 then r
    else r.(signature := "00", redeemedAt := Some(clock), redemptionReference := Some("ledger-import"))
  }

  // What the ledger says of a channel with something in it.
  predicate LedgerTells(i: Input, c: Channel) {
    && c.ledger.Some? && 0 < c.ledger.value.amount && c.ledger.value.balance <= c.ledger.value.amount && i.clock >= 0
    && IsDrops(i.text) && Value(i.text) == c.ledger.value.amount
    && IsDrops(i.text2) && Value(i.text2) == c.ledger.value.balance
  }

  lemma ImportedIsValid(cfg: Config, ch: string, c: Channel, i: Input)
    requires IsNormalId(ch) && LedgerTells(i, c)
    ensures var r := Imported(cfg, ch, i.text, i.text2, i.clock);
            && Valid(r) && Bound(cfg, ch, r) && !r.finalized && IsDigits(r.cumulative)
            && r == ImportCandidate(cfg, ch, i.text, i.text2, i.clock)
  {
    assert Upper("00") == "00" && Upper("") == "";
  }

  lemma LooksForLedger(cfg: Config, s: State, ch: string, id: nat, c: Channel, q: Request, i: Input)
    requires id !in s.tasks && WellFormedRequest(q) && c.record.None?
    ensures Next(cfg, With(s, ch, id, c, Some(Looking(q))), Proceed(id, i)) ==
              With(s, ch, id, c, Some(if cfg.loader then Loading(q) else Looking(q)))
  {
    hide Next;
    WithIs(s, ch, id, c, Some(Looking(q)));
    if cfg.loader {
      StepWith(cfg, s, ch, id, c, Looking(q), i, Move(c, Some(Loading(q))));
    } else {
      StuckWith(cfg, s, ch, id, c, Looking(q), i);
    }
  }

  lemma Loads(cfg: Config, s: State, ch: string, id: nat, c: Channel, q: Request, i: Input)
    requires id !in s.tasks && WellFormedRequest(q) && c.record.None? && LedgerTells(i, c) && IsNormalId(ch)
    ensures IsDigits(i.text2)
    ensures Next(cfg, With(s, ch, id, c, Some(Loading(q))), Proceed(id, i)) ==
              With(s, ch, id, c, Some(Creating(q, Imported(cfg, ch, i.text, i.text2, i.clock))))
  {
    hide Next, Valid, Imported, ImportCandidate;
    ImportedIsValid(cfg, ch, c, i);
    WithIs(s, ch, id, c, Some(Loading(q)));
    StepWith(cfg, s, ch, id, c, Loading(q), i, Move(c, Some(Creating(q, Imported(cfg, ch, i.text, i.text2, i.clock)))));
  }

  lemma Imports(cfg: Config, s: State, ch: string, id: nat, c: Channel, q: Request, r: Record, i: Input)
    requires id !in s.tasks && WellFormedRequest(q) && c.record.None? && Valid(r) && Bound(cfg, ch, r) && !r.finalized
    ensures IsDigits(r.cumulative) && IsDigits(q.amount)
    ensures Next(cfg, With(s, ch, id, c, Some(Creating(q, r))), Proceed(id, i)) ==
              With(s, ch, id, Registered(c, r),
                   if !Signed(s.signed, ch, q.amount, q.signature) then None
                   else if cfg.verifier then Some(Verifying(q, r)) else Some(Advancing(q, r, None)))
  {
    hide Next, CreateMove, Valid, Bound;
    DropsOf(q);
    CreatesNew(c, r);
    var p := Creating(q, r);
    WithIs(s, ch, id, c, Some(p));
    StepWith(cfg, s, ch, id, c, p, i,
             Move(Registered(c, r), if !Signed(s.signed, ch, q.amount, q.signature) then None
                                    else if cfg.verifier then Some(Verifying(q, r)) else Some(Advancing(q, r, None))));
  }

  lemma ClaimStartsHere(cfg: Config, s: State, ch: string, q: Request)
    requires ChannelAt(s, ch).ledger.Some? && IsNormalId(ch) && WellFormedRequest(q) && !q.kind.OpenAction?
    ensures Next(cfg, s, StartClaim(ch, q)) == With(Next1(s), ch, s.nextId, ChannelAt(s, ch), Some(Looking(q)))
  {
    assert s.channels[ch := s.channels[ch]] == s.channels;
  }

  // The first claim on a channel that is not registered imports it: all of its ledger amount is the funding, and
  // what the ledger has paid out is both claimed and redeemed.  The claim then goes on as on any other channel.
  lemma ImportAlone(cfg: Config, s: State, ch: string, q: Request, a: Input, b: Input, d: Input)
    requires Inv(cfg, s) && IsNormalId(ch) && WellFormedRequest(q) && !q.kind.OpenAction? && cfg.loader
    requires ChannelAt(s, ch).record.None? && LedgerTells(b, ChannelAt(s, ch))
    ensures IsDigits(b.text2) && IsDigits(q.amount) && IsDigits(Imported(cfg, ch, b.text, b.text2, b.clock).cumulative)
    ensures var id, r := s.nextId, Imported(cfg, ch, b.text, b.text2, b.clock);
            var t := Run(cfg, s, [StartClaim(ch, q), Proceed(id, a), Proceed(id, b), Proceed(id, d)]);
            && ChannelAt(t, ch) == Registered(ChannelAt(s, ch), r)
            && (id in t.tasks <==> Signed(s.signed, ch, q.amount, q.signature))
            && (id in t.tasks ==>
                  t.tasks[id] == Task(ch, if cfg.verifier then Verifying(q, r) else Advancing(q, r, None)))
  {
    hide *;
    var id, c := s.nextId, ChannelAt(s, ch);
    LedgerTellsIs(b, c);
    DropsOf(q);
    ImportedIsValid(cfg, ch, c, b);
    var r := Imported(cfg, ch, b.text, b.text2, b.clock);
    NextIsFresh(cfg, s);
    SameMembers(s);
    RunFour(cfg, s, StartClaim(ch, q), Proceed(id, a), Proceed(id, b), Proceed(id, d));
    ClaimStartsHere(cfg, s, ch, q);
    LooksForLedger(cfg, Next1(s), ch, id, c, q, a);
    Loads(cfg, Next1(s), ch, id, c, q, b);
    Imports(cfg, Next1(s), ch, id, c, q, r, d);
    WithIs(Next1(s), ch, id, Registered(c, r), None);
    WithIs(Next1(s), ch, id, Registered(c, r), Some(if cfg.verifier then Verifying(q, r) else Advancing(q, r, None)));
  }

  lemma LedgerTellsIs(i: Input, c: Channel)
    requires LedgerTells(i, c)
    ensures c.ledger.Some? && IsDigits(i.text2) && IsDigits(i.text)
  {
  }

  // Without a loader nothing is imported.
  lemma NoImportWithoutLoader(cfg: Config, s: State, ch: string, q: Request, a: Input)
    requires Inv(cfg, s) && IsNormalId(ch) && WellFormedRequest(q) && !q.kind.OpenAction? && !cfg.loader
    requires ChannelAt(s, ch).record.None? && ChannelAt(s, ch).ledger.Some?
    ensures ChannelAt(Run(cfg, s, [StartClaim(ch, q), Proceed(s.nextId, a)]), ch) == ChannelAt(s, ch)
  {
    hide *;
    NextIsFresh(cfg, s);
    SameMembers(s);
    RunTwo(cfg, s, StartClaim(ch, q), Proceed(s.nextId, a));
    ClaimStartsHere(cfg, s, ch, q);
    LooksForLedger(cfg, Next1(s), ch, s.nextId, ChannelAt(s, ch), q, a);
    WithIs(Next1(s), ch, s.nextId, ChannelAt(s, ch), Some(Looking(q)));
  }

  // ---- records that somebody else registered first ----

  // An opening that finds a record, at first or after a conflict, goes on with it exactly when it is the deployment's
  // own, has the funding of this PaymentChannelCreate, and there is a claim to store.
  lemma OpensOnRecord(cfg: Config, s: State, ch: string, id: nat, c: Channel, q: Request, funded: string, p: Process,
                      i: Input)
    requires id !in s.tasks && WellFormedRequest(q) && Usable(c) && c.record.Some?
    requires p == OpenLooking(q, funded) || p == OpenRereading(q, funded)
    ensures IsDigits(q.amount)
    ensures var r := c.record.value;
            Next(cfg, With(s, ch, id, c, Some(p)), Proceed(id, i)) ==
              With(s, ch, id, c,
                   if Bound(cfg, ch, r) && r.funded == funded && Value(q.amount) > 0 then Some(OpenAdvancing(q, r))
                   else None)
  {
    hide Next, Valid, Bound;
    DropsOf(q);
    var r := c.record.value;
    WithIs(s, ch, id, c, Some(p));
    StepWith(cfg, s, ch, id, c, p, i,
             Move(c, if Bound(cfg, ch, r) && r.funded == funded && Value(q.amount) > 0 then Some(OpenAdvancing(q, r))
                     else None));
  }

  // Registering a channel that has another record by now changes nothing, and the stored one is read again.
  lemma ConflictRereads(cfg: Config, s: State, ch: string, id: nat, c: Channel, q: Request, funded: string, r: Record,
                        i: Input)
    requires id !in s.tasks && WellFormedRequest(q) && Usable(c) && c.record.Some? && c.record.value != r && Valid(r)
    ensures Next(cfg, With(s, ch, id, c, Some(OpenCreating(q, funded, r))), Proceed(id, i)) ==
              With(s, ch, id, c, Some(OpenRereading(q, funded)))
    ensures Next(cfg, With(s, ch, id, c, Some(Creating(q, r))), Proceed(id, i)) ==
              With(s, ch, id, c, Some(Rereading(q)))
  {
    hide Next, Valid;
    WithIs(s, ch, id, c, Some(OpenCreating(q, funded, r)));
    WithIs(s, ch, id, c, Some(Creating(q, r)));
    StepWith(cfg, s, ch, id, c, OpenCreating(q, funded, r), i, Move(c, Some(OpenRereading(q, funded))));
    StepWith(cfg, s, ch, id, c, Creating(q, r), i, Move(c, Some(Rereading(q))));
  }

  // And a claim goes on with what it read again as with any record it finds.
  lemma ClaimsOnReread(cfg: Config, s: State, ch: string, id: nat, c: Channel, q: Request, i: Input)
    requires id !in s.tasks && WellFormedRequest(q) && Usable(c) && c.record.Some?
    ensures IsDigits(q.amount)
    ensures var r := c.record.value;
            Next(cfg, With(s, ch, id, c, Some(Rereading(q))), Proceed(id, i)) ==
              With(s, ch, id, c,
                   if !Bound(cfg, ch, r) || r.finalized || !Signed(s.signed, ch, q.amount, q.signature) then None
                   else if cfg.verifier then Some(Verifying(q, r)) else Some(Advancing(q, r, None)))
  {
    hide Next, Valid, Bound;
    DropsOf(q);
    var r := c.record.value;
    WithIs(s, ch, id, c, Some(Rereading(q)));
    StepWith(cfg, s, ch, id, c, Rereading(q), i,
             Move(c, if !Bound(cfg, ch, r) || r.finalized || !Signed(s.signed, ch, q.amount, q.signature) then None
                     else if cfg.verifier then Some(Verifying(q, r)) else Some(Advancing(q, r, None))));
  }
}
