// The write-ahead journal of devtools/rlusd_fund.py: sign, persist, submit, and after a crash reconcile
// the persisted transaction before anything new is signed.  A file lock admits one process at a time.
module FundingJournal {
  import opened Options

  // A signed transaction; `amount` is the RLUSD it delivers to the wallet (zero for a trust line).  It
  // can only enter a ledger whose index is at most `last`.
  datatype Tx = Tx(id: nat, amount: real, last: nat)

  // `resolved` tells of each transaction in a validated ledger whether it succeeded.
  datatype Ledger = Ledger(index: nat, balance: real, broadcast: set<Tx>, resolved: map<nat, bool>)

  // Program counters of the one running process; `target` is the balance this invocation aims for, and
  // `resumed` tells a journaled transaction that this invocation found from one that it made.
  datatype Process =
    | Idle
    | Looking(target: real, p: Tx)
    | Checking(target: real, p: Tx, searchedAll: bool)
    | Planning(target: real)
    | Quoting(target: real)
    | Preparing(target: real, amount: real)
    | Submitting(target: real, p: Tx)
    | Awaiting(target: real, p: Tx, resumed: bool)
    | Recording(target: real, p: Tx, resumed: bool)
    | Dropping(target: real, p: Tx, failed: bool)

  // `journal` and `completed` are the persisted file; `cap` is the largest of the starting balance and
  // the targets so far.
  datatype State = State(ledger: Ledger, journal: Option<Tx>, completed: set<nat>, process: Process, nextId: nat,
                         cap: real)

  // What a step hears from the network: a validated ledger index (which may lag), whether a lookup found
  // the transaction or else covered its whole range, whether the first balance read failed (it then
  // counts as zero) and the trust line exists, the LastLedgerSequence chosen, and any other failure.
  datatype Input = Input(index: nat, found: bool, searchedAll: bool, unreadable: bool, trusted: bool, last: nat,
                         failed: bool)

  datatype Event =
    | Close(included: Option<Tx>, ok: bool)
    | Spend(amount: real)
    | Invoke(target: real)
    | Proceed(input: Input)
    | Crash

  function MaxReal(a: real, b: real): real { if a >= b then a else b }

  // Not in any validated ledger so far, and still able to enter one.
  predicate Undecided(l: Ledger, tx: Tx) { tx.id !in l.resolved && l.index < tx.last }

  predicate Live(l: Ledger, tx: Tx) { tx in l.broadcast && Undecided(l, tx) }

  // The next ledger validates, with at most one transaction of this wallet.
  function CloseLedger(l: Ledger, included: Option<Tx>, ok: bool): Ledger {
    if included.None? || !Live(l, included.value) then l.(index := l.index + 1)
    else Ledger(l.index + 1, if ok then l.balance + included.value.amount else l.balance, l.broadcast,
                l.resolved[included.value.id := ok])
  }

  function Broadcast(s: State, p: Tx): State { s.(ledger := s.ledger.(broadcast := s.ledger.broadcast + {p})) }

  // One step of the running process; `failed` is any exception outside the handled outcomes.
  function Step(s: State, i: Input): State {
    if i.failed then s.(process := Idle)
    else
      var l := s.ledger;
      match s.process
      case Idle => s
      // `reconcile_pending_transaction`
      case Looking(target, p) =>
        if i.found && p.id in l.resolved then
          s.(process := if l.resolved[p.id] then Recording(target, p, true) else Dropping(target, p, true))
        else if i.searchedAll && (l.index < p.last || p.id in l.resolved) then s
        else s.(process := Checking(target, p, i.searchedAll))
      case Checking(target, p, searchedAll) =>
        if i.index > l.index then s
        else if i.index < p.last then Broadcast(s, p).(process := Awaiting(target, p, true))
        else if searchedAll then s.(process := Dropping(target, p, false))
        else s.(process := Idle)
      // A found transaction is followed by planning, a new trust line by the quote, a conversion by the end.
      case Recording(target, p, resumed) =>
        s.(journal := None, completed := s.completed + {p.id},
           process := if resumed then Planning(target) else if p.amount > 0.0 then Idle else Quoting(target))
      case Dropping(target, p, failed) => s.(journal := None, process := if failed then Idle else Planning(target))
      // `fund_rlusd_wallet`
      case Planning(target) =>
        if l.balance >= target && !(i.unreadable && target > 0.0) then s.(process := Idle)
        else s.(process := if i.trusted then Quoting(target) else Preparing(target, 0.0))
      case Quoting(target) =>
        if l.balance >= target then s.(process := Idle) else s.(process := Preparing(target, target - l.balance))
      // `submit_journaled_transaction`
      case Preparing(target, amount) =>
        var p := Tx(s.nextId, amount, i.last);
        s.(journal := Some(p), nextId := s.nextId + 1, process := Submitting(target, p))
      case Submitting(target, p) => Broadcast(s, p).(process := Awaiting(target, p, false))
      case Awaiting(target, p, resumed) =>
        if p.id !in l.resolved then s.(process := Idle)
        else s.(process := if l.resolved[p.id] then Recording(target, p, resumed) else Dropping(target, p, true))
  }

  // One event.  The wallet's RLUSD only grows by its own conversions.
  function Next(s: State, e: Event): State {
    match e
    case Close(included, ok) => s.(ledger := CloseLedger(s.ledger, included, ok))
    case Spend(amount) => if amount < 0.0 then s else s.(ledger := s.ledger.(balance := s.ledger.balance - amount))
    case Invoke(target) =>
      if !s.process.Idle? then s
      else s.(process := if s.journal.Some? then Looking(target, s.journal.value) else Planning(target),
              cap := MaxReal(s.cap, target))
    case Proceed(input) => Step(s, input)
    case Crash => s.(process := Idle)
  }

  function Run(s: State, events: seq<Event>): State {
    if events == [] then s else Next(Run(s, events[..|events| - 1]), events[|events| - 1])
  }

  // An empty journal and nothing of this wallet under way.
  predicate Initial(s: State) {
    && s.journal.None? && s.process.Idle? && s.completed == {} && s.ledger.broadcast == {} && s.ledger.resolved == map[]
    && s.ledger.balance == s.cap
  }

  // ---- what every reachable state satisfies ----

  predicate ProcessOk(s: State) {
    var q := s.process;
    && (q.Planning? || q.Quoting? || q.Preparing? ==> s.journal.None? && q.target <= s.cap)
    && (q.Preparing? ==> s.ledger.balance + q.amount <= s.cap)
    && (q.Looking? || q.Checking? || q.Submitting? || q.Awaiting? || q.Recording? || q.Dropping? ==>
          s.journal == Some(q.p) && q.target <= s.cap)
    && (q.Checking? && q.searchedAll ==> !Undecided(s.ledger, q.p) && q.p.id !in s.ledger.resolved)
    && (q.Recording? ==> q.p.id in s.ledger.resolved && s.ledger.resolved[q.p.id])
    && (q.Dropping? ==> !Undecided(s.ledger, q.p))
  }

  // No other transaction under way goes by this identifier.
  predicate Identified(s: State, tx: Tx) {
    && tx.id < s.nextId
    && (forall other | other in s.ledger.broadcast && other.id == tx.id :: other == tx)
    && (s.journal.Some? && s.journal.value.id == tx.id ==> s.journal.value == tx)
  }

  predicate Inv(s: State) {
    && ProcessOk(s)
    && (s.journal.Some? ==> Identified(s, s.journal.value))
    && s.ledger.balance <= s.cap
    && (s.journal.Some? && Undecided(s.ledger, s.journal.value) ==> s.ledger.balance + s.journal.value.amount <= s.cap)
    && (forall tx | tx in s.ledger.broadcast :: tx.id < s.nextId && (Undecided(s.ledger, tx) ==> s.journal == Some(tx)))
    && (forall id | id in s.completed :: id in s.ledger.resolved && s.ledger.resolved[id])
    && (forall id | id in s.ledger.resolved :: id < s.nextId)
  }

  lemma PrepareKeepsInv(s: State, i: Input)
    requires Inv(s) && s.process.Preparing?
    ensures Inv(Step(s, i))
  {
    assert forall tx | tx in s.ledger.broadcast :: !Undecided(s.ledger, tx);
  }

  lemma BroadcastKeepsInv(s: State, i: Input)
    requires Inv(s) && (s.process.Checking? || s.process.Submitting?)
    ensures Inv(Step(s, i))
  {
  }

  lemma ClearKeepsInv(s: State, i: Input)
    requires Inv(s) && (s.process.Recording? || s.process.Dropping?)
    ensures Inv(Step(s, i))
  {
  }

  lemma QuietKeepsInv(s: State, i: Input)
    requires Inv(s)
    requires s.process.Idle? || s.process.Looking? || s.process.Planning? || s.process.Quoting? || s.process.Awaiting?
    ensures Inv(Step(s, i))
  {
  }

  lemma StepKeepsInv(s: State, i: Input)
    requires Inv(s)
    ensures Inv(Step(s, i))
  {
    hide Inv, Step;
    if s.process.Preparing? {
      PrepareKeepsInv(s, i);
    } else if s.process.Checking? || s.process.Submitting? {
      BroadcastKeepsInv(s, i);
    } else if s.process.Recording? || s.process.Dropping? {
      ClearKeepsInv(s, i);
    } else {
      QuietKeepsInv(s, i);
    }
  }

  lemma NextKeepsInv(s: State, e: Event)
    requires Inv(s)
    ensures Inv(Next(s, e))
  {
    hide Step;
    if e.Proceed? { StepKeepsInv(s, e.input); }
  }

  lemma {:induction false} ReachableInv(s: State, events: seq<Event>)
    requires Initial(s)
    ensures Inv(Run(s, events))
  {
    if events != [] {
      ReachableInv(s, events[..|events| - 1]);
      NextKeepsInv(Run(s, events[..|events| - 1]), events[|events| - 1]);
    }
  }

  // ---- the properties ----

  // Across any history of crashes, retries and reconciliations, a transaction that was ever broadcast
  // and can still validate is the journaled one; so there is at most one, and the journal has it.
  lemma LiveIsJournaled(s: State, events: seq<Event>, tx: Tx)
    requires Initial(s)
    ensures var t := Run(s, events); Live(t.ledger, tx) ==> t.journal == Some(tx)
  {
    ReachableInv(s, events);
  }

  // The validated balance, together with a conversion that can still validate, never exceeds the
  // largest of the starting balance and the targets asked for.
  lemma BalanceStaysWithinCap(s: State, events: seq<Event>, tx: Tx)
    requires Initial(s)
    ensures var t := Run(s, events);
            t.ledger.balance <= t.cap && (Live(t.ledger, tx) ==> t.ledger.balance + tx.amount <= t.cap)
  {
    ReachableInv(s, events);
  }

  // A decided transaction keeps its outcome, or its absence, for good.
  lemma {:induction false} DecidedForever(s: State, events: seq<Event>, tx: Tx)
    requires Inv(s) && Identified(s, tx) && !Undecided(s.ledger, tx)
    ensures var t := Run(s, events);
            && Inv(t) && Identified(t, tx) && !Undecided(t.ledger, tx)
            && (tx.id in t.ledger.resolved <==> tx.id in s.ledger.resolved)
            && (tx.id in s.ledger.resolved ==> t.ledger.resolved[tx.id] == s.ledger.resolved[tx.id])
  {
    if events != [] {
      var e := events[|events| - 1];
      DecidedForever(s, events[..|events| - 1], tx);
      NextKeepsInv(Run(s, events[..|events| - 1]), e);
      StaysDecided(Run(s, events[..|events| - 1]), e, tx);
    }
  }

  lemma StaysDecided(s: State, e: Event, tx: Tx)
    requires Inv(s) && Identified(s, tx) && !Undecided(s.ledger, tx)
    ensures var t := Next(s, e);
            && Identified(t, tx) && !Undecided(t.ledger, tx)
            && (tx.id in t.ledger.resolved <==> tx.id in s.ledger.resolved)
            && (tx.id in s.ledger.resolved ==> t.ledger.resolved[tx.id] == s.ledger.resolved[tx.id])
  {
  }

  // A step that empties the journal leaves a transaction whose fate is sealed: it validated, or it was
  // looked up past its last ledger in a fully searched range and is nowhere; whatever happens after
  // that, it keeps the outcome it has, and if it has none it never validates.
  lemma ClearingIsSound(s: State, before: seq<Event>, e: Event, after: seq<Event>)
    requires Initial(s)
    ensures var t := Run(s, before); var t' := Next(t, e); var u := Run(t', after);
            t.journal.Some? && t'.journal != t.journal ==>
              var p := t.journal.value;
              && t'.journal.None?
              && (p.id in u.ledger.resolved <==> p.id in t'.ledger.resolved)
              && (p.id in t'.ledger.resolved ==> u.ledger.resolved[p.id] == t'.ledger.resolved[p.id])
              && (p.id !in t'.ledger.resolved ==> t'.ledger.index >= p.last)
  {
    var t := Run(s, before);
    var t' := Next(t, e);
    ReachableInv(s, before);
    NextKeepsInv(t, e);
    if t.journal.Some? && t'.journal != t.journal {
      DecidedForever(t', after, t.journal.value);
    }
  }

  // Everything recorded as completed validated successfully.
  lemma CompletedValidated(s: State, events: seq<Event>, id: nat)
    requires Initial(s)
    ensures var t := Run(s, events); id in t.completed ==> id in t.ledger.resolved && t.ledger.resolved[id]
  {
    ReachableInv(s, events);
  }
}
