// What one invocation of the funding tool does when nothing fails: exactly the one conversion it needs, after
// a trust line if there is none, and first of all the settling of whatever an earlier invocation left.
module FundingOutcomes {
  import opened Options
  import opened FundingJournal

  lemma {:induction false} RunOn(s: State, first: seq<Event>, rest: seq<Event>)
    ensures Run(s, first + rest) == Run(Run(s, first), rest)
  {
    hide Next;
    if rest == [] {
      assert first + rest == first;
    } else {
      var n := |rest| - 1;
      assert (first + rest)[..|first + rest| - 1] == first + rest[..n];
      RunOn(s, first, rest[..n]);
    }
  }

  lemma RunFirst(s: State, events: seq<Event>)
    requires events != []
    ensures Run(s, events) == Run(Next(s, events[0]), events[1..])
  {
    hide Next;
    assert [events[0]] + events[1..] == events;
    RunOn(s, [events[0]], events[1..]);
    assert [events[0]][..0] == [];
    assert Run(s, []) == s;
  }

  lemma RunNothing(s: State)
    ensures Run(s, []) == s
  {
  }

  // ---- an invocation among ledgers that close, on a wallet with its trust line ----

  // No failure, no crash, no other invocation and no spending.
  predicate Smooth(events: seq<Event>) {
    forall e | e in events ::
      && (e.Close? || e.Proceed?)
      && (e.Proceed? ==> !e.input.failed && e.input.trusted)
  }

  // The transaction that an invocation from `s` needs.
  predicate IsNeeded(s: State, target: real, p: Tx) { p.id == s.nextId && p.amount == target - s.ledger.balance }

  // Nothing is journaled yet.
  predicate Untouched(s: State, t: State) {
    && t.journal.None? && t.nextId == s.nextId && t.completed == s.completed && t.ledger.balance == s.ledger.balance
    && s.nextId !in t.ledger.resolved
  }

  // The one transaction is journaled, and the balance has what it delivered.
  predicate Journaled(s: State, target: real, t: State, p: Tx) {
    && t.journal == Some(p) && IsNeeded(s, target, p) && t.nextId == s.nextId + 1 && t.completed == s.completed
    && t.ledger.balance == (if p.id in t.ledger.resolved && t.ledger.resolved[p.id] then target else s.ledger.balance)
  }

  // It is done with: completed with the target reached, or failed with nothing gained.
  predicate Finished(s: State, target: real, t: State) {
    && t.journal.None? && t.nextId == s.nextId + 1 && s.nextId in t.ledger.resolved
    && (if t.ledger.resolved[s.nextId] then t.ledger.balance == target && t.completed == s.completed + {s.nextId}
        else t.ledger.balance == s.ledger.balance && t.completed == s.completed)
  }

  predicate Under(s: State, target: real, t: State) {
    match t.process
    case Planning(g) => g == target && Untouched(s, t)
    case Quoting(g) => g == target && Untouched(s, t)
    case Preparing(g, amount) => g == target && amount == target - s.ledger.balance && Untouched(s, t)
    case Submitting(g, p) => g == target && Journaled(s, target, t, p)
    case Awaiting(g, p, resumed) => g == target && !resumed && Journaled(s, target, t, p)
    case Recording(g, p, resumed) => g == target && !resumed && Journaled(s, target, t, p)
    case Dropping(g, p, failed) => g == target && failed && Journaled(s, target, t, p) && p.id in t.ledger.resolved
                                   && !t.ledger.resolved[p.id]
    case Idle => Finished(s, target, t) || (t.journal.Some? && Journaled(s, target, t, t.journal.value))
    case _ => false
  }

  lemma ProceedUnder(s: State, target: real, t: State, i: Input)
    requires Inv(t) && Under(s, target, t) && s.ledger.balance < target && !i.failed && i.trusted
    ensures Under(s, target, Next(t, Proceed(i)))
  {
  }

  lemma CloseUnder(s: State, target: real, t: State, included: Option<Tx>, ok: bool)
    requires Inv(t) && Under(s, target, t)
    ensures Under(s, target, Next(t, Close(included, ok)))
  {
  }

  lemma {:induction false} StaysUnder(s: State, target: real, t: State, events: seq<Event>)
    requires Inv(t) && Under(s, target, t) && s.ledger.balance < target && Smooth(events)
    ensures Inv(Run(t, events)) && Under(s, target, Run(t, events))
  {
    hide Inv, Under, Next;
    if events != [] {
      var before, e := events[..|events| - 1], events[|events| - 1];
      assert e in events;
      assert forall x | x in before :: x in events;
      StaysUnder(s, target, t, before);
      NextKeepsInv(Run(t, before), e);
      if e.Proceed? {
        ProceedUnder(s, target, Run(t, before), e.input);
      } else {
        CloseUnder(s, target, Run(t, before), e.included, e.ok);
      }
    }
  }

  // From any reachable idle state with an empty journal and a balance below the target: however the ledgers
  // close in between, the invocation journals at most one transaction, which delivers exactly what is missing;
  // and once the journal is empty again, it has validated, the balance is the target and it is recorded, or it
  // failed, and nothing has changed.
  lemma OneConversion(start: State, history: seq<Event>, target: real, events: seq<Event>)
    requires Initial(start)
    requires var s := Run(start, history); s.process.Idle? && s.journal.None? && s.ledger.balance < target
    requires Smooth(events)
    ensures var s := Run(start, history); var t := Run(Next(s, Invoke(target)), events);
            && t.nextId <= s.nextId + 1
            && (t.journal.Some? ==>
                  t.journal.value.id == s.nextId && t.journal.value.amount == target - s.ledger.balance)
            && (t.nextId == s.nextId ==> t.journal.None? && t.completed == s.completed
                                         && t.ledger.balance == s.ledger.balance && !t.process.Idle?)
            && (t.nextId > s.nextId && t.journal.None? ==>
                  && s.nextId in t.ledger.resolved
                  && (if t.ledger.resolved[s.nextId] then
                        t.ledger.balance == target && t.completed == s.completed + {s.nextId}
                      else t.ledger.balance == s.ledger.balance && t.completed == s.completed))
  {
    hide Inv;
    var s := Run(start, history);
    ReachableInv(start, history);
    NextKeepsInv(s, Invoke(target));
    InvokeUnder(s, target);
    StaysUnder(s, target, Next(s, Invoke(target)), events);
  }

  lemma InvokeUnder(s: State, target: real)
    requires Inv(s) && s.process.Idle? && s.journal.None?
    ensures Under(s, target, Next(s, Invoke(target)))
  {
  }

  // ---- an invocation step by step ----

  lemma RunOne(s: State, a: Event)
    ensures Run(s, [a]) == Next(s, a)
  {
    hide Next;
    RunFirst(s, [a]);
    RunNothing(Next(s, a));
  }

  lemma RunTwo(s: State, a: Event, b: Event)
    ensures Run(s, [a, b]) == Next(Next(s, a), b)
  {
    hide Next, Run;
    RunFirst(s, [a, b]);
    assert [a, b][1..] == [b];
    RunOne(Next(s, a), b);
  }

  lemma RunThree(s: State, a: Event, b: Event, c: Event)
    ensures Run(s, [a, b, c]) == Next(Next(Next(s, a), b), c)
  {
    hide Next, Run;
    RunFirst(s, [a, b, c]);
    assert [a, b, c][1..] == [b, c];
    RunTwo(Next(s, a), b, c);
  }

  lemma RunFour(s: State, a: Event, b: Event, c: Event, d: Event)
    ensures Run(s, [a, b, c, d]) == Next(Next(Next(Next(s, a), b), c), d)
  {
    hide Next, Run;
    RunFirst(s, [a, b, c, d]);
    assert [a, b, c, d][1..] == [b, c, d];
    RunThree(Next(s, a), b, c, d);
  }

  // The ledger includes the submitted transaction, successfully.
  function Includes(p: Tx): Event { Close(Some(p), true) }

  // From a wallet with its trust line and a balance below the target: planning, quoting and preparing journal
  // the missing amount, and nothing before that is journaled.
  lemma Journals(s: State, target: real, a: Input, b: Input, c: Input)
    requires Inv(s) && s.process.Idle? && s.journal.None? && s.ledger.balance < target
    requires !a.failed && a.trusted && !b.failed && !c.failed
    ensures Run(s, [Invoke(target), Proceed(a)]).journal.None?
    ensures Run(s, [Invoke(target), Proceed(a), Proceed(b)]).journal.None?
    ensures var p := Tx(s.nextId, target - s.ledger.balance, c.last);
            Run(s, [Invoke(target), Proceed(a), Proceed(b), Proceed(c)]) ==
              s.(process := Submitting(target, p), journal := Some(p), nextId := s.nextId + 1,
                 cap := MaxReal(s.cap, target))
  {
    hide *;
    RunTwo(s, Invoke(target), Proceed(a));
    RunThree(s, Invoke(target), Proceed(a), Proceed(b));
    RunFour(s, Invoke(target), Proceed(a), Proceed(b), Proceed(c));
    Plans(s, target, a);
    Quotes(Next(Next(s, Invoke(target)), Proceed(a)), target, b);
    Prepares(Next(Next(Next(s, Invoke(target)), Proceed(a)), Proceed(b)), target, target - s.ledger.balance, c);
  }

  lemma Plans(s: State, target: real, a: Input)
    requires s.process.Idle? && s.journal.None? && s.ledger.balance < target && !a.failed && a.trusted
    ensures Next(Next(s, Invoke(target)), Proceed(a)) == s.(process := Quoting(target), cap := MaxReal(s.cap, target))
  {
  }

  lemma Quotes(s: State, target: real, b: Input)
    requires s.process == Quoting(target) && s.ledger.balance < target && !b.failed
    ensures Next(s, Proceed(b)) == s.(process := Preparing(target, target - s.ledger.balance))
  {
  }

  lemma Prepares(s: State, target: real, amount: real, c: Input)
    requires s.process == Preparing(target, amount) && !c.failed
    ensures var p := Tx(s.nextId, amount, c.last);
            Next(s, Proceed(c)) == s.(process := Submitting(target, p), journal := Some(p), nextId := s.nextId + 1)
  {
  }

  // Submitted, included and awaited, a journaled transaction is recorded and adds what it delivers; a trust line
  // is then followed by the quote, and a conversion ends the invocation.
  lemma Delivers(s: State, target: real, p: Tx, d: Input, e: Input, f: Input)
    requires s.process == Submitting(target, p) && s.journal == Some(p)
    requires p.id !in s.ledger.resolved && s.ledger.index < p.last && !d.failed && !e.failed && !f.failed
    ensures var t := Run(s, [Proceed(d), Includes(p), Proceed(e), Proceed(f)]);
            && t.journal.None? && t.completed == s.completed + {p.id} && t.nextId == s.nextId
            && t.ledger.balance == s.ledger.balance + p.amount
            && t.process == (if p.amount > 0.0 then Idle else Quoting(target))
  {
    RunFour(s, Proceed(d), Includes(p), Proceed(e), Proceed(f));
  }

  // An invocation that nothing interrupts, on a wallet with its trust line, brings the balance to the target by
  // exactly one transaction, which it records.
  lemma Funds(s: State, target: real, a: Input, b: Input, c: Input, d: Input, e: Input, f: Input)
    requires Inv(s) && s.process.Idle? && s.journal.None? && s.ledger.balance < target && s.ledger.index < c.last
    requires !a.failed && a.trusted && !b.failed && !c.failed && !d.failed && !e.failed && !f.failed
    ensures var p := Tx(s.nextId, target - s.ledger.balance, c.last);
            var t := Run(s, [Invoke(target), Proceed(a), Proceed(b), Proceed(c)]
                            + [Proceed(d), Includes(p), Proceed(e), Proceed(f)]);
            && t.process.Idle? && t.journal.None? && t.ledger.balance == target
            && t.completed == s.completed + {s.nextId} && t.nextId == s.nextId + 1
  {
    hide Next, Run;
    var p := Tx(s.nextId, target - s.ledger.balance, c.last);
    Journals(s, target, a, b, c);
    var first := [Invoke(target), Proceed(a), Proceed(b), Proceed(c)];
    RunOn(s, first, [Proceed(d), Includes(p), Proceed(e), Proceed(f)]);
    Delivers(Run(s, first), target, p, d, e, f);
  }

  // Without a trust line, a transaction that delivers nothing is journaled and recorded first; the conversion
  // follows in the same invocation.
  lemma TrustsFirst(s: State, target: real, a: Input, b: Input, d: Input, e: Input, f: Input, g: Input, h: Input)
    requires Inv(s) && s.process.Idle? && s.journal.None? && s.ledger.balance < target && s.ledger.index < b.last
    requires !a.failed && !a.trusted && !b.failed && !d.failed && !e.failed && !f.failed && !g.failed && !h.failed
    ensures var p := Tx(s.nextId, 0.0, b.last); var q := Tx(s.nextId + 1, target - s.ledger.balance, h.last);
            var first := [Invoke(target), Proceed(a), Proceed(b)];
            var second := [Proceed(d), Includes(p), Proceed(e), Proceed(f)];
            && Run(s, first).journal == Some(p)
            && Run(s, first + second).journal.None? && Run(s, first + second).completed == s.completed + {p.id}
            && Run(s, (first + second) + [Proceed(g), Proceed(h)]).journal == Some(q)
            && Run(s, (first + second) + [Proceed(g), Proceed(h)]).process == Submitting(target, q)
  {
    hide Next, Run;
    var p := Tx(s.nextId, 0.0, b.last);
    var first := [Invoke(target), Proceed(a), Proceed(b)];
    var second := [Proceed(d), Includes(p), Proceed(e), Proceed(f)];
    JournalsTrust(s, target, a, b);
    RunOn(s, first, second);
    Delivers(Run(s, first), target, p, d, e, f);
    RunOn(s, first + second, [Proceed(g), Proceed(h)]);
    Converts(Run(s, first + second), target, g, h);
  }

  lemma JournalsTrust(s: State, target: real, a: Input, b: Input)
    requires Inv(s) && s.process.Idle? && s.journal.None? && s.ledger.balance < target
    requires !a.failed && !a.trusted && !b.failed
    ensures var p := Tx(s.nextId, 0.0, b.last);
            Run(s, [Invoke(target), Proceed(a), Proceed(b)]) ==
              s.(process := Submitting(target, p), journal := Some(p), nextId := s.nextId + 1,
                 cap := MaxReal(s.cap, target))
    ensures s.nextId !in s.ledger.resolved
  {
    RunThree(s, Invoke(target), Proceed(a), Proceed(b));
  }

  lemma Converts(s: State, target: real, g: Input, h: Input)
    requires s.process == Quoting(target) && s.ledger.balance < target && !g.failed && !h.failed
    ensures var q := Tx(s.nextId, target - s.ledger.balance, h.last);
            var t := Run(s, [Proceed(g), Proceed(h)]); t.journal == Some(q) && t.process == Submitting(target, q)
  {
    hide *;
    RunTwo(s, Proceed(g), Proceed(h));
    Quotes(s, target, g);
    Prepares(Next(s, Proceed(g)), target, target - s.ledger.balance, h);
  }

  // A wallet that has its target is left alone.
  lemma NothingToDo(s: State, target: real, a: Input, b: Input)
    requires Inv(s) && s.process.Idle? && s.journal.None? && s.ledger.balance >= target
    requires !a.failed && !b.failed && (a.trusted || !a.unreadable || target <= 0.0)
    ensures Run(s, [Invoke(target), Proceed(a), Proceed(b)]) == s.(cap := MaxReal(s.cap, target))
  {
    RunThree(s, Invoke(target), Proceed(a), Proceed(b));
  }

  // ---- settling what an earlier invocation left ----

  // A journaled transaction that the ledger knows is recorded or dropped by its result; after a success the
  // invocation goes on to plan, after a failure it ends.
  lemma SettlesKnown(s: State, target: real, p: Tx, a: Input, b: Input)
    requires Inv(s) && s.process.Idle? && s.journal == Some(p) && p.id in s.ledger.resolved
    requires !a.failed && a.found && !b.failed
    ensures var t := Run(s, [Invoke(target), Proceed(a), Proceed(b)]);
            && t.journal.None? && t.nextId == s.nextId && t.ledger == s.ledger
            && t.completed == (if s.ledger.resolved[p.id] then s.completed + {p.id} else s.completed)
            && t.process == (if s.ledger.resolved[p.id] then Planning(target) else Idle)
  {
    RunThree(s, Invoke(target), Proceed(a), Proceed(b));
  }

  // One that is not found and can still validate is sent again, the same; once a ledger includes it, it is
  // recorded like any other, and the invocation goes on to plan.
  lemma SendsAgain(s: State, target: real, p: Tx, a: Input, b: Input)
    requires Inv(s) && s.process.Idle? && s.journal == Some(p)
    requires !a.failed && !a.found && !a.searchedAll && !b.failed && b.index <= s.ledger.index && b.index < p.last
    ensures var t := Run(s, [Invoke(target), Proceed(a), Proceed(b)]);
            && t.journal == Some(p) && t.nextId == s.nextId && t.completed == s.completed
            && t.ledger == s.ledger.(broadcast := s.ledger.broadcast + {p}) && t.process == Awaiting(target, p, true)
  {
    RunThree(s, Invoke(target), Proceed(a), Proceed(b));
  }

  lemma RecordsResent(s: State, target: real, p: Tx, e: Input, f: Input)
    requires s.process == Awaiting(target, p, true) && s.journal == Some(p) && Live(s.ledger, p) && !e.failed
             && !f.failed
    ensures var t := Run(s, [Includes(p), Proceed(e), Proceed(f)]);
            && t.journal.None? && t.completed == s.completed + {p.id} && t.process == Planning(target)
            && t.ledger.balance == s.ledger.balance + p.amount
  {
    RunThree(s, Includes(p), Proceed(e), Proceed(f));
  }

  // One whose last ledger has passed is dropped if the whole range was searched, and the invocation goes on to
  // plan; otherwise it stays journaled and the invocation ends.
  lemma DropsAbsent(s: State, target: real, p: Tx, a: Input, b: Input, c: Input)
    requires Inv(s) && s.process.Idle? && s.journal == Some(p) && p.id !in s.ledger.resolved && s.ledger.index >= p.last
    requires !a.failed && !a.found && !b.failed && p.last <= b.index <= s.ledger.index && !c.failed
    ensures var t := Run(s, [Invoke(target), Proceed(a), Proceed(b), Proceed(c)]);
            && t.nextId == s.nextId && t.completed == s.completed && t.ledger == s.ledger
            && (if a.searchedAll then t.journal.None? && t.process == Planning(target)
                else t.journal == Some(p) && t.process.Idle?)
  {
    RunFour(s, Invoke(target), Proceed(a), Proceed(b), Proceed(c));
  }
}
