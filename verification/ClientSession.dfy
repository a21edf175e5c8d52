// Unattended PayChannel payments: one client's exchanges on one channel, any number of them in flight,
// against a server that follows the high-water rule.  Responses may be lost and prices may change.
module ClientSession {
  // An exchange from the signing of its credential on; `base` is the local mark it was signed from.  A
  // request that the client has given up on may still reach the server.
  datatype Exchange =
    | Signed(base: nat, price: nat, close: bool)
    | Succeeded(amount: nat, close: bool)
    | Over

  // The client's mark (`active` while a session is registered), the server's cumulative amount, the
  // highest amount ever signed, and the sum of the prices the server charged.
  datatype State = State(mark: nat, active: bool, server: nat, finalized: bool, highest: nat, paid: nat,
                         exchanges: map<nat, Exchange>)

  datatype Event =
    | Sign(id: nat, echo: nat, price: nat, close: bool)
    | Serve(id: nat, willing: bool, finished: bool, answered: bool)
    | Receive(id: nat)
    | Lose(id: nat)

  function Max(a: nat, b: nat): nat { if a >= b then a else b }

  // `_session_credential` and `close_session`: the challenge must echo the local mark, its price must be
  // within the policy, and the amount signed is the mark plus the price.
  function SignStep(limit: nat, s: State, id: nat, echo: nat, price: nat, close: bool): State {
    if id in s.exchanges || !s.active || echo != s.mark || price > limit then s
    else s.(exchanges := s.exchanges[id := Signed(s.mark, price, close)], highest := Max(s.highest, s.mark + price))
  }

  // The high-water rule; a close may also repeat the stored claim.
  predicate Advances(s: State, x: Exchange)
    requires x.Signed?
  {
    x.base + x.price > s.server && x.base + x.price >= s.server + x.price
  }

  predicate Repeats(s: State, x: Exchange)
    requires x.Signed?
  {
    x.close && x.base + x.price == s.server
  }

  // The server decides; it may refuse for other reasons, store the claim of a close without finishing it, and its
  // answer may never come.
  function ServeStep(s: State, id: nat, x: Exchange, willing: bool, finished: bool, answered: bool): State
    requires x.Signed?
  {
    if !willing || s.finalized || !(Advances(s, x) || Repeats(s, x)) then s.(exchanges := s.exchanges[id := Over])
    else
      var charged := if Advances(s, x) then x.price else 0;
      var succeeded := answered && (x.close ==> finished);
      s.(server := x.base + x.price, finalized := x.close && finished, paid := s.paid + charged,
         exchanges := s.exchanges[id := if succeeded then Succeeded(x.base + x.price, x.close) else Over])
  }

  // `_capture_session_success`: a voucher's amount becomes the mark, a close drops the session.
  function CaptureStep(s: State, id: nat, x: Exchange): State
    requires x.Succeeded?
  {
    if x.close then s.(active := false, exchanges := s.exchanges[id := Over])
    else s.(mark := x.amount, active := true, exchanges := s.exchanges[id := Over])
  }

  function Next(limit: nat, s: State, e: Event): State {
    match e
    case Sign(id, echo, price, close) => SignStep(limit, s, id, echo, price, close)
    case Serve(id, willing, finished, answered) =>
      if id in s.exchanges && s.exchanges[id].Signed? then
        ServeStep(s, id, s.exchanges[id], willing, finished, answered)
      else s
    case Receive(id) =>
      if id in s.exchanges && s.exchanges[id].Succeeded? then CaptureStep(s, id, s.exchanges[id]) else s
    case Lose(id) => if id in s.exchanges then s.(exchanges := s.exchanges[id := Over]) else s
  }

  function Run(limit: nat, s: State, events: seq<Event>): State {
    if events == [] then s else Next(limit, Run(limit, s, events[..|events| - 1]), events[|events| - 1])
  }

  // Client and server agree and nothing is in flight.
  predicate Agreed(s: State) {
    s.mark == s.server == s.highest && s.paid == 0 && s.exchanges == map[]
  }

  predicate ExchangeOk(limit: nat, s: State, x: Exchange) {
    && (x.Signed? ==> x.base <= s.mark && x.price <= limit && x.base + x.price <= s.highest)
    && (x.Succeeded? ==> x.amount == s.server && (if x.close then s.finalized else s.mark < s.server))
  }

  // A voucher's success on its way to the client.
  predicate PaidVoucher(x: Exchange) { x.Succeeded? && !x.close }

  predicate Inv(limit: nat, start: nat, s: State) {
    && s.mark <= s.server <= s.highest <= s.mark + limit
    && s.server == start + s.paid
    && (forall id | id in s.exchanges :: ExchangeOk(limit, s, s.exchanges[id]))
    && (forall a, b | a in s.exchanges && b in s.exchanges
                      && PaidVoucher(s.exchanges[a]) && PaidVoucher(s.exchanges[b]) :: a == b)
  }

  lemma NextKeepsInv(limit: nat, start: nat, s: State, e: Event)
    requires Inv(limit, start, s)
    ensures Inv(limit, start, Next(limit, s, e))
  {
  }

  lemma {:induction false} ReachableInv(limit: nat, s: State, events: seq<Event>)
    requires Agreed(s)
    ensures Inv(limit, s.server, Run(limit, s, events))
  {
    if events != [] {
      ReachableInv(limit, s, events[..|events| - 1]);
      NextKeepsInv(limit, s.server, Run(limit, s, events[..|events| - 1]), events[|events| - 1]);
    }
  }

  // From agreement, every sequence of exchanges, lost responses, changed prices and rejections keeps the
  // client's mark at or below the server's amount, that at or below the highest amount signed, and that
  // within one price limit of the mark; and the server has gained exactly the prices it charged.
  lemma MarksStayOrdered(limit: nat, s: State, events: seq<Event>)
    requires Agreed(s)
    ensures var t := Run(limit, s, events);
            t.mark <= t.server <= t.highest <= t.mark + limit && t.server == s.server + t.paid
  {
    ReachableInv(limit, s, events);
  }

  // Only an exchange signed from the mark on which both sides agree moves the server, by its price.
  lemma AcceptanceCostsThePrice(limit: nat, s: State, events: seq<Event>, e: Event)
    requires Agreed(s)
    ensures var t := Run(limit, s, events); var t' := Next(limit, t, e);
            t'.server != t.server ==>
              && e.Serve? && e.id in t.exchanges && t.exchanges[e.id].Signed?
              && t.mark == t.server == t.exchanges[e.id].base
              && t'.server == t.server + t.exchanges[e.id].price
  {
    ReachableInv(limit, s, events);
  }

  // Capturing a voucher's success brings both sides back into agreement.
  lemma CaptureReestablishesAgreement(limit: nat, s: State, events: seq<Event>, id: nat)
    requires Agreed(s)
    ensures var t := Run(limit, s, events); var t' := Next(limit, t, Receive(id));
            id in t.exchanges && t.exchanges[id].Succeeded? && !t.exchanges[id].close ==>
              t'.mark == t'.server == t.server && t'.active
  {
    ReachableInv(limit, s, events);
  }

  // While the two marks differ, no further payment can be accepted, so at most one is ever at stake.
  lemma NothingMoreAtStake(limit: nat, s: State, events: seq<Event>, e: Event)
    requires Agreed(s)
    ensures var t := Run(limit, s, events); var t' := Next(limit, t, e);
            t.mark < t.server ==> t'.server == t.server && t'.paid == t.paid
  {
    ReachableInv(limit, s, events);
    NextKeepsInv(limit, s.server, Run(limit, s, events), e);
  }

  // ---- an exchange that nothing disturbs ----

  lemma RunThree(limit: nat, s: State, a: Event, b: Event, c: Event)
    ensures Run(limit, s, [a, b, c]) == Next(limit, Next(limit, Next(limit, s, a), b), c)
  {
    hide Next;
    assert [a, b, c][..2] == [a, b] && [a, b][..1] == [a] && [a][..0] == [];
    assert Run(limit, s, []) == s;
    assert Run(limit, s, [a]) == Next(limit, s, a);
    assert Run(limit, s, [a, b]) == Next(limit, Next(limit, s, a), b);
  }

  // A price is signed on top of the mark exactly when the session is active, the challenge echoes the mark and the
  // price is within the policy; nothing else is ever signed.
  lemma SignsExactly(limit: nat, s: State, id: nat, echo: nat, price: nat, close: bool)
    requires id !in s.exchanges
    ensures var t := Next(limit, s, Sign(id, echo, price, close));
            if s.active && echo == s.mark && price <= limit then
              && id in t.exchanges && t.exchanges[id].Signed? && t.exchanges[id].close == close
              && t.exchanges[id].base + t.exchanges[id].price == s.mark + price && t.exchanges[id].price == price
              && t.highest >= s.mark + price && t.mark == s.mark && t.server == s.server && t.active
            else t == s
  {
  }

  // Between agreeing sides, a payment that the policy allows and the server takes moves both marks by the price and
  // keeps the session, or ends it when it closes the channel; refused, it moves neither.
  lemma ExchangeAlone(limit: nat, s: State, events: seq<Event>, id: nat, price: nat, close: bool, willing: bool)
    requires Agreed(s)
    requires var t := Run(limit, s, events); t.active && !t.finalized && t.mark == t.server && id !in t.exchanges
    requires price <= limit
    ensures var t := Run(limit, s, events);
            var u := Run(limit, t, [Sign(id, t.mark, price, close), Serve(id, willing, true, true), Receive(id)]);
            var taken := willing && (price > 0 || close);
            && u.server == (if taken then t.server + price else t.server)
            && u.paid == (if taken then t.paid + price else t.paid)
            && u.mark == (if taken && !close then t.mark + price else t.mark)
            && (u.active <==> !(taken && close)) && (u.finalized <==> taken && close)
            && u.exchanges == t.exchanges[id := Over]
  {
    var t := Run(limit, s, events);
    RunThree(limit, t, Sign(id, t.mark, price, close), Serve(id, willing, true, true), Receive(id));
  }

  // Once the channel is finalized the server's amount stands for good.
  lemma {:induction false} FinalizedStands(limit: nat, s: State, events: seq<Event>)
    requires s.finalized
    ensures Run(limit, s, events).finalized && Run(limit, s, events).server == s.server
    ensures Run(limit, s, events).paid == s.paid
  {
    if events != [] { FinalizedStands(limit, s, events[..|events| - 1]); }
  }

  // An answer that is lost leaves the client one price behind a server that has it; the client then pays no more.
  lemma LostAnswer(limit: nat, s: State, events: seq<Event>, id: nat, price: nat)
    requires Agreed(s)
    requires var t := Run(limit, s, events); t.active && !t.finalized && t.mark == t.server && id !in t.exchanges
    requires 0 < price <= limit
    ensures var t := Run(limit, s, events);
            var u := Run(limit, t, [Sign(id, t.mark, price, false), Serve(id, true, true, false), Lose(id)]);
            u.server == t.server + price && u.mark == t.mark && u.paid == t.paid + price && u.active
  {
    var t := Run(limit, s, events);
    RunThree(limit, t, Sign(id, t.mark, price, false), Serve(id, true, true, false), Lose(id));
  }

  // A close whose claim the server stored without finishing it is charged, finalizes nothing and, its answer being no
  // success, leaves the session registered.
  lemma UnfinishedClose(limit: nat, s: State, events: seq<Event>, id: nat, price: nat, answered: bool)
    requires Agreed(s)
    requires var t := Run(limit, s, events); t.active && !t.finalized && t.mark == t.server && id !in t.exchanges
    requires price <= limit
    ensures var t := Run(limit, s, events);
            var u := Run(limit, t, [Sign(id, t.mark, price, true), Serve(id, true, false, answered), Receive(id)]);
            && u.server == t.server + price && u.paid == t.paid + price
            && u.mark == t.mark && u.active && !u.finalized && u.exchanges == t.exchanges[id := Over]
  {
    var t := Run(limit, s, events);
    RunThree(limit, t, Sign(id, t.mark, price, true), Serve(id, true, false, answered), Receive(id));
  }
}
