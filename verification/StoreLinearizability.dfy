// Any number of Redis clients together behave like one in-memory store used by one caller at a time.
module StoreLinearizability {
  import opened Options
  import opened HighWater
  import opened PayChannelRecords
  import opened OptimisticTransactions
  import opened PayChannelStores

  // `_mutate` as a transaction watching the channel's key.
  function StoreTxn(op: Op): Txn<Key, Record, Answer> {
    Txn({KeyFor(op)}, view =>
      var effect := RedisEffect(op, Lookup(view, KeyFor(op)));
      Plan(effect.answer, if effect.write.Some? then map[KeyFor(op) := effect.write] else map[]))
  }

  datatype Call = BeginCall(op: Op) | WatchCall | ReadCall | ExecCall | AbandonCall

  function ActionOf(call: Call): Action<Key, Record, Answer> {
    match call
    case BeginCall(op) => Begin(StoreTxn(op))
    case WatchCall => Watch
    case ReadCall => Read
    case ExecCall => Exec
    case AbandonCall => Abandon
  }

  function StepsOf(calls: seq<(nat, Call)>): seq<(nat, Action<Key, Record, Answer>)> {
    seq(|calls|, n requires 0 <= n < |calls| => (calls[n].0, ActionOf(calls[n].1)))
  }

  lemma StoreTxnWellFormed(op: Op)
    ensures WellFormed(StoreTxn(op))
  {
  }

  // On sound records the transaction does what the in-memory store does.
  lemma StoreTxnServes(op: Op, db: Database)
    requires Sound(db)
    ensures var plan := PlanOn(StoreTxn(op), db);
            plan.result == Serve(op, db).0 && Commit(db, plan.writes) == Serve(op, db).1
  {
    hide Mutate, RedisEffect, Valid;
    var key := KeyFor(op);
    assert Lookup(Restrict(db, {key}), key) == Lookup(db, key);
    RedisEffectIsMutate(op, db);
    var effect := RedisEffect(op, Lookup(db, key));
    assert PlanOn(StoreTxn(op), db).result == effect.answer;
    if effect.write.None? {
      NoWrites(db, map[]);
    } else {
      assert Commit(db, map[key := effect.write]) == db[key := effect.write.value];
    }
  }

  ghost predicate IsLogOf(log: seq<Entry<Key, Record, Answer>>, ops: seq<Op>) {
    |ops| == |log| && forall j | 0 <= j < |log| :: log[j].txn == StoreTxn(ops[j])
  }

  lemma {:induction false} SerialIsServeAll(db: Database, log: seq<Entry<Key, Record, Answer>>, ops: seq<Op>)
    requires Sound(db) && IsLogOf(log, ops)
    ensures Serial(db, log) == ServeAll(db, ops)
  {
    if log != [] {
      var n := |log| - 1;
      SerialIsServeAll(db, log[..n], ops[..n]);
      StoreTxnServes(ops[n], ServeAll(db, ops[..n]));
    }
  }

  ghost predicate IsStoreTxn(txn: Txn<Key, Record, Answer>) { exists op :: txn == StoreTxn(op) }

  ghost function OpOf(txn: Txn<Key, Record, Answer>): Op
    requires IsStoreTxn(txn)
  {
    var op :| txn == StoreTxn(op);
    op
  }

  lemma LogOps(db: Database, calls: seq<(nat, Call)>) returns (ops: seq<Op>)
    ensures IsLogOf(Run(Start(db), StepsOf(calls)).log, ops)
  {
    var steps := StepsOf(calls);
    var log := Run(Start(db), steps).log;
    LogHoldsBegunTransactions(db, steps);
    forall j | 0 <= j < |log| ensures IsStoreTxn(log[j].txn) {
      var n :| 0 <= n < |steps| && steps[n].1 == Begin(log[j].txn);
      assert log[j].txn == StoreTxn(calls[n].1.op);
    }
    ops := seq(|log|, j requires 0 <= j < |log| => OpOf(log[j].txn));
  }

  lemma StepsWellFormed(calls: seq<(nat, Call)>)
    ensures var steps := StepsOf(calls);
            forall n | 0 <= n < |steps| && steps[n].1.Begin? :: WellFormed(steps[n].1.txn)
  {
    forall n | 0 <= n < |calls| && calls[n].1.BeginCall? ensures WellFormed(StepsOf(calls)[n].1.txn) {
      StoreTxnWellFormed(calls[n].1.op);
    }
  }

  lemma ExplainedByServe(db: Database, log: seq<Entry<Key, Record, Answer>>, ops: seq<Op>, j: nat)
    requires Sound(db) && IsLogOf(log, ops) && Explains(db, log) && j < |log|
    ensures log[j].result == Serve(ops[j], ServeAll(db, ops[..j])).0
  {
    SerialIsServeAll(db, log[..j], ops[..j]);
    StoreTxnServes(ops[j], ServeAll(db, ops[..j]));
  }

  // A finished call of client `i` is an element of the sequence that no other client can claim, with
  // that element's answer.
  ghost predicate Answered(i: nat, c: Client<Key, Record, Answer>, db: Database,
                           log: seq<Entry<Key, Record, Answer>>, ops: seq<Op>)
    requires Sound(db) && |ops| == |log|
  {
    c.Finished? ==>
      && c.from <= c.at < |ops|
      && log[c.at].client == i
      && c.txn == StoreTxn(ops[c.at])
      && c.result == Serve(ops[c.at], ServeAll(db, ops[..c.at])).0
      && c.retries <= Conflicts(log, c.from, c.at, c.txn.keys)
  }

  // However the clients' WATCH, read and EXEC steps interleave, there is one sequence of operations,
  // the log in order, that a single in-memory store answers with exactly the same results and the same
  // final records.  Every call that returned is one element of that sequence, later than the call's
  // begin, and it retried at most as often as the elements in between wrote its channel.
  lemma RedisMatchesInMemory(db: Database, calls: seq<(nat, Call)>) returns (ops: seq<Op>)
    requires Sound(db)
    ensures var s := Run(Start(db), StepsOf(calls));
            && IsLogOf(s.log, ops)
            && s.db == ServeAll(db, ops)
            && (forall j | 0 <= j < |ops| :: s.log[j].result == Serve(ops[j], ServeAll(db, ops[..j])).0)
            && (forall i | i in s.clients :: Answered(i, s.clients[i], db, s.log, ops))
  {
    var s := Run(Start(db), StepsOf(calls));
    StepsWellFormed(calls);
    Serializable(db, StepsOf(calls));
    ops := LogOps(db, calls);
    SerialIsServeAll(db, s.log, ops);
    forall j | 0 <= j < |ops| ensures s.log[j].result == Serve(ops[j], ServeAll(db, ops[..j])).0 {
      ExplainedByServe(db, s.log, ops, j);
    }
    forall i | i in s.clients ensures Answered(i, s.clients[i], db, s.log, ops) {
      assert ClientOk(s, i, s.clients[i]);
    }
  }
}
