// Redis WATCH / read / MULTI-EXEC with retry, for any number of interleaved clients.  A transaction
// watches a fixed set of keys, reads them, computes a result and some writes from what it read, and
// commits only if no watched key was written since the watch; otherwise it starts again.
module OptimisticTransactions {
  import opened Options

  // Writing `None` deletes the key.
  datatype Plan<K(==), V, R> = Plan(result: R, writes: map<K, Option<V>>)

  datatype Txn<!K(==), !V, !R> = Txn(keys: set<K>, body: map<K, V> -> Plan<K, V, R>)

  datatype Entry<!K(==), !V, !R> = Entry(client: nat, txn: Txn<K, V, R>, result: R, wrote: set<K>)

  // `from` is the length of the log when the call began, `at` when its current watch was placed.
  datatype Client<!K(==), !V, !R> =
    | Ready(txn: Txn<K, V, R>, from: nat, retries: nat)
    | Watching(txn: Txn<K, V, R>, from: nat, retries: nat, at: nat, seen: map<K, nat>)
    | Planned(txn: Txn<K, V, R>, from: nat, retries: nat, at: nat, seen: map<K, nat>, plan: Plan<K, V, R>)
    | Finished(txn: Txn<K, V, R>, from: nat, retries: nat, at: nat, result: R)

  // `log` lists the transactions in the order in which they took effect.
  datatype System<!K(==), !V, !R> =
    System(db: map<K, V>, versions: map<K, nat>, clients: map<nat, Client<K, V, R>>, log: seq<Entry<K, V, R>>)

  datatype Action<!K(==), !V, !R> = Begin(txn: Txn<K, V, R>) | Watch | Read | Exec | Abandon

  function Restrict<K, V>(db: map<K, V>, keys: set<K>): map<K, V> { map k | k in db && k in keys :: db[k] }

  function Commit<K, V>(db: map<K, V>, writes: map<K, Option<V>>): map<K, V> {
    map k | k in db.Keys + writes.Keys && (k in writes ==> writes[k].Some?)
      :: if k in writes then writes[k].value else db[k]
  }

  function PlanOn<K, V, R>(txn: Txn<K, V, R>, db: map<K, V>): Plan<K, V, R> { txn.body(Restrict(db, txn.keys)) }

  function Version<K>(versions: map<K, nat>, k: K): nat { if k in versions then versions[k] else 0 }

  function Bump<K>(versions: map<K, nat>, wrote: set<K>): map<K, nat> {
    map k | k in versions.Keys + wrote :: Version(versions, k) + if k in wrote then 1 else 0
  }

  // A transaction writes only keys it watches.
  ghost predicate WellFormed<K(!new), V(!new), R>(txn: Txn<K, V, R>) {
    forall view :: txn.body(view).writes.Keys <= txn.keys
  }

  predicate Unchanged<K>(versions: map<K, nat>, keys: set<K>, seen: map<K, nat>) {
    forall k | k in keys :: Version(versions, k) == Version(seen, k)
  }

  // One step of client `i`; a step its program counter does not allow changes nothing.
  function Step<K, V, R>(s: System<K, V, R>, i: nat, a: Action<K, V, R>): System<K, V, R> {
    if a.Begin? then
      if i in s.clients && !s.clients[i].Finished? then s
      else s.(clients := s.clients[i := Ready(a.txn, |s.log|, 0)])
    else if i !in s.clients then s
    else
      var c := s.clients[i];
      match a
      case Abandon => s.(clients := s.clients - {i})
      case Watch =>
        if c.Ready? then
          s.(clients := s.clients[i := Watching(c.txn, c.from, c.retries, |s.log|, s.versions)])
        else s
      case Read =>
        if !c.Watching? then s
        else
          var plan := PlanOn(c.txn, s.db);
          if plan.writes == map[] then
            s.(clients := s.clients[i := Finished(c.txn, c.from, c.retries, |s.log|, plan.result)],
               log := s.log + [Entry(i, c.txn, plan.result, {})])
          else s.(clients := s.clients[i := Planned(c.txn, c.from, c.retries, c.at, c.seen, plan)])
      case Exec =>
        if !c.Planned? then s
        else if Unchanged(s.versions, c.txn.keys, c.seen) then
          System(Commit(s.db, c.plan.writes), Bump(s.versions, c.plan.writes.Keys),
                 s.clients[i := Finished(c.txn, c.from, c.retries, |s.log|, c.plan.result)],
                 s.log + [Entry(i, c.txn, c.plan.result, c.plan.writes.Keys)])
        else s.(clients := s.clients[i := Ready(c.txn, c.from, c.retries + 1)])
      case Begin(_) => s
  }

  function Start<K, V, R>(db: map<K, V>): System<K, V, R> { System(db, map[], map[], []) }

  function Run<K, V, R>(s: System<K, V, R>, steps: seq<(nat, Action<K, V, R>)>): System<K, V, R> {
    if steps == [] then s
    else var last := steps[|steps| - 1]; Step(Run(s, steps[..|steps| - 1]), last.0, last.1)
  }

  // ---- the sequential store ----

  function Serial<K, V, R>(db: map<K, V>, log: seq<Entry<K, V, R>>): map<K, V> {
    if log == [] then db
    else var before := Serial(db, log[..|log| - 1]);
         Commit(before, PlanOn(log[|log| - 1].txn, before).writes)
  }

  // Every entry reports what its transaction yields when the log is run one transaction at a time.
  ghost predicate Explains<K(!new), V(!new), R>(db: map<K, V>, log: seq<Entry<K, V, R>>) {
    forall j | 0 <= j < |log| ::
      var plan := PlanOn(log[j].txn, Serial(db, log[..j]));
      log[j].result == plan.result && log[j].wrote == plan.writes.Keys
  }

  // Entries between two log positions that wrote one of `keys`.
  function Conflicts<K, V, R>(log: seq<Entry<K, V, R>>, lo: nat, hi: nat, keys: set<K>): nat
    requires lo <= hi <= |log|
    decreases hi - lo
  {
    if lo == hi then 0
    else Conflicts(log, lo, hi - 1, keys) + if log[hi - 1].wrote * keys != {} then 1 else 0
  }

  // ---- what every reachable state satisfies ----

  ghost predicate NoEntry<K(!new), V(!new), R>(log: seq<Entry<K, V, R>>, i: nat, from: nat, except: int) {
    forall j | from <= j < |log| && j != except :: log[j].client != i
  }

  ghost predicate ClientOk<K(!new), V(!new), R(!new)>(s: System<K, V, R>, i: nat, c: Client<K, V, R>) {
    && WellFormed(c.txn)
    && c.from <= |s.log|
    && (c.Ready? ==> NoEntry(s.log, i, c.from, -1) && c.retries <= Conflicts(s.log, c.from, |s.log|, c.txn.keys))
    && (c.Watching? || c.Planned? ==>
          && NoEntry(s.log, i, c.from, -1)
          && c.from <= c.at <= |s.log|
          && c.retries <= Conflicts(s.log, c.from, c.at, c.txn.keys)
          && (forall k :: Version(c.seen, k) <= Version(s.versions, k))
          && (!Unchanged(s.versions, c.txn.keys, c.seen) ==> Conflicts(s.log, c.at, |s.log|, c.txn.keys) > 0))
    && (c.Planned? && Unchanged(s.versions, c.txn.keys, c.seen) ==> c.plan == PlanOn(c.txn, s.db))
    && (c.Finished? ==>
          && NoEntry(s.log, i, c.from, c.at)
          && c.from <= c.at < |s.log|
          && c.retries <= Conflicts(s.log, c.from, c.at, c.txn.keys)
          && s.log[c.at].client == i && s.log[c.at].txn == c.txn && s.log[c.at].result == c.result)
  }

  ghost predicate Inv<K(!new), V(!new), R(!new)>(db: map<K, V>, s: System<K, V, R>) {
    && s.db == Serial(db, s.log)
    && Explains(db, s.log)
    && (forall i | i in s.clients :: ClientOk(s, i, s.clients[i]))
  }

  lemma ConflictsAppend<K, V, R>(log: seq<Entry<K, V, R>>, e: Entry<K, V, R>, lo: nat, hi: nat, keys: set<K>)
    requires lo <= hi <= |log|
    ensures Conflicts(log + [e], lo, hi, keys) == Conflicts(log, lo, hi, keys)
    decreases hi - lo
  {
  }

  lemma {:induction false} ConflictsSplit<K, V, R>(log: seq<Entry<K, V, R>>, lo: nat, mid: nat, hi: nat, keys: set<K>)
    requires lo <= mid <= hi <= |log|
    ensures Conflicts(log, lo, hi, keys) == Conflicts(log, lo, mid, keys) + Conflicts(log, mid, hi, keys)
    decreases hi - mid
  {
    if mid < hi {
      ConflictsSplit(log, lo, mid, hi - 1, keys);
    }
  }

  lemma SerialAppend<K, V, R>(db: map<K, V>, log: seq<Entry<K, V, R>>, e: Entry<K, V, R>)
    ensures Serial(db, log + [e]) == Commit(Serial(db, log), PlanOn(e.txn, Serial(db, log)).writes)
  {
    assert (log + [e])[..|log|] == log;
  }

  lemma ExplainsAppend<K(!new), V(!new), R(!new)>(db: map<K, V>, log: seq<Entry<K, V, R>>, e: Entry<K, V, R>)
    requires Explains(db, log)
    requires var plan := PlanOn(e.txn, Serial(db, log)); e.result == plan.result && e.wrote == plan.writes.Keys
    ensures Explains(db, log + [e])
  {
    forall j | 0 <= j < |log| + 1
      ensures var plan := PlanOn((log + [e])[j].txn, Serial(db, (log + [e])[..j]));
              (log + [e])[j].result == plan.result && (log + [e])[j].wrote == plan.writes.Keys
    {
      assert (log + [e])[..j] == log[..j];
      if j == |log| { assert log[..j] == log; }
    }
  }

  // The other clients' facts survive one committed entry.
  lemma ClientOkAppend<K(!new), V(!new), R(!new)>(
      s: System<K, V, R>, t: System<K, V, R>, e: Entry<K, V, R>, writes: map<K, Option<V>>, i: nat, c: Client<K, V, R>)
    requires ClientOk(s, i, c) && e.client != i && e.wrote == writes.Keys
    requires t.log == s.log + [e] && t.db == Commit(s.db, writes) && t.versions == Bump(s.versions, writes.Keys)
    ensures ClientOk(t, i, c)
  {
    hide Explains, Serial, PlanOn;
    var n := |s.log|;
    assert Conflicts(t.log, c.from, n + 1, c.txn.keys) >= Conflicts(t.log, c.from, n, c.txn.keys);
    ConflictsAppend(s.log, e, c.from, n, c.txn.keys);
    if !c.Ready? {
      ConflictsAppend(s.log, e, c.from, c.at, c.txn.keys);
    }
    if c.Watching? || c.Planned? {
      WatchOkAppend(s, t, e, writes, c);
    }
  }

  // A commit that touches a watched key is seen by the watch; any other leaves the watched view alone.
  lemma WatchOkAppend<K(!new), V(!new), R(!new)>(
      s: System<K, V, R>, t: System<K, V, R>, e: Entry<K, V, R>, writes: map<K, Option<V>>, c: Client<K, V, R>)
    requires c.Watching? || c.Planned?
    requires c.at <= |s.log| && e.wrote == writes.Keys && forall k :: Version(c.seen, k) <= Version(s.versions, k)
    requires !Unchanged(s.versions, c.txn.keys, c.seen) ==> Conflicts(s.log, c.at, |s.log|, c.txn.keys) > 0
    requires c.Planned? && Unchanged(s.versions, c.txn.keys, c.seen) ==> c.plan == PlanOn(c.txn, s.db)
    requires t.log == s.log + [e] && t.db == Commit(s.db, writes) && t.versions == Bump(s.versions, writes.Keys)
    ensures !Unchanged(t.versions, c.txn.keys, c.seen) ==> Conflicts(t.log, c.at, |t.log|, c.txn.keys) > 0
    ensures c.Planned? && Unchanged(t.versions, c.txn.keys, c.seen) ==> c.plan == PlanOn(c.txn, t.db)
  {
    var n := |s.log|;
    ConflictsAppend(s.log, e, c.at, n, c.txn.keys);
    if e.wrote * c.txn.keys != {} {
      assert Conflicts(t.log, c.at, n + 1, c.txn.keys) > 0;
      var k :| k in e.wrote * c.txn.keys;
      assert Version(t.versions, k) > Version(c.seen, k);
    } else {
      forall k | k in c.txn.keys ensures Version(t.versions, k) == Version(s.versions, k) {
        assert k !in e.wrote * c.txn.keys;
      }
      UntouchedView(s.db, writes, c.txn.keys);
    }
  }

  lemma UntouchedView<K, V>(db: map<K, V>, writes: map<K, Option<V>>, keys: set<K>)
    requires writes.Keys * keys == {}
    ensures Restrict(Commit(db, writes), keys) == Restrict(db, keys)
  {
    assert forall k | k in keys :: k !in writes.Keys * keys;
  }

  // A step that only moves client `i` changes nothing for the rest.
  lemma LocalStep<K(!new), V(!new), R(!new)>(db: map<K, V>, s: System<K, V, R>, t: System<K, V, R>, i: nat)
    requires Inv(db, s)
    requires t == s.(clients := t.clients)
    requires forall j | j in t.clients && j != i :: j in s.clients && t.clients[j] == s.clients[j]
    requires i in t.clients ==> ClientOk(t, i, t.clients[i])
    ensures Inv(db, t)
  {
    forall j | j in t.clients && j != i ensures ClientOk(t, j, t.clients[j]) {
      assert ClientOk(s, j, s.clients[j]);
    }
  }

  // A committing step of client `i` keeps the invariant.
  lemma CommitStep<K(!new), V(!new), R(!new)>(
      db: map<K, V>, s: System<K, V, R>, t: System<K, V, R>, i: nat, plan: Plan<K, V, R>)
    requires Inv(db, s) && i in s.clients && !s.clients[i].Finished? && !s.clients[i].Ready?
    requires plan == PlanOn(s.clients[i].txn, s.db)
    requires var c := s.clients[i];
             t == System(Commit(s.db, plan.writes), Bump(s.versions, plan.writes.Keys),
                         s.clients[i := Finished(c.txn, c.from, c.retries, |s.log|, plan.result)],
                         s.log + [Entry(i, c.txn, plan.result, plan.writes.Keys)])
    ensures Inv(db, t)
  {
    var c := s.clients[i];
    var e := Entry(i, c.txn, plan.result, plan.writes.Keys);
    SerialAppend(db, s.log, e);
    ExplainsAppend(db, s.log, e);
    forall j | j in t.clients ensures ClientOk(t, j, t.clients[j]) {
      if j != i {
        ClientOkAppend(s, t, e, plan.writes, j, s.clients[j]);
      } else {
        ConflictsAppend(s.log, e, c.from, |s.log|, c.txn.keys);
        ConflictsSplit(s.log, c.from, c.at, |s.log|, c.txn.keys);
      }
    }
  }

  lemma NoWrites<K, V>(db: map<K, V>, versions: map<K, nat>)
    ensures Commit(db, map[]) == db && Bump(versions, {}) == versions
  {
  }

  // A watch that saw another client's commit starts over, one retry dearer.
  lemma RetryOk<K(!new), V(!new), R(!new)>(s: System<K, V, R>, t: System<K, V, R>, i: nat, c: Client<K, V, R>)
    requires ClientOk(s, i, c) && c.Planned? && !Unchanged(s.versions, c.txn.keys, c.seen)
    requires t.log == s.log && t.db == s.db && t.versions == s.versions
    ensures ClientOk(t, i, Ready(c.txn, c.from, c.retries + 1))
  {
    ConflictsSplit(s.log, c.from, c.at, |s.log|, c.txn.keys);
  }

  lemma BeginKeepsInv<K(!new), V(!new), R(!new)>(db: map<K, V>, s: System<K, V, R>, i: nat, a: Action<K, V, R>)
    requires Inv(db, s) && a.Begin? && WellFormed(a.txn)
    ensures Inv(db, Step(s, i, a))
  {
    if i !in s.clients || s.clients[i].Finished? {
      LocalStep(db, s, s.(clients := s.clients[i := Ready(a.txn, |s.log|, 0)]), i);
    }
  }

  lemma ReadKeepsInv<K(!new), V(!new), R(!new)>(db: map<K, V>, s: System<K, V, R>, i: nat, a: Action<K, V, R>)
    requires Inv(db, s) && a.Read? && i in s.clients && s.clients[i].Watching?
    ensures Inv(db, Step(s, i, a))
  {
    var c := s.clients[i];
    var plan := PlanOn(c.txn, s.db);
    if plan.writes == map[] {
      NoWrites(s.db, s.versions);
      assert plan.writes.Keys == {};
      CommitStep(db, s, Step(s, i, a), i, plan);
    } else {
      LocalStep(db, s, s.(clients := s.clients[i := Planned(c.txn, c.from, c.retries, c.at, c.seen, plan)]), i);
    }
  }

  lemma ExecKeepsInv<K(!new), V(!new), R(!new)>(db: map<K, V>, s: System<K, V, R>, i: nat, a: Action<K, V, R>)
    requires Inv(db, s) && a.Exec? && i in s.clients && s.clients[i].Planned?
    ensures Inv(db, Step(s, i, a))
  {
    hide Conflicts, Serial, Explains;
    var c := s.clients[i];
    if Unchanged(s.versions, c.txn.keys, c.seen) {
      CommitStep(db, s, Step(s, i, a), i, c.plan);
    } else {
      var t := s.(clients := s.clients[i := Ready(c.txn, c.from, c.retries + 1)]);
      RetryOk(s, t, i, c);
      LocalStep(db, s, t, i);
    }
  }

  lemma WatchKeepsInv<K(!new), V(!new), R(!new)>(db: map<K, V>, s: System<K, V, R>, i: nat, a: Action<K, V, R>)
    requires Inv(db, s) && a.Watch? && i in s.clients && s.clients[i].Ready?
    ensures Inv(db, Step(s, i, a))
  {
    var c := s.clients[i];
    LocalStep(db, s, s.(clients := s.clients[i := Watching(c.txn, c.from, c.retries, |s.log|, s.versions)]), i);
  }

  lemma StepKeepsInv<K(!new), V(!new), R(!new)>(db: map<K, V>, s: System<K, V, R>, i: nat, a: Action<K, V, R>)
    requires Inv(db, s) && (a.Begin? ==> WellFormed(a.txn))
    ensures Inv(db, Step(s, i, a))
  {
    match a
    case Begin(_) => BeginKeepsInv(db, s, i, a);
    case Abandon => if i in s.clients { LocalStep(db, s, s.(clients := s.clients - {i}), i); }
    case Watch => if i in s.clients && s.clients[i].Ready? { WatchKeepsInv(db, s, i, a); }
    case Read => if i in s.clients && s.clients[i].Watching? { ReadKeepsInv(db, s, i, a); }
    case Exec => if i in s.clients && s.clients[i].Planned? { ExecKeepsInv(db, s, i, a); }
  }

  // Serializability: after any interleaving, the database and every answer are those of running the
  // logged transactions one at a time; each finished call owns exactly one log entry, placed between
  // the call's begin and its end, and a call retried at most as often as other entries wrote its keys.
  lemma {:induction false} Serializable<K(!new), V(!new), R(!new)>(db: map<K, V>, steps: seq<(nat, Action<K, V, R>)>)
    requires forall n | 0 <= n < |steps| :: steps[n].1.Begin? ==> WellFormed(steps[n].1.txn)
    ensures Inv(db, Run(Start(db), steps))
  {
    if steps != [] {
      var last := steps[|steps| - 1];
      Serializable(db, steps[..|steps| - 1]);
      StepKeepsInv(db, Run(Start(db), steps[..|steps| - 1]), last.0, last.1);
    }
  }

  lemma CommitWrites<K, V>(db: map<K, V>, writes: map<K, Option<V>>)
    ensures var after := Commit(db, writes);
            && (forall k | k !in writes :: (k in after <==> k in db) && (k in db ==> after[k] == db[k]))
            && (forall k | k in writes ::
                  (k in after <==> writes[k].Some?) && (k in after ==> after[k] == writes[k].value))
  {
  }

  lemma BumpStamps<K(!new)>(versions: map<K, nat>, wrote: set<K>)
    ensures forall k :: Version(Bump(versions, wrote), k) != Version(versions, k) <==> k in wrote
  {
  }

  // A call that no rival interrupts commits at its first attempt: it answers and writes what its
  // transaction makes of the database it found, touches no other key and no other client, and exactly the
  // keys it wrote look changed to those who watch them.
  lemma AloneCommits<K(!new), V(!new), R(!new)>(s: System<K, V, R>, i: nat, txn: Txn<K, V, R>)
    requires i in s.clients ==> s.clients[i].Finished?
    ensures var t := Step(Step(Step(Step(s, i, Begin(txn)), i, Watch), i, Read), i, Exec);
            var plan := PlanOn(txn, s.db);
            && t.clients == s.clients[i := Finished(txn, |s.log|, 0, |s.log|, plan.result)]
            && t.log == s.log + [Entry(i, txn, plan.result, plan.writes.Keys)]
            && (forall k | k !in plan.writes :: (k in t.db <==> k in s.db) && (k in s.db ==> t.db[k] == s.db[k]))
            && (forall k | k in plan.writes ::
                  (k in t.db <==> plan.writes[k].Some?) && (k in t.db ==> t.db[k] == plan.writes[k].value))
            && (forall k :: Version(t.versions, k) != Version(s.versions, k) <==> k in plan.writes)
  {
    hide Commit, Bump, Restrict;
    CommitWrites(s.db, PlanOn(txn, s.db).writes);
    BumpStamps(s.versions, PlanOn(txn, s.db).writes.Keys);
    var watched := Step(Step(s, i, Begin(txn)), i, Watch);
    assert watched.clients == s.clients[i := Watching(txn, |s.log|, 0, |s.log|, s.versions)];
    var read := Step(watched, i, Read);
    var plan := PlanOn(txn, s.db);
    if plan.writes == map[] {
      assert plan.writes.Keys == {};
      assert read.clients == s.clients[i := Finished(txn, |s.log|, 0, |s.log|, plan.result)];
    } else {
      var t := Step(read, i, Exec);
      assert t.versions == Bump(s.versions, plan.writes.Keys);
      assert t.clients == s.clients[i := Finished(txn, |s.log|, 0, |s.log|, plan.result)];
    }
  }

  // ---- whose transactions the log holds ----

  ghost predicate Begun<K(!new), V(!new), R(!new)>(steps: seq<(nat, Action<K, V, R>)>, txn: Txn<K, V, R>) {
    exists n :: 0 <= n < |steps| && steps[n].1 == Begin(txn)
  }

  lemma StepAddsNoTransaction<K(!new), V(!new), R(!new)>(s: System<K, V, R>, i: nat, a: Action<K, V, R>)
    ensures var t := Step(s, i, a);
            && (forall j | j in t.clients ::
                  (j in s.clients && t.clients[j].txn == s.clients[j].txn) || (a.Begin? && t.clients[j].txn == a.txn))
            && (t.log == s.log || (i in s.clients && exists e :: t.log == s.log + [e] && e.txn == s.clients[i].txn))
  {
    var t := Step(s, i, a);
    if t.log != s.log {
      assert t.log == s.log + [t.log[|s.log|]];
    }
  }

  ghost predicate AllBegun<K(!new), V(!new), R(!new)>(steps: seq<(nat, Action<K, V, R>)>, s: System<K, V, R>) {
    && (forall i | i in s.clients :: Begun(steps, s.clients[i].txn))
    && (forall j | 0 <= j < |s.log| :: Begun(steps, s.log[j].txn))
  }

  lemma BegunLater<K(!new), V(!new), R(!new)>(
      steps: seq<(nat, Action<K, V, R>)>, last: (nat, Action<K, V, R>), txn: Txn<K, V, R>)
    requires Begun(steps, txn) || last.1 == Begin(txn)
    ensures Begun(steps + [last], txn)
  {
    if Begun(steps, txn) {
      var n :| 0 <= n < |steps| && steps[n].1 == Begin(txn);
      assert (steps + [last])[n].1 == Begin(txn);
    } else {
      assert (steps + [last])[|steps|].1 == Begin(txn);
    }
  }

  lemma StepAllBegun<K(!new), V(!new), R(!new)>(
      steps: seq<(nat, Action<K, V, R>)>, s: System<K, V, R>, last: (nat, Action<K, V, R>))
    requires AllBegun(steps, s)
    ensures AllBegun(steps + [last], Step(s, last.0, last.1))
  {
    var t := Step(s, last.0, last.1);
    StepAddsNoTransaction(s, last.0, last.1);
    forall i | i in t.clients ensures Begun(steps + [last], t.clients[i].txn) {
      BegunLater(steps, last, t.clients[i].txn);
    }
    forall j | 0 <= j < |t.log| ensures Begun(steps + [last], t.log[j].txn) {
      BegunLater(steps, last, t.log[j].txn);
    }
  }

  // Every logged transaction is one that some client began.
  lemma {:induction false} LogHoldsBegunTransactions<K(!new), V(!new), R(!new)>(
      db: map<K, V>, steps: seq<(nat, Action<K, V, R>)>)
    ensures AllBegun(steps, Run(Start(db), steps))
  {
    if steps != [] {
      var front := steps[..|steps| - 1];
      LogHoldsBegunTransactions(db, front);
      StepAllBegun(front, Run(Start(db), front), steps[|steps| - 1]);
      assert steps == front + [steps[|steps| - 1]];
    }
  }
}
