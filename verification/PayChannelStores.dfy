// The two stores.  The in-memory store runs each mutation under a lock; the Redis store runs it in a
// WATCH / MULTI compare-and-set loop against whatever its rivals commit in between.
module PayChannelStores {
  import opened Options
  import opened HighWater
  import opened PayChannelRecords
  import opened OptimisticTransactions

  type Database = map<Key, Record>

  // Every stored record is valid and sits under its own key.
  predicate Sound(db: Database) {
    forall k | k in db :: Valid(db[k]) && KeyOf(db[k].network, db[k].channelId) == k
  }

  function Lookup<K, V>(db: map<K, V>, k: K): Option<V> { if k in db then Some(db[k]) else None }

  // One operation of the lock-based store, as a function of its records.
  function Serve(op: Op, db: Database): (Answer, Database)
    requires Sound(db)
  {
    var key := KeyFor(op);
    var effect := Mutate(op, Lookup(db, key));
    (effect.answer, if effect.write.Some? then db[key := effect.write.value] else db)
  }

  lemma ServeSound(op: Op, db: Database)
    requires Sound(db)
    ensures Sound(Serve(op, db).1)
    ensures forall k | k in db :: k in Serve(op, db).1 && Evolves(db[k], Serve(op, db).1[k])
    ensures forall k | k != KeyFor(op) :: Lookup(Serve(op, db).1, k) == Lookup(db, k)
  {
    hide Mutate, Valid, Evolves;
    forall k | k in db ensures Evolves(db[k], db[k]) {
      EvolvesReflexive(db[k]);
    }
    MutateKeepsRecords(op, Lookup(db, KeyFor(op)));
  }

  function ServeAll(db: Database, ops: seq<Op>): (r: Database)
    requires Sound(db)
    ensures Sound(r)
  {
    if ops == [] then db
    else
      var before := ServeAll(db, ops[..|ops| - 1]);
      ServeSound(ops[|ops| - 1], before);
      Serve(ops[|ops| - 1], before).1
  }

  lemma ServeAllAppend(db: Database, ops: seq<Op>, op: Op)
    requires Sound(db)
    ensures ServeAll(db, ops + [op]) == Serve(op, ServeAll(db, ops)).1
  {
    assert (ops + [op])[..|ops|] == ops;
  }

  // Over any sequence of operations, with any clocks, no record disappears and each one only evolves.
  lemma {:induction false} RecordsOnlyEvolve(db: Database, ops: seq<Op>, k: Key)
    requires Sound(db) && k in db
    ensures k in ServeAll(db, ops) && Evolves(db[k], ServeAll(db, ops)[k])
  {
    if ops != [] {
      var before := ServeAll(db, ops[..|ops| - 1]);
      RecordsOnlyEvolve(db, ops[..|ops| - 1], k);
      ServeSound(ops[|ops| - 1], before);
      EvolvesTransitive(db[k], before[k], ServeAll(db, ops)[k]);
    }
  }

  // ---- redemption leases ----

  datatype Lease = Lease(id: nat, expires: int)

  // `claim_redemption` at clock reading `now` (milliseconds) with a fresh identifier.
  function ClaimLease(leases: map<Key, Lease>, k: Key, now: int, seconds: int, id: nat)
    : (Option<nat>, map<Key, Lease>)
  {
    if k in leases && leases[k].expires > now then (None, leases)
    else (Some(id), leases[k := Lease(id, now + seconds * 1000)])
  }

  // `release_redemption`: compare and delete.
  function ReleaseLease(leases: map<Key, Lease>, k: Key, id: nat): map<Key, Lease> {
    if k in leases && leases[k].id == id then leases - {k} else leases
  }

  // A lease that was granted refuses every other claim of its channel exactly until its seconds are over
  // or its own identifier releases it; it never stands in another channel's way.
  lemma LeaseStandsExactly(leases: map<Key, Lease>, k: Key, now: int, seconds: int, id: nat, at: int, other: nat)
    requires ClaimLease(leases, k, now, seconds, id).0 == Some(id)
    ensures var held := ClaimLease(leases, k, now, seconds, id).1;
            && (ClaimLease(held, k, at, seconds, other).0 == Some(other) <==> at >= now + seconds * 1000)
            && (ClaimLease(held, k, at, seconds, other).0 == None <==> at < now + seconds * 1000)
            && ClaimLease(ReleaseLease(held, k, id), k, at, seconds, other).0 == Some(other)
            && (other != id ==> ReleaseLease(held, k, other) == held)
            && (forall j | j != k :: ReleaseLease(held, j, id) == ReleaseLease(leases, j, id)[k := held[k]])
            && (forall j | j != k :: Lookup(ReleaseLease(held, k, id), j) == Lookup(leases, j) == Lookup(held, j))
  {
  }

  class InMemoryPayChannelStore {
    var records: Database
    var leases: map<Key, Lease>

    ghost predicate Valid()
      reads this
    {
      Sound(records)
    }

    constructor ()
      ensures Valid() && records == map[] && leases == map[]
    {
      records, leases := map[], map[];
    }

    // `create`, `get`, `advance`, `mark_redeemed` and `finalize` all have this shape.
    method Execute(op: Op) returns (answer: Answer)
      requires Valid()
      modifies this`records
      ensures Valid() && (answer, records) == Serve(op, old(records))
    {
      var key := KeyFor(op);
      ServeSound(op, records);
      var effect := Mutate(op, if key in records then Some(records[key]) else None);
      if effect.write.Some? {
        records := records[key := effect.write.value];
      }
      answer := effect.answer;
    }

    method ClaimRedemption(network: string, channelId: string, now: int, seconds: int, newId: nat)
      returns (lease: Option<nat>)
      requires seconds > 0
      modifies this`leases
      ensures (lease, leases) == ClaimLease(old(leases), KeyOf(network, channelId), now, seconds, newId)
    {
      var key := KeyOf(network, channelId);
      if key in leases && leases[key].expires > now {
        return None;
      }
      leases := leases[key := Lease(newId, now + seconds * 1000)];
      lease := Some(newId);
    }

    method ReleaseRedemption(network: string, channelId: string, id: nat)
      modifies this`leases
      ensures leases == ReleaseLease(old(leases), KeyOf(network, channelId), id)
    {
      var key := KeyOf(network, channelId);
      if key in leases && leases[key].id == id {
        leases := leases - {key};
      }
    }
  }

  // ---- the Redis store ----

  // `_deserialize`: stored text is validated again on every read.
  function Deserialize(raw: Option<Record>): Attempt<Option<Record>> {
    if raw.None? then Ok(None)
    else
      var a := Validate(raw.value);
      if a.Ok? then Ok(Some(a.value)) else Raised(CorruptChannelState)
  }

  // What the Redis store computes from the raw value it read.
  function RedisEffect(op: Op, raw: Option<Record>): Effect {
    var parsed := Deserialize(raw);
    if Refusal(op).Some? then Effect(Failed(Refusal(op).value), None)
    else if parsed.Raised? then Effect(Failed(parsed.error), None)
    else if op.Get? && parsed.value.Some? then
      var r := Require(parsed.value, op.network, op.channelId);
      if r.Ok? then Effect(Found(Some(r.value)), None) else Effect(Failed(r.error), None)
    else Mutate(op, parsed.value)
  }

  // On sound records, re-reading through validation and re-checking the key change nothing.
  lemma RedisEffectIsMutate(op: Op, db: Database)
    requires Sound(db)
    ensures RedisEffect(op, Lookup(db, KeyFor(op))) == Mutate(op, Lookup(db, KeyFor(op)))
  {
  }

  // Between two states of a server versions only grow, and an unchanged version means an unchanged value.
  ghost predicate Tracked(v0: map<Key, nat>, db0: Database, v1: map<Key, nat>, db1: Database) {
    forall k ::
      && Version(v0, k) <= Version(v1, k)
      && (Version(v0, k) == Version(v1, k) ==> Lookup(db0, k) == Lookup(db1, k))
  }

  // An operation that took effect after `before`, in a history that has since grown to `now`.
  lemma TookTurn(before: seq<Op>, op: Op, now: seq<Op>, rivals: seq<Op>, later: seq<Op>)
    requires before + [op] <= now && now + rivals == before + [op] + later
    ensures now[..|before|] == before && now[|before|] == op
    ensures now[..|before|] + now[|before| + 1..] + rivals == before + later
  {
    assert now[|before| + 1..] + rivals == (now + rivals)[|before| + 1..] == later;
  }

  // A Redis server shared with rivals: `rivals` is the (unknown) schedule of operations that other
  // clients will still commit and `versions` counts the writes of each key.  The history lists every
  // operation in the order in which it took effect.
  class RedisServer {
    var db: Database
    var versions: map<Key, nat>
    var rivals: seq<Op>
    ghost const origin: Database
    ghost var history: seq<Op>

    ghost predicate Valid()
      reads this
    {
      Sound(origin) && db == ServeAll(origin, history)
    }

    constructor (schedule: seq<Op>)
      ensures Valid() && db == map[] && rivals == schedule && origin == map[] && history == []
    {
      db, versions, rivals := map[], map[], schedule;
      origin, history := map[], [];
    }

    function VersionOf(k: Key): nat
      reads this`versions
    {
      Version(versions, k)
    }

    // SET inside EXEC, or a rival's.
    method Store(op: Op, r: Record)
      requires Valid() && Mutate(op, Lookup(db, KeyFor(op))).write == Some(r)
      modifies this`db, this`versions, this`history
      ensures Valid() && history == old(history) + [op]
      ensures Tracked(old(versions), old(db), versions, db)
      ensures Version(old(versions), KeyFor(op)) < Version(versions, KeyFor(op))
    {
      hide Mutate, PayChannelRecords.Valid;
      ServeAllAppend(origin, history, op);
      db := db[KeyFor(op) := r];
      versions := versions[KeyFor(op) := VersionOf(KeyFor(op)) + 1];
      history := history + [op];
    }

    // An operation that stores nothing takes effect wherever it reads.
    ghost method Observe(op: Op)
      requires Valid() && Mutate(op, Lookup(db, KeyFor(op))).write.None?
      modifies this`history
      ensures Valid() && history == old(history) + [op]
    {
      hide Mutate, PayChannelRecords.Valid;
      ServeAllAppend(origin, history, op);
      history := history + [op];
    }

    // The next scheduled rival commits.
    method ServeRival()
      requires Valid() && rivals != []
      modifies this
      ensures Valid() && history == old(history) + [old(rivals)[0]] && rivals == old(rivals)[1..]
      ensures Tracked(old(versions), old(db), versions, db)
    {
      hide Mutate, PayChannelRecords.Valid;
      var op := rivals[0];
      var effect := Mutate(op, Lookup(db, KeyFor(op)));
      if effect.write.Some? {
        Store(op, effect.write.value);
      } else {
        Observe(op);
      }
      rivals := rivals[1..];
    }

    // An await: any number of the scheduled rivals commit here.
    method Await()
      requires Valid()
      modifies this
      ensures Valid() && |rivals| <= |old(rivals)| && old(history) <= history
      ensures history + rivals == old(history) + old(rivals)
      ensures Tracked(old(versions), old(db), versions, db)
      ensures |rivals| == |old(rivals)| ==> versions == old(versions)
    {
      var n: nat :| n <= |rivals|;
      ghost var all := history + rivals;
      for i := 0 to n
        invariant n <= |old(rivals)| && |rivals| == |old(rivals)| - i
        invariant Valid() && history + rivals == all && old(history) <= history
        invariant Tracked(old(versions), old(db), versions, db)
        invariant i == 0 ==> versions == old(versions)
      {
        ServeRival();
      }
    }
  }

  class RedisPayChannelStore {
    const server: RedisServer

    constructor (server: RedisServer)
      ensures this.server == server
    {
      this.server := server;
    }

    // The operation took effect at `turn`, rivals that committed before and after it aside.
    ghost predicate TookEffect(op: Op, answer: Answer, begun: seq<Op>, all: seq<Op>, turn: nat)
      requires server.Valid()
      reads server
    {
      && |begun| <= turn < |server.history| && server.history[turn] == op
      && answer == Serve(op, ServeAll(server.origin, server.history[..turn])).0
      && server.history[..turn] + server.history[turn + 1..] + server.rivals == begun + all
    }

    // One pass through the retry loop: WATCH, GET, then EXEC if the mutation stores something.  No
    // answer means a watch error, which only a rival's commit can cause.
    method Attempt(op: Op) returns (answer: Option<Answer>, ghost turn: nat)
      requires server.Valid()
      modifies server
      ensures server.Valid() && old(server.history) < server.history
      ensures answer.Some? ==> TookEffect(op, answer.value, old(server.history), old(server.rivals), turn)
      ensures answer.None? ==> server.history + server.rivals == old(server.history + server.rivals)
    {
      hide Mutate, RedisEffect, PayChannelRecords.Valid;
      var watched := server.VersionOf(KeyFor(op));
      server.Await();
      var effect := RedisEffect(op, Lookup(server.db, KeyFor(op)));
      RedisEffectIsMutate(op, server.db);
      turn := |server.history|;
      ghost var before := server.history;
      ghost var later := server.rivals;
      if effect.write.None? {
        server.Observe(op);
        server.Await();
        TookTurn(before, op, server.history, server.rivals, later);
        return Some(effect.answer), turn;
      }
      server.Await();
      if server.VersionOf(KeyFor(op)) != watched {
        return None, turn;
      }
      turn := |server.history|;
      before := server.history;
      server.Store(op, effect.write.value);
      TookTurn(before, op, server.history, server.rivals, server.rivals);
      answer := Some(effect.answer);
    }

    // `_mutate`: between the call and its return the server commits some rivals and, at one point
    // `turn` among them, this operation; the answer is what the in-memory store would have said at that
    // point.  Each retry is paid for by a rival that committed before it.
    method Execute(op: Op) returns (answer: Answer, retries: nat, ghost turn: nat)
      requires server.Valid()
      modifies server
      ensures server.Valid()
      ensures TookEffect(op, answer, old(server.history), old(server.rivals), turn)
      ensures |old(server.history)| + retries <= turn
    {
      ghost var begun, all := server.history, server.rivals;
      retries := 0;
      while true
        invariant server.Valid() && server.history + server.rivals == begun + all
        invariant |begun| + retries <= |server.history|
        decreases |server.rivals|
      {
        ghost var h, r := server.history, server.rivals;
        var result: Option<Answer>;
        result, turn := Attempt(op);
        if result.Some? {
          return result.value, retries, turn;
        }
        assert |server.history| + |server.rivals| == |h| + |r|;
        retries := retries + 1;
      }
    }
  }
}
