// One sweep of the redemption worker over a page of the in-memory store, with nobody else at work; the
// protocol modules cover what others may do in between.
module RedemptionWorker {
  import opened Clocks
  import opened Options
  import opened DropAmounts
  import opened HighWater
  import opened PayChannelRecords
  import opened PayChannelStores
  import opened Ordering
  import opened ChannelScan

  const IDLE_REASON := "idle-close"

  // What becomes of one scanned record.
  datatype Fate = Untouched | Closed | Elsewhere | SettleFailed | Redeemed(closed: bool)

  datatype Summary = Summary(inspected: nat, redeemed: nat, finalized: nat, elsewhere: nat, failed: nat)

  predicate IsIdle(r: Record, now: int, idleMs: nat) { !r.finalized && idleMs > 0 && r.updatedAt <= now - idleMs }

  predicate LeaseTaken(leases: map<Key, Lease>, k: Key, now: int) { k in leases && leases[k].expires > now }

  // `settled` is what the settler returns, if it does not fail.
  function FateOf(r: Record, idle: bool, taken: bool, settled: Option<string>): Fate
    requires Valid(r)
  {
    if Value(r.cumulative) <= Value(r.redeemed) then (if idle then Closed else Untouched)
    else if taken then Elsewhere
    else if settled.None? || |settled.value| > MAX_REFERENCE_LENGTH then SettleFailed
    else Redeemed(idle)
  }

  function ClosedAt(r: Record, at: int): Record {
    r.(finalized := true, finalizedAt := Some(at), finalizedReason := Some(IDLE_REASON), updatedAt := at)
  }

  // The record that a sweep at `now` leaves behind.
  function After(r: Record, fate: Fate, settled: Option<string>, now: int): Record {
    var at := Max(r.updatedAt, now);
    match fate
    case Closed => ClosedAt(r, at)
    case Redeemed(closed) =>
      var paid := r.(redeemed := r.cumulative, redeemedAt := Some(at), redemptionReference := settled, updatedAt := at);
      if closed then ClosedAt(paid, at) else paid
    case _ => r
  }

  function Count(s: Summary, fate: Fate): Summary {
    match fate
    case Untouched => s
    case Closed => s.(finalized := s.finalized + 1)
    case Elsewhere => s.(elsewhere := s.elsewhere + 1)
    case SettleFailed => s.(failed := s.failed + 1)
    case Redeemed(closed) => s.(redeemed := s.redeemed + 1, finalized := s.finalized + if closed then 1 else 0)
  }

  function Tally(inspected: nat, fates: seq<Fate>): Summary {
    if fates == [] then Summary(inspected, 0, 0, 0, 0)
    else Count(Tally(inspected, fates[..|fates| - 1]), fates[|fates| - 1])
  }

  // Alone, marking the scanned claim as redeemed fails only for an overlong reference, and the idle
  // finalization never fails.
  lemma RedeemAlone(r: Record, network: string, settled: string, now: int)
    requires Valid(r) && r.network == network && Value(r.cumulative) > Value(r.redeemed)
    ensures var e := Mutate(MarkRedeemed(network, r.channelId, r.cumulative, Some(settled), now), Some(r));
            var paid := After(r, Redeemed(false), Some(settled), now);
            if |settled| > MAX_REFERENCE_LENGTH then e == Effect(Failed(ValidationError), None)
            else Valid(paid) && e == Effect(Updated(paid), Some(paid))
  {
  }

  lemma CloseAlone(r: Record, network: string, now: int)
    requires Valid(r) && r.network == network && !r.finalized
    ensures var e := Mutate(Finalize(network, r.channelId, IDLE_REASON, Some(r.cumulative), now), Some(r));
            var closed := ClosedAt(r, Max(r.updatedAt, now));
            Valid(closed) && e == Effect(Updated(closed), Some(closed))
  {
  }

  // Whatever its fate, a swept record is a possible later state of itself; one that the sweep paid out or
  // closed owes nothing more, and only an idle record is closed.
  lemma SweptRecordEvolves(r: Record, idle: bool, taken: bool, settled: Option<string>, now: int)
    requires Valid(r) && (idle ==> !r.finalized)
    ensures var fate := FateOf(r, idle, taken, settled); var after := After(r, fate, settled, now);
            && Valid(after) && Evolves(r, after)
            && (fate.Redeemed? || fate.Closed? ==> Value(after.redeemed) == Value(after.cumulative))
            && (after.finalized ==> r.finalized || (idle && Value(after.redeemed) == Value(after.cumulative)))
            && (fate.SettleFailed? || fate.Elsewhere? || fate.Untouched? ==> after == r)
  {
    var fate := FateOf(r, idle, taken, settled);
    if fate.Redeemed? {
      RedeemAlone(r, r.network, settled.value, now);
    }
    if fate.Closed? {
      CloseAlone(r, r.network, now);
    }
  }

  // ---- what a sweep does, told from the records before and after it ----

  predicate BecameFinalized(before: Record, after: Record) { !before.finalized && after.finalized }

  predicate RedeemedRose(before: Record, after: Record) {
    IsDigits(before.redeemed) && IsDigits(after.redeemed) && Value(before.redeemed) < Value(after.redeemed)
  }

  // The record owes its recipient something.
  predicate Owes(r: Record) {
    IsDigits(r.cumulative) && IsDigits(r.redeemed) && Value(r.redeemed) < Value(r.cumulative)
  }

  // What a sweep at `now` makes of the record `r`: paid out when it owes something, nobody holds its lease
  // and the settlement's reference fits; finalized when it was open, has rested for the idle time, and owes
  // nothing by then; and otherwise left alone, claim and funding in every case.
  ghost predicate SweptRightly(r: Record, after: Record, taken: bool, settled: Option<string>, now: int, idleMs: nat) {
    && (RedeemedRose(r, after) <==>
          Owes(r) && !taken && settled.Some? && |settled.value| <= MAX_REFERENCE_LENGTH)
    && (BecameFinalized(r, after) <==>
          !r.finalized && idleMs > 0 && now - r.updatedAt >= idleMs && (!Owes(r) || RedeemedRose(r, after)))
    && (RedeemedRose(r, after) ==>
          && after.redeemed == r.cumulative && after.redemptionReference == settled
          && after.redeemedAt == Some(after.updatedAt))
    && (BecameFinalized(r, after) ==>
          after.finalizedReason == Some("idle-close") && after.finalizedAt == Some(after.updatedAt))
    && (after != r ==> after.updatedAt == if now > r.updatedAt then now else r.updatedAt)
    && (!RedeemedRose(r, after) ==> after.redeemed == r.redeemed)
    && (!RedeemedRose(r, after) && !BecameFinalized(r, after) ==> after == r)
    && (r.finalized ==> after.finalized)
    && after.cumulative == r.cumulative && after.signature == r.signature && after.funded == r.funded
  }

  lemma FateIsRight(r: Record, taken: bool, settled: Option<string>, now: int, idleMs: nat)
    requires Valid(r)
    ensures var fate := FateOf(r, IsIdle(r, now, idleMs), taken, settled);
            var after := After(r, fate, settled, now);
            && SweptRightly(r, after, taken, settled, now, idleMs)
            && (fate.Elsewhere? <==> Owes(r) && taken)
            && (fate.SettleFailed? <==> Owes(r) && !taken && !RedeemedRose(r, after))
            && (fate.Redeemed? <==> RedeemedRose(r, after))
            && (fate.Closed? || (fate.Redeemed? && fate.closed) <==> BecameFinalized(r, after))
  {
  }

  predicate Closes(fate: Fate) { fate.Closed? || (fate.Redeemed? && fate.closed) }

  ghost function Where(fates: seq<Fate>, p: Fate -> bool): set<int> { set i | 0 <= i < |fates| && p(fates[i]) }

  lemma WhereGrows(fates: seq<Fate>, p: Fate -> bool)
    requires fates != []
    ensures var n := |fates| - 1; |Where(fates, p)| == |Where(fates[..n], p)| + if p(fates[n]) then 1 else 0
  {
    var n := |fates| - 1;
    var before := Where(fates[..n], p);
    assert Where(fates, p) == if p(fates[n]) then before + {n} else before;
  }

  // The counters are numbers of records, told by their fates.
  lemma {:induction false} TallyCounts(inspected: nat, fates: seq<Fate>)
    ensures var t := Tally(inspected, fates);
            && t.inspected == inspected
            && t.redeemed == |Where(fates, (f: Fate) => f.Redeemed?)| && t.finalized == |Where(fates, Closes)|
            && t.elsewhere == |Where(fates, (f: Fate) => f.Elsewhere?)|
            && t.failed == |Where(fates, (f: Fate) => f.SettleFailed?)|
  {
    if fates != [] {
      TallyCounts(inspected, fates[..|fates| - 1]);
      WhereGrows(fates, (f: Fate) => f.Redeemed?);
      WhereGrows(fates, Closes);
      WhereGrows(fates, (f: Fate) => f.Elsewhere?);
      WhereGrows(fates, (f: Fate) => f.SettleFailed?);
    }
  }

  class PayChannelRedemptionWorker {
    const store: InMemoryPayChannelStore
    const network: string
    const idleMs: nat
    const batchSize: nat
    const leaseSeconds: nat
    var cursor: nat

    constructor (store: InMemoryPayChannelStore, network: string, idleMs: nat, batchSize: nat, leaseSeconds: nat)
      ensures this.store == store && this.network == network && this.idleMs == idleMs
      ensures this.batchSize == batchSize && this.leaseSeconds == leaseSeconds && cursor == 0
    {
      this.store, this.network := store, network;
      this.idleMs, this.batchSize, this.leaseSeconds := idleMs, batchSize, leaseSeconds;
      cursor := 0;
    }

    // A record of this network as the store holds it.
    ghost predicate Stored(r: Record)
      reads store
    {
      var k := KeyOf(network, r.channelId);
      store.Valid() && r.network == network && k in store.records && store.records[k] == r && Valid(r)
      && KeyFor(Get(network, r.channelId)) == k
    }

    method Close(r: Record, now: int) returns (closed: bool)
      requires Stored(r) && !r.finalized
      modifies store`records
      ensures store.Valid() && closed
      ensures store.records == old(store.records)[KeyOf(network, r.channelId) := ClosedAt(r, Max(r.updatedAt, now))]
      ensures Valid(ClosedAt(r, Max(r.updatedAt, now)))
    {
      hide Mutate, Valid, ClosedAt;
      CloseAlone(r, network, now);
      var answer := store.Execute(Finalize(network, r.channelId, IDLE_REASON, Some(r.cumulative), now));
      closed := answer.Updated?;
    }

    method Redeem(r: Record, settled: string, now: int) returns (redeemed: bool)
      requires Stored(r) && Value(r.cumulative) > Value(r.redeemed)
      modifies store`records
      ensures store.Valid() && redeemed == (|settled| <= MAX_REFERENCE_LENGTH)
      ensures var paid := After(r, Redeemed(false), Some(settled), now);
              store.records ==
              if redeemed then old(store.records)[KeyOf(network, r.channelId) := paid] else old(store.records)
      ensures redeemed ==> Valid(After(r, Redeemed(false), Some(settled), now))
    {
      hide Mutate, Valid, After;
      RedeemAlone(r, network, settled, now);
      var answer := store.Execute(MarkRedeemed(network, r.channelId, r.cumulative, Some(settled), now));
      redeemed := answer.Updated?;
    }

    // One record of the page: the record it leaves, what it counts as, and the lease that a failed
    // settlement keeps.
    method SweepRecord(r: Record, settled: Option<string>, now: int, leaseId: nat) returns (fate: Fate)
      requires Stored(r) && leaseSeconds > 0
      modifies store
      ensures store.Valid()
      ensures var k := KeyOf(network, r.channelId);
              && fate == FateOf(r, IsIdle(r, now, idleMs), LeaseTaken(old(store.leases), k, now), settled)
              && store.records == old(store.records)[k := After(r, fate, settled, now)]
              && (forall j | j != k :: Lookup(store.leases, j) == Lookup(old(store.leases), j))
              && (fate.SettleFailed? ==> Lookup(store.leases, k) == Some(Lease(leaseId, now + leaseSeconds * 1000)))
              && (!fate.SettleFailed? ==> LeaseTaken(store.leases, k, now) == LeaseTaken(old(store.leases), k, now))
      ensures var k := KeyOf(network, r.channelId);
              && k in store.records
              && SweptRightly(r, store.records[k], k in old(store.leases) && old(store.leases)[k].expires > now,
                              settled, now, idleMs)
    {
      hide Mutate, Evolves, Sound, SweptRightly;
      FateIsRight(r, LeaseTaken(store.leases, KeyOf(network, r.channelId), now), settled, now, idleMs);
      var k := KeyOf(network, r.channelId);
      var idle := IsIdle(r, now, idleMs);
      assert store.records == store.records[k := r];
      if Value(r.cumulative) <= Value(r.redeemed) {
        if idle {
          var _ := Close(r, now);
        }
        return if idle then Closed else Untouched;
      }
      var lease := store.ClaimRedemption(network, r.channelId, now, leaseSeconds, leaseId);
      if lease.None? {
        return Elsewhere;
      }
      if settled.None? {
        return SettleFailed;
      }
      var redeemed := Redeem(r, settled.value, now);
      if !redeemed {
        return SettleFailed;
      }
      if idle {
        var _ := Close(store.records[k], now);
      }
      store.ReleaseRedemption(network, r.channelId, lease.value);
      fate := Redeemed(idle);
    }

    // One sweep: the cursor moves to the next page, every record of the page meets its fate exactly once,
    // the counters tally the fates, and no other record changes.
    method RunOnce(now: int, settle: Record -> Option<string>, firstLease: nat)
      returns (summary: Summary, ghost listing: seq<string>, ghost fates: seq<Fate>)
      requires store.Valid() && batchSize > 0 && leaseSeconds > 0
      modifies this`cursor, store
      ensures store.Valid() && IsListing(listing, old(store.records), network)
      ensures cursor == Page(listing, old(cursor), batchSize).0
      ensures var page := Page(listing, old(cursor), batchSize).1;
              && Present(page, old(store.records), store.records)
              && RecordsSwept(page, now, settle, old(store.records), old(store.leases), store.records)
              && CountsMatch(page, now, old(store.records), old(store.leases), store.records, summary)
      ensures var page := Page(listing, old(cursor), batchSize).1;
              && |fates| == |page| && summary == Tally(|page|, fates)
              && (forall i | 0 <= i < |page| ::
                    Swept(page[i], fates[i], now, settle, old(store.records), old(store.leases), store.records))
              && (forall k | k !in PageKeys(page) :: Lookup(store.records, k) == Lookup(old(store.records), k))
    {
      hide Mutate, Sound, Evolves, Valid, After, FateOf, IsListing, LeaseTaken, IsIdle, Progress;
      hide RecordsSwept, CountsMatch;
      var scanned: Attempt<ScanPage>;
      scanned, listing := Scan(store, network, cursor, batchSize);
      var ids, records := scanned.value.ids, scanned.value.records;
      PageIsDistinct(listing, store.records, network, cursor, batchSize);
      cursor := scanned.value.cursor;
      summary, fates := Summary(|records|, 0, 0, 0, 0), [];
      ghost var before, held := store.records, store.leases;
      ProgressStarts(ids, now, settle, before, held);
      var i := 0;
      while i < |records|
        invariant 0 <= i <= |records| && |fates| == i && store.Valid() && summary == Tally(|records|, fates)
        invariant Progress(ids, fates, now, settle, before, held, store.records, store.leases)
        modifies store
      {
        NextIsStored(ids, fates, now, settle, before, held, store.records, store.leases);
        ghost var recordsNow, leasesNow := store.records, store.leases;
        var fate := SweepRecord(records[i], settle(records[i]), now, firstLease + i);
        ProgressGrows(ids, fates, fate, now, settle, before, held, recordsNow, leasesNow, store.records, store.leases);
        assert (fates + [fate])[..i] == fates;
        fates := fates + [fate];
        summary := Count(summary, fate);
        i := i + 1;
      }
      ProgressEnds(ids, fates, now, settle, before, held, store.records, store.leases);
      PageIsSwept(ids, fates, now, settle, before, held, store.records);
    }

    ghost function At(ids: seq<string>, i: int): Key
      requires 0 <= i < |ids|
    {
      Key(network, ids[i])
    }

    ghost predicate HeldAt(k: Key, held: map<Key, Lease>, now: int) { k in held && held[k].expires > now }

    ghost predicate Present(ids: seq<string>, before: Database, after: Database) {
      forall i | 0 <= i < |ids| :: At(ids, i) in before && At(ids, i) in after
    }

    // Every record of the page was swept rightly.
    ghost predicate RecordsSwept(ids: seq<string>, now: int, settle: Record -> Option<string>, before: Database,
                                 held: map<Key, Lease>, after: Database)
      requires Present(ids, before, after)
    {
      forall i | 0 <= i < |ids| ::
        var k := At(ids, i);
        SweptRightly(before[k], after[k], HeldAt(k, held, now), settle(before[k]), now, idleMs)
    }

    // The counters are the numbers of records that were paid out, that were finalized, whose lease somebody
    // held, and that owe something still for want of a settlement.
    ghost predicate CountsMatch(ids: seq<string>, now: int, before: Database, held: map<Key, Lease>, after: Database,
                                summary: Summary)
      requires Present(ids, before, after)
    {
      && summary.inspected == |ids|
      && summary.redeemed == |set i | 0 <= i < |ids| && RedeemedRose(before[At(ids, i)], after[At(ids, i)])|
      && summary.finalized == |set i | 0 <= i < |ids| && BecameFinalized(before[At(ids, i)], after[At(ids, i)])|
      && summary.elsewhere == |set i | 0 <= i < |ids| && Owes(before[At(ids, i)]) && HeldAt(At(ids, i), held, now)|
      && summary.failed ==
           |set i | 0 <= i < |ids| && Owes(before[At(ids, i)]) && !HeldAt(At(ids, i), held, now)
                    && !RedeemedRose(before[At(ids, i)], after[At(ids, i)])|
    }

    // What a fate says about the record before and after.
    ghost predicate Tells(fate: Fate, before: Record, after: Record, taken: bool) {
      && (fate.Elsewhere? <==> Owes(before) && taken)
      && (fate.SettleFailed? <==> Owes(before) && !taken && !RedeemedRose(before, after))
      && (fate.Redeemed? <==> RedeemedRose(before, after))
      && (Closes(fate) <==> BecameFinalized(before, after))
    }

    lemma OneIsSwept(id: string, fate: Fate, now: int, settle: Record -> Option<string>, before: Database,
                     held: map<Key, Lease>, after: Database)
      requires Swept(id, fate, now, settle, before, held, after)
      ensures var k := Key(network, id);
              && k in before && k in after && Tells(fate, before[k], after[k], HeldAt(k, held, now))
              && SweptRightly(before[k], after[k], HeldAt(k, held, now), settle(before[k]), now, idleMs)
    {
      hide FateOf, After, Valid, IsIdle, SweptRightly, RedeemedRose, BecameFinalized, Owes;
      var k := Key(network, id);
      FateIsRight(before[k], LeaseTaken(held, k, now), settle(before[k]), now, idleMs);
    }

    lemma PageIsSwept(ids: seq<string>, fates: seq<Fate>, now: int, settle: Record -> Option<string>,
                      before: Database, held: map<Key, Lease>, after: Database)
      requires |fates| == |ids|
      requires forall i | 0 <= i < |ids| :: Swept(ids[i], fates[i], now, settle, before, held, after)
      ensures Present(ids, before, after) && RecordsSwept(ids, now, settle, before, held, after)
      ensures CountsMatch(ids, now, before, held, after, Tally(|ids|, fates))
    {
      hide Swept, SweptRightly, Tells, Tally, CountsMatch, HeldAt;
      forall i | 0 <= i < |ids|
        ensures var k := At(ids, i);
                && k in before && k in after && Tells(fates[i], before[k], after[k], HeldAt(k, held, now))
                && SweptRightly(before[k], after[k], HeldAt(k, held, now), settle(before[k]), now, idleMs)
      {
        OneIsSwept(ids[i], fates[i], now, settle, before, held, after);
      }
      SameNumbers(ids, fates, now, before, held, after);
    }

    lemma SameNumbers(ids: seq<string>, fates: seq<Fate>, now: int, before: Database, held: map<Key, Lease>,
                      after: Database)
      requires |fates| == |ids| && Present(ids, before, after)
      requires forall i | 0 <= i < |ids| ::
                 Tells(fates[i], before[At(ids, i)], after[At(ids, i)], HeldAt(At(ids, i), held, now))
      ensures CountsMatch(ids, now, before, held, after, Tally(|ids|, fates))
    {
      hide RedeemedRose, BecameFinalized, Owes, HeldAt, Tally, Closes;
      TallyCounts(|ids|, fates);
      assert Where(fates, (f: Fate) => f.Redeemed?)
          == set i | 0 <= i < |ids| && RedeemedRose(before[At(ids, i)], after[At(ids, i)]);
      assert Where(fates, Closes) == set i | 0 <= i < |ids| && BecameFinalized(before[At(ids, i)], after[At(ids, i)]);
      assert Where(fates, (f: Fate) => f.Elsewhere?)
          == set i | 0 <= i < |ids| && Owes(before[At(ids, i)]) && HeldAt(At(ids, i), held, now);
      assert Where(fates, (f: Fate) => f.SettleFailed?)
          == set i | 0 <= i < |ids| && Owes(before[At(ids, i)]) && !HeldAt(At(ids, i), held, now)
                     && !RedeemedRose(before[At(ids, i)], after[At(ids, i)]);
    }

    // The first records of a page are swept and nothing outside them has changed.
    ghost predicate Progress(ids: seq<string>, fates: seq<Fate>, now: int, settle: Record -> Option<string>,
                             before: Database, held: map<Key, Lease>, records: Database, leases: map<Key, Lease>) {
      && |fates| <= |ids|
      && (forall j | 0 <= j < |fates| :: Swept(ids[j], fates[j], now, settle, before, held, records))
      && (forall k | k !in PageKeys(ids[..|fates|]) ::
            Lookup(records, k) == Lookup(before, k) && Lookup(leases, k) == Lookup(held, k))
    }

    lemma ProgressStarts(ids: seq<string>, now: int, settle: Record -> Option<string>, before: Database,
                         held: map<Key, Lease>)
      ensures Progress(ids, [], now, settle, before, held, before, held)
    {
    }

    lemma ProgressEnds(ids: seq<string>, fates: seq<Fate>, now: int, settle: Record -> Option<string>,
                       before: Database, held: map<Key, Lease>, records: Database, leases: map<Key, Lease>)
      requires Progress(ids, fates, now, settle, before, held, records, leases) && |fates| == |ids|
      ensures forall j | 0 <= j < |ids| :: Swept(ids[j], fates[j], now, settle, before, held, records)
      ensures forall k | k !in PageKeys(ids) :: Lookup(records, k) == Lookup(before, k)
    {
      assert ids[..|fates|] == ids;
    }

    lemma NextIsStored(ids: seq<string>, fates: seq<Fate>, now: int, settle: Record -> Option<string>,
                       before: Database, held: map<Key, Lease>, records: Database, leases: map<Key, Lease>)
      requires Progress(ids, fates, now, settle, before, held, records, leases) && |fates| < |ids|
      requires Sound(before) && Key(network, ids[|fates|]) in before
      requires forall a, b | 0 <= a < b < |ids| :: ids[a] != ids[b]
      ensures var k := Key(network, ids[|fates|]);
              && k in records && records[k] == before[k] && Valid(before[k]) && before[k].network == network
              && KeyOf(network, before[k].channelId) == k
              && (forall t: int :: LeaseTaken(leases, k, t) == LeaseTaken(held, k, t))
    {
      hide Swept;
      NextIsUntouched(ids, |fates|, network);
    }

    lemma ProgressGrows(ids: seq<string>, fates: seq<Fate>, fate: Fate, now: int, settle: Record -> Option<string>,
                        before: Database, held: map<Key, Lease>, records: Database, leases: map<Key, Lease>,
                        records': Database, leases': map<Key, Lease>)
      requires Progress(ids, fates, now, settle, before, held, records, leases) && |fates| < |ids|
      requires forall a, b | 0 <= a < b < |ids| :: ids[a] != ids[b]
      requires var k := Key(network, ids[|fates|]);
               && k in before && Valid(before[k])
               && fate == FateOf(before[k], IsIdle(before[k], now, idleMs), LeaseTaken(held, k, now), settle(before[k]))
               && records' == records[k := After(before[k], fate, settle(before[k]), now)]
               && forall j | j != k :: Lookup(leases', j) == Lookup(leases, j)
      ensures Progress(ids, fates + [fate], now, settle, before, held, records', leases')
    {
      hide FateOf, After, Valid, IsIdle, LeaseTaken;
      KeysGrow(ids, |fates|);
      forall j | 0 <= j < |fates| ensures Swept(ids[j], fates[j], now, settle, before, held, records') {
        assert ids[j] != ids[|fates|];
      }
    }

    ghost predicate Swept(id: string, fate: Fate, now: int, settle: Record -> Option<string>, before: Database,
                          held: map<Key, Lease>, after: Database) {
      var k := Key(network, id);
      && k in before && k in after && Valid(before[k])
      && fate == FateOf(before[k], IsIdle(before[k], now, idleMs), LeaseTaken(held, k, now), settle(before[k]))
      && after[k] == After(before[k], fate, settle(before[k]), now)
    }

    ghost function PageKeys(ids: seq<string>): set<Key> { set i | 0 <= i < |ids| :: Key(network, ids[i]) }

    lemma KeysGrow(ids: seq<string>, i: nat)
      requires i < |ids|
      ensures PageKeys(ids[..i + 1]) == PageKeys(ids[..i]) + {Key(network, ids[i])}
    {
      assert forall j | 0 <= j < i :: ids[..i + 1][j] == ids[..i][j];
      assert ids[..i + 1][i] == ids[i];
    }

    lemma NextIsUntouched(ids: seq<string>, i: nat, network: string)
      requires i < |ids| && forall a, b | 0 <= a < b < |ids| :: ids[a] != ids[b]
      ensures Key(network, ids[i]) !in PageKeys(ids[..i])
    {
    }
  }

  // A page never lists a channel twice.
  lemma PageIsDistinct(listing: seq<string>, db: Database, network: string, cursor: nat, limit: nat)
    requires IsListing(listing, db, network) && limit > 0
    ensures var page := Page(listing, cursor, limit).1; forall i, j | 0 <= i < j < |page| :: page[i] != page[j]
  {
    forall i, j | 0 <= i < j < |listing| ensures listing[i] != listing[j] {
      assert Less(Keys(Codes, listing)[i], Keys(Codes, listing)[j]);
      LessTrichotomy(Codes(listing[i]), Codes(listing[i]));
    }
  }
}
