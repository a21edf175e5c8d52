// Cursor scans of the in-memory store: pages are cut out of the sorted channel listing as it stands
// when each page is asked for, while other callers keep creating channels.
module ChannelScan {
  import opened HighWater
  import opened PayChannelRecords
  import opened PayChannelStores
  import opened Ordering

  function Codes(s: string): seq<int> { seq(|s|, i requires 0 <= i < |s| => s[i] as int) }

  lemma CodesInjective(s: string, t: string)
    requires Codes(s) == Codes(t)
    ensures s == t
  {
    assert |Codes(s)| == |Codes(t)|;
    forall i | 0 <= i < |s| ensures s[i] == t[i] {
      assert Codes(s)[i] == Codes(t)[i];
    }
  }

  // The channels of one network in the order of their keys.
  predicate IsListing(ids: seq<string>, db: Database, network: string) {
    && SortedBy(Codes, ids)
    && (forall x | x in ids :: Key(network, x) in db)
    && (forall k | k in db && k.network == network :: k.channelId in ids)
  }

  // `scan` on a listing: the next cursor (zero when the listing is exhausted) and the page.
  function Page<T>(listing: seq<T>, cursor: nat, limit: nat): (nat, seq<T>)
    requires limit > 0
  {
    if cursor >= |listing| then (0, [])
    else if cursor + limit >= |listing| then (0, listing[cursor..])
    else (cursor + limit, listing[cursor..cursor + limit])
  }

  // A page starts at its cursor, is as long as the limit and the listing allow, and names the position
  // after it unless nothing is left.
  lemma PageExactly<T>(listing: seq<T>, cursor: nat, limit: nat)
    requires limit > 0
    ensures var (next, page) := Page(listing, cursor, limit);
            && |page| <= limit
            && (cursor <= |listing| ==> page <= listing[cursor..])
            && (cursor > |listing| ==> page == [])
            && (|page| == limit || cursor + |page| >= |listing|)
            && (next == 0 <==> cursor + |page| >= |listing|)
            && (next != 0 ==> next == cursor + |page|)
  {
  }

  datatype ScanPage = ScanPage(cursor: nat, ids: seq<string>, records: seq<Record>)

  method Scan(store: InMemoryPayChannelStore, network: string, cursor: int, limit: int)
    returns (result: Attempt<ScanPage>, ghost listing: seq<string>)
    ensures result.Raised? <==> cursor < 0 || limit <= 0
    ensures result.Raised? ==> result.error == ValueError
    ensures result.Ok? ==>
              && IsListing(listing, store.records, network)
              && (result.value.cursor, result.value.ids) == Page(listing, cursor, limit)
              && |result.value.records| == |result.value.ids|
              && forall i | 0 <= i < |result.value.ids| ::
                   Key(network, result.value.ids[i]) in store.records
                   && result.value.records[i] == store.records[Key(network, result.value.ids[i])]
  {
    listing := [];
    if cursor < 0 || limit <= 0 {
      return Raised(ValueError), listing;
    }
    var ids: seq<string> := [];
    var keys := store.records.Keys;
    while keys != {}
      invariant keys <= store.records.Keys
      invariant SortedBy(Codes, ids)
      invariant forall x | x in ids :: Key(network, x) in store.records && Key(network, x) !in keys
      invariant forall k | k in store.records && k.network == network :: k in keys || k.channelId in ids
      decreases keys
    {
      var k :| k in keys;
      if k.network == network {
        forall i | 0 <= i < |ids| ensures Codes(ids[i]) != Codes(k.channelId) {
          assert ids[i] in ids && Key(network, ids[i]) !in keys;
          if Codes(ids[i]) == Codes(k.channelId) { CodesInjective(ids[i], k.channelId); }
        }
        InsertSorts(Codes, k.channelId, ids);
        forall x ensures x in Insert(Codes, k.channelId, ids) <==> x == k.channelId || x in ids {
          InsertContains(Codes, k.channelId, ids, x);
        }
        ids := Insert(Codes, k.channelId, ids);
      }
      keys := keys - {k};
    }
    listing := ids;
    var (next, page) := Page(ids, cursor, limit);
    assert forall i | 0 <= i < |page| :: page[i] in ids;
    var records := seq(|page|, i requires 0 <= i < |page| && Key(network, page[i]) in store.records
                               reads store => store.records[Key(network, page[i])]);
    result := Ok(ScanPage(next, page, records));
  }

  // ---- sweeps ----

  // Page after page from `cursor`, `worlds[i]` being the listing at the i-th request; the flag tells
  // whether the cursor came back to zero.
  function Sweep(worlds: seq<seq<string>>, cursor: nat, limit: nat): (seq<seq<string>>, bool)
    requires limit > 0
  {
    if worlds == [] then ([], false)
    else
      var (next, page) := Page(worlds[0], cursor, limit);
      if next == 0 then ([page], true)
      else var (pages, done) := Sweep(worlds[1..], next, limit); ([page] + pages, done)
  }

  // Channels are created between pages but never removed.
  predicate Growing(worlds: seq<seq<string>>) {
    && (forall i | 0 <= i < |worlds| :: SortedBy(Codes, worlds[i]))
    && (forall i | 0 <= i < |worlds| - 1 :: forall x | x in worlds[i] :: x in worlds[i + 1])
  }

  // Creating channels can only push a channel further down the listing.
  lemma {:induction false} RankGrows(a: seq<string>, b: seq<string>, i: nat, j: nat)
    requires SortedBy(Codes, a) && SortedBy(Codes, b) && forall x | x in a :: x in b
    requires i < |a| && j < |b| && a[i] == b[j]
    ensures i <= j
  {
    if i > 0 {
      assert a[i - 1] in a;
      var n :| 0 <= n < |b| && b[n] == a[i - 1];
      assert n > j ==> Less(Keys(Codes, b)[j], Keys(Codes, b)[n]);
      RankGrows(a, b, i - 1, n);
      assert Less(Keys(Codes, a)[i - 1], Keys(Codes, a)[i]);
      LessTrichotomy(Codes(b[n]), Codes(b[j]));
    }
  }

  predicate Returned(pages: seq<seq<string>>, x: string) { exists p | 0 <= p < |pages| :: x in pages[p] }

  // A completed sweep returns every channel that was at or after its cursor when it began.
  lemma {:induction false} SweepReturnsAll(worlds: seq<seq<string>>, cursor: nat, limit: nat, rank: nat)
    requires limit > 0 && worlds != [] && Growing(worlds) && Sweep(worlds, cursor, limit).1
    requires cursor <= rank < |worlds[0]|
    ensures Returned(Sweep(worlds, cursor, limit).0, worlds[0][rank])
  {
    var x := worlds[0][rank];
    var (next, page) := Page(worlds[0], cursor, limit);
    var pages := Sweep(worlds, cursor, limit).0;
    if next == 0 || rank < next {
      assert x == page[rank - cursor];
      assert x in pages[0];
    } else {
      assert x in worlds[0] && x in worlds[1];
      var later :| 0 <= later < |worlds[1]| && worlds[1][later] == x;
      RankGrows(worlds[0], worlds[1], rank, later);
      assert Growing(worlds[1..]);
      SweepReturnsAll(worlds[1..], next, limit, later);
      var rest := Sweep(worlds[1..], next, limit).0;
      var p :| 0 <= p < |rest| && x in rest[p];
      assert pages[p + 1] == rest[p];
    }
  }

  function Flatten(pages: seq<seq<string>>): seq<string> {
    if pages == [] then [] else pages[0] + Flatten(pages[1..])
  }

  // Without creations a completed sweep returns every channel exactly once, in order.
  lemma {:induction false} QuietSweepIsTheListing(worlds: seq<seq<string>>, listing: seq<string>, cursor: nat,
                                                  limit: nat)
    requires limit > 0 && (forall i | 0 <= i < |worlds| :: worlds[i] == listing) && Sweep(worlds, cursor, limit).1
    requires cursor <= |listing|
    ensures Flatten(Sweep(worlds, cursor, limit).0) == listing[cursor..]
  {
    var (next, page) := Page(worlds[0], cursor, limit);
    if next == 0 {
      assert Flatten([page]) == page + Flatten([]);
      assert page == listing[cursor..];
    } else {
      QuietSweepIsTheListing(worlds[1..], listing, next, limit);
      var pages := Sweep(worlds, cursor, limit).0;
      assert pages[1..] == Sweep(worlds[1..], next, limit).0;
      assert listing[cursor..] == page + listing[next..];
    }
  }

  // A sweep is over after as many pages as the largest listing it meets fills.
  lemma {:induction false} SweepEnds(worlds: seq<seq<string>>, cursor: nat, limit: nat, size: nat)
    requires limit > 0 && worlds != [] && (forall i | 0 <= i < |worlds| :: |worlds[i]| <= size)
    requires cursor + |worlds| * limit >= size
    ensures Sweep(worlds, cursor, limit).1
  {
    var (next, page) := Page(worlds[0], cursor, limit);
    if next != 0 {
      if |worlds| > 1 {
        assert |worlds| * limit == limit + |worlds[1..]| * limit;
        SweepEnds(worlds[1..], next, limit, size);
      }
    }
  }
}
