// Single use of PayChannel session challenges.  Times are in microseconds, lifetimes in seconds; the
// claim of a challenge is stored with a lifetime computed from the challenge's own expiry.
module ChallengeClaims {
  import opened Clocks
  import opened Options
  import opened HighWater
  import opened PythonText

  const RETENTION_SKEW_SECONDS := 60

  // Claim keys with the moment they lapse; `None` never lapses.
  type Claims = map<string, Option<int>>

  // `_challenge_retention_seconds`.
  function RetentionSeconds(expires: Option<int>, now: int): (r: Option<int>)
    ensures r.Some? <==> expires.Some?
    ensures r.Some? ==>
              && r.value * SECOND >= RETENTION_SKEW_SECONDS * SECOND
              && now + r.value * SECOND >= expires.value + RETENTION_SKEW_SECONDS * SECOND
              && (r.value - RETENTION_SKEW_SECONDS - 1) * SECOND
                 < (if expires.value > now then expires.value - now else 0)
  {
    if expires.None? then None
    else Some(Max(1, Max(0, CeilSeconds(expires.value - now)) + RETENTION_SKEW_SECONDS))
  }

  predicate Live(claims: Claims, key: string, now: int) {
    key in claims && (claims[key].Some? ==> claims[key].value > now)
  }

  function Until(retention: Option<int>, now: int): Option<int> {
    if retention.None? then None else Some(now + retention.value * SECOND)
  }

  function Purged(claims: Claims, now: int): Claims { map k | k in claims && Live(claims, k, now) :: claims[k] }

  // One claim by the in-memory store, which first drops every lapsed entry.
  function PurgingClaim(claims: Claims, key: string, retention: Option<int>, now: int): (bool, Claims) {
    var kept := Purged(claims, now);
    if key in kept then (false, kept) else (true, kept[key := Until(retention, now)])
  }

  // One claim by a store in which entries lapse on their own and are never dropped.
  function LapsingClaim(claims: Claims, key: string, retention: Option<int>, now: int): (bool, Claims) {
    if Live(claims, key, now) then (false, claims) else (true, claims[key := Until(retention, now)])
  }

  class InMemoryChallengeReplayStore {
    var claims: Claims

    constructor ()
      ensures claims == map[]
    {
      claims := map[];
    }

    // Refuses a blank identifier and a non-positive lifetime before anything changes.  The identifier's
    // SHA-256 digest is taken to be collision-free and so is left out of the key.
    method ClaimChallenge(id: string, retention: Option<int>, now: int) returns (claimed: Attempt<bool>)
      modifies this
      ensures Strip(id) == "" || (retention.Some? && retention.value <= 0) ==>
                claimed == Raised(ValueError) && claims == old(claims)
      ensures Strip(id) != "" && (retention.Some? ==> retention.value > 0) ==>
                (claimed, claims) ==
                  var (won, after) := PurgingClaim(old(claims), Strip(id), retention, now); (Ok(won), after)
    {
      var key := Strip(id);
      if key == "" || (retention.Some? && retention.value <= 0) {
        return Raised(ValueError);
      }
      var expired: set<string> := set k | k in claims && claims[k].Some? && claims[k].value <= now;
      ghost var before := claims;
      while expired != {}
        invariant forall k | k in expired :: k in before && !Live(before, k, now)
        invariant claims == map k | k in before && (Live(before, k, now) || k in expired) :: before[k]
        decreases expired
      {
        var k :| k in expired;
        claims := claims - {k};
        expired := expired - {k};
      }
      assert claims == Purged(before, now);
      if key in claims {
        return Ok(false);
      }
      claims := claims[key := if retention.None? then None else Some(now + retention.value * SECOND)];
      claimed := Ok(true);
    }
  }

  // ---- lazy purging cannot be observed ----

  datatype Call = Call(key: string, retention: Option<int>, at: int)

  predicate ClockNeverFallsBack(calls: seq<Call>) {
    forall i, j | 0 <= i < j < |calls| :: calls[i].at <= calls[j].at
  }

  function PurgingAnswers(claims: Claims, calls: seq<Call>): seq<bool>
    decreases |calls|
  {
    if calls == [] then []
    else
      var (won, after) := PurgingClaim(claims, calls[0].key, calls[0].retention, calls[0].at);
      [won] + PurgingAnswers(after, calls[1..])
  }

  function LapsingAnswers(claims: Claims, calls: seq<Call>): seq<bool>
    decreases |calls|
  {
    if calls == [] then []
    else
      var (won, after) := LapsingClaim(claims, calls[0].key, calls[0].retention, calls[0].at);
      [won] + LapsingAnswers(after, calls[1..])
  }

  // Two stores that no claim at `now` or later can tell apart.
  predicate Alike(a: Claims, b: Claims, now: int) {
    && (forall k | k in a && Live(a, k, now) :: k in b && a[k] == b[k])
    && (forall k | k in b && Live(b, k, now) :: k in a && a[k] == b[k])
  }

  lemma {:induction false} PurgingAnswersAlike(a: Claims, b: Claims, now: int, calls: seq<Call>)
    requires Alike(a, b, now) && ClockNeverFallsBack(calls)
    requires calls != [] ==> now <= calls[0].at
    ensures PurgingAnswers(a, calls) == LapsingAnswers(b, calls)
    decreases |calls|
  {
    if calls != [] {
      var c := calls[0];
      var a' := PurgingClaim(a, c.key, c.retention, c.at).1;
      var b' := LapsingClaim(b, c.key, c.retention, c.at).1;
      assert Live(a, c.key, c.at) <==> Live(b, c.key, c.at);
      assert Alike(a', b', c.at);
      PurgingAnswersAlike(a', b', c.at, calls[1..]);
    }
  }

  // While the clock does not fall back, purging at each claim gives exactly the answers of entries
  // that simply lapse.
  lemma PurgingIsUnobservable(claims: Claims, calls: seq<Call>)
    requires ClockNeverFallsBack(calls)
    ensures PurgingAnswers(claims, calls) == LapsingAnswers(claims, calls)
  {
    if calls != [] {
      PurgingAnswersAlike(claims, claims, calls[0].at, calls);
    }
  }

  // ---- requests racing for challenges ----

  // A request that passed the envelope check at `checkedAt`; then its retention is computed.
  datatype Request =
    | Checked(key: string, checkedAt: int)
    | Computed(key: string, checkedAt: int, retention: Option<int>)

  // `won` lists the successful claims in order.
  datatype State = State(now: int, claims: Claims, requests: map<nat, Request>, won: seq<string>)

  datatype Event = Tick(clock: int) | Check(id: nat, key: string) | Compute(id: nat) | Claim(id: nat) | Stop(id: nat)

  // One event.  `expiry` gives each challenge the expiry authenticated in its identifier (`None`: it
  // carries none); a request claims at most `grace` after its envelope check.
  function Next(expiry: string -> Option<int>, grace: int, s: State, e: Event): State {
    match e
    case Tick(clock) => if clock < s.now then s else s.(now := clock)
    case Check(id, key) =>
      if id in s.requests || (expiry(key).Some? && expiry(key).value <= s.now) then s
      else s.(requests := s.requests[id := Checked(key, s.now)])
    case Compute(id) =>
      if id !in s.requests || !s.requests[id].Checked? then s
      else
        var q := s.requests[id];
        s.(requests := s.requests[id := Computed(q.key, q.checkedAt, RetentionSeconds(expiry(q.key), s.now))])
    case Claim(id) =>
      if id !in s.requests || !s.requests[id].Computed? || s.now > s.requests[id].checkedAt + grace then s
      else
        var q := s.requests[id];
        var (claimed, after) := PurgingClaim(s.claims, q.key, q.retention, s.now);
        State(s.now, after, s.requests - {id}, if claimed then s.won + [q.key] else s.won)
    case Stop(id) => s.(requests := s.requests - {id})
  }

  function Run(expiry: string -> Option<int>, grace: int, s: State, events: seq<Event>): State {
    if events == [] then s else Next(expiry, grace, Run(expiry, grace, s, events[..|events| - 1]), events[|events| - 1])
  }

  function Start(now: int): State { State(now, map[], map[], []) }

  // No claim of this challenge can come any more, or its entry outlives every claim that can.
  predicate Settled(expiry: string -> Option<int>, s: State, key: string) {
    if expiry(key).None? then key in s.claims && s.claims[key].None?
    else
      || s.now >= expiry(key).value + RETENTION_SKEW_SECONDS * SECOND
      || (key in s.claims && s.claims[key].Some?
          && s.claims[key].value >= expiry(key).value + RETENTION_SKEW_SECONDS * SECOND)
  }

  predicate RequestOk(expiry: string -> Option<int>, now: int, q: Request) {
    && q.checkedAt <= now
    && (expiry(q.key).Some? ==> q.checkedAt < expiry(q.key).value)
    && (q.Computed? ==>
          && (q.retention.Some? <==> expiry(q.key).Some?)
          && (q.retention.Some? ==>
                now + q.retention.value * SECOND >= expiry(q.key).value + RETENTION_SKEW_SECONDS * SECOND))
  }

  predicate Inv(expiry: string -> Option<int>, s: State) {
    && (forall id | id in s.requests :: RequestOk(expiry, s.now, s.requests[id]))
    && (forall i | 0 <= i < |s.won| :: Settled(expiry, s, s.won[i]))
    && (forall i, j | 0 <= i < j < |s.won| :: s.won[i] != s.won[j])
  }

  lemma NextKeepsInv(expiry: string -> Option<int>, grace: int, s: State, e: Event)
    requires grace <= RETENTION_SKEW_SECONDS * SECOND && Inv(expiry, s)
    ensures Inv(expiry, Next(expiry, grace, s, e))
  {
    if e.Claim? && e.id in s.requests && s.requests[e.id].Computed? && s.now <= s.requests[e.id].checkedAt + grace {
      var q := s.requests[e.id];
      assert Live(s.claims, q.key, s.now) || q.key !in s.won;
    }
  }

  lemma {:induction false} RunKeepsInv(expiry: string -> Option<int>, grace: int, now: int, events: seq<Event>)
    requires grace <= RETENTION_SKEW_SECONDS * SECOND
    ensures Inv(expiry, Run(expiry, grace, Start(now), events))
  {
    if events != [] {
      RunKeepsInv(expiry, grace, now, events[..|events| - 1]);
      NextKeepsInv(expiry, grace, Run(expiry, grace, Start(now), events[..|events| - 1]), events[|events| - 1]);
    }
  }

  predicate NoneTwice(won: seq<string>) { forall i, j | 0 <= i < j < |won| :: won[i] != won[j] }

  // No challenge is ever claimed twice, under any interleaving of requests and clock readings.
  ghost predicate ClaimsAtMostOnce(grace: int) {
    forall expiry: string -> Option<int>, now: int, events: seq<Event> ::
      NoneTwice(Run(expiry, grace, Start(now), events).won)
  }

  // A request alone with an unexpired challenge that nobody holds claims it, and from then on nobody
  // can until 60 seconds after its expiry, or ever if it has none.
  lemma FreshClaimWins(expiry: string -> Option<int>, grace: nat, s: State, id: nat, key: string)
    requires id !in s.requests && !Live(s.claims, key, s.now)
    requires expiry(key).Some? ==> s.now < expiry(key).value
    ensures var t := Next(expiry, grace, Next(expiry, grace, Next(expiry, grace, s, Check(id, key)), Compute(id)),
                          Claim(id));
            && t.won == s.won + [key] && t.requests == s.requests && t.now == s.now
            && (forall at | s.now <= at ::
                  expiry(key).None? || at < expiry(key).value + RETENTION_SKEW_SECONDS * SECOND
                  ==> Live(t.claims, key, at))
            && (forall k, at | k != key && s.now <= at :: Live(t.claims, k, at) <==> Live(s.claims, k, at))
  {
    hide RetentionSeconds;
    var computed := Next(expiry, grace, Next(expiry, grace, s, Check(id, key)), Compute(id));
    assert computed.requests == s.requests[id := Computed(key, s.now, RetentionSeconds(expiry(key), s.now))];
    assert computed.requests - {id} == s.requests;
  }

  // A claim of a challenge that is held changes nothing but the request, which is over.
  lemma HeldClaimLoses(expiry: string -> Option<int>, grace: nat, s: State, id: nat, key: string)
    requires id !in s.requests && Live(s.claims, key, s.now)
    requires expiry(key).Some? ==> s.now < expiry(key).value
    ensures var t := Next(expiry, grace, Next(expiry, grace, Next(expiry, grace, s, Check(id, key)), Compute(id)),
                          Claim(id));
            && t.won == s.won && t.requests == s.requests
            && (forall k, at | s.now <= at :: Live(t.claims, k, at) <==> Live(s.claims, k, at))
  {
    hide RetentionSeconds;
    var computed := Next(expiry, grace, Next(expiry, grace, s, Check(id, key)), Compute(id));
    assert computed.requests == s.requests[id := Computed(key, s.now, RetentionSeconds(expiry(key), s.now))];
    assert computed.requests - {id} == s.requests;
  }

  // An expired challenge is not taken up.
  lemma ExpiredIsNotChecked(expiry: string -> Option<int>, grace: nat, s: State, id: nat, key: string)
    requires id !in s.requests
    ensures id in Next(expiry, grace, s, Check(id, key)).requests
            <==> (expiry(key).Some? ==> s.now < expiry(key).value)
  {
  }

  lemma RetentionAtExpiry(expires: int)
    ensures RetentionSeconds(Some(expires), expires) == Some(RETENTION_SKEW_SECONDS)
  {
  }

  lemma ReclaimAfterLapse(key: string, at: int)
    ensures var lapse := at + RETENTION_SKEW_SECONDS * SECOND;
            PurgingClaim(map[], key, Some(RETENTION_SKEW_SECONDS), at) == (true, map[key := Some(lapse)])
            && PurgingClaim(map[key := Some(lapse)], key, Some(RETENTION_SKEW_SECONDS), lapse).0
  {
    assert Purged(map[], at) == map[];
  }

  lemma RunAppend(expiry: string -> Option<int>, grace: int, s: State, events: seq<Event>, e: Event)
    ensures Run(expiry, grace, s, events + [e]) == Next(expiry, grace, Run(expiry, grace, s, events), e)
  {
    assert (events + [e])[..|events|] == events;
  }

  // Two requests check just before expiry; the first claims at expiry.
  lemma FirstClaim(expiry: string -> Option<int>, grace: int, key: string) returns (events: seq<Event>)
    requires grace > RETENTION_SKEW_SECONDS * SECOND && expiry(key) == Some(1)
    ensures Run(expiry, grace, Start(0), events) ==
              State(1, map[key := Some(1 + RETENTION_SKEW_SECONDS * SECOND)], map[1 := Checked(key, 0)], [key])
  {
    hide PurgingClaim, RetentionSeconds;
    events := [];
    RunAppend(expiry, grace, Start(0), events, Check(0, key));
    events := events + [Check(0, key)];
    RunAppend(expiry, grace, Start(0), events, Check(1, key));
    events := events + [Check(1, key)];
    RunAppend(expiry, grace, Start(0), events, Tick(1));
    events := events + [Tick(1)];
    RunAppend(expiry, grace, Start(0), events, Compute(0));
    events := events + [Compute(0)];
    RetentionAtExpiry(1);
    ReclaimAfterLapse(key, 1);
    RunAppend(expiry, grace, Start(0), events, Claim(0));
    events := events + [Claim(0)];
    assert Run(expiry, grace, Start(0), events).requests == map[1 := Checked(key, 0)];
  }

  // With more time than the skew margin between check and claim, a slow request claims a second time:
  // the first entry has just lapsed.
  lemma SlowClaimRepeats(grace: int)
    requires grace > RETENTION_SKEW_SECONDS * SECOND
    ensures !ClaimsAtMostOnce(grace)
  {
    hide PurgingClaim, RetentionSeconds;
    var key, lapse := "challenge", 1 + RETENTION_SKEW_SECONDS * SECOND;
    var expiry: string -> Option<int> := (k: string) => Some(1);
    var events := FirstClaim(expiry, grace, key);
    RetentionAtExpiry(1);
    ReclaimAfterLapse(key, 1);
    RunAppend(expiry, grace, Start(0), events, Compute(1));
    events := events + [Compute(1)];
    RunAppend(expiry, grace, Start(0), events, Tick(lapse));
    events := events + [Tick(lapse)];
    RunAppend(expiry, grace, Start(0), events, Claim(1));
    events := events + [Claim(1)];
    var won := Run(expiry, grace, Start(0), events).won;
    assert won == [key, key];
    assert won[0] == won[1];
    assert !NoneTwice(won);
  }

  // Single use holds exactly when a request never takes longer from its envelope check to its claim
  // than the skew margin that retention adds.
  lemma ClaimedAtMostOnceExactly(grace: int)
    ensures ClaimsAtMostOnce(grace) <==> grace <= RETENTION_SKEW_SECONDS * SECOND
  {
    if grace > RETENTION_SKEW_SECONDS * SECOND {
      SlowClaimRepeats(grace);
    } else {
      forall expiry: string -> Option<int>, now: int, events: seq<Event>
        ensures NoneTwice(Run(expiry, grace, Start(now), events).won)
      {
        RunKeepsInv(expiry, grace, now, events);
      }
    }
  }
}
