/** One bucket per client, created on first use and evicted after inactivity. */
module Eviction {
  import opened TokenBucket
  import opened Wrappers

  type ClientID = string
  type Buckets = map<ClientID, Bucket>

  const LIMITS := Rates(1000000.0, 1000000.0)
  const MAX_INACTIVE := 2.0

  /**
    `made` is the clock when a new limiter is created, should there be none. A cleanup reads the clock once
    for each limiter it looks at.
   */
  datatype Event =
    | Ask(id: ClientID, made: real, call: Call)
    | CleanUp(begun: real, ended: real, at: ClientID -> real)

  function Serve(k: Rates, m: Buckets, e: Event): (bool, Buckets)
    requires e.Ask?
  {
    var b := if e.id in m then m[e.id] else NewBucket(k, e.made);
    var (allowed, b') := Decide(k, b, e.call);
    (allowed, m[e.id := b'])
  }

  function Evict(m: Buckets, idle: real, at: ClientID -> real): Buckets {
    map id | id in m && at(id) - m[id].lastRefill < idle :: m[id]
  }

  /** A cleanup keeps exactly the buckets that are not idle for so long at their reading, as they are. */
  lemma NothingIdleIsLeft(k: Rates, idle: real, m: Buckets, e: Event)
    requires e.CleanUp?
    ensures var kept := Step(k, Some(idle), m, e);
            && (forall id :: id in kept <==> id in m && e.at(id) - m[id].lastRefill < idle)
            && (forall id | id in kept :: kept[id] == m[id] && e.at(id) - kept[id].lastRefill < idle)
  {
  }

  /** `idle` is None for a limiter that never evicts. */
  function Step(k: Rates, idle: Option<real>, m: Buckets, e: Event): Buckets {
    match e
    case Ask(_, _, _) => Serve(k, m, e).1
    case CleanUp(_, _, at) => if idle.Some? then Evict(m, idle.value, at) else m
  }

  function Decisions(k: Rates, idle: Option<real>, m: Buckets, es: seq<Event>): seq<bool>
    decreases |es|
  {
    if es == [] then []
    else (if es[0].Ask? then [Serve(k, m, es[0]).0] else []) + Decisions(k, idle, Step(k, idle, m, es[0]), es[1..])
  }

  function Run(k: Rates, idle: Option<real>, m: Buckets, es: seq<Event>): Buckets
    decreases |es|
  {
    if es == [] then m else Run(k, idle, Step(k, idle, m, es[0]), es[1..])
  }

  // ----- the clock -----

  function Ends(e: Event): real {
    match e
    case Ask(_, _, call) => call.ended
    case CleanUp(_, ended, _) => ended
  }

  ghost predicate Follows(now: real, e: Event) {
    match e
    case Ask(_, made, call) => now <= made <= call.begun <= call.ended
    case CleanUp(begun, ended, at) => now <= begun <= ended && forall id :: begun <= at(id) <= ended
  }

  ghost predicate InOrder(now: real, es: seq<Event>)
    decreases |es|
  {
    es == [] || (Follows(now, es[0]) && InOrder(Ends(es[0]), es[1..]))
  }

  // ----- when eviction cannot be told -----

  ghost predicate InRange(k: Rates, now: real, m: Buckets) {
    forall id | id in m :: 0.0 <= m[id].tokens <= k.max && m[id].lastRefill <= now
  }

  /** What is still there is as in the reference, and what has gone has been idle long enough. */
  ghost predicate Agrees(idle: real, now: real, m: Buckets, reference: Buckets) {
    forall id :: (id in m ==> id in reference && m[id] == reference[id])
                 && (id in reference && id !in m ==> idle <= now - reference[id].lastRefill)
  }

  /** A bucket idle for so long refills completely, as a new one does. */
  lemma LongIdleIsFull(k: Rates, idle: real, b: Bucket, made: real, c: Call)
    requires k.Valid() && Accrued(k, idle) >= k.max && 0.0 <= b.tokens
    requires idle <= c.begun - b.lastRefill && made <= c.begun
    ensures Decide(k, b, c) == Decide(k, NewBucket(k, made), c)
  {
    hide Accrued;
    var waited := c.begun - b.lastRefill;
    AccruedIsAdditive(k, idle, waited - idle);
    assert idle + (waited - idle) == waited;
    NothingIsLost(k, waited - idle);
    NothingIsLost(k, c.begun - made);
  }

  lemma AskKeepsRange(k: Rates, now: real, m: Buckets, e: Event)
    requires k.Valid() && e.Ask? && Follows(now, e) && InRange(k, now, m)
    ensures InRange(k, Ends(e), Serve(k, m, e).1)
  {
    hide Decide, Accrued, Refilled;
    var b := if e.id in m then m[e.id] else NewBucket(k, e.made);
    DecideKeepsRange(k, b, e.call);
    DecideEnds(k, b, e.call);
  }

  lemma DecideEnds(k: Rates, b: Bucket, c: Call)
    ensures Decide(k, b, c).1.lastRefill == c.ended
  {
  }

  lemma AskAgrees(k: Rates, idle: real, now: real, m: Buckets, reference: Buckets, e: Event)
    requires k.Valid() && Accrued(k, idle) >= k.max && e.Ask? && Follows(now, e)
    requires InRange(k, now, reference) && Agrees(idle, now, m, reference)
    ensures Serve(k, m, e).0 == Serve(k, reference, e).0
    ensures Agrees(idle, Ends(e), Serve(k, m, e).1, Serve(k, reference, e).1)
  {
    hide Decide, Accrued, NewBucket;
    if e.id in reference && e.id !in m {
      LongIdleIsFull(k, idle, reference[e.id], e.made, e.call);
    }
  }

  lemma {:induction false} NothingToTell(k: Rates, idle: real, now: real, m: Buckets, reference: Buckets,
                                         es: seq<Event>)
    requires k.Valid() && Accrued(k, idle) >= k.max && InOrder(now, es)
    requires InRange(k, now, reference) && Agrees(idle, now, m, reference)
    ensures Decisions(k, Some(idle), m, es) == Decisions(k, None, reference, es)
    decreases |es|
  {
    hide Accrued, Decide, InRange, Agrees, Serve, Evict;
    if es != [] {
      var e := es[0];
      if e.Ask? {
        AskAgrees(k, idle, now, m, reference, e);
        AskKeepsRange(k, now, reference, e);
      } else {
        CleanUpAgrees(k, idle, now, m, reference, e);
      }
      NothingToTell(k, idle, Ends(e), Step(k, Some(idle), m, e), Step(k, None, reference, e), es[1..]);
    }
  }

  lemma CleanUpAgrees(k: Rates, idle: real, now: real, m: Buckets, reference: Buckets, e: Event)
    requires e.CleanUp? && Follows(now, e) && InRange(k, now, reference) && Agrees(idle, now, m, reference)
    ensures Agrees(idle, Ends(e), Evict(m, idle, e.at), reference) && InRange(k, Ends(e), reference)
  {
  }

  /** A limiter whose buckets never hold a whole token grants nothing, whatever it evicts. */
  lemma {:induction false} NothingIsGranted(k: Rates, idle: Option<real>, now: real, m: Buckets, es: seq<Event>)
    requires k.Valid() && k.max < 1.0 && InOrder(now, es)
    ensures Decisions(k, idle, m, es) == seq(|Decisions(k, None, map[], es)|, i => false)
    decreases |es|
  {
    if es != [] {
      var e := es[0];
      NothingIsGranted(k, idle, Ends(e), Step(k, idle, m, e), es[1..]);
      NothingIsGranted(k, None, Ends(e), Step(k, None, map[], e), es[1..]);
    }
  }

  // ----- when it can -----

  lemma {:induction false} RunConcat(k: Rates, idle: Option<real>, m: Buckets, a: seq<Event>, b: seq<Event>)
    ensures Run(k, idle, m, a + b) == Run(k, idle, Run(k, idle, m, a), b)
    ensures Decisions(k, idle, m, a + b) == Decisions(k, idle, m, a) + Decisions(k, idle, Run(k, idle, m, a), b)
    decreases |a|
  {
    hide Serve, Step;
    if a == [] {
      assert a + b == b;
    } else {
      assert (a + b)[1..] == a[1..] + b;
      RunConcat(k, idle, Step(k, idle, m, a[0]), a[1..], b);
    }
  }

  // A client that empties its bucket, stays away until it is evicted, and comes back.

  const VISITOR: ClientID := "visitor"

  function AskAt(t: real): Event {
    Ask(VISITOR, t, Call(t, t))
  }

  function Burst(n: nat, t: real): seq<Event> {
    seq(n, i => AskAt(t))
  }

  function CleanUpAt(t: real): Event {
    CleanUp(t, t, id => t)
  }

  /** The tokens the visitor would find at `t`. */
  function Found(k: Rates, m: Buckets, t: real): real {
    if VISITOR in m then Min(k.max, m[VISITOR].tokens + Accrued(k, t - m[VISITOR].lastRefill)) else k.max
  }

  lemma AskFinds(k: Rates, m: Buckets, t: real)
    requires k.Valid()
    ensures var (allowed, m') := Serve(k, m, AskAt(t));
            var left := if allowed then Found(k, m, t) - 1.0 else Found(k, m, t);
            && (allowed <==> Found(k, m, t) >= 1.0)
            && m' == m[VISITOR := Bucket(left, t)]
            && (left <= k.max ==> Found(k, m', t) == left)
  {
    assert Accrued(k, t - t) == 0.0;
  }

  ghost predicate AllGranted(ds: seq<bool>) {
    forall i | 0 <= i < |ds| :: ds[i]
  }

  lemma AllGrantedConcat(a: seq<bool>, b: seq<bool>)
    ensures AllGranted(a + b) <==> AllGranted(a) && AllGranted(b)
  {
    if AllGranted(a + b) {
      forall i | 0 <= i < |a| ensures a[i] {
        assert (a + b)[i] == a[i];
      }
      forall i | 0 <= i < |b| ensures b[i] {
        assert (a + b)[|a| + i] == b[i];
      }
    }
  }

  lemma BurstUnfolds(n: nat, t: real)
    requires n > 0
    ensures Burst(n, t) != [] && Burst(n, t)[0] == AskAt(t) && Burst(n, t)[1..] == Burst(n - 1, t)
  {
  }

  lemma FoundIsCapped(k: Rates, m: Buckets, t: real)
    ensures Found(k, m, t) <= k.max
  {
  }

  /** A burst the bucket can pay for is granted and paid for. */
  lemma {:induction false} BurstIsGranted(k: Rates, idle: Option<real>, m: Buckets, n: nat, t: real)
    requires k.Valid() && 0 < n && n as real <= Found(k, m, t)
    ensures |Decisions(k, idle, m, Burst(n, t))| == n && AllGranted(Decisions(k, idle, m, Burst(n, t)))
    ensures Run(k, idle, m, Burst(n, t)) == m[VISITOR := Bucket(Found(k, m, t) - n as real, t)]
    decreases n
  {
    hide Serve, Found, Accrued, Burst;
    AskFinds(k, m, t);
    FoundIsCapped(k, m, t);
    BurstUnfolds(n, t);
    var m' := Step(k, idle, m, AskAt(t));
    assert m' == Serve(k, m, AskAt(t)).1;
    if n == 1 {
      NoBurst(k, idle, m', t);
    } else {
      BurstIsGranted(k, idle, m', n - 1, t);
      assert m[VISITOR := m'[VISITOR]] == m';
    }
  }

  lemma NoBurst(k: Rates, idle: Option<real>, m: Buckets, t: real)
    ensures Decisions(k, idle, m, Burst(0, t)) == [] && Run(k, idle, m, Burst(0, t)) == m
  {
  }

  lemma {:induction false} BurstNeedsTokens(k: Rates, idle: Option<real>, m: Buckets, n: nat, t: real)
    requires k.Valid() && 0 < n && Found(k, m, t) < n as real
    ensures !AllGranted(Decisions(k, idle, m, Burst(n, t)))
    decreases n
  {
    hide Serve, Found, Accrued, Burst;
    AskFinds(k, m, t);
    FoundIsCapped(k, m, t);
    BurstUnfolds(n, t);
    var m' := Step(k, idle, m, AskAt(t));
    assert m' == Serve(k, m, AskAt(t)).1;
    var first, others := [Serve(k, m, AskAt(t)).0], Decisions(k, idle, m', Burst(n - 1, t));
    AllGrantedConcat(first, others);
    assert Decisions(k, idle, m, Burst(n, t)) == first + others;
    assert AllGranted(first) <==> first[0];
    if Found(k, m, t) >= 1.0 {
      BurstNeedsTokens(k, idle, m', n - 1, t);
    }
  }

  // The part of a full bucket that no whole grant can use, and how long it takes to make up a whole token.

  function Whole(k: Rates): nat
    requires k.Valid()
  {
    k.max.Floor
  }

  function Remnant(k: Rates): real
    requires k.Valid()
  {
    k.max - Whole(k) as real
  }

  function Wait(k: Rates): real
    requires k.Valid()
  {
    if k.perSecond > 0.0 then (1.0 - Remnant(k)) / k.perSecond else 0.0
  }

  lemma WaitMakesOne(k: Rates)
    requires k.Valid()
    ensures Wait(k) >= 0.0
    ensures if k.perSecond > 0.0 then Accrued(k, Wait(k)) == 1.0 - Remnant(k) else Wait(k) == 0.0
  {
  }

  /** Asks for a full bucket's worth, and for one more when that can have accrued. */
  function Spree(k: Rates, t: real): seq<Event>
    requires k.Valid()
  {
    Burst(Whole(k), t) + if k.perSecond > 0.0 then Burst(1, t + Wait(k)) else []
  }

  /** What a spree leaves of a full bucket. */
  function Drained(k: Rates, t: real): Bucket
    requires k.Valid()
  {
    Bucket(if k.perSecond > 0.0 then 0.0 else Remnant(k), t + Wait(k))
  }

  /** All of it is granted exactly if the bucket is full at first. */
  lemma SpreeNeedsFullBucket(k: Rates, idle: Option<real>, m: Buckets, t: real)
    requires k.Valid() && k.max >= 1.0
    requires k.perSecond == 0.0 && Found(k, m, t) < k.max ==> Found(k, m, t) < 1.0
    ensures AllGranted(Decisions(k, idle, m, Spree(k, t))) <==> Found(k, m, t) == k.max
    ensures Found(k, m, t) == k.max ==> Run(k, idle, m, Spree(k, t)) == m[VISITOR := Drained(k, t)]
  {
    hide Burst, Decisions, Run, Wait, AllGranted, Found, Accrued;
    FoundIsCapped(k, m, t);
    WaitMakesOne(k);
    var n := Whole(k);
    if k.perSecond == 0.0 {
      assert Burst(n, t) + [] == Burst(n, t);
    } else {
      RunConcat(k, idle, m, Burst(n, t), Burst(1, t + Wait(k)));
      AllGrantedConcat(Decisions(k, idle, m, Burst(n, t)),
                       Decisions(k, idle, Run(k, idle, m, Burst(n, t)), Burst(1, t + Wait(k))));
    }
    if Found(k, m, t) < n as real {
      BurstNeedsTokens(k, idle, m, n, t);
    } else {
      BurstIsGranted(k, idle, m, n, t);
      if k.perSecond > 0.0 {
        LastAskNeedsRemnant(k, idle, m, t);
      }
    }
  }

  lemma LastAskNeedsRemnant(k: Rates, idle: Option<real>, m: Buckets, t: real)
    requires k.Valid() && k.max >= 1.0 && k.perSecond > 0.0 && Whole(k) as real <= Found(k, m, t) <= k.max
    ensures var m' := m[VISITOR := Bucket(Found(k, m, t) - Whole(k) as real, t)];
            && (AllGranted(Decisions(k, idle, m', Burst(1, t + Wait(k)))) <==> Found(k, m, t) == k.max)
            && (Found(k, m, t) == k.max ==>
                  Run(k, idle, m', Burst(1, t + Wait(k))) == m[VISITOR := Drained(k, t)])
  {
    hide Burst, Decisions, Run, Wait, AllGranted;
    WaitMakesOne(k);
    var m' := m[VISITOR := Bucket(Found(k, m, t) - Whole(k) as real, t)];
    var found := Found(k, m', t + Wait(k));
    assert t + Wait(k) - t == Wait(k);
    assert found == Min(k.max, Found(k, m, t) - Whole(k) as real + (1.0 - Remnant(k)));
    if found < 1.0 {
      BurstNeedsTokens(k, idle, m', 1, t + Wait(k));
    } else {
      BurstIsGranted(k, idle, m', 1, t + Wait(k));
    }
  }

  lemma {:induction false} BurstInOrder(now: real, n: nat, t: real, rest: seq<Event>)
    requires now <= t && InOrder(t, rest)
    ensures InOrder(now, Burst(n, t) + rest)
    decreases n
  {
    if n == 0 {
      assert Burst(0, t) + rest == rest;
      LaterStart(now, t, rest);
    } else {
      BurstUnfolds(n, t);
      assert (Burst(n, t) + rest)[1..] == Burst(n - 1, t) + rest;
      BurstInOrder(t, n - 1, t, rest);
    }
  }

  lemma SpreeInOrder(k: Rates, now: real, t: real, rest: seq<Event>)
    requires k.Valid() && now <= t && InOrder(t + Wait(k), rest)
    ensures InOrder(now, Spree(k, t) + rest)
  {
    hide Burst, Wait, Whole, InOrder;
    WaitMakesOne(k);
    if k.perSecond > 0.0 {
      BurstInOrder(t, 1, t + Wait(k), rest);
      BurstInOrder(now, Whole(k), t, Burst(1, t + Wait(k)) + rest);
      assert Spree(k, t) + rest == Burst(Whole(k), t) + (Burst(1, t + Wait(k)) + rest);
    } else {
      BurstInOrder(now, Whole(k), t, rest);
      assert Spree(k, t) == Burst(Whole(k), t);
    }
  }

  lemma CleanUpInOrder(now: real, t: real, rest: seq<Event>)
    requires now <= t && InOrder(t, rest)
    ensures InOrder(now, [CleanUpAt(t)] + rest)
  {
    assert ([CleanUpAt(t)] + rest)[1..] == rest;
  }

  lemma CleanUpDecidesNothing(k: Rates, idle: Option<real>, m: Buckets, t: real, rest: seq<Event>)
    ensures Decisions(k, idle, m, [CleanUpAt(t)] + rest) == Decisions(k, idle, Step(k, idle, m, CleanUpAt(t)), rest)
  {
    assert ([CleanUpAt(t)] + rest)[1..] == rest;
  }

  lemma LaterStart(now: real, later: real, es: seq<Event>)
    requires now <= later && InOrder(later, es)
    ensures InOrder(now, es)
  {
  }

  /** Two runs of the same events, from no limiters at all, decide differently. */
  ghost predicate Tells(k: Rates, idle: real, es: seq<Event>) {
    InOrder(0.0, es) && Decisions(k, Some(idle), map[], es) != Decisions(k, None, map[], es)
  }

  function Visit(k: Rates, idle: real): seq<Event>
    requires k.Valid()
  {
    Spree(k, 0.0) + ([CleanUpAt(Wait(k) + idle)] + Spree(k, Wait(k) + idle))
  }

  lemma VisitInOrder(k: Rates, idle: real)
    requires k.Valid() && idle >= 0.0
    ensures InOrder(0.0, Visit(k, idle))
  {
    hide Spree, Wait, InOrder, CleanUpAt;
    WaitMakesOne(k);
    var t := Wait(k) + idle;
    NothingIsInOrder(t + Wait(k));
    SpreeInOrder(k, t, t, []);
    assert Spree(k, t) + [] == Spree(k, t);
    CleanUpInOrder(Wait(k), t, Spree(k, t));
    SpreeInOrder(k, 0.0, 0.0, [CleanUpAt(t)] + Spree(k, t));
  }

  lemma NothingIsInOrder(now: real)
    ensures InOrder(now, [])
  {
  }

  lemma VisitTells(k: Rates, idle: real)
    requires k.Valid() && idle >= 0.0 && k.max >= 1.0 && Accrued(k, idle) < k.max
    ensures Tells(k, idle, Visit(k, idle))
  {
    hide Spree, Decisions, Run, Wait, AllGranted, InOrder, Found;
    VisitInOrder(k, idle);
    VisitIsGranted(k, idle, Some(idle));
    VisitIsGranted(k, idle, None);
  }

  /** The whole visit is granted exactly to a client that was evicted in between. */
  lemma VisitIsGranted(k: Rates, idle: real, evicts: Option<real>)
    requires k.Valid() && idle >= 0.0 && k.max >= 1.0 && Accrued(k, idle) < k.max
    requires evicts == None || evicts == Some(idle)
    ensures AllGranted(Decisions(k, evicts, map[], Visit(k, idle))) <==> evicts.Some?
  {
    hide Spree, Decisions, Run, Wait, AllGranted;
    var t := Wait(k) + idle;
    var drained: Buckets := map[VISITOR := Drained(k, 0.0)];
    var back := Spree(k, t);
    SpreeNeedsFullBucket(k, evicts, map[], 0.0);
    RunConcat(k, evicts, map[], Spree(k, 0.0), [CleanUpAt(t)] + back);
    AllGrantedConcat(Decisions(k, evicts, map[], Spree(k, 0.0)), Decisions(k, evicts, drained, [CleanUpAt(t)] + back));
    CleanUpDecidesNothing(k, evicts, drained, t, back);
    var m := Step(k, evicts, drained, CleanUpAt(t));
    assert t - Wait(k) == idle;
    assert evicts.Some? ==> VISITOR !in m;
    assert evicts.None? ==> m == drained;
    assert k.perSecond == 0.0 ==> Accrued(k, idle) == 0.0;
    SpreeNeedsFullBucket(k, evicts, m, t);
  }

  /**
    Some run of calls and cleanups tells an evicting limiter from one that never evicts, exactly if a bucket
    can hold a whole token and does not refill completely while its client is idle.
   */
  lemma EvictionShowsIff(k: Rates, idle: real)
    requires k.Valid() && idle >= 0.0
    ensures (exists es :: Tells(k, idle, es)) <==> k.max >= 1.0 && k.perSecond * idle < k.max
  {
    if k.max >= 1.0 && k.perSecond * idle < k.max {
      VisitTells(k, idle);
    } else {
      forall es | InOrder(0.0, es) ensures !Tells(k, idle, es) {
        if k.max < 1.0 {
          NothingIsGranted(k, Some(idle), 0.0, map[], es);
          NothingIsGranted(k, None, 0.0, map[], es);
        } else {
          NothingToTell(k, idle, 0.0, map[], map[], es);
        }
      }
    }
  }

  /** With the constants of the server, eviction cannot be told. */
  lemma EvictionIsUnobservable(start: real, es: seq<Event>)
    requires InOrder(start, es)
    ensures Decisions(LIMITS, Some(MAX_INACTIVE), map[], es) == Decisions(LIMITS, None, map[], es)
  {
    NothingToTell(LIMITS, MAX_INACTIVE, start, map[], map[], es);
  }

  lemma ServedByOwnLimiter(k: Rates, m: Buckets, m': Buckets, e: Event)
    requires e.Ask? && m' == if e.id in m then m else m[e.id := NewBucket(k, e.made)]
    ensures Serve(k, m, e) == (Decide(k, m'[e.id], e.call).0, m'[e.id := Decide(k, m'[e.id], e.call).1])
  {
    hide Decide, NewBucket;
    var b := Decide(k, m'[e.id], e.call).1;
    assert m[e.id := b] == m'[e.id := b];
  }

  class PerClientLimiter {
    var limiters: map<ClientID, RateLimiter>
    const maxInactive: real
    /** Every limiter created so far. */
    ghost var created: set<RateLimiter>

    ghost predicate Valid()
      reads this
    {
      && maxInactive == MAX_INACTIVE
      && (forall id | id in limiters :: limiters[id] in created && limiters[id].Limits() == LIMITS)
      && (forall id, id' | id in limiters && id' in limiters && id != id' :: limiters[id] != limiters[id'])
    }

    ghost function View(): Buckets
      requires Valid()
      reads this, created
    {
      map id | id in limiters :: limiters[id].View()
    }

    constructor ()
      ensures Valid() && View() == map[] && created == {}
    {
      limiters := map[];
      maxInactive := 2.0;
      created := {};
    }

    /** The client's limiter, created if there is none. */
    method LimiterOf(cID: ClientID, made: real) returns (rl: RateLimiter)
      requires Valid()
      modifies this
      ensures Valid() && fresh(created - old(created)) && old(created) <= created
      ensures cID in limiters && limiters[cID] == rl
      ensures limiters == old(limiters)[cID := rl] && (cID in old(limiters) ==> rl == old(limiters[cID]))
      ensures cID !in old(limiters) ==> fresh(rl) && rl.tokens == 1000000.0 && rl.lastRefill == made
      ensures View() == if cID in old(View()) then old(View()) else old(View())[cID := NewBucket(LIMITS, made)]
    {
      if cID in limiters {
        return limiters[cID];
      }
      rl := new RateLimiter(1000000.0, 1000000.0, made);
      limiters := limiters[cID := rl];
      created := created + {rl};
    }

    method Allow(cID: ClientID, made: real, call: Call) returns (allowed: bool)
      requires Valid()
      modifies this, created
      ensures Valid() && fresh(created - old(created)) && old(created) <= created
      ensures (allowed, View()) == Serve(LIMITS, old(View()), Ask(cID, made, call))
      ensures limiters.Keys == old(limiters.Keys) + {cID}
      ensures forall id | id in old(limiters) :: limiters[id] == old(limiters[id])
      ensures forall id | id in old(limiters) && id != cID ::
                limiters[id].tokens == old(limiters[id].tokens)
                && limiters[id].lastRefill == old(limiters[id].lastRefill)
      ensures var (held, since) := if cID in old(limiters)
                                   then (old(limiters[cID].tokens), old(limiters[cID].lastRefill))
                                   else (1000000.0, made);
              var accrued := held + (call.begun - since) * 1000000.0;
              var available := if 1000000.0 < accrued then 1000000.0 else accrued;
              && (allowed <==> available >= 1.0)
              && limiters[cID].tokens == (if allowed then available - 1.0 else available)
              && limiters[cID].lastRefill == call.ended
    {
      hide Decide, NewBucket;
      var rl := LimiterOf(cID, made);
      ghost var m := View();
      ServedByOwnLimiter(LIMITS, old(View()), m, Ask(cID, made, call));
      allowed := rl.Allow(call);
      assert View() == m[cID := Decide(LIMITS, m[cID], call).1];
    }

    /** One cleanup tick; `at` is the clock when each limiter is looked at. */
    method CleanUp(at: ClientID -> real)
      requires Valid()
      modifies this`limiters
      ensures Valid() && View() == Evict(old(View()), MAX_INACTIVE, at)
      ensures forall id :: id in limiters <==>
                id in old(limiters) && at(id) - old(limiters[id].lastRefill) < 2.0
      ensures forall id | id in limiters :: limiters[id] == old(limiters[id])
    {
      hide RateLimiter.View;
      LastRefills();
      DropIdle(at);
    }

    lemma LastRefills()
      requires Valid()
      ensures forall id | id in limiters :: limiters[id].View().lastRefill == limiters[id].lastRefill
    {
    }

    method DropIdle(at: ClientID -> real)
      requires Valid()
      modifies this`limiters
      ensures Valid()
      ensures forall id :: id in limiters <==>
                id in old(limiters) && at(id) - old(limiters[id].lastRefill) < 2.0
      ensures forall id | id in limiters :: limiters[id] == old(limiters[id])
    {
      var todo := limiters.Keys;
      ghost var before := limiters;
      while todo != {}
        invariant todo <= limiters.Keys <= before.Keys && Valid()
        invariant forall id | id in before ::
                    if id in todo || at(id) - before[id].lastRefill < maxInactive
                    then id in limiters && limiters[id] == before[id]
                    else id !in limiters
        decreases todo
      {
        var id :| id in todo;
        todo := todo - {id};
        var since := at(id) - limiters[id].lastRefill;
        if since >= maxInactive {
          limiters := limiters - {id};
        }
      }
    }
  }
}
