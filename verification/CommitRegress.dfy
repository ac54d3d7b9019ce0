/** Whenever track of the committed offset is lost, some continuation commits a smaller one. */
module CommitRegress {
  import opened Wrappers
  import opened OffsetTracker
  import opened CommitProtocol
  import opened CommitBounds
  import opened CommitFloor

  ghost predicate IsTick(e: Event) {
    e.TickFind? || e.TickCommit?
  }

  /**
    Some continuation, of nothing but ticks unless `settles`, takes the broker's committed offset below where
    it is.
   */
  ghost predicate CanFall(c: Cluster, settles: bool) {
    exists es :: CanRun(c, es) && (settles || forall e | e in es :: IsTick(e)) && Run(c, es).committed < c.committed
  }

  lemma {:induction false} Concat(c: Cluster, a: seq<Event>, b: seq<Event>)
    requires CanRun(c, a) && CanRun(Run(c, a), b)
    ensures CanRun(c, a + b) && Run(c, a + b) == Run(Run(c, a), b)
    decreases |a|
  {
    hide Enabled, Apply;
    if a == [] {
      assert a + b == b;
    } else {
      assert (a + b)[1..] == a[1..] + b;
      Concat(Apply(c, a[0]), a[1..], b);
    }
  }

  /** A step that leaves the committed offset alone, to a state from which it can fall. */
  lemma FallsAfter(c: Cluster, e: Event, settles: bool)
    requires Enabled(c, e) && Apply(c, e).committed == c.committed && CanFall(Apply(c, e), settles)
    requires settles || IsTick(e)
    ensures CanFall(c, settles)
  {
    hide Enabled, Apply, IsTick;
    var es :| && CanRun(Apply(c, e), es) && (settles || forall e' | e' in es :: IsTick(e'))
              && Run(Apply(c, e), es).committed < c.committed;
    Prefixed(c, e, es);
    assert forall e' | e' in [e] + es :: e' == e || e' in es;
  }

  lemma FallsAfterRun(c: Cluster, es: seq<Event>)
    requires CanRun(c, es) && Run(c, es).committed == c.committed && CanFall(Run(c, es), true)
    ensures CanFall(c, true)
  {
    hide Enabled, Apply;
    var more :| CanRun(Run(c, es), more) && Run(Run(c, es), more).committed < c.committed;
    Concat(c, es, more);
  }

  ghost predicate Ticking(c: Cluster) {
    c.slot.Assigned? && c.slot.ticker.Idle? && c.slot.tracker.lastCommited != c.slot.tracker.maxReceived
  }

  /** An attempt below the committed offset is all it takes. */
  lemma LowerAttemptFalls(c: Cluster, settles: bool)
    requires Ticking(c) && 0 <= Find(c.slot.tracker).0.offset < c.committed
    ensures CanFall(c, settles)
  {
    hide Find;
    FindKeepsEnds(c.slot.tracker);
    var c1 := Apply(c, TickFind);
    var c2 := Apply(c1, TickCommit(Acknowledged));
    assert CanRun(c2, []);
    Prefixed(c1, TickCommit(Acknowledged), []);
    assert CanFall(c1, settles);
    FallsAfter(c, TickFind, settles);
  }

  lemma AttemptRange(t: Tracker)
    requires t.lastCommited != t.maxReceived && 0 <= t.maxReceived
    requires forall k | k in t.state :: 0 <= k
    ensures Find(t).0.ToCommit? && 0 <= Find(t).0.offset <= t.maxReceived + 1
    ensures Find(t).0.offset == t.maxReceived + 1 ==> Find(t).1.state == map[]
    ensures t.state == map[] ==> Find(t).0.offset == t.maxReceived
  {
    hide Find;
    FindChooses(t);
    var (chosen, left) := (Find(t).0.offset, Find(t).1.state);
    if !AnyPending(t.state, t.lastCommited, t.maxReceived) && left == map[] && t.state != map[] {
      assert chosen - 1 !in left;
    }
  }

  /** With the committed offset past `maxReceived`, the scan that drains the map has to be repeated at most once. */
  lemma CommitPastReceivedFalls(c: Cluster, settles: bool)
    requires Shaped(c) && Ticking(c) && 0 <= c.slot.tracker.maxReceived < c.committed
    ensures CanFall(c, settles)
  {
    hide Find;
    var t := c.slot.tracker;
    AttemptRange(t);
    if Find(t).0.offset < c.committed {
      LowerAttemptFalls(c, settles);
    } else {
      FindKeepsEnds(t);
      var c1 := Apply(c, TickFind);
      var c2 := Apply(c1, TickCommit(Refused));
      AttemptRange(c2.slot.tracker);
      LowerAttemptFalls(c2, settles);
      FallsAfter(c1, TickCommit(Refused), settles);
      FallsAfter(c, TickFind, settles);
    }
  }

  lemma PendingBelowFalls(c: Cluster, k: Offset)
    requires Shaped(c) && Ticking(c) && k in c.slot.tracker.state && c.slot.tracker.state[k].Pending?
    requires c.slot.tracker.lastCommited <= k < c.committed
    ensures CanFall(c, true)
  {
    hide Find;
    var t := c.slot.tracker;
    FindChooses(t);
    assert PendingBetween(t.state, t.lastCommited, t.maxReceived, k);
    assert Find(t).0.offset <= k;
    LowerAttemptFalls(c, true);
  }

  lemma LowEntriesFall(c: Cluster)
    requires Shaped(c) && Ticking(c) && !Stuck(c.slot.tracker) && c.slot.tracker.state != map[]
    requires forall k | k in c.slot.tracker.state :: !c.slot.tracker.state[k].Pending? && k + 1 < c.committed
    requires c.committed <= c.slot.tracker.maxReceived
    ensures CanFall(c, true)
  {
    hide Find;
    var t := c.slot.tracker;
    FindChooses(t);
    assert Find(t).1.state == map[];
    LowerAttemptFalls(c, true);
  }

  // ----- a message in flight below the committed offset -----

  /** A session that will scan past `p`, which is in flight, and has nothing pending below the committed offset. */
  ghost predicate Exposed(c: Cluster, p: Offset) {
    && Safe(c) && Shaped(c) && Ticking(c) && p in c.inFlight
    && var t := c.slot.tracker;
    && t.lastCommited <= p && p + 1 < c.committed <= t.maxReceived && !Stuck(t)
    && forall k | k in t.state && t.state[k].Pending? :: c.committed <= k
  }

  ghost predicate Caught(c: Cluster) {
    c.slot.Assigned? && forall k | k in c.slot.tracker.state :: k <= c.slot.tracker.maxReceived
  }

  /** The messages not delivered yet. */
  ghost function Ahead(c: Cluster): set<Offset>
    requires c.slot.Assigned?
  {
    set o | o in c.log && c.slot.position <= o
  }

  lemma DeliveryKeepsExposed(c: Cluster, p: Offset, o: Offset)
    requires Exposed(c, p) && Enabled(c, Deliver(o))
    ensures Exposed(Apply(c, Deliver(o)), p) && Apply(c, Deliver(o)).committed == c.committed
    ensures Ahead(Apply(c, Deliver(o))) < Ahead(c)
  {
    hide Safe, SessionSafe, SettledBelow;
    StepIsSafe(c, Deliver(o));
    StepIsShaped(c, Deliver(o));
    assert o in Ahead(c) && o !in Ahead(Apply(c, Deliver(o)));
  }

  lemma {:induction false} LeastAtOrAbove(s: set<Offset>, from: Offset, some: Offset) returns (least: Offset)
    requires some in s && from <= some
    ensures least in s && from <= least && forall o | o in s && from <= o :: least <= o
    decreases s
  {
    var below := set o | o in s && from <= o < some;
    if below == {} {
      least := some;
      forall o | o in s && from <= o ensures least <= o { assert o < some ==> o in below; }
    } else {
      var lower :| lower in below;
      assert some !in below;
      least := LeastAtOrAbove(below, from, lower);
      forall o | o in s && from <= o ensures least <= o { assert o < some ==> o in below; }
    }
  }

  /** Delivering on reaches every entry: late settles may have left some past `maxReceived`. */
  lemma {:induction false} DeliverOn(c: Cluster, p: Offset) returns (es: seq<Event>)
    requires Exposed(c, p)
    ensures CanRun(c, es) && Exposed(Run(c, es), p) && Caught(Run(c, es)) && Run(c, es).committed == c.committed
    decreases Ahead(c)
  {
    hide Enabled, Apply;
    if Caught(c) {
      es := [];
    } else {
      var m := NextMessage(c, p);
      DeliveryKeepsExposed(c, p, m);
      es := DeliverOn(Apply(c, Deliver(m)), p);
      Prefixed(c, Deliver(m), es);
      es := [Deliver(m)] + es;
    }
  }

  lemma NextMessage(c: Cluster, p: Offset) returns (m: Offset)
    requires Exposed(c, p) && !Caught(c)
    ensures Enabled(c, Deliver(m))
  {
    var k :| k in c.slot.tracker.state && c.slot.tracker.maxReceived < k;
    assert k in c.log && c.slot.position <= k;
    m := LeastAtOrAbove(c.log, c.slot.position, k);
  }

  ghost function PendingIn(t: Tracker): set<Offset> {
    set k | k in t.state && t.state[k].Pending?
  }

  ghost predicate NonePending(t: Tracker) {
    forall k | k in t.state :: !t.state[k].Pending?
  }

  lemma SettlingKeepsExposed(c: Cluster, p: Offset, k: Offset)
    requires Exposed(c, p) && Caught(c) && k in c.slot.tracker.state && c.slot.tracker.state[k].Pending?
    ensures var e := HandlerSettles(k, Success);
            && Enabled(c, e) && Exposed(Apply(c, e), p) && Caught(Apply(c, e)) && Apply(c, e).committed == c.committed
            && PendingIn(Apply(c, e).slot.tracker) < PendingIn(c.slot.tracker)
  {
    hide Safe, SessionSafe, SettledBelow;
    var e := HandlerSettles(k, Success);
    StepIsSafe(c, e);
    StepIsShaped(c, e);
    assert k in PendingIn(c.slot.tracker) && k !in PendingIn(Apply(c, e).slot.tracker);
    assert c.slot.tracker.state.Keys == Apply(c, e).slot.tracker.state.Keys;
  }

  lemma {:induction false} SettleOn(c: Cluster, p: Offset) returns (es: seq<Event>)
    requires Exposed(c, p) && Caught(c)
    ensures CanRun(c, es) && Run(c, es).committed == c.committed
    ensures Exposed(Run(c, es), p) && Caught(Run(c, es)) && NonePending(Run(c, es).slot.tracker)
    decreases PendingIn(c.slot.tracker)
  {
    hide Enabled, Apply;
    if k :| k in c.slot.tracker.state && c.slot.tracker.state[k].Pending? {
      SettlingKeepsExposed(c, p, k);
      es := SettleOn(Apply(c, HandlerSettles(k, Success)), p);
      Prefixed(c, HandlerSettles(k, Success), es);
      es := [HandlerSettles(k, Success)] + es;
    } else {
      es := [];
    }
  }

  /** Once the map is empty, the late settle alone decides what the next scan chooses. */
  lemma LateSettleFalls(c: Cluster, p: Offset)
    requires Exposed(c, p) && c.slot.tracker.state == map[]
    ensures CanFall(c, true)
  {
    hide Find, Safe, SessionSafe, SettledBelow;
    var e := HandlerSettles(p, Success);
    var c1 := Apply(c, e);
    InFlightIsLogged(c, p);
    var t := c1.slot.tracker;
    assert t.state == map[p := Success];
    FindChooses(t);
    assert !AnyPending(t.state, t.lastCommited, t.maxReceived);
    assert p in t.state && Find(t).1.state == map[];
    assert Find(t).0.offset - 1 in t.state;
    LowerAttemptFalls(c1, true);
    FallsAfter(c, e, true);
  }

  lemma InFlightIsLogged(c: Cluster, p: Offset)
    requires Safe(c) && p in c.inFlight
    ensures p in c.log && 0 <= p
  {
  }

  lemma DrainedFalls(c: Cluster, p: Offset)
    requires Exposed(c, p) && Caught(c) && NonePending(c.slot.tracker)
    ensures CanFall(c, true)
  {
    hide Find, Safe, SessionSafe, SettledBelow, AttemptShaped;
    var t := c.slot.tracker;
    FindChooses(t);
    FindKeepsEnds(t);
    assert Find(t).1.state == map[];
    var c1 := Apply(c, TickFind);
    var c2 := Apply(c1, TickCommit(Refused));
    StepIsSafe(c, TickFind);
    StepIsShaped(c, TickFind);
    StepIsSafe(c1, TickCommit(Refused));
    StepIsShaped(c1, TickCommit(Refused));
    LateSettleFalls(c2, p);
    FallsAfter(c1, TickCommit(Refused), true);
    FallsAfter(c, TickFind, true);
  }

  lemma ExposedFalls(c: Cluster, p: Offset)
    requires Exposed(c, p)
    ensures CanFall(c, true)
  {
    hide Exposed, Caught, Enabled, Apply, Safe, Shaped;
    var es := DeliverOn(c, p);
    var c1 := Run(c, es);
    var more := SettleOn(c1, p);
    DrainedFalls(Run(c1, more), p);
    FallsAfterRun(c1, more);
    FallsAfterRun(c, es);
  }

  // ----- the two ways to lose track -----

  lemma FailedReadFalls(c: Cluster)
    requires Safe(c) && Shaped(c) && Enabled(c, Assign(false)) && LosesTrack(c, Assign(false))
    ensures CanFall(Apply(c, Assign(false)), true)
  {
    hide Safe, SessionSafe, SettledBelow, AttemptShaped;
    var p :| p in c.inFlight && p + 1 < c.committed;
    var c1 := Apply(c, Assign(false));
    StepIsSafe(c, Assign(false));
    StepIsShaped(c, Assign(false));
    if some :| some in c1.log && c1.slot.position <= some {
      var m := LeastAtOrAbove(c1.log, c1.slot.position, some);
      FirstDeliveryExposes(c1, p, m);
    } else {
      var c2 := Apply(c1, Produce(c1.logEnd));
      StepIsSafe(c1, Produce(c1.logEnd));
      StepIsShaped(c1, Produce(c1.logEnd));
      EndIsAhead(c1);
      FirstDeliveryExposes(c2, p, c1.logEnd);
      FallsAfter(c1, Produce(c1.logEnd), true);
    }
  }

  lemma EndIsAhead(c: Cluster)
    requires Safe(c) && c.slot.Assigned?
    ensures c.slot.position <= c.logEnd
  {
  }

  lemma FirstDeliveryExposes(c: Cluster, p: Offset, m: Offset)
    requires Safe(c) && Shaped(c) && Enabled(c, Deliver(m)) && p in c.inFlight && p + 1 < c.committed
    requires c.slot == Assigned(NewTracker(OFFSET_BEGINNING), c.committed, None, Idle)
    ensures CanFall(c, true)
  {
    hide Safe, SessionSafe, SettledBelow;
    InFlightIsLogged(c, p);
    StepIsSafe(c, Deliver(m));
    StepIsShaped(c, Deliver(m));
    ExposedFalls(Apply(c, Deliver(m)), p);
    FallsAfter(c, Deliver(m), true);
  }

  lemma ForgottenCommitFalls(c: Cluster)
    requires Safe(c) && Shaped(c) && Enabled(c, TickCommit(Unacknowledged)) && LosesTrack(c, TickCommit(Unacknowledged))
    ensures CanFall(Apply(c, TickCommit(Unacknowledged)), true)
  {
    hide Safe, SessionSafe, SettledBelow;
    var e := TickCommit(Unacknowledged);
    var c1 := Apply(c, e);
    var (t, o) := (c.slot.tracker, c.slot.ticker.offset);
    StepIsSafe(c, e);
    StepIsShaped(c, e);
    if t.maxReceived < o {
      CommitPastReceivedFalls(c1, true);
    } else if k :| k in t.state && t.state[k].Pending? && t.lastCommited <= k < o {
      PendingBelowFalls(c1, k);
    } else if p :| p in c.inFlight && t.lastCommited <= p && p + 1 < o {
      ExposedFalls(c1, p);
    } else {
      LowEntriesFall(c1);
    }
  }

  /** The converse of CommitsNeverDecrease: after any event that loses track, some continuation commits less. */
  lemma LostTrackCanRegress(c: Cluster, before: seq<Event>, e: Event)
    requires Initial(c) && CanRun(c, before) && Enabled(Run(c, before), e) && LosesTrack(Run(c, before), e)
    ensures exists after ::
              var lost := Apply(Run(c, before), e);
              CanRun(lost, after) && Run(lost, after).committed < lost.committed
  {
    hide Safe, Shaped;
    InitialIsShaped(c);
    RunIsSafe(c, before);
    RunIsShaped(c, before);
    if e.Assign? {
      FailedReadFalls(Run(c, before));
    } else {
      ForgottenCommitFalls(Run(c, before));
    }
  }

  lemma InitialIsShaped(c: Cluster)
    requires Initial(c)
    ensures Safe(c) && Shaped(c)
  {
  }

  // ----- a run of each kind, from the beginning -----

  /** A log of two messages and no consumer yet. */
  const TWO_MESSAGES := Cluster({0, 1}, 2, -1, {}, {}, multiset{}, Absent)

  /** The handler of message 0 has not settled it when the partition is taken away. */
  const FIRST_SESSION: seq<Event> := [Assign(true), Deliver(0), Revoke(Acknowledged)]

  /** The next session handles both messages and commits them. */
  const SECOND_SESSION: seq<Event> :=
    [Assign(true), Deliver(0), Deliver(1), HandlerSettles(0, Success), HandlerSettles(1, Success), Revoke(Acknowledged)]

  lemma StepsOn(c: Cluster, c': Cluster, es: seq<Event>, k: nat)
    requires k < |es| && Enabled(c, es[k]) && Apply(c, es[k]) == c' && CanRun(c', es[k + 1..])
    ensures CanRun(c, es[k..]) && Run(c, es[k..]) == Run(c', es[k + 1..])
  {
    hide Enabled, Apply;
    assert es[k..][1..] == es[k + 1..];
  }

  lemma NothingRuns(c: Cluster, es: seq<Event>)
    ensures CanRun(c, es[|es|..]) && Run(c, es[|es|..]) == c && es[0..] == es
  {
  }

  lemma FirstSession()
    ensures CanRun(TWO_MESSAGES, FIRST_SESSION)
    ensures Run(TWO_MESSAGES, FIRST_SESSION) == Cluster({0, 1}, 2, 0, {0}, {}, multiset{0}, Absent)
  {
    hide Find, CanRun, Run;
    var c1 := Apply(TWO_MESSAGES, Assign(true));
    var c2 := Apply(c1, Deliver(0));
    OnePending(c2.slot.tracker);
    var c3 := Apply(c2, Revoke(Acknowledged));
    NothingRuns(c3, FIRST_SESSION);
    StepsOn(c2, c3, FIRST_SESSION, 2);
    StepsOn(c1, c2, FIRST_SESSION, 1);
    StepsOn(TWO_MESSAGES, c1, FIRST_SESSION, 0);
  }

  lemma OnePending(t: Tracker)
    requires t == Tracker(map[0 := Pending], 0, -1)
    ensures Find(t).0 == ToCommit(0)
  {
    hide Find;
    FindChooses(t);
    assert PendingBetween(t.state, -1, 0, 0);
  }

  /** The second session, with both messages delivered: message 0 is in flight twice. */
  const BOTH_DELIVERED := Cluster({0, 1}, 2, 0, {0, 1}, {}, multiset{0, 0, 1},
                                  Assigned(Tracker(map[0 := Pending, 1 := Pending], 1, -1), 2, Some(1), Idle))

  lemma DeliverBoth(c: Cluster)
    requires c == Cluster({0, 1}, 2, 0, {0}, {}, multiset{0}, Absent) && CanRun(BOTH_DELIVERED, SECOND_SESSION[3..])
    ensures CanRun(c, SECOND_SESSION) && Run(c, SECOND_SESSION) == Run(BOTH_DELIVERED, SECOND_SESSION[3..])
  {
    hide Find, CanRun, Run;
    var c1 := Apply(c, Assign(true));
    var c2 := Apply(c1, Deliver(0));
    assert Apply(c2, Deliver(1)) == BOTH_DELIVERED;
    StepsOn(c2, BOTH_DELIVERED, SECOND_SESSION, 2);
    StepsOn(c1, c2, SECOND_SESSION, 1);
    StepsOn(c, c1, SECOND_SESSION, 0);
    NothingRuns(c, SECOND_SESSION);
  }

  const BOTH_SETTLED := Cluster({0, 1}, 2, 0, {0, 1}, {0, 1}, multiset{0},
                                Assigned(Tracker(map[0 := Success, 1 := Success], 1, -1), 2, Some(1), Idle))

  const ONE_SETTLED := Cluster({0, 1}, 2, 0, {0, 1}, {0}, multiset{0, 1},
                               Assigned(Tracker(map[0 := Success, 1 := Pending], 1, -1), 2, Some(1), Idle))

  lemma SettleFirst()
    ensures var e := HandlerSettles(0, Success);
            Enabled(BOTH_DELIVERED, e) && Apply(BOTH_DELIVERED, e) == ONE_SETTLED
  {
    assert multiset{0, 0, 1} - multiset{0} == multiset{0, 1};
    assert map[0 := Pending, 1 := Pending][0 := Success] == map[0 := Success, 1 := Pending];
  }

  lemma SettleSecond()
    ensures var e := HandlerSettles(1, Success);
            Enabled(ONE_SETTLED, e) && Apply(ONE_SETTLED, e) == BOTH_SETTLED
  {
    assert multiset{0, 1} - multiset{1} == multiset{0};
    assert map[0 := Success, 1 := Pending][1 := Success] == map[0 := Success, 1 := Success];
  }

  lemma SettleBoth()
    requires CanRun(BOTH_SETTLED, SECOND_SESSION[5..])
    ensures CanRun(BOTH_DELIVERED, SECOND_SESSION[3..])
    ensures Run(BOTH_DELIVERED, SECOND_SESSION[3..]) == Run(BOTH_SETTLED, SECOND_SESSION[5..])
  {
    hide Enabled, Apply, CanRun, Run;
    SettleFirst();
    SettleSecond();
    StepsOn(ONE_SETTLED, BOTH_SETTLED, SECOND_SESSION, 4);
    StepsOn(BOTH_DELIVERED, ONE_SETTLED, SECOND_SESSION, 3);
  }

  lemma CommitBoth()
    ensures CanRun(BOTH_SETTLED, SECOND_SESSION[5..])
    ensures Run(BOTH_SETTLED, SECOND_SESSION[5..]) == Cluster({0, 1}, 2, 2, {0, 1}, {0, 1}, multiset{0}, Absent)
  {
    hide Find, CanRun, Run;
    BothSettled(BOTH_SETTLED.slot.tracker);
    var c := Apply(BOTH_SETTLED, Revoke(Acknowledged));
    NothingRuns(c, SECOND_SESSION);
    StepsOn(BOTH_SETTLED, c, SECOND_SESSION, 5);
  }

  lemma BothSettled(t: Tracker)
    requires t == Tracker(map[0 := Success, 1 := Success], 1, -1)
    ensures Find(t).0 == ToCommit(2)
  {
    hide Find;
    FindChooses(t);
    assert 1 in t.state && Find(t).1.state == map[];
    assert Find(t).0.offset - 1 in t.state;
  }

  /** From the beginning: two messages are committed, and after a failed read a smaller offset is. */
  lemma FailedReadRegresses()
    ensures Initial(TWO_MESSAGES) && CanRun(TWO_MESSAGES, FIRST_SESSION + SECOND_SESSION)
    ensures var now := Run(TWO_MESSAGES, FIRST_SESSION + SECOND_SESSION);
            && now.committed == 2 && Enabled(now, Assign(false))
            && CanFall(Apply(now, Assign(false)), true)
  {
    hide Safe, Shaped, CanRun, Run, CanFall;
    FirstSession();
    CommitBoth();
    SettleBoth();
    DeliverBoth(Run(TWO_MESSAGES, FIRST_SESSION));
    Concat(TWO_MESSAGES, FIRST_SESSION, SECOND_SESSION);
    var now := Run(TWO_MESSAGES, FIRST_SESSION + SECOND_SESSION);
    assert 0 in now.inFlight;
    InitialIsShaped(TWO_MESSAGES);
    RunIsSafe(TWO_MESSAGES, FIRST_SESSION + SECOND_SESSION);
    RunIsShaped(TWO_MESSAGES, FIRST_SESSION + SECOND_SESSION);
    FailedReadFalls(now);
  }

  const LOST_REPLY: seq<Event> := [Assign(true), Deliver(0), HandlerSettles(0, Success), TickFind]

  const ONE_DELIVERED := Cluster({0, 1}, 2, -1, {0}, {}, multiset{0},
                                 Assigned(Tracker(map[0 := Pending], 0, -1), 1, Some(0), Idle))

  const ONE_HANDLED := Cluster({0, 1}, 2, -1, {0}, {0}, multiset{},
                               Assigned(Tracker(map[0 := Success], 0, -1), 1, Some(0), Idle))

  const COMMITTING := Cluster({0, 1}, 2, -1, {0}, {0}, multiset{},
                              Assigned(Tracker(map[], 0, -1), 1, Some(0), Attempting(1)))

  lemma DeliverOne()
    requires CanRun(ONE_DELIVERED, LOST_REPLY[2..])
    ensures CanRun(TWO_MESSAGES, LOST_REPLY) && Run(TWO_MESSAGES, LOST_REPLY) == Run(ONE_DELIVERED, LOST_REPLY[2..])
  {
    hide Find, CanRun, Run;
    var c := Apply(TWO_MESSAGES, Assign(true));
    assert Apply(c, Deliver(0)) == ONE_DELIVERED;
    StepsOn(c, ONE_DELIVERED, LOST_REPLY, 1);
    StepsOn(TWO_MESSAGES, c, LOST_REPLY, 0);
    NothingRuns(c, LOST_REPLY);
  }

  lemma HandleOne()
    ensures var e := HandlerSettles(0, Success);
            Enabled(ONE_DELIVERED, e) && Apply(ONE_DELIVERED, e) == ONE_HANDLED
    ensures Enabled(ONE_HANDLED, TickFind) && Apply(ONE_HANDLED, TickFind) == COMMITTING
  {
    hide Find;
    assert multiset{0} - multiset{0} == multiset{};
    assert map[0 := Pending][0 := Success] == map[0 := Success];
    OneSettled(ONE_HANDLED.slot.tracker);
  }

  lemma LostReplyRun()
    ensures CanRun(TWO_MESSAGES, LOST_REPLY) && Run(TWO_MESSAGES, LOST_REPLY) == COMMITTING
  {
    hide Enabled, Apply, CanRun, Run;
    HandleOne();
    NothingRuns(COMMITTING, LOST_REPLY);
    StepsOn(ONE_HANDLED, COMMITTING, LOST_REPLY, 3);
    StepsOn(ONE_DELIVERED, ONE_HANDLED, LOST_REPLY, 2);
    DeliverOne();
  }

  lemma OneSettled(t: Tracker)
    requires t == Tracker(map[0 := Success], 0, -1)
    ensures Find(t) == (ToCommit(1), Tracker(map[], 0, -1))
  {
    hide Find;
    FindChooses(t);
    assert 0 in t.state && Find(t).1.state == map[];
    assert Find(t).0.offset - 1 in t.state;
  }

  /** From the beginning: the first commit is stored, its reply lost, and the next tick commits one less. */
  lemma LostReplyRegresses()
    ensures CanRun(TWO_MESSAGES, LOST_REPLY) && Enabled(Run(TWO_MESSAGES, LOST_REPLY), TickCommit(Unacknowledged))
    ensures var lost := Apply(Run(TWO_MESSAGES, LOST_REPLY), TickCommit(Unacknowledged));
            lost.committed == 1 && CanFall(lost, false)
  {
    hide Find, CanRun, Run;
    LostReplyRun();
    CommitPastReceivedFalls(Apply(Run(TWO_MESSAGES, LOST_REPLY), TickCommit(Unacknowledged)), false);
  }
}
