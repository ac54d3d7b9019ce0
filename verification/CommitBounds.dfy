/** The range a session's entries and attempts stay in, and the lag that one undisturbed tick leaves. */
module CommitBounds {
  import opened Wrappers
  import opened OffsetTracker
  import opened CommitProtocol

  /** `allowed` holds of every event of the run, in the state it happens in. */
  ghost predicate Throughout(c: Cluster, es: seq<Event>, allowed: (Cluster, Event) -> bool)
    requires CanRun(c, es)
    decreases |es|
  {
    es == [] || (allowed(c, es[0]) && Throughout(Apply(c, es[0]), es[1..], allowed))
  }

  lemma Prefixed(c: Cluster, e: Event, es: seq<Event>)
    requires Enabled(c, e) && CanRun(Apply(c, e), es)
    ensures CanRun(c, [e] + es) && Run(c, [e] + es) == Run(Apply(c, e), es)
  {
    assert ([e] + es)[1..] == es;
  }

  // ----- range and lag, when each delivery is settled once and in its own session -----

  ghost predicate SettlesPending(c: Cluster, e: Event) {
    e.HandlerSettles? && c.slot.Assigned? ==>
      e.offset in c.slot.tracker.state && c.slot.tracker.state[e.offset].Pending?
  }

  ghost predicate SessionInRange(t: Tracker, position: Offset, received: Option<Offset>) {
    && 0 <= position
    && (forall o | o in t.state :: t.lastCommited <= o <= t.maxReceived)
    && (t.lastCommited <= t.maxReceived || (received.None? && t == NewTracker(OFFSET_BEGINNING)))
    && (match received
        case None => t.state == map[] && t.maxReceived <= position
        case Some(last) =>
          && 0 <= last && position == last + 1 && last <= t.maxReceived <= last + 1
          && (forall o | o in t.state :: o <= last)
          && (t.state != map[] ==> last in t.state))
  }

  /** Attempts stay at or below one past the last received offset, and the published offset is the broker's. */
  ghost predicate InRange(c: Cluster) {
    c.slot.Assigned? ==>
      var t := c.slot.tracker;
      && SessionInRange(t, c.slot.position, c.slot.received)
      && (!c.slot.ticker.Idle? ==>
            c.slot.ticker.offset <= c.slot.position && forall o | o in t.state :: c.slot.ticker.offset <= o)
      && (match c.slot.ticker
          case Accepted(o) => o < 0 || c.committed == o
          case Attempting(_) => t.lastCommited < 0 || t.lastCommited < t.maxReceived
          case Idle => t.lastCommited < 0 || t.lastCommited < t.maxReceived || c.committed == t.lastCommited)
  }

  lemma FindStaysInRange(t: Tracker, position: Offset, received: Option<Offset>)
    requires SessionInRange(t, position, received) && Find(t).0.ToCommit?
    ensures SessionInRange(Find(t).1, position, received)
    ensures Find(t).0.offset <= position && forall o | o in Find(t).1.state :: Find(t).0.offset <= o
    ensures received.Some? && (forall o | o in t.state :: !t.state[o].Pending?) ==>
              received.value <= Find(t).0.offset
  {
    FindInRange(t);
  }

  /**
    A failed attempt has already dropped its entries: the retry is the same offset, or one lower exactly
    when the attempt drained the map and nothing had raised `maxReceived` above the last received offset.
   */
  lemma RetryIsAtMostOneLower(t: Tracker, position: Offset, received: Option<Offset>)
    requires SessionInRange(t, position, received) && Find(t).0.ToCommit?
    ensures var (attempt, left) := (Find(t).0.offset, Find(t).1);
            && Find(left).0.ToCommit?
            && attempt - 1 <= Find(left).0.offset <= attempt
            && (Find(left).0.offset == attempt - 1 <==>
                  t.state != map[] && (forall o | o in t.state :: !t.state[o].Pending?)
                  && received == Some(t.maxReceived))
  {
    FindInRange(t);
    FindStaysInRange(t, position, received);
    var (attempt, left) := (Find(t).0.offset, Find(t).1);
    FindInRange(left);
    if o :| o in t.state && t.state[o].Pending? {
      assert attempt in left.state && left.state[attempt].Pending?;
    } else {
      assert left.state == map[];
      assert t.state != map[] ==> received.value in t.state && attempt == received.value + 1;
    }
  }

  lemma DeliveryStaysInRange(c: Cluster, e: Event)
    requires InRange(c) && Safe(c) && Enabled(c, e) && SettlesPending(c, e) && (e.Deliver? || e.HandlerSettles?)
    ensures InRange(Apply(c, e))
  {
    hide SettledBelow, SessionSafe;
  }

  lemma FindStepStaysInRange(c: Cluster)
    requires InRange(c) && Enabled(c, TickFind)
    ensures InRange(Apply(c, TickFind))
  {
    hide Find;
    FindKeepsEnds(c.slot.tracker);
    if Find(c.slot.tracker).0.ToCommit? {
      FindStaysInRange(c.slot.tracker, c.slot.position, c.slot.received);
    }
  }

  lemma CommitStaysInRange(c: Cluster, e: Event)
    requires InRange(c) && Enabled(c, e) && (e.TickCommit? || e.TickPublish?)
    ensures InRange(Apply(c, e))
  {
  }

  lemma RebalanceStaysInRange(c: Cluster, e: Event)
    requires InRange(c) && Safe(c) && Enabled(c, e) && (e.Produce? || e.Assign? || e.Revoke?)
    ensures InRange(Apply(c, e))
  {
    hide Find, SettledBelow, SessionSafe;
  }

  lemma StepStaysInRange(c: Cluster, e: Event)
    requires InRange(c) && Safe(c) && Enabled(c, e) && SettlesPending(c, e)
    ensures InRange(Apply(c, e))
  {
    hide InRange, Safe, Enabled, Apply;
    match e {
      case Deliver(_) => DeliveryStaysInRange(c, e);
      case HandlerSettles(_, _) => DeliveryStaysInRange(c, e);
      case TickFind => FindStepStaysInRange(c);
      case TickCommit(_) => CommitStaysInRange(c, e);
      case TickPublish => CommitStaysInRange(c, e);
      case _ => RebalanceStaysInRange(c, e);
    }
  }

  lemma FindKeepsEnds(t: Tracker)
    ensures Find(t).1 == t.(state := Find(t).1.state)
    ensures Find(t).0.ToCommit? <==> t.lastCommited != t.maxReceived
    ensures !Find(t).0.ToCommit? ==> Find(t) == (Skipped, t)
  {
  }

  lemma {:induction false} RunStaysInRange(c: Cluster, es: seq<Event>)
    requires Safe(c) && InRange(c) && CanRun(c, es) && Throughout(c, es, SettlesPending)
    ensures InRange(Run(c, es))
    decreases |es|
  {
    if es != [] {
      StepIsSafe(c, es[0]);
      StepStaysInRange(c, es[0]);
      RunStaysInRange(Apply(c, es[0]), es[1..]);
    }
  }

  /** The range invariant of every reachable session, whatever lands between find and publish. */
  lemma TrackerStaysInRange(c: Cluster, es: seq<Event>)
    requires Initial(c) && CanRun(c, es) && Throughout(c, es, SettlesPending)
    ensures var s := Run(c, es).slot;
            s.Assigned? ==>
              && (forall o | o in s.tracker.state :: s.tracker.lastCommited <= o <= s.tracker.maxReceived)
              && (s.tracker.lastCommited <= s.tracker.maxReceived || s.tracker == NewTracker(OFFSET_BEGINNING))
              && (s.received.Some? && s.tracker.state != map[] ==> s.received.value in s.tracker.state)
              && (!s.ticker.Idle? ==> s.ticker.offset <= s.position)
              && (s.received.Some? ==> s.position == s.received.value + 1)
  {
    RunIsSafe(c, []);
    RunStaysInRange(c, es);
  }

  /** The events of one commit tick that nothing interleaves with and the broker accepts. */
  function QuietTick(t: Tracker): seq<Event> {
    if Find(t).0.ToCommit? then [TickFind, TickCommit(Acknowledged), TickPublish] else [TickFind]
  }

  lemma QuietTickRuns(c: Cluster)
    requires c.slot.Assigned? && c.slot.ticker.Idle?
    ensures var es := QuietTick(c.slot.tracker);
            && CanRun(c, es)
            && (Find(c.slot.tracker).0.ToCommit? ==>
                  var (chosen, t) := (Find(c.slot.tracker).0.offset, Find(c.slot.tracker).1);
                  Run(c, es) == CommitTo(c, chosen, Acknowledged).(slot := c.slot.(tracker := Publish(t, chosen))))
            && (Find(c.slot.tracker).0.Skipped? ==> Run(c, es) == c)
  {
    var c1 := Apply(c, TickFind);
    assert CanRun(c1, []);
    Prefixed(c, TickFind, []);
    if Find(c.slot.tracker).0.ToCommit? {
      var c2 := Apply(c1, TickCommit(Acknowledged));
      var c3 := Apply(c2, TickPublish);
      assert CanRun(c3, []);
      Prefixed(c2, TickPublish, []);
      Prefixed(c1, TickCommit(Acknowledged), [TickPublish]);
      Prefixed(c, TickFind, [TickCommit(Acknowledged), TickPublish]);
      assert [TickFind] + [TickCommit(Acknowledged), TickPublish] == QuietTick(c.slot.tracker);
    }
  }

  /**
    With nothing pending, one quiet tick leaves both the tracker and the broker at the last received offset
    or one past it: at most that one message is uncommitted, whatever failed before.
   */
  lemma QuietTickCatchesUp(c: Cluster, es: seq<Event>)
    requires Initial(c) && CanRun(c, es) && Throughout(c, es, SettlesPending)
    requires var s := Run(c, es).slot;
             s.Assigned? && s.ticker.Idle? && s.received.Some?
             && forall o | o in s.tracker.state :: !s.tracker.state[o].Pending?
    ensures var now := Run(c, es);
            var tick := QuietTick(now.slot.tracker);
            && CanRun(now, tick)
            && now.slot.received.value <= Run(now, tick).committed <= now.slot.received.value + 1
            && Run(now, tick).slot.Assigned?
            && Run(now, tick).slot.tracker.lastCommited == Run(now, tick).committed
  {
    RunIsSafe(c, []);
    RunStaysInRange(c, es);
    var now := Run(c, es);
    QuietTickRuns(now);
    if Find(now.slot.tracker).0.ToCommit? {
      FindStaysInRange(now.slot.tracker, now.slot.position, now.slot.received);
    }
  }

  // ----- the first tick of a session -----

  /** Messages are produced, delivered and settled; nothing is scanned, committed or rebalanced. */
  ghost predicate BeforeFirstTick(es: seq<Event>) {
    forall e | e in es :: e.Produce? || e.Deliver? || e.HandlerSettles?
  }

  /** A session whose tracker has not been scanned yet: everything received is still in its map. */
  ghost predicate Unscanned(c: Cluster) {
    && c.slot.Assigned? && c.slot.ticker.Idle?
    && c.slot.tracker.lastCommited != c.slot.tracker.maxReceived
    && (c.slot.tracker.lastCommited < c.slot.tracker.maxReceived || c.slot.tracker.lastCommited == -1)
    && (c.slot.received.Some? ==> c.slot.tracker.state != map[])
  }

  lemma StepStaysUnscanned(c: Cluster, e: Event)
    requires InRange(c) && Unscanned(c) && Enabled(c, e) && (e.Produce? || e.Deliver? || e.HandlerSettles?)
    ensures Unscanned(Apply(c, e))
  {
    if e.Deliver? {
      assert e.offset in Apply(c, e).slot.tracker.state;
    } else if e.HandlerSettles? {
      assert e.offset in Apply(c, e).slot.tracker.state;
    }
  }

  lemma {:induction false} RunStaysUnscanned(c: Cluster, es: seq<Event>)
    requires Safe(c) && InRange(c) && Unscanned(c) && CanRun(c, es) && Throughout(c, es, SettlesPending)
    requires BeforeFirstTick(es)
    ensures Safe(Run(c, es)) && InRange(Run(c, es)) && Unscanned(Run(c, es))
    decreases |es|
  {
    hide Safe, InRange, Unscanned, Enabled, Apply, SettlesPending;
    if es != [] {
      StepIsSafe(c, es[0]);
      StepStaysInRange(c, es[0]);
      StepStaysUnscanned(c, es[0]);
      RunStaysUnscanned(Apply(c, es[0]), es[1..]);
    }
  }

  /** With something received and all of it settled, the first tick of a session commits all of it. */
  lemma FirstTickCommitsEverything(c: Cluster, before: seq<Event>, readOk: bool, es: seq<Event>)
    requires Initial(c) && CanRun(c, before) && Throughout(c, before, SettlesPending)
    requires Enabled(Run(c, before), Assign(readOk))
    requires var start := Apply(Run(c, before), Assign(readOk));
             CanRun(start, es) && Throughout(start, es, SettlesPending) && BeforeFirstTick(es)
    requires var s := Run(Apply(Run(c, before), Assign(readOk)), es).slot;
             s.Assigned? && s.received.Some? && forall o | o in s.tracker.state :: !s.tracker.state[o].Pending?
    ensures var now := Run(Apply(Run(c, before), Assign(readOk)), es);
            var tick := QuietTick(now.slot.tracker);
            CanRun(now, tick) && Run(now, tick).committed == now.slot.received.value + 1
  {
    hide Safe, Find;
    RunIsSafe(c, []);
    RunIsSafe(c, before);
    RunStaysInRange(c, before);
    StepIsSafe(Run(c, before), Assign(readOk));
    StepStaysInRange(Run(c, before), Assign(readOk));
    var start := Apply(Run(c, before), Assign(readOk));
    RunStaysUnscanned(start, es);
    SettledSessionCommitsAll(Run(start, es));
  }

  lemma SettledSessionCommitsAll(c: Cluster)
    requires InRange(c) && Unscanned(c) && c.slot.received.Some?
    requires forall o | o in c.slot.tracker.state :: !c.slot.tracker.state[o].Pending?
    ensures var tick := QuietTick(c.slot.tracker);
            CanRun(c, tick) && Run(c, tick).committed == c.slot.received.value + 1
  {
    hide Find;
    var t := c.slot.tracker;
    FindInRange(t);
    QuietTickRuns(c);
    var last := c.slot.received.value;
    assert last in t.state && Find(t).0.offset == last + 1;
  }
}
