/** When each delivery is settled once, in its own session, commits fall by at most one, and exactly when they can. */
module CommitDip {
  import opened Wrappers
  import opened OffsetTracker
  import opened CommitProtocol
  import opened CommitBounds
  import opened CommitFloor
  import opened CommitRegress

  const NONE: multiset<Offset> := multiset{}

  /** The broker has stored more than the tracker knows of, or than the attempt under way. */
  ghost predicate OnePast(c: Cluster) {
    && c.slot.Assigned?
    && ((!c.slot.ticker.Accepted? && 0 <= c.slot.tracker.maxReceived < c.committed)
        || (c.slot.ticker.Attempting? && 0 <= c.slot.ticker.offset < c.committed))
  }

  /** A drained tracker whose next attempt is one below the committed offset, or such an attempt under way. */
  ghost predicate Dipping(c: Cluster) {
    && c.slot.Assigned? && 0 < c.committed <= c.slot.position
    && var (t, position) := (c.slot.tracker, c.slot.position);
    && FloorOk(t, position, c.committed - 1, NONE)
    && (match c.slot.ticker
        case Idle => t.maxReceived == c.committed - 1 && t.state == map[]
        case Attempting(o) =>
          && o == c.committed - 1
          && (FloorOk(t, position, c.committed, NONE) || (t.maxReceived == c.committed - 1 && t.state == map[]))
        case Accepted(_) => false)
  }

  ghost predicate Tight(c: Cluster) {
    0 <= c.committed ==> FloorHolds(c, c.committed, NONE) || Dipping(c)
  }

  lemma DippingIsOnePast(c: Cluster)
    requires Dipping(c)
    ensures OnePast(c) && FloorHolds(c, c.committed - 1, NONE)
  {
    hide FloorOk;
  }

  /** A commit that raises the committed offset makes it a floor, unless it drained the map unacknowledged. */
  lemma RaisedCommitIsTight(c: Cluster, e: Event)
    requires Shaped(c) && InRange(c) && Enabled(c, e) && 0 <= Apply(c, e).committed != c.committed
    ensures Tight(Apply(c, e))
  {
    hide Find;
    if e.TickCommit? && e.reply.Unacknowledged? {
      var (t, o) := (c.slot.tracker, c.slot.ticker.offset);
      assert t.state != map[] ==> exists k :: k in t.state;
    }
  }

  lemma DeliveryEndsDip(c: Cluster, o: Offset)
    requires Shaped(c) && Enabled(c, Deliver(o)) && Dipping(c)
    ensures Tight(Apply(c, Deliver(o)))
  {
    var (t, position) := (c.slot.tracker, c.slot.position);
    DeliveryKeepsFloor(t, position, c.committed - 1, NONE, o);
    FewerLate(Append(t, o), o + 1, c.committed - 1, NONE + multiset{o}, NONE);
    if FloorOk(t, position, c.committed, NONE) {
      DeliveryKeepsFloor(t, position, c.committed, NONE, o);
      FewerLate(Append(t, o), o + 1, c.committed, NONE + multiset{o}, NONE);
    } else {
      assert o in Append(t, o).state;
    }
  }

  lemma SettlingKeepsDip(c: Cluster, e: Event)
    requires Enabled(c, e) && e.HandlerSettles? && SettlesPending(c, e) && Dipping(c)
    ensures Dipping(Apply(c, e))
  {
    hide FloorOk;
    var (t, position) := (c.slot.tracker, c.slot.position);
    SettlingKeepsFloor(t, position, c.committed - 1, NONE, e.offset, e.outcome);
    if FloorOk(t, position, c.committed, NONE) {
      SettlingKeepsFloor(t, position, c.committed, NONE, e.offset, e.outcome);
    }
  }

  lemma TickKeepsDip(c: Cluster, e: Event)
    requires Shaped(c) && Enabled(c, e) && Dipping(c) && (e.TickFind? || e.TickCommit?)
    ensures Tight(Apply(c, e))
  {
    hide Find, Stuck;
    var t := c.slot.tracker;
    FindKeepsEnds(t);
    if e.TickFind? && Find(t).0.ToCommit? {
      AttemptRange(t);
      FindChooses(t);
    }
  }

  lemma RevokeEndsDip(c: Cluster, e: Event)
    requires Shaped(c) && Enabled(c, e) && Dipping(c) && (e.Revoke? || e.Produce?)
    ensures Tight(Apply(c, e))
  {
    hide Find, FloorOk;
    FindKeepsEnds(c.slot.tracker);
    if e.Revoke? && Find(c.slot.tracker).0.ToCommit? {
      AttemptRange(c.slot.tracker);
    }
  }

  lemma StepStaysTight(c: Cluster, e: Event)
    requires Safe(c) && Shaped(c) && InRange(c) && Tight(c) && Enabled(c, e) && SettlesPending(c, e)
    ensures Tight(Apply(c, e))
  {
    hide Find, FloorOk, Safe, Shaped, InRange, Dipping, FloorHolds, SettlesPending;
    var c' := Apply(c, e);
    if 0 <= c'.committed != c.committed {
      RaisedCommitIsTight(c, e);
    } else if 0 <= c.committed && FloorHolds(c, c.committed, NONE) {
      StepKeepsFloor(c, e, c.committed, NONE, NONE);
    } else if 0 <= c.committed {
      DippingStaysTight(c, e);
    }
  }

  lemma DippingStaysTight(c: Cluster, e: Event)
    requires Shaped(c) && Dipping(c) && Enabled(c, e) && SettlesPending(c, e)
    ensures Tight(Apply(c, e))
  {
    hide Find, FloorOk, Shaped, FloorHolds, SettlesPending;
    match e {
      case Deliver(o) => DeliveryEndsDip(c, o);
      case HandlerSettles(_, _) => SettlingKeepsDip(c, e);
      case Revoke(_) => RevokeEndsDip(c, e);
      case Produce(_) => RevokeEndsDip(c, e);
      case TickFind => TickKeepsDip(c, e);
      case TickCommit(_) => TickKeepsDip(c, e);
      case _ =>
    }
  }

  lemma {:induction false} RunStaysTight(c: Cluster, es: seq<Event>)
    requires Safe(c) && Shaped(c) && InRange(c) && Tight(c) && CanRun(c, es) && Throughout(c, es, SettlesPending)
    ensures Shaped(Run(c, es)) && InRange(Run(c, es)) && Tight(Run(c, es)) && Safe(Run(c, es))
    decreases |es|
  {
    hide Safe, Shaped, InRange, Tight, Enabled, Apply, SettlesPending;
    if es != [] {
      StepIsSafe(c, es[0]);
      StepIsShaped(c, es[0]);
      StepStaysInRange(c, es[0]);
      StepStaysTight(c, es[0]);
      RunStaysTight(Apply(c, es[0]), es[1..]);
    }
  }

  lemma Reachable(c: Cluster, es: seq<Event>)
    requires Initial(c) && CanRun(c, es) && Throughout(c, es, SettlesPending)
    ensures Safe(Run(c, es)) && Shaped(Run(c, es)) && InRange(Run(c, es)) && Tight(Run(c, es))
  {
    RunStaysTight(c, es);
  }

  /** No run takes the committed offset below a floor. */
  lemma {:induction false} RunKeepsFloor(c: Cluster, es: seq<Event>, f: Offset)
    requires Safe(c) && Shaped(c) && CanRun(c, es) && Throughout(c, es, SettlesPending) && FloorHolds(c, f, NONE)
    ensures f <= Run(c, es).committed
    decreases |es|
  {
    hide Safe, Shaped, FloorOk, Enabled, Apply, SettlesPending;
    if es != [] {
      StepIsSafe(c, es[0]);
      StepIsShaped(c, es[0]);
      StepKeepsFloor(c, es[0], f, NONE, NONE);
      RunKeepsFloor(Apply(c, es[0]), es[1..], f);
    }
  }

  lemma {:induction false} NeverUncommitted(c: Cluster, es: seq<Event>)
    requires CanRun(c, es)
    ensures Run(c, es).committed == c.committed || 0 <= Run(c, es).committed
    decreases |es|
  {
    hide Find, Enabled;
    if es != [] {
      NeverUncommitted(Apply(c, es[0]), es[1..]);
    }
  }

  /** A stored commit whose reply is lost may be undone by one, and by no more over the whole run. */
  lemma CommitsFallByAtMostOne(c: Cluster, before: seq<Event>, after: seq<Event>)
    requires Initial(c) && CanRun(c, before) && Throughout(c, before, SettlesPending)
    requires CanRun(Run(c, before), after) && Throughout(Run(c, before), after, SettlesPending)
    ensures Run(c, before).committed - 1 <= Run(Run(c, before), after).committed
  {
    hide Safe, Shaped, InRange, FloorHolds, Dipping, SettlesPending;
    var now := Run(c, before);
    Reachable(c, before);
    if 0 <= now.committed {
      if FloorHolds(now, now.committed, NONE) {
        RunKeepsFloor(now, after, now.committed);
      } else {
        DippingIsOnePast(now);
        RunKeepsFloor(now, after, now.committed - 1);
      }
    } else {
      NeverUncommitted(now, after);
    }
  }

  lemma OnePastFalls(c: Cluster)
    requires Shaped(c) && InRange(c) && OnePast(c)
    ensures CanFall(c, false)
  {
    hide Find;
    if c.slot.ticker.Attempting? && 0 <= c.slot.ticker.offset < c.committed {
      var c1 := Apply(c, TickCommit(Acknowledged));
      assert CanRun(c1, []);
      Prefixed(c, TickCommit(Acknowledged), []);
    } else if c.slot.ticker.Attempting? {
      CommitPastReceivedFalls(Apply(c, TickCommit(Refused)), false);
      FallsAfter(c, TickCommit(Refused), false);
    } else {
      CommitPastReceivedFalls(c, false);
    }
  }

  lemma {:induction false} TicksSettleNothing(c: Cluster, es: seq<Event>)
    requires CanRun(c, es) && forall e | e in es :: IsTick(e)
    ensures Throughout(c, es, SettlesPending)
    decreases |es|
  {
    hide Enabled, Apply;
    if es != [] {
      assert IsTick(es[0]);
      TicksSettleNothing(Apply(c, es[0]), es[1..]);
    }
  }

  /**
    In any reachable state, some continuation commits less than is committed exactly if the broker has stored
    more than the tracker knows of: the one way there is an unacknowledged commit that drained the map.
   */
  lemma CommitFallsIffOnePast(c: Cluster, before: seq<Event>)
    requires Initial(c) && CanRun(c, before) && Throughout(c, before, SettlesPending)
    ensures var now := Run(c, before);
            (exists after :: CanRun(now, after) && Throughout(now, after, SettlesPending)
                             && Run(now, after).committed < now.committed)
            <==> OnePast(now)
  {
    hide Safe, Shaped, InRange, FloorHolds, Dipping, OnePast, SettlesPending, IsTick, Enabled, Apply;
    var now := Run(c, before);
    Reachable(c, before);
    if OnePast(now) {
      OnePastFalls(now);
      var after :| && CanRun(now, after) && (forall e | e in after :: IsTick(e))
                   && Run(now, after).committed < now.committed;
      TicksSettleNothing(now, after);
    } else {
      forall after | CanRun(now, after) && Throughout(now, after, SettlesPending)
        ensures now.committed <= Run(now, after).committed
      {
        if 0 <= now.committed {
          if Dipping(now) {
            DippingIsOnePast(now);
          }
          RunKeepsFloor(now, after, now.committed);
        } else {
          NeverUncommitted(now, after);
        }
      }
    }
  }
}
