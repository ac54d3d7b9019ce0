/** When commits can go backwards: exactly which events lose track of the committed offset, and how far it falls. */
module CommitFloor {
  import opened Wrappers
  import opened OffsetTracker
  import opened CommitProtocol
  import opened CommitBounds

  // ----- the shape of a session, whatever lands in its tracker -----

  /** The offset of an attempt is the least pending one, or at most one past `maxReceived`. */
  ghost predicate AttemptShaped(t: Tracker, position: Offset, o: Offset) {
    && t.lastCommited != t.maxReceived && t.maxReceived <= position && o <= t.maxReceived + 1
    && (0 <= o || (o == -2 && t.lastCommited == -1))
    && (forall k | k in t.state && t.state[k].Pending? && t.lastCommited <= k :: o - 1 <= k)
  }

  ghost predicate Shaped(c: Cluster) {
    c.slot.Assigned? ==>
      var t, position := c.slot.tracker, c.slot.position;
      && 0 <= position && -2 <= t.lastCommited
      && (t.maxReceived == -2 || (0 <= t.maxReceived && position <= t.maxReceived + 1))
      && (t.lastCommited <= t.maxReceived || t.lastCommited == -1)
      && (forall k | k in t.state ::
            0 <= k && (t.state[k].Pending? ==> k in c.inFlight && k < position && k <= t.maxReceived))
      && (match c.slot.ticker
          case Idle => t.lastCommited == t.maxReceived || t.maxReceived <= position
          case Attempting(o) => AttemptShaped(t, position, o)
          case Accepted(o) => AttemptShaped(t, position, o))
  }

  /** What a scan that is not skipped chooses and leaves. */
  lemma FindChooses(t: Tracker)
    requires t.lastCommited != t.maxReceived
    ensures Find(t).0.ToCommit? && Find(t).1 == t.(state := Find(t).1.state)
    ensures ScanOutcome(t.state, t.lastCommited, t.maxReceived, Find(t).1.state, Find(t).0.offset)
  {
    ScanHasClosedForm(t.state, t.lastCommited, t.maxReceived);
  }

  lemma FindIsShaped(t: Tracker, position: Offset)
    requires t.lastCommited != t.maxReceived && t.maxReceived <= position && -2 <= t.lastCommited
    requires t.maxReceived == -2 || 0 <= t.maxReceived
    requires t.lastCommited <= t.maxReceived || t.lastCommited == -1
    requires forall k | k in t.state :: 0 <= k && (t.state[k].Pending? ==> k <= t.maxReceived)
    ensures AttemptShaped(Find(t).1, position, Find(t).0.offset)
    ensures forall k | k in Find(t).1.state :: k in t.state && Find(t).1.state[k] == t.state[k]
  {
    hide Find;
    FindChooses(t);
    var (chosen, left) := (Find(t).0.offset, Find(t).1.state);
    forall k | k in left && left[k].Pending? && t.lastCommited <= k ensures chosen <= k {
      assert PendingBetween(t.state, t.lastCommited, t.maxReceived, k);
    }
    if !AnyPending(t.state, t.lastCommited, t.maxReceived) && t.state != map[] && left == map[] {
      assert chosen - 1 !in left;
    }
  }

  lemma DeliveryIsShaped(c: Cluster, e: Event)
    requires Safe(c) && Shaped(c) && Enabled(c, e) && (e.Deliver? || e.HandlerSettles?)
    ensures Shaped(Apply(c, e))
  {
    hide SettledBelow, SessionSafe;
  }

  lemma TickIsShaped(c: Cluster, e: Event)
    requires Shaped(c) && Enabled(c, e) && (e.TickFind? || e.TickCommit? || e.TickPublish?)
    ensures Shaped(Apply(c, e))
  {
    hide Find;
    if e.TickFind? {
      FindKeepsEnds(c.slot.tracker);
      if Find(c.slot.tracker).0.ToCommit? {
        FindIsShaped(c.slot.tracker, c.slot.position);
      }
    }
  }

  lemma StepIsShaped(c: Cluster, e: Event)
    requires Safe(c) && Shaped(c) && Enabled(c, e)
    ensures Shaped(Apply(c, e))
  {
    hide Safe, Find, AttemptShaped;
    match e {
      case Deliver(_) => DeliveryIsShaped(c, e);
      case HandlerSettles(_, _) => DeliveryIsShaped(c, e);
      case Produce(_) =>
      case Assign(_) =>
      case Revoke(_) =>
      case _ => TickIsShaped(c, e);
    }
  }

  lemma {:induction false} RunIsShaped(c: Cluster, es: seq<Event>)
    requires Safe(c) && Shaped(c) && CanRun(c, es)
    ensures Shaped(Run(c, es))
    decreases |es|
  {
    hide Safe, Shaped, Enabled, Apply;
    if es != [] {
      StepIsSafe(c, es[0]);
      StepIsShaped(c, es[0]);
      RunIsShaped(Apply(c, es[0]), es[1..]);
    }
  }

  // ----- a floor below which no attempt falls -----

  /** An entry below the scanned window is never removed, so the map is never drained. */
  ghost predicate Stuck(t: Tracker) {
    exists k :: k in t.state && k < t.lastCommited
  }

  /** Draining the map would choose at least `f`, and so it would after any of `late` is settled. */
  ghost predicate DrainsAbove(t: Tracker, f: Offset, late: multiset<Offset>) {
    || Stuck(t)
    || (&& (forall p | p in late && t.lastCommited <= p :: f <= p + 1)
        && (t.state == map[] || exists k :: k in t.state && f <= k + 1))
  }

  /** No scan of this session will choose a nonnegative offset below `f`. */
  ghost predicate FloorOk(t: Tracker, position: Offset, f: Offset, late: multiset<Offset>) {
    || (f <= t.lastCommited && f <= t.maxReceived)
    || (&& f <= position && (f <= t.maxReceived || t.maxReceived < 0)
        && (forall k | k in t.state && t.state[k].Pending? && t.lastCommited <= k :: f <= k)
        && DrainsAbove(t, f, late))
  }

  ghost predicate FloorHolds(c: Cluster, f: Offset, late: multiset<Offset>) {
    && 0 <= f <= c.committed
    && (c.slot.Assigned? ==>
          match c.slot.ticker
          case Idle => FloorOk(c.slot.tracker, c.slot.position, f, late)
          case Attempting(o) => FloorOk(c.slot.tracker, c.slot.position, f, late) && (f <= o || o < 0)
          case Accepted(o) => f <= o || (o < 0 && FloorOk(c.slot.tracker, c.slot.position, f, late)))
  }

  lemma FindKeepsFloor(t: Tracker, position: Offset, f: Offset, late: multiset<Offset>)
    requires 0 <= f && FloorOk(t, position, f, late) && t.lastCommited != t.maxReceived
    requires t.maxReceived < t.lastCommited <==> t.maxReceived < 0
    ensures f <= Find(t).0.offset || Find(t).0.offset < 0
    ensures FloorOk(Find(t).1, position, f, late)
  {
    hide Find;
    FindChooses(t);
    var (chosen, left) := (Find(t).0.offset, Find(t).1.state);
    if AnyPending(t.state, t.lastCommited, t.maxReceived) {
      assert left[chosen].Pending?;
    } else if left == map[] {
      assert t.state != map[] ==> chosen - 1 !in left;
    } else if t.maxReceived < t.lastCommited {
      assert left == t.state;
    } else {
      var k :| k in left;
      assert k < t.lastCommited || t.maxReceived < k;
    }
    if k :| k in t.state && k < t.lastCommited {
      assert k in left;
    }
  }

  lemma DeliveryKeepsFloor(t: Tracker, position: Offset, f: Offset, late: multiset<Offset>, o: Offset)
    requires 0 <= f && FloorOk(t, position, f, late) && position <= o
    ensures FloorOk(Append(t, o), o + 1, f, late + multiset{o})
  {
    var t' := Append(t, o);
    assert o in t'.state;
    if k :| k in t.state && k < t.lastCommited {
      assert k in t'.state;
    }
  }

  lemma SettlingKeepsFloor(t: Tracker, position: Offset, f: Offset, late: multiset<Offset>, o: Offset,
                           outcome: MsgState)
    requires FloorOk(t, position, f, late) && !outcome.Pending?
    requires o in late || (o in t.state && t.state[o].Pending?)
    ensures FloorOk(Settle(t, o, outcome), position, f, late)
  {
    var t' := Settle(t, o, outcome);
    assert o in t'.state;
    if k :| k in t.state && k < t.lastCommited {
      assert k in t'.state;
    }
    if k :| k in t.state && f <= k + 1 {
      assert k in t'.state;
    }
  }

  lemma FewerLate(t: Tracker, position: Offset, f: Offset, late: multiset<Offset>, fewer: multiset<Offset>)
    requires FloorOk(t, position, f, late) && forall p | p in fewer :: p in late
    ensures FloorOk(t, position, f, fewer)
  {
  }

  lemma AssignKeepsFloor(c: Cluster, e: Event, f: Offset, late: multiset<Offset>)
    requires Enabled(c, e) && e.Assign? && FloorHolds(c, f, late)
    requires !e.readOk ==> forall p | p in late :: f <= p + 1
    ensures FloorHolds(Apply(c, e), f, late)
  {
  }

  lemma TickKeepsFloor(c: Cluster, e: Event, f: Offset, late: multiset<Offset>)
    requires Shaped(c) && Enabled(c, e) && FloorHolds(c, f, late)
    requires (e.TickFind? || e.TickCommit? || e.TickPublish?) && forall p | p in late :: 0 <= p
    ensures FloorHolds(Apply(c, e), f, late)
  {
    hide Find, FloorOk;
    var t, position := c.slot.tracker, c.slot.position;
    match e {
      case TickFind =>
        FindKeepsEnds(t);
        if Find(t).0.ToCommit? {
          FindKeepsFloor(t, position, f, late);
        }
      case TickCommit(_) =>
      case TickPublish =>
        PublishKeepsFloor(t, position, f, late, c.slot.ticker.offset);
      case _ =>
    }
  }

  lemma PublishKeepsFloor(t: Tracker, position: Offset, f: Offset, late: multiset<Offset>, o: Offset)
    requires 0 <= f && (f <= o || (o == -2 && t.lastCommited == -1 && FloorOk(t, position, f, late)))
    requires forall k | k in t.state :: 0 <= k
    requires forall p | p in late :: 0 <= p
    ensures FloorOk(Publish(t, o), position, f, late)
  {
  }

  /** A floor stays one, unless a failed read forgets it while a message below it is still in flight. */
  lemma StepKeepsFloor(c: Cluster, e: Event, f: Offset, late: multiset<Offset>, late': multiset<Offset>)
    requires Safe(c) && Shaped(c) && Enabled(c, e) && FloorHolds(c, f, late)
    requires forall p | p in late :: p in c.inFlight
    requires forall p | p in late' :: p in late || (e.Deliver? && p == e.offset)
    requires e.HandlerSettles? && c.slot.Assigned? ==> e.offset in late || SettlesPending(c, e)
    requires e.Assign? && !e.readOk ==> forall p | p in late :: f <= p + 1
    ensures FloorHolds(Apply(c, e), f, late')
  {
    hide Find, FloorOk, SettledBelow, SessionSafe, AttemptShaped;
    match e {
      case Produce(_) =>
        FewerLateHolds(Apply(c, e), f, late, late');
      case Assign(_) =>
        AssignKeepsFloor(c, e, f, late);
        FewerLateHolds(Apply(c, e), f, late, late');
      case Deliver(o) =>
        DeliverKeepsFloor(c, o, f, late);
        FewerLateHolds(Apply(c, e), f, late + multiset{o}, late');
      case HandlerSettles(o, outcome) =>
        SettleKeepsFloor(c, o, outcome, f, late);
        FewerLateHolds(Apply(c, e), f, late, late');
      case Revoke(_) =>
        RevokeKeepsFloor(c, e, f, late);
      case _ =>
        assert forall p | p in late :: p in c.log;
        TickKeepsFloor(c, e, f, late);
        FewerLateHolds(Apply(c, e), f, late, late');
    }
  }

  lemma FewerLateHolds(c: Cluster, f: Offset, late: multiset<Offset>, fewer: multiset<Offset>)
    requires FloorHolds(c, f, late) && forall p | p in fewer :: p in late
    ensures FloorHolds(c, f, fewer)
  {
    hide FloorOk;
    if c.slot.Assigned? && FloorOk(c.slot.tracker, c.slot.position, f, late) {
      FewerLate(c.slot.tracker, c.slot.position, f, late, fewer);
    }
  }

  lemma DeliverKeepsFloor(c: Cluster, o: Offset, f: Offset, late: multiset<Offset>)
    requires Enabled(c, Deliver(o)) && FloorHolds(c, f, late)
    ensures FloorHolds(Apply(c, Deliver(o)), f, late + multiset{o})
  {
    hide FloorOk;
    if FloorOk(c.slot.tracker, c.slot.position, f, late) {
      DeliveryKeepsFloor(c.slot.tracker, c.slot.position, f, late, o);
    }
  }

  lemma SettleKeepsFloor(c: Cluster, o: Offset, outcome: MsgState, f: Offset, late: multiset<Offset>)
    requires var e := HandlerSettles(o, outcome);
             Enabled(c, e) && FloorHolds(c, f, late) && (c.slot.Assigned? ==> o in late || SettlesPending(c, e))
    ensures FloorHolds(Apply(c, HandlerSettles(o, outcome)), f, late)
  {
    hide FloorOk;
    if c.slot.Assigned? && FloorOk(c.slot.tracker, c.slot.position, f, late) {
      SettlingKeepsFloor(c.slot.tracker, c.slot.position, f, late, o, outcome);
    }
  }

  lemma RevokeKeepsFloor(c: Cluster, e: Event, f: Offset, late: multiset<Offset>)
    requires Shaped(c) && Enabled(c, e) && e.Revoke? && FloorHolds(c, f, late)
    ensures forall fewer :: FloorHolds(Apply(c, e), f, fewer)
  {
    hide Find, FloorOk;
    FindKeepsEnds(c.slot.tracker);
    if Find(c.slot.tracker).0.ToCommit? {
      FindKeepsFloor(c.slot.tracker, c.slot.position, f, late);
    }
  }

  // ----- losing track of the committed offset -----

  /**
    A commit at `o` was stored without the tracker learning of it, and a later scan may choose less: the
    offset is past `maxReceived`, a smaller one is pending, or the map may be drained below it.
   */
  ghost predicate ForgetsCommit(t: Tracker, o: Offset, late: multiset<Offset>) {
    || t.maxReceived < o
    || (exists k :: k in t.state && t.state[k].Pending? && t.lastCommited <= k < o)
    || (&& !Stuck(t)
        && ((exists p :: p in late && t.lastCommited <= p && p + 1 < o)
            || (t.state != map[] && forall k | k in t.state :: k + 1 < o)))
  }

  /**
    The events that lose track of the committed offset: an assign whose read of it fails while a message more
    than one below it is in flight, and a commit that is stored but reported as failed, if the tracker forgets it.
   */
  ghost predicate LosesTrack(c: Cluster, e: Event) {
    match e
    case Assign(readOk) => !readOk && 0 <= c.committed && exists p :: p in c.inFlight && p + 1 < c.committed
    case TickCommit(reply) =>
      && reply.Unacknowledged? && c.slot.Assigned? && c.slot.ticker.Attempting? && 0 <= c.slot.ticker.offset
      && ForgetsCommit(c.slot.tracker, c.slot.ticker.offset, c.inFlight)
    case _ => false
  }

  ghost predicate KeepsTrack(c: Cluster, e: Event) {
    !LosesTrack(c, e)
  }

  /** The committed offset is itself a floor. */
  ghost predicate NoRegress(c: Cluster) {
    0 <= c.committed ==> FloorHolds(c, c.committed, c.inFlight)
  }

  lemma UnforgottenIsFloor(t: Tracker, position: Offset, o: Offset, late: multiset<Offset>)
    requires 0 <= o && AttemptShaped(t, position, o) && !ForgetsCommit(t, o, late)
    ensures FloorOk(t, position, o, late)
  {
  }

  lemma StepNeverRegresses(c: Cluster, e: Event)
    requires Safe(c) && Shaped(c) && NoRegress(c) && Enabled(c, e) && KeepsTrack(c, e)
    ensures NoRegress(Apply(c, e)) && c.committed <= Apply(c, e).committed
  {
    hide Find, FloorOk, SettledBelow, SessionSafe, AttemptShaped, ForgetsCommit, FloorHolds;
    var c' := Apply(c, e);
    if 0 <= c.committed {
      StepKeepsFloor(c, e, c.committed, c.inFlight, c'.inFlight);
      FloorIsBelow(c', c.committed);
    }
    if 0 <= c'.committed && c'.committed != c.committed {
      RaisedCommitIsFloor(c, e);
    }
  }

  lemma FloorIsBelow(c: Cluster, f: Offset)
    requires FloorHolds(c, f, c.inFlight)
    ensures f <= c.committed
  {
  }

  lemma RaisedCommitIsFloor(c: Cluster, e: Event)
    requires Safe(c) && Shaped(c) && Enabled(c, e) && KeepsTrack(c, e)
    requires 0 <= Apply(c, e).committed != c.committed
    ensures FloorHolds(Apply(c, e), Apply(c, e).committed, Apply(c, e).inFlight)
  {
    hide Find, FloorOk, SettledBelow, SessionSafe, AttemptShaped, ForgetsCommit;
    if e.TickCommit? && e.reply.Unacknowledged? {
      UnforgottenIsFloor(c.slot.tracker, c.slot.position, c.slot.ticker.offset, c.inFlight);
    }
  }

  lemma {:induction false} RunNeverRegresses(c: Cluster, es: seq<Event>)
    requires Safe(c) && Shaped(c) && NoRegress(c) && CanRun(c, es) && Throughout(c, es, KeepsTrack)
    ensures NoRegress(Run(c, es))
    ensures c.committed <= Run(c, es).committed
    decreases |es|
  {
    hide Safe, Shaped, NoRegress, Enabled, Apply, KeepsTrack;
    if es != [] {
      StepIsSafe(c, es[0]);
      StepIsShaped(c, es[0]);
      StepNeverRegresses(c, es[0]);
      RunNeverRegresses(Apply(c, es[0]), es[1..]);
    }
  }

  /** Across ticks, revocations and reassignments, no later commit is below an earlier one. */
  lemma CommitsNeverDecrease(c: Cluster, before: seq<Event>, after: seq<Event>)
    requires Initial(c) && CanRun(c, before) && Throughout(c, before, KeepsTrack)
    requires CanRun(Run(c, before), after) && Throughout(Run(c, before), after, KeepsTrack)
    ensures Run(c, before).committed <= Run(Run(c, before), after).committed
  {
    RunIsSafe(c, before);
    RunIsShaped(c, before);
    RunNeverRegresses(c, before);
    RunNeverRegresses(Run(c, before), after);
  }
}
