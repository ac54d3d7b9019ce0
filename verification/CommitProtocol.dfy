/**
  One partition of the broker and the consumer group's tracker for it, as a protocol: every interleaving
  of production, assignment, delivery, settling, the two halves of a commit tick, and revocation.
 */
module CommitProtocol {
  import opened Wrappers
  import opened OffsetTracker

  /** Where the ticker goroutine stands: the tracker lock is released around the broker call. */
  datatype Ticker =
    | Idle
    | Attempting(offset: Offset)
    | Accepted(offset: Offset)

  /**
    The consumer's map entry for the partition. `position` is the next offset the broker delivers and
    `received` the last one delivered in this session. A revoke that skips the commit leaves its tracker
    behind, with the commit loop stopped.
   */
  datatype Slot =
    | Absent
    | Stopped(tracker: Tracker)
    | Assigned(tracker: Tracker, position: Offset, received: Option<Offset>, ticker: Ticker)

  /**
    `log` holds the offsets of the messages, all below `logEnd`; offsets may be skipped. `committed` is
    negative until the group has committed. `delivered` and `settled` span all sessions, as does `inFlight`:
    the deliveries whose handler has not settled yet. A handler settles its delivery once.
   */
  datatype Cluster = Cluster(
    log: set<Offset>, logEnd: Offset, committed: Offset,
    delivered: set<Offset>, settled: set<Offset>, inFlight: multiset<Offset>, slot: Slot)

  /** The outcome of a commit call: a commit may be stored although the call returns an error. */
  datatype Reply = Acknowledged | Unacknowledged | Refused

  datatype Event =
    | Produce(offset: Offset)
    | Assign(readOk: bool)
    | Deliver(offset: Offset)
    | HandlerSettles(offset: Offset, outcome: MsgState)
    | TickFind
    | TickCommit(reply: Reply)
    | TickPublish
    | Revoke(reply: Reply)

  ghost predicate Initial(c: Cluster) {
    && c.slot == Absent && c.committed < 0 && c.delivered == {} && c.settled == {} && c.inFlight == multiset{}
    && 0 <= c.logEnd
    && forall o | o in c.log :: 0 <= o < c.logEnd
  }

  /** What each event demands of its environment. */
  ghost predicate Enabled(c: Cluster, e: Event) {
    match e
    case Produce(o) => c.logEnd <= o
    // the client library revokes a partition before it assigns it again
    case Assign(_) => !c.slot.Assigned?
    case Deliver(o) =>
      c.slot.Assigned? && o in c.log && c.slot.position <= o
      && forall m | m in c.log && c.slot.position <= m :: o <= m
    case HandlerSettles(o, outcome) => !c.slot.Absent? && o in c.inFlight && !outcome.Pending?
    case TickFind => c.slot.Assigned? && c.slot.ticker.Idle?
    case TickCommit(_) => c.slot.Assigned? && c.slot.ticker.Attempting?
    case TickPublish => c.slot.Assigned? && c.slot.ticker.Accepted?
    // the callback waits for the commit loop to exit
    case Revoke(_) => c.slot.Assigned? && c.slot.ticker.Idle?
  }

  /** A negative offset is a logical position; the broker stores no commit for it. */
  function CommitTo(c: Cluster, o: Offset, reply: Reply): Cluster {
    if o < 0 || reply.Refused? then c else c.(committed := o)
  }

  ghost function Apply(c: Cluster, e: Event): Cluster
    requires Enabled(c, e)
  {
    match e
    case Produce(o) => c.(log := c.log + {o}, logEnd := o + 1)
    case Assign(readOk) =>
      var start := if readOk && 0 <= c.committed then c.committed else OFFSET_BEGINNING;
      var position := if c.committed < 0 then 0 else c.committed;
      c.(slot := Assigned(NewTracker(start), position, None, Idle))
    case Deliver(o) =>
      c.(delivered := c.delivered + {o}, inFlight := c.inFlight + multiset{o},
         slot := c.slot.(tracker := Append(c.slot.tracker, o), position := o + 1, received := Some(o)))
    case HandlerSettles(o, outcome) =>
      c.(settled := c.settled + {o}, inFlight := c.inFlight - multiset{o},
         slot := c.slot.(tracker := Settle(c.slot.tracker, o, outcome)))
    case TickFind =>
      (match Find(c.slot.tracker)
       case (ToCommit(o), t) => c.(slot := c.slot.(tracker := t, ticker := Attempting(o)))
       case _ => c)
    case TickCommit(reply) =>
      var o := c.slot.ticker.offset;
      CommitTo(c, o, reply).(slot := c.slot.(ticker := if reply.Acknowledged? then Accepted(o) else Idle))
    case TickPublish =>
      c.(slot := c.slot.(tracker := Publish(c.slot.tracker, c.slot.ticker.offset), ticker := Idle))
    case Revoke(reply) =>
      (match Find(c.slot.tracker)
       case (ToCommit(o), _) => CommitTo(c, o, reply).(slot := Absent)
       case (_, t) => c.(slot := Stopped(t)))
  }

  /** What each step does to the fields of the tracker. */
  lemma TrackerSteps(c: Cluster, e: Event)
    requires Enabled(c, e) && c.slot.Assigned? && !e.Revoke?
    ensures var (t, t') := (c.slot.tracker, Apply(c, e).slot.tracker);
            match e
            case Deliver(o) =>
              && t'.state == t.state[o := Pending] && t'.lastCommited == t.lastCommited
              && t'.maxReceived == if o <= t.maxReceived then t.maxReceived else o
            case HandlerSettles(o, outcome) =>
              && t'.state == t.state[o := outcome]
              && t'.lastCommited == t.lastCommited && t'.maxReceived == t.maxReceived
            case TickPublish =>
              && t'.state == t.state && t'.lastCommited == c.slot.ticker.offset
              && t'.maxReceived == if t'.lastCommited <= t.maxReceived then t.maxReceived else t'.lastCommited
            case TickFind => t'.lastCommited == t.lastCommited && t'.maxReceived == t.maxReceived
            case _ => t' == t
  {
  }

  ghost predicate CanRun(c: Cluster, es: seq<Event>)
    decreases |es|
  {
    es == [] || (Enabled(c, es[0]) && CanRun(Apply(c, es[0]), es[1..]))
  }

  ghost function Run(c: Cluster, es: seq<Event>): Cluster
    requires CanRun(c, es)
    decreases |es|
  {
    if es == [] then c else Run(Apply(c, es[0]), es[1..])
  }

  // ----- at least once -----

  /** Every message below `o` has been settled in some session. */
  ghost predicate SettledBelow(c: Cluster, o: Offset) {
    forall m | m in c.log && m < o :: m in c.settled
  }

  ghost predicate SessionSafe(c: Cluster, t: Tracker, position: Offset, ticker: Ticker) {
    && position <= c.logEnd && t.maxReceived <= c.logEnd && t.lastCommited <= c.logEnd
    && (forall m | m in c.log && m < position ::
          m in c.settled || (m in t.state && t.state[m].Pending?))
    && (forall m | m in t.state :: m in c.delivered && (t.state[m].Pending? || m in c.settled))
    && SettledBelow(c, t.lastCommited)
    && (forall m | m in c.log && position <= m < t.maxReceived :: m in c.settled)
    && (!ticker.Idle? ==> ticker.offset <= c.logEnd && SettledBelow(c, ticker.offset))
  }

  ghost predicate Safe(c: Cluster) {
    && 0 <= c.logEnd && (forall m | m in c.log :: 0 <= m < c.logEnd)
    && c.settled <= c.delivered <= c.log && (forall m | m in c.inFlight :: m in c.delivered)
    && c.committed <= c.logEnd && SettledBelow(c, c.committed)
    && (c.slot.Assigned? ==> SessionSafe(c, c.slot.tracker, c.slot.position, c.slot.ticker))
  }

  /** Whatever the scan chooses, every message below it is settled, strays and late settles included. */
  lemma FindIsSafe(c: Cluster, t: Tracker, position: Offset)
    requires (forall m | m in c.log :: 0 <= m < c.logEnd) && c.delivered <= c.log
    requires SessionSafe(c, t, position, Idle)
    requires Find(t).0.ToCommit?
    ensures SettledBelow(c, Find(t).0.offset) && Find(t).0.offset <= c.logEnd
    ensures SessionSafe(c, Find(t).1, position, Attempting(Find(t).0.offset))
  {
    ScanHasClosedForm(t.state, t.lastCommited, t.maxReceived);
    var (left, chosen) := Scan(t.state, t.lastCommited, t.maxReceived);
    assert chosen - 1 in t.state && left == map[] ==> chosen - 1 <= t.maxReceived by {
      assert chosen - 1 in t.state && t.maxReceived < chosen - 1 ==> chosen - 1 in left;
    }
    forall m | m in c.log && m < position && m !in c.settled
      ensures chosen <= m && m in left && left[m].Pending?
    {
      assert t.lastCommited <= m;
      if m <= t.maxReceived {
        assert PendingBetween(t.state, t.lastCommited, t.maxReceived, m);
        assert AnyPending(t.state, t.lastCommited, t.maxReceived);
      } else {
        assert left[m].Pending?;
      }
    }
    forall m | m in c.log && position <= m < chosen ensures m in c.settled {
      if t.maxReceived <= m {
        assert m == chosen - 1 && m in t.state && m !in left;
        assert !PendingBetween(t.state, t.lastCommited, t.maxReceived, m);
      }
    }
  }

  lemma DeliverIsSafe(c: Cluster, o: Offset)
    requires Safe(c) && Enabled(c, Deliver(o))
    ensures Safe(Apply(c, Deliver(o)))
  {
  }

  lemma SettleIsSafe(c: Cluster, o: Offset, outcome: MsgState)
    requires Safe(c) && Enabled(c, HandlerSettles(o, outcome))
    ensures Safe(Apply(c, HandlerSettles(o, outcome)))
  {
  }

  lemma TickIsSafe(c: Cluster, e: Event)
    requires Safe(c) && Enabled(c, e) && (e.TickFind? || e.TickCommit? || e.TickPublish?)
    ensures Safe(Apply(c, e))
  {
    hide Find;
    if e.TickFind? && Find(c.slot.tracker).0.ToCommit? {
      FindIsSafe(c, c.slot.tracker, c.slot.position);
    }
  }

  lemma RevokeIsSafe(c: Cluster, reply: Reply)
    requires Safe(c) && Enabled(c, Revoke(reply))
    ensures Safe(Apply(c, Revoke(reply)))
  {
    hide Find;
    if Find(c.slot.tracker).0.ToCommit? {
      FindIsSafe(c, c.slot.tracker, c.slot.position);
    }
  }

  lemma AssignIsSafe(c: Cluster, e: Event)
    requires Safe(c) && Enabled(c, e) && (e.Assign? || e.Produce?)
    ensures Safe(Apply(c, e))
  {
  }

  lemma StepIsSafe(c: Cluster, e: Event)
    requires Safe(c) && Enabled(c, e)
    ensures Safe(Apply(c, e))
  {
    hide Safe, Enabled, Apply;
    match e {
      case Deliver(o) => DeliverIsSafe(c, o);
      case HandlerSettles(o, outcome) => SettleIsSafe(c, o, outcome);
      case Revoke(reply) => RevokeIsSafe(c, reply);
      case Produce(_) => AssignIsSafe(c, e);
      case Assign(_) => AssignIsSafe(c, e);
      case _ => TickIsSafe(c, e);
    }
  }

  lemma {:induction false} RunIsSafe(c: Cluster, es: seq<Event>)
    requires Safe(c) && CanRun(c, es)
    ensures Safe(Run(c, es))
    decreases |es|
  {
    if es != [] {
      StepIsSafe(c, es[0]);
      RunIsSafe(Apply(c, es[0]), es[1..]);
    }
  }

  /** In every run, each message below the committed offset was delivered and settled in some session. */
  lemma AtLeastOnce(c: Cluster, es: seq<Event>)
    requires Initial(c) && CanRun(c, es)
    ensures forall m | m in Run(c, es).log && m < Run(c, es).committed ::
              m in Run(c, es).settled && m in Run(c, es).delivered
  {
    RunIsSafe(c, es);
  }
}
