/** The services that write payments, publish their events and save what is received, as steps of the protocol. */
module OutboxServices {
  import opened Wrappers
  import opened OutboxProtocol
  import OutboxRuns

  const NON_EXISTING_INT_KEY := -1001

  lemma {:induction false} RunSnoc(w: World, actions: seq<Action>, a: Action)
    requires CanRun(w, actions) && Enabled(Run(w, actions), a)
    ensures CanRun(w, actions + [a]) && Run(w, actions + [a]) == Apply(Run(w, actions), a)
    decreases |actions|
  {
    hide Enabled, Apply;
    if actions == [] {
      assert CanRun(Apply(w, a), []);
      assert actions + [a] == [a];
    } else {
      assert (actions + [a])[1..] == actions[1..] + [a];
      RunSnoc(Apply(w, actions[0]), actions[1..], a);
    }
  }

  // ----- what a tick sends -----

  /** The answers the environment gives during a tick: whether an event marshals, and whether a topic takes it. */
  datatype Answers = Answers(marshals: EventID -> bool, accepts: (EventID, nat) -> bool)

  /** How many of the first `n` topics take the event before one refuses it. */
  function Taken(e: Event, answers: Answers, n: nat): (taken: nat)
    ensures taken <= n
    ensures forall i | 0 <= i < taken :: answers.accepts(e.eventId, i)
    ensures taken < n ==> !answers.accepts(e.eventId, taken)
  {
    if n == 0 then 0
    else
      var before := Taken(e, answers, n - 1);
      if before == n - 1 && answers.accepts(e.eventId, n - 1) then n else before
  }

  /** The event on the first `n` topics. */
  function ToTopics(topics: seq<Topic>, e: Event, n: nat): seq<Record>
    requires n <= |topics|
  {
    seq(n, i requires 0 <= i < n => Record(topics[i], e))
  }

  function Sent(topics: seq<Topic>, e: Event, answers: Answers): seq<Record> {
    if answers.marshals(e.eventId)
    then ToTopics(topics, e, Taken(e, answers, |topics|))
    else []
  }

  /** The event is sent completely: only then is it marked. */
  predicate Complete(topics: seq<Topic>, e: Event, answers: Answers) {
    answers.marshals(e.eventId) && forall i | 0 <= i < |topics| :: answers.accepts(e.eventId, i)
  }

  function AllSent(topics: seq<Topic>, listing: seq<Event>, answers: Answers): seq<Record> {
    if listing == [] then []
    else AllSent(topics, listing[..|listing| - 1], answers) + Sent(topics, listing[|listing| - 1], answers)
  }

  function CompleteIds(topics: seq<Topic>, listing: seq<Event>, answers: Answers): seq<EventID> {
    if listing == [] then []
    else
      var last := listing[|listing| - 1];
      CompleteIds(topics, listing[..|listing| - 1], answers)
      + if Complete(topics, last, answers) then [last.eventId] else []
  }

  lemma {:induction false} CompleteIdsAreThoseSent(topics: seq<Topic>, listing: seq<Event>, answers: Answers,
                                                   x: EventID)
    ensures x in CompleteIds(topics, listing, answers) <==>
            exists e :: e in listing && e.eventId == x && Complete(topics, e, answers)
  {
    if listing != [] {
      var init, last := listing[..|listing| - 1], listing[|listing| - 1];
      CompleteIdsAreThoseSent(topics, init, answers, x);
      assert listing == init + [last];
    }
  }

  /** Topics are tried in order, so a topic gets the event if it and all before it take it. */
  lemma SentMeans(topics: seq<Topic>, e: Event, answers: Answers)
    ensures forall r | r in Sent(topics, e, answers) :: exists i ::
              && 0 <= i < |topics| && r == Record(topics[i], e)
              && answers.marshals(e.eventId) && forall j | 0 <= j <= i :: answers.accepts(e.eventId, j)
    ensures forall i | 0 <= i < |topics| && answers.marshals(e.eventId)
                       && (forall j | 0 <= j <= i :: answers.accepts(e.eventId, j)) ::
              Record(topics[i], e) in Sent(topics, e, answers)
  {
    var taken := Taken(e, answers, |topics|);
    forall r | r in Sent(topics, e, answers)
      ensures exists i ::
                && 0 <= i < |topics| && r == Record(topics[i], e)
                && answers.marshals(e.eventId) && forall j | 0 <= j <= i :: answers.accepts(e.eventId, j)
    {
      var i :| 0 <= i < taken && r == Record(topics[i], e);
    }
    forall i | 0 <= i < |topics| && answers.marshals(e.eventId)
               && forall j | 0 <= j <= i :: answers.accepts(e.eventId, j)
      ensures Record(topics[i], e) in Sent(topics, e, answers)
    {
      assert i < taken;
      assert Sent(topics, e, answers)[i] == Record(topics[i], e);
    }
  }

  lemma {:induction false} AllSentMeans(topics: seq<Topic>, listing: seq<Event>, answers: Answers)
    ensures forall r | r in AllSent(topics, listing, answers) :: exists i ::
              && r.event in listing && 0 <= i < |topics| && r.topic == topics[i]
              && answers.marshals(r.event.eventId) && forall j | 0 <= j <= i :: answers.accepts(r.event.eventId, j)
    ensures forall e, i | e in listing && 0 <= i < |topics| && answers.marshals(e.eventId)
                          && (forall j | 0 <= j <= i :: answers.accepts(e.eventId, j)) ::
              Record(topics[i], e) in AllSent(topics, listing, answers)
  {
    hide Sent;
    if listing != [] {
      var init, last := listing[..|listing| - 1], listing[|listing| - 1];
      assert listing == init + [last];
      AllSentMeans(topics, init, answers);
      SentMeans(topics, last, answers);
    }
  }

  /** The update of a tick affects as many rows as it names. */
  lemma RowsAreThoseNamed(topics: seq<Topic>, events: map<EventID, Event>, listing: seq<Event>, answers: Answers)
    requires ListsPending(events, listing)
    ensures var ids := CompleteIds(topics, listing, answers); RowsAffected(events, ids) == |ids|
  {
    hide Complete;
    var ids := CompleteIds(topics, listing, answers);
    CompleteIdsAreDistinct(topics, listing, answers, ids);
    OutboxRuns.DistinctCount(ids);
    forall x | x in ids ensures x in events {
      CompleteIdsAreThoseSent(topics, listing, answers, x);
    }
    assert (set x | x in events && x in ids) == set x | x in ids;
  }

  lemma {:induction false} CompleteIdsAreDistinct(topics: seq<Topic>, listing: seq<Event>, answers: Answers,
                                                  ids: seq<EventID>)
    requires forall i, j | 0 <= i < j < |listing| :: listing[i].eventId != listing[j].eventId
    requires ids == CompleteIds(topics, listing, answers)
    ensures forall i, j | 0 <= i < j < |ids| :: ids[i] != ids[j]
  {
    hide Complete;
    if listing != [] {
      var init, last := listing[..|listing| - 1], listing[|listing| - 1];
      var before := CompleteIds(topics, init, answers);
      CompleteIdsAreDistinct(topics, init, answers, before);
      CompleteIdsAreThoseSent(topics, init, answers, last.eventId);
      assert forall e | e in init :: exists i :: 0 <= i < |init| && e == listing[i];
      assert last.eventId !in before;
    }
  }

  /** What a committed tick leaves pending: exactly the events that some topic refused or that did not marshal. */
  lemma TickLeavesTheIncomplete(topics: seq<Topic>, events: map<EventID, Event>, listing: seq<Event>,
                                answers: Answers, x: EventID)
    requires ListsPending(events, listing) && x in events && events[x].eventId == x
    ensures MarkAll(events, CompleteIds(topics, listing, answers))[x].status.Pending? <==>
            events[x].status.Pending? && !Complete(topics, events[x], answers)
  {
    hide CompleteIds, Complete;
    CompleteIdsAreThoseSent(topics, listing, answers, x);
  }

  /** Postgres, the producer's queue and the consumer's marks, shared by the services. */
  class Backend {
    const topics: seq<Topic>
    var payments: map<int, Payment>
    var nextPayment: int
    var events: map<EventID, Event>
    var audit: seq<InboxEvent>
    var accepted: seq<Record>
    var settled: set<EventID>
    var txs: map<TxID, Tx>

    ghost function World(): World
      reads this
    {
      OutboxProtocol.World(topics, payments, nextPayment, events, audit, accepted, settled, txs)
    }

    constructor (topics: seq<Topic>)
      ensures Initial(World()) && this.topics == topics && nextPayment == 1
    {
      this.topics := topics;
      payments, nextPayment, events, audit, accepted, settled, txs := map[], 1, map[], [], [], {}, map[];
    }

    method BeginSave(tx: TxID)
      requires Enabled(World(), Action.BeginSave(tx))
      modifies this`txs
      ensures World() == Apply(old(World()), Action.BeginSave(tx))
    {
      txs := txs[tx := Saving(None, None)];
    }

    method InsertPayment(tx: TxID, p: Payment) returns (id: int)
      requires Enabled(World(), Action.InsertPayment(tx, p))
      modifies this`txs, this`nextPayment
      ensures World() == Apply(old(World()), Action.InsertPayment(tx, p)) && id == old(nextPayment)
    {
      id := nextPayment;
      nextPayment := nextPayment + 1;
      txs := txs[tx := txs[tx].(payment := Some(p.(id := id)))];
    }

    method InsertEvent(tx: TxID, e: Event)
      requires Enabled(World(), Action.InsertEvent(tx, e.eventId)) && e == NewEvent(e.eventId, txs[tx].payment.value)
      modifies this`txs
      ensures World() == Apply(old(World()), Action.InsertEvent(tx, e.eventId))
    {
      txs := txs[tx := txs[tx].(event := Some(e))];
    }

    /** Begins a tick's transaction and reads the pending rows, in whatever order the database returns them. */
    method GetAllPending(tx: TxID) returns (listing: seq<Event>)
      requires tx !in txs && forall x | x in events :: events[x].eventId == x
      modifies this`txs
      ensures Enabled(old(World()), BeginTick(tx, listing)) && World() == Apply(old(World()), BeginTick(tx, listing))
    {
      listing := [];
      var rows := events.Keys;
      while rows != {}
        invariant rows <= events.Keys
        invariant forall e | e in listing ::
                    e.status.Pending? && e.eventId in events && e.eventId !in rows && events[e.eventId] == e
        invariant forall x | x in events && x !in rows && events[x].status.Pending? :: events[x] in listing
        invariant forall i, j | 0 <= i < j < |listing| :: listing[i].eventId != listing[j].eventId
        decreases rows
      {
        var x :| x in rows;
        rows := rows - {x};
        if events[x].status.Pending? {
          ghost var before := listing;
          listing := listing + [events[x]];
          assert forall e :: e in listing <==> e in before || e == events[x];
        }
      }
      txs := txs[tx := Ticking(listing, 0, 0, [], false)];
    }

    /** The call of the producer's client for one topic. */
    method ProduceTo(tx: TxID, accepts: bool)
      requires Enabled(World(), Action.ProduceTo(tx, accepts))
      modifies this`txs, this`accepted
      ensures World() == Apply(old(World()), Action.ProduceTo(tx, accepts))
      ensures var tick := old(txs[tx]);
              && txs == old(txs)[tx := if accepts then tick.(topic := tick.topic + 1)
                                       else tick.(next := tick.next + 1, topic := 0)]
              && accepted == if accepts then old(accepted) + [Record(topics[tick.topic], tick.listing[tick.next])]
                             else old(accepted)
    {
      var tick := txs[tx];
      if accepts {
        accepted := accepted + [Record(topics[tick.topic], tick.listing[tick.next])];
        txs := txs[tx := tick.(topic := tick.topic + 1)];
      } else {
        txs := txs[tx := tick.(next := tick.next + 1, topic := 0)];
      }
    }

    lemma MayProduce(tx: TxID, accepts: bool)
      requires tx in txs && txs[tx].Ticking? && txs[tx].next < |txs[tx].listing| && txs[tx].topic < |topics|
      ensures Enabled(World(), Action.ProduceTo(tx, accepts))
    {
    }

    method SendToTopics(tx: TxID, e: Event, answers: Answers, ghost start: World, ghost trace: seq<Action>)
      returns (err: bool, ghost trace': seq<Action>)
      requires CanRun(start, trace) && Run(start, trace) == World()
      requires tx in txs && txs[tx].Ticking? && txs[tx].next < |txs[tx].listing| && txs[tx].topic == 0
      requires e == txs[tx].listing[txs[tx].next]
      modifies this`txs, this`accepted
      ensures CanRun(start, trace') && Run(start, trace') == World()
      ensures err <==> Taken(e, answers, |topics|) < |topics|
      ensures accepted == old(accepted) + ToTopics(topics, e, Taken(e, answers, |topics|))
      ensures txs == old(txs)[tx := if err then old(txs[tx]).(next := old(txs[tx]).next + 1)
                                    else old(txs[tx]).(topic := |topics|)]
    {
      hide CanRun, Run, Apply, Enabled, World, Taken, ToTopics;
      NothingTaken(topics, e, answers);
      trace' := trace;
      ghost var tick := txs[tx];
      for i := 0 to |topics|
        invariant CanRun(start, trace') && Run(start, trace') == World()
        invariant Taken(e, answers, i) == i
        invariant accepted == old(accepted) + ToTopics(topics, e, i)
        invariant tx in txs && txs == old(txs)[tx := tick.(topic := i)]
      {
        var accepts := answers.accepts(e.eventId, i);
        MayProduce(tx, accepts);
        RunSnoc(start, trace', Action.ProduceTo(tx, accepts));
        trace' := trace' + [Action.ProduceTo(tx, accepts)];
        TakenNext(topics, e, answers, i);
        ProduceTo(tx, accepts);
        if !accepts {
          return true, trace';
        }
      }
      return false, trace';
    }

    /** Hands one event to every topic, stopping at the first that refuses it. */
    method Produce(tx: TxID, e: Event, answers: Answers, ghost start: World, ghost trace: seq<Action>)
      returns (err: bool, ghost trace': seq<Action>)
      requires CanRun(start, trace) && Run(start, trace) == World()
      requires tx in txs && txs[tx].Ticking? && txs[tx].next < |txs[tx].listing| && txs[tx].topic == 0
      requires e == txs[tx].listing[txs[tx].next]
      modifies this`txs, this`accepted
      ensures CanRun(start, trace') && Run(start, trace') == World()
      ensures err <==> Taken(e, answers, |topics|) < |topics|
      ensures accepted == old(accepted) + ToTopics(topics, e, Taken(e, answers, |topics|))
      ensures var sent := |accepted| - |old(accepted)|;
              && 0 <= sent <= |topics| && old(accepted) <= accepted
              && (forall i | 0 <= i < sent ::
                    accepted[|old(accepted)| + i] == Record(topics[i], e) && answers.accepts(e.eventId, i))
              && (if err then sent < |topics| && !answers.accepts(e.eventId, sent) else sent == |topics|)
      ensures txs == old(txs)[tx := if err then old(txs[tx]).(next := old(txs[tx]).next + 1)
                                    else old(txs[tx]).(topic := |topics|)]
    {
      hide CanRun, Run, Apply, Enabled, World;
      err, trace' := SendToTopics(tx, e, answers, start, trace);
    }

    /** The event could not be marshalled. */
    method Skip(tx: TxID)
      requires Enabled(World(), Action.Skip(tx))
      modifies this`txs
      ensures World() == Apply(old(World()), Action.Skip(tx))
      ensures txs == old(txs)[tx := old(txs[tx]).(next := old(txs[tx]).next + 1, topic := 0)]
    {
      txs := txs[tx := txs[tx].(next := txs[tx].next + 1, topic := 0)];
    }

    /** The event went to every topic: its id joins those to be marked. */
    method FinishEvent(tx: TxID)
      requires Enabled(World(), Action.FinishEvent(tx))
      modifies this`txs
      ensures World() == Apply(old(World()), Action.FinishEvent(tx))
      ensures var tick := old(txs[tx]);
              txs == old(txs)[tx := tick.(next := tick.next + 1, topic := 0,
                                          toUpdate := tick.toUpdate + [tick.listing[tick.next].eventId])]
    {
      var tick := txs[tx];
      txs := txs[tx := tick.(next := tick.next + 1, topic := 0,
                             toUpdate := tick.toUpdate + [tick.listing[tick.next].eventId])];
    }

    method UpdateStatusByIds(tx: TxID) returns (rows: Option<nat>)
      requires tx in txs && txs[tx].Ticking? && txs[tx].next == |txs[tx].listing| && !txs[tx].marked
      modifies this`txs
      ensures rows.None? <==> old(txs[tx]).toUpdate == []
      ensures rows.None? ==> txs == old(txs)
      ensures rows.Some? ==>
                rows.value == RowsAffected(events, old(txs[tx]).toUpdate)
                && World() == Apply(old(World()), MarkProduced(tx))
    {
      if txs[tx].toUpdate == [] {
        return None;
      }
      txs := txs[tx := txs[tx].(marked := true)];
      return Some(RowsAffected(events, txs[tx].toUpdate));
    }

    method BeginHandle(tx: TxID, msg: Record)
      requires Enabled(World(), Action.BeginHandle(tx, msg))
      modifies this`txs
      ensures World() == Apply(old(World()), Action.BeginHandle(tx, msg))
    {
      txs := txs[tx := Handling(msg.event, None)];
    }

    /** Inserts the audit row, and settles the message at once. */
    method InsertAudit(tx: TxID)
      requires Enabled(World(), Action.InsertAudit(tx))
      modifies this`txs, this`settled
      ensures World() == Apply(old(World()), Action.InsertAudit(tx))
    {
      var e := txs[tx].received;
      settled := settled + {e.eventId};
      txs := txs[tx := txs[tx].(row := Some(NewInboxEvent(e)))];
    }

    /** The insert is refused: the message is settled all the same, and the transaction rolled back. */
    method InsertAuditFails(tx: TxID)
      requires Enabled(World(), Action.InsertAuditFails(tx))
      modifies this`txs, this`settled
      ensures World() == Apply(old(World()), Action.InsertAuditFails(tx))
    {
      settled := settled + {txs[tx].received.eventId};
      txs := txs - {tx};
    }

    /** The deferred end of TxClosure: rolls back on an error, commits otherwise, which may fail too. */
    method Close(tx: TxID, failed: bool, commits: bool) returns (err: bool)
      requires tx in txs && (!failed ==> Enabled(World(), Commit(tx)))
      modifies this
      ensures err <==> failed || !commits
      ensures World() == Apply(old(World()), if err then Rollback(tx) else Commit(tx))
    {
      var t := txs[tx];
      txs := txs - {tx};
      if failed || !commits {
        return true;
      }
      match t {
        case Saving(p, e) =>
          payments := payments[p.value.id := p.value];
          events := events[e.value.eventId := e.value];
        case Ticking(_, _, _, toUpdate, _) =>
          events := MarkAll(events, toUpdate);
        case Handling(_, row) =>
          audit := audit + [row.value];
      }
      return false;
    }
  }

  lemma NothingTaken(topics: seq<Topic>, e: Event, answers: Answers)
    ensures Taken(e, answers, 0) == 0 && ToTopics(topics, e, 0) == []
  {
  }

  lemma TakenNext(topics: seq<Topic>, e: Event, answers: Answers, i: nat)
    requires i < |topics| && Taken(e, answers, i) == i
    ensures answers.accepts(e.eventId, i) ==> Taken(e, answers, i + 1) == i + 1
    ensures !answers.accepts(e.eventId, i) ==> Taken(e, answers, |topics|) == i
    ensures ToTopics(topics, e, i + 1) == ToTopics(topics, e, i) + [Record(topics[i], e)]
  {
    assert forall j | 0 <= j < Taken(e, answers, i) :: answers.accepts(e.eventId, j);
  }

  class OutboxService {
    const db: Backend

    constructor (db: Backend)
      ensures this.db == db
    {
      this.db := db;
    }

    /** One listed event: marshal it, send it, and note it for marking if every topic took it. */
    method HandleEvent(tx: TxID, i: nat, answers: Answers, ghost start: World, ghost trace: seq<Action>)
      returns (ghost trace': seq<Action>)
      requires CanRun(start, trace) && Run(start, trace) == db.World()
      requires tx in db.txs && db.txs[tx].Ticking? && db.txs[tx].next == i < |db.txs[tx].listing|
      requires db.txs[tx].topic == 0
      modifies db`txs, db`accepted
      ensures CanRun(start, trace') && Run(start, trace') == db.World()
      ensures var tick := old(db.txs[tx]);
              var e := tick.listing[i];
              && db.accepted == old(db.accepted) + Sent(db.topics, e, answers)
              && db.txs == old(db.txs)[tx := tick.(next := i + 1,
                             toUpdate := tick.toUpdate + if Complete(db.topics, e, answers) then [e.eventId] else [])]
    {
      hide CanRun, Run, Apply, Backend.World, Taken;
      var e := db.txs[tx].listing[i];
      TakenIsComplete(db.topics, e, answers);
      assert db.txs[tx].toUpdate + [] == db.txs[tx].toUpdate;
      if !answers.marshals(e.eventId) {
        MayHandle(tx);
        RunSnoc(start, trace, Skip(tx));
        trace' := trace + [Skip(tx)];
        db.Skip(tx);
        return;
      }
      var err;
      err, trace' := db.Produce(tx, e, answers, start, trace);
      if err {
        return;
      }
      MayHandle(tx);
      RunSnoc(start, trace', FinishEvent(tx));
      trace' := trace' + [FinishEvent(tx)];
      db.FinishEvent(tx);
    }

    lemma MayHandle(tx: TxID)
      requires tx in db.txs && db.txs[tx].Ticking? && db.txs[tx].next < |db.txs[tx].listing|
      ensures Enabled(db.World(), Skip(tx))
      ensures db.txs[tx].topic == |db.topics| ==> Enabled(db.World(), FinishEvent(tx))
    {
    }

    method SendAll(tx: TxID, listing: seq<Event>, answers: Answers, ghost start: World, ghost trace: seq<Action>)
      returns (ghost trace': seq<Action>)
      requires CanRun(start, trace) && Run(start, trace) == db.World()
      requires tx in db.txs && db.txs[tx] == Ticking(listing, 0, 0, [], false)
      modifies db`txs, db`accepted
      ensures CanRun(start, trace') && Run(start, trace') == db.World()
      ensures db.accepted == old(db.accepted) + AllSent(db.topics, listing, answers)
      ensures var ids := CompleteIds(db.topics, listing, answers);
              db.txs == old(db.txs)[tx := Ticking(listing, |listing|, 0, ids, false)]
    {
      hide CanRun, Run, Apply, Enabled, Backend.World, Sent, Complete;
      trace' := trace;
      for i := 0 to |listing|
        invariant CanRun(start, trace') && Run(start, trace') == db.World()
        invariant db.accepted == old(db.accepted) + AllSent(db.topics, listing[..i], answers)
        invariant tx in db.txs
        invariant db.txs ==
                  old(db.txs)[tx := Ticking(listing, i, 0, CompleteIds(db.topics, listing[..i], answers), false)]
      {
        assert listing[..i + 1][..i] == listing[..i];
        trace' := HandleEvent(tx, i, answers, start, trace');
      }
      assert listing[..|listing|] == listing;
    }

    method Tick(tx: TxID, begins: bool, fetches: bool, answers: Answers, commits: bool)
      returns (err: bool, ghost listing: seq<Event>, ghost trace: seq<Action>)
      requires tx !in db.txs && forall x | x in db.events :: db.events[x].eventId == x
      modifies db
      ensures CanRun(old(db.World()), trace) && Run(old(db.World()), trace) == db.World()
      ensures !(begins && fetches) ==> err && db.World() == old(db.World())
      ensures begins && fetches ==> ListsPending(old(db.events), listing)
      ensures begins && fetches ==>
                var ids := CompleteIds(db.topics, listing, answers);
                && (err <==> ids == [] || RowsAffected(old(db.events), ids) != |ids| || !commits)
                && db.events == if err then old(db.events) else MarkAll(old(db.events), ids)
      ensures begins && fetches ==> db.accepted == old(db.accepted) + AllSent(db.topics, listing, answers)
      ensures db.txs == old(db.txs) && db.payments == old(db.payments) && db.nextPayment == old(db.nextPayment)
      ensures db.audit == old(db.audit) && db.settled == old(db.settled)
    {
      hide CanRun, Run, ListsPending, AllSent, CompleteIds, MarkAll, RowsAffected;
      ghost var start := db.World();
      NoActions(start);
      if !begins || !fetches {
        return true, [], [];
      }
      var events := db.GetAllPending(tx);
      listing := events;
      RunSnoc(start, [], BeginTick(tx, events));
      trace := SendAll(tx, events, answers, start, [] + [BeginTick(tx, events)]);
      err, trace := MarkAndClose(tx, commits, start, trace);
    }

    /**
      One tick. With no transaction, or the pending rows not read, nothing happens. Otherwise each pending event
      that marshals goes to the topics up to the first that refuses it, and stays sent; exactly those that no
      topic refused are marked, all or none.
     */
    method HandlePending(tx: TxID, begins: bool, fetches: bool, answers: Answers, commits: bool)
      returns (err: bool, ghost listing: seq<Event>, ghost trace: seq<Action>)
      requires tx !in db.txs && forall x | x in db.events :: db.events[x].eventId == x
      modifies db
      ensures CanRun(old(db.World()), trace) && Run(old(db.World()), trace) == db.World()
      ensures !(begins && fetches) ==> err && db.World() == old(db.World())
      ensures err <==> !begins || !fetches || !commits ||
                       forall x | x in old(db.events) && old(db.events)[x].status.Pending? ::
                         !(answers.marshals(x) && forall i | 0 <= i < |db.topics| :: answers.accepts(x, i))
      ensures db.events.Keys == old(db.events.Keys)
      ensures forall x | x in db.events ::
                var before := old(db.events)[x];
                db.events[x] ==
                if !err && before.status.Pending? && answers.marshals(x)
                   && forall i | 0 <= i < |db.topics| :: answers.accepts(x, i)
                then before.(status := Produced) else before
      ensures old(db.accepted) <= db.accepted
      ensures forall r | r in db.accepted[|old(db.accepted)|..] ::
                var x := r.event.eventId;
                && begins && fetches && x in old(db.events) && r.event == old(db.events)[x] && r.event.status.Pending?
                && answers.marshals(x)
                && exists i :: && 0 <= i < |db.topics| && r.topic == db.topics[i]
                               && forall j | 0 <= j <= i :: answers.accepts(x, j)
      ensures begins && fetches ==>
                forall x, i | x in old(db.events) && old(db.events)[x].status.Pending? && 0 <= i < |db.topics|
                              && answers.marshals(x) && (forall j | 0 <= j <= i :: answers.accepts(x, j)) ::
                  Record(db.topics[i], old(db.events)[x]) in db.accepted[|old(db.accepted)|..]
      ensures db.txs == old(db.txs) && db.payments == old(db.payments) && db.nextPayment == old(db.nextPayment)
      ensures db.audit == old(db.audit) && db.settled == old(db.settled)
    {
      hide CanRun, Run, AllSent, CompleteIds, MarkAll, RowsAffected, Complete, ListsPending;
      ghost var before, sent := db.events, db.accepted;
      err, listing, trace := Tick(tx, begins, fetches, answers, commits);
      if begins && fetches {
        ghost var ids := CompleteIds(db.topics, listing, answers);
        RowsAreThoseNamed(db.topics, before, listing, answers);
        AllSentMeans(db.topics, listing, answers);
        assert db.accepted[|sent|..] == AllSent(db.topics, listing, answers);
        Listed(before, listing);
        IdsMean(db.topics, before, listing, answers);
        MarkedMeans(before, ids);
      }
    }

    lemma Listed(events: map<EventID, Event>, listing: seq<Event>)
      requires ListsPending(events, listing)
      ensures forall e | e in listing :: e.status.Pending? && e.eventId in events && events[e.eventId] == e
      ensures forall x | x in events && events[x].status.Pending? :: events[x] in listing
    {
    }

    /** The ids to be marked are those of the pending events that marshal and that no topic refuses. */
    lemma IdsMean(topics: seq<Topic>, events: map<EventID, Event>, listing: seq<Event>, answers: Answers)
      requires ListsPending(events, listing) && forall x | x in events :: events[x].eventId == x
      ensures var ids := CompleteIds(topics, listing, answers);
              && (forall x | x in ids :: x in events && events[x].status.Pending?)
              && (forall x | x in events :: x in ids <==>
                    && events[x].status.Pending? && answers.marshals(x)
                    && forall i | 0 <= i < |topics| :: answers.accepts(x, i))
              && (ids == [] <==>
                    forall x | x in events && events[x].status.Pending? ::
                      !(answers.marshals(x) && forall i | 0 <= i < |topics| :: answers.accepts(x, i)))
    {
      hide CompleteIds;
      var ids := CompleteIds(topics, listing, answers);
      forall x ensures x in ids <==> exists e :: e in listing && e.eventId == x && Complete(topics, e, answers) {
        CompleteIdsAreThoseSent(topics, listing, answers, x);
      }
      forall x | x in events
        ensures x in ids <==> && events[x].status.Pending? && answers.marshals(x)
                              && forall i | 0 <= i < |topics| :: answers.accepts(x, i)
      {
        assert Complete(topics, events[x], answers) <==>
               answers.marshals(x) && forall i | 0 <= i < |topics| :: answers.accepts(x, i);
      }
      assert ids == [] <==> forall x :: x !in ids by {
        assert ids != [] ==> ids[0] in ids;
      }
    }

    lemma MarkedMeans(events: map<EventID, Event>, ids: seq<EventID>)
      ensures var after := MarkAll(events, ids);
              after.Keys == events.Keys
              && forall x | x in events :: after[x] == if x in ids then events[x].(status := Produced) else events[x]
    {
    }

    method MarkAndClose(tx: TxID, commits: bool, ghost start: World, ghost trace: seq<Action>)
      returns (err: bool, ghost trace': seq<Action>)
      requires CanRun(start, trace) && Run(start, trace) == db.World()
      requires tx in db.txs && db.txs[tx].Ticking? && db.txs[tx].next == |db.txs[tx].listing| && !db.txs[tx].marked
      modifies db
      ensures CanRun(start, trace') && Run(start, trace') == db.World()
      ensures var ids := old(db.txs[tx]).toUpdate;
              && (err <==> ids == [] || RowsAffected(old(db.events), ids) != |ids| || !commits)
              && db.World() == old(db.World()).(txs := old(db.txs) - {tx},
                                 events := if err then old(db.events) else MarkAll(old(db.events), ids))
    {
      hide CanRun, Run, MarkAll, RowsAffected;
      trace' := trace;
      var toUpdateIds := db.txs[tx].toUpdate;
      var rows := db.UpdateStatusByIds(tx);
      if rows.Some? {
        RunSnoc(start, trace, MarkProduced(tx));
        trace' := trace + [MarkProduced(tx)];
      }
      var failed := rows.None? || rows.value != |toUpdateIds|;
      ghost var end := if failed || !commits then Rollback(tx) else Commit(tx);
      RunSnoc(start, trace', end);
      trace' := trace' + [end];
      err := db.Close(tx, failed, commits);
    }
  }

  lemma NoActions(w: World)
    ensures CanRun(w, []) && Run(w, []) == w
  {
  }

  lemma TakenIsComplete(topics: seq<Topic>, e: Event, answers: Answers)
    ensures Complete(topics, e, answers) <==> answers.marshals(e.eventId) && Taken(e, answers, |topics|) == |topics|
  {
  }

  class PaymentService {
    const db: Backend

    constructor (db: Backend)
      ensures this.db == db
    {
      this.db := db;
    }

    /**
      The payment and its event are written together or not at all. `begins`, `inserts` and `marshals` say
      whether the transaction begins, and the first insert and the marshalling succeed; `eventId` is the random
      id if the second insert succeeds.
     */
    method Save(tx: TxID, p: Payment, begins: bool, inserts: bool, marshals: bool, eventId: Option<EventID>,
                commits: bool)
      returns (id: int, err: bool, ghost trace: seq<Action>)
      requires tx !in db.txs && (eventId.Some? ==> EventIdFree(db.World(), eventId.value))
      modifies db
      ensures CanRun(old(db.World()), trace) && Run(old(db.World()), trace) == db.World()
      ensures !err <==> begins && inserts && marshals && eventId.Some? && commits
      ensures id == if !begins then 0
                    else if inserts && marshals && eventId.Some? then old(db.nextPayment)
                    else NON_EXISTING_INT_KEY
      ensures db.nextPayment == old(db.nextPayment) + if begins && inserts then 1 else 0
      ensures if err
              then db.payments == old(db.payments) && db.events == old(db.events)
              else var saved := p.(id := id);
                   && db.payments == old(db.payments)[id := saved]
                   && db.events == old(db.events)[eventId.value := Event(eventId.value, id, saved, Pending)]
      ensures db.txs == old(db.txs) && db.accepted == old(db.accepted) && db.audit == old(db.audit)
      ensures db.settled == old(db.settled)
    {
      hide CanRun, Run;
      ghost var start := db.World();
      NoActions(start);
      if !begins {
        return 0, true, [];
      }
      RunSnoc(start, [], BeginSave(tx));
      trace := [] + [BeginSave(tx)];
      db.BeginSave(tx);
      var failed;
      failed, id, trace := Write(tx, p, inserts, marshals, eventId, start, trace);
      ghost var end := if failed || !commits then Rollback(tx) else Commit(tx);
      RunSnoc(start, trace, end);
      trace := trace + [end];
      err := db.Close(tx, failed, commits);
    }

    /** The closure: what happens inside the transaction. */
    method Write(tx: TxID, p: Payment, inserts: bool, marshals: bool, eventId: Option<EventID>,
                 ghost start: World, ghost trace: seq<Action>)
      returns (failed: bool, id: int, ghost trace': seq<Action>)
      requires CanRun(start, trace) && Run(start, trace) == db.World()
      requires tx in db.txs && db.txs[tx] == Saving(None, None)
      requires eventId.Some? ==> EventIdFree(db.World(), eventId.value)
      modifies db`txs, db`nextPayment
      ensures CanRun(start, trace') && Run(start, trace') == db.World()
      ensures !failed <==> inserts && marshals && eventId.Some?
      ensures id == if failed then NON_EXISTING_INT_KEY else old(db.nextPayment)
      ensures db.nextPayment == old(db.nextPayment) + if inserts then 1 else 0
      ensures tx in db.txs && db.txs - {tx} == old(db.txs) - {tx}
      ensures !failed ==> var saved := p.(id := id);
                          db.txs[tx] == Saving(Some(saved), Some(NewEvent(eventId.value, saved)))
    {
      hide CanRun, Run;
      if !inserts {
        return true, NON_EXISTING_INT_KEY, trace;
      }
      RunSnoc(start, trace, InsertPayment(tx, p));
      trace' := trace + [InsertPayment(tx, p)];
      var paymentID := db.InsertPayment(tx, p);
      if !marshals || eventId.None? {
        return true, NON_EXISTING_INT_KEY, trace';
      }
      RunSnoc(start, trace', InsertEvent(tx, eventId.value));
      trace' := trace' + [InsertEvent(tx, eventId.value)];
      db.InsertEvent(tx, NewEvent(eventId.value, p.(id := paymentID)));
      return false, paymentID, trace';
    }
  }

  class InboxService {
    const db: Backend

    constructor (db: Backend)
      ensures this.db == db
    {
      this.db := db;
    }

    /**
      One delivery. If the transaction begins, the message is settled in every case; a row is added unless the
      event has one, and then only if the insert and the commit succeed. An insert waits for a transaction that
      has inserted the same key: `holder`, which ends in the meantime, with a commit or a rollback.
     */
    method Save(tx: TxID, msg: Record, begins: bool, holderCommits: bool, insertFails: bool, commits: bool)
      returns (err: bool, ghost holder: Option<TxID>, ghost trace: seq<Action>)
      requires tx !in db.txs && msg in db.accepted && Sound(db.World())
      modifies db
      ensures CanRun(old(db.World()), trace) && Run(old(db.World()), trace) == db.World()
      ensures !begins ==> err && db.World() == old(db.World())
      ensures begins ==>
                var x := msg.event.eventId;
                && (if holder.Some? then InsertedBy(old(db.txs), holder.value, x)
                    else NobodyInserts(old(db.World()), x))
                && var audit := if holder.Some? && holderCommits
                                then old(db.audit) + [old(db.txs)[holder.value].row.value] else old(db.audit);
                && (err <==> Audited(audit, x) || insertFails || !commits)
                && db.audit == (if err then audit
                                else audit + [InboxEvent(x, msg.event.parentId, msg.event.parentMetadata,
                                                         msg.event.status)])
                && db.settled == old(db.settled) + {x}
                && db.txs == if holder.Some? then old(db.txs) - {holder.value} else old(db.txs)
      ensures db.accepted == old(db.accepted) && db.events == old(db.events)
      ensures db.payments == old(db.payments) && db.nextPayment == old(db.nextPayment)
    {
      hide CanRun, Run, Audited, Sound, OneHolds, NobodyInserts;
      ghost var start := db.World();
      NoActions(start);
      holder := None;
      if !begins {
        return true, None, [];
      }
      OneHolder(start, msg.event.eventId);
      BeginningHoldsNothing(start, tx, msg, msg.event.eventId);
      HoldersAreInserters(start, msg.event.eventId);
      RunSnoc(start, [], BeginHandle(tx, msg));
      trace := [] + [BeginHandle(tx, msg)];
      db.BeginHandle(tx, msg);
      HoldersAreInserters(db.World(), msg.event.eventId);
      holder, trace := Await(msg.event.eventId, holderCommits, start, trace);
      err, trace := Insert(tx, msg, insertFails, commits, start, trace);
    }

    ghost predicate OneHolds(txs: map<TxID, Tx>, x: EventID) {
      forall t, u | InsertedBy(txs, t, x) && InsertedBy(txs, u, x) :: t == u
    }

    lemma OneHolder(w: World, x: EventID)
      requires Sound(w)
      ensures OneHolds(w.txs, x)
    {
      hide EventsOk, AuditOk, RecordsOk, ProducedOk, TxOk, SavesApart;
      forall t, u | t in w.txs && u in w.txs && t != u ensures !(InsertedBy(w.txs, t, x) && InsertedBy(w.txs, u, x)) {
        assert Apart(w.txs[t], w.txs[u]);
      }
    }

    /** A delivery that has only begun holds no key. */
    lemma BeginningHoldsNothing(w: World, tx: TxID, msg: Record, x: EventID)
      requires Enabled(w, BeginHandle(tx, msg)) && OneHolds(w.txs, x)
      ensures var txs := Apply(w, BeginHandle(tx, msg)).txs;
              OneHolds(txs, x) && forall t :: InsertedBy(txs, t, x) <==> InsertedBy(w.txs, t, x)
    {
      var txs := Apply(w, BeginHandle(tx, msg)).txs;
      forall t ensures InsertedBy(txs, t, x) <==> InsertedBy(w.txs, t, x) {
        assert t != tx ==> (t in txs <==> t in w.txs);
      }
    }

    lemma HoldersAreInserters(w: World, x: EventID)
      ensures NobodyInserts(w, x) <==> forall t :: !InsertedBy(w.txs, t, x)
    {
      if NobodyInserts(w, x) {
        forall t ensures !InsertedBy(w.txs, t, x) {
        }
      } else {
        var t :| t in w.txs && w.txs[t].Handling? && w.txs[t].row.Some? && w.txs[t].received.eventId == x;
        assert InsertedBy(w.txs, t, x);
      }
    }

    lemma HolderEnds(txs: map<TxID, Tx>, t: TxID, x: EventID)
      requires OneHolds(txs, x) && InsertedBy(txs, t, x)
      ensures forall u :: !InsertedBy(txs - {t}, u, x)
    {
      forall u ensures !InsertedBy(txs - {t}, u, x) {
        assert InsertedBy(txs - {t}, u, x) ==> InsertedBy(txs, u, x);
      }
    }

    /** Waits for the transaction, if any, that has inserted the key. */
    method Await(x: EventID, commits: bool, ghost start: World, ghost trace: seq<Action>)
      returns (ghost holder: Option<TxID>, ghost trace': seq<Action>)
      requires CanRun(start, trace) && Run(start, trace) == db.World()
      requires OneHolds(db.txs, x)
      modifies db
      ensures CanRun(start, trace') && Run(start, trace') == db.World() && NobodyInserts(db.World(), x)
      ensures if holder.Some? then InsertedBy(old(db.txs), holder.value, x) else NobodyInserts(old(db.World()), x)
      ensures db.World() == if holder.None? then old(db.World())
                            else if commits then Apply(old(db.World()), Commit(holder.value))
                            else Apply(old(db.World()), Rollback(holder.value))
    {
      hide CanRun, Run, OneHolds, NobodyInserts;
      HoldersAreInserters(db.World(), x);
      if t :| t in db.txs && InsertedBy(db.txs, t, x) {
        ghost var end := if commits then Commit(t) else Rollback(t);
        RunSnoc(start, trace, end);
        HolderEnds(db.txs, t, x);
        var err := db.Close(t, false, commits);
        HoldersAreInserters(db.World(), x);
        return Some(t), trace + [end];
      }
      return None, trace;
    }

    /** The insert and what follows it, once nobody holds the key. */
    method Insert(tx: TxID, msg: Record, insertFails: bool, commits: bool, ghost start: World, ghost trace: seq<Action>)
      returns (err: bool, ghost trace': seq<Action>)
      requires CanRun(start, trace) && Run(start, trace) == db.World()
      requires tx in db.txs && db.txs[tx] == Handling(msg.event, None) && NobodyInserts(db.World(), msg.event.eventId)
      modifies db
      ensures CanRun(start, trace') && Run(start, trace') == db.World()
      ensures err <==> Audited(old(db.audit), msg.event.eventId) || insertFails || !commits
      ensures db.World() == old(db.World()).(
                              txs := old(db.txs) - {tx}, settled := old(db.settled) + {msg.event.eventId},
                              audit := if err then old(db.audit) else old(db.audit) + [NewInboxEvent(msg.event)])
    {
      hide CanRun, Run, Audited;
      if Audited(db.audit, msg.event.eventId) || insertFails {
        RunSnoc(start, trace, InsertAuditFails(tx));
        trace' := trace + [InsertAuditFails(tx)];
        db.InsertAuditFails(tx);
        return true, trace';
      }
      RunSnoc(start, trace, InsertAudit(tx));
      trace' := trace + [InsertAudit(tx)];
      db.InsertAudit(tx);
      ghost var end := if commits then Commit(tx) else Rollback(tx);
      RunSnoc(start, trace', end);
      trace' := trace' + [end];
      err := db.Close(tx, false, commits);
    }
  }
}
