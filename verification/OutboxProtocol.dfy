/**
  Payments, their outbox events, the broker and the inbox table as a protocol: every interleaving of the
  steps of any number of concurrent transactions, each of which may be rolled back anywhere.
 */
module OutboxProtocol {
  import opened Wrappers

  type EventID = string
  type Topic = string

  datatype Payment = Payment(id: int, orderNumber: string, amount: int, status: string)

  datatype EventStatus = Pending | Produced

  datatype Event = Event(eventId: EventID, parentId: int, parentMetadata: Payment, status: EventStatus)

  /** A row of the table audit. */
  datatype InboxEvent = InboxEvent(outboxEventId: EventID, parentId: int, parentMetadata: Payment, status: EventStatus)

  /** A message the broker's client has accepted. */
  datatype Record = Record(topic: Topic, event: Event)

  function NewEvent(id: EventID, payment: Payment): Event {
    Event(id, payment.id, payment, Pending)
  }

  function NewInboxEvent(e: Event): InboxEvent {
    InboxEvent(e.eventId, e.parentId, e.parentMetadata, e.status)
  }

  /** Transactions in flight, with the rows they have written and nobody else sees. */
  datatype Tx =
    | Saving(payment: Option<Payment>, event: Option<Event>)
    | Ticking(listing: seq<Event>, next: nat, topic: nat, toUpdate: seq<EventID>, marked: bool)
    | Handling(received: Event, row: Option<InboxEvent>)

  type TxID = int

  /**
    The committed tables, the sequence behind payment ids, the records accepted, the events whose message
    the consumer has marked as handled, and the transactions in flight.
   */
  datatype World = World(
    topics: seq<Topic>, payments: map<int, Payment>, nextPayment: int, events: map<EventID, Event>,
    audit: seq<InboxEvent>, accepted: seq<Record>, settled: set<EventID>, txs: map<TxID, Tx>)

  datatype Action =
    | BeginSave(tx: TxID)
    | InsertPayment(tx: TxID, payment: Payment)
    | InsertEvent(tx: TxID, eventId: EventID)
    | BeginTick(tx: TxID, listing: seq<Event>)
    | ProduceTo(tx: TxID, accepts: bool)
    | Skip(tx: TxID)
    | FinishEvent(tx: TxID)
    | MarkProduced(tx: TxID)
    | BeginHandle(tx: TxID, record: Record)
    | InsertAudit(tx: TxID)
    | InsertAuditFails(tx: TxID)
    | Commit(tx: TxID)
    | Rollback(tx: TxID)

  ghost predicate Initial(w: World) {
    && w.payments == map[] && w.events == map[] && w.audit == [] && w.accepted == []
    && w.settled == {} && w.txs == map[]
  }

  /** The pending rows, in any order. */
  ghost predicate ListsPending(events: map<EventID, Event>, listing: seq<Event>) {
    && (forall e | e in listing :: e.status.Pending? && e.eventId in events && events[e.eventId] == e)
    && (forall x | x in events && events[x].status.Pending? :: events[x] in listing)
    && (forall i, j | 0 <= i < j < |listing| :: listing[i].eventId != listing[j].eventId)
  }

  /** No transaction in flight has inserted this event: an insert under the same key would wait for it. */
  ghost predicate EventIdFree(w: World, x: EventID) {
    && x !in w.events
    && forall t | t in w.txs && w.txs[t].Saving? && w.txs[t].event.Some? :: w.txs[t].event.value.eventId != x
  }

  predicate Audited(audit: seq<InboxEvent>, x: EventID) {
    exists i | 0 <= i < |audit| :: audit[i].outboxEventId == x
  }

  /** Transaction `t` has inserted the audit row of `x`. */
  predicate InsertedBy(txs: map<TxID, Tx>, t: TxID, x: EventID) {
    t in txs && txs[t].Handling? && txs[t].row.Some? && txs[t].received.eventId == x
  }

  ghost predicate NobodyInserts(w: World, x: EventID) {
    forall t | t in w.txs && w.txs[t].Handling? && w.txs[t].row.Some? :: w.txs[t].received.eventId != x
  }

  ghost predicate Enabled(w: World, a: Action) {
    match a
    case BeginSave(t) => t !in w.txs
    case InsertPayment(t, _) => t in w.txs && w.txs[t].Saving? && w.txs[t].payment.None?
    case InsertEvent(t, x) =>
      t in w.txs && w.txs[t].Saving? && w.txs[t].payment.Some? && w.txs[t].event.None? && EventIdFree(w, x)
    case BeginTick(t, listing) => t !in w.txs && ListsPending(w.events, listing)
    case ProduceTo(t, _) =>
      t in w.txs && w.txs[t].Ticking? && w.txs[t].next < |w.txs[t].listing| && w.txs[t].topic < |w.topics|
    case Skip(t) => t in w.txs && w.txs[t].Ticking? && w.txs[t].next < |w.txs[t].listing|
    case FinishEvent(t) =>
      t in w.txs && w.txs[t].Ticking? && w.txs[t].next < |w.txs[t].listing| && w.txs[t].topic == |w.topics|
    // expanding the IN clause of an empty list is an error
    case MarkProduced(t) =>
      t in w.txs && w.txs[t].Ticking? && w.txs[t].next == |w.txs[t].listing| && w.txs[t].toUpdate != []
      && !w.txs[t].marked
    // any accepted record may be delivered, any number of times
    case BeginHandle(t, r) => t !in w.txs && r in w.accepted
    case InsertAudit(t) =>
      t in w.txs && w.txs[t].Handling? && w.txs[t].row.None? && NobodyInserts(w, w.txs[t].received.eventId)
      && !Audited(w.audit, w.txs[t].received.eventId)
    // a duplicate, or any other failure of the insert
    case InsertAuditFails(t) => t in w.txs && w.txs[t].Handling? && w.txs[t].row.None?
    case Commit(t) =>
      t in w.txs &&
      (match w.txs[t]
       case Saving(payment, event) => payment.Some? && event.Some?
       case Ticking(_, _, _, _, marked) => marked
       case Handling(_, row) => row.Some?)
    case Rollback(t) => t in w.txs
  }

  function MarkAll(events: map<EventID, Event>, ids: seq<EventID>): map<EventID, Event> {
    map x | x in events :: if x in ids then events[x].(status := Produced) else events[x]
  }

  /** How many rows the update of these ids affects. */
  function RowsAffected(events: map<EventID, Event>, ids: seq<EventID>): nat {
    |set x | x in events && x in ids|
  }

  ghost function Committed(w: World, tx: Tx): World
    requires tx.Saving? ==> tx.payment.Some? && tx.event.Some?
    requires tx.Handling? ==> tx.row.Some?
  {
    match tx
    case Saving(p, e) =>
      w.(payments := w.payments[p.value.id := p.value], events := w.events[e.value.eventId := e.value])
    case Ticking(_, _, _, toUpdate, _) => w.(events := MarkAll(w.events, toUpdate))
    case Handling(_, row) => w.(audit := w.audit + [row.value])
  }

  ghost function Apply(w: World, a: Action): World
    requires Enabled(w, a)
  {
    match a
    case BeginSave(t) => w.(txs := w.txs[t := Saving(None, None)])
    case InsertPayment(t, p) =>
      // the sequence does not go back when the transaction does
      w.(nextPayment := w.nextPayment + 1,
         txs := w.txs[t := w.txs[t].(payment := Some(p.(id := w.nextPayment)))])
    case InsertEvent(t, x) => w.(txs := w.txs[t := w.txs[t].(event := Some(NewEvent(x, w.txs[t].payment.value)))])
    case BeginTick(t, listing) => w.(txs := w.txs[t := Ticking(listing, 0, 0, [], false)])
    case ProduceTo(t, accepts) =>
      var tick := w.txs[t];
      if accepts
      then w.(accepted := w.accepted + [Record(w.topics[tick.topic], tick.listing[tick.next])],
              txs := w.txs[t := tick.(topic := tick.topic + 1)])
      else w.(txs := w.txs[t := tick.(next := tick.next + 1, topic := 0)])
    case Skip(t) => w.(txs := w.txs[t := w.txs[t].(next := w.txs[t].next + 1, topic := 0)])
    case FinishEvent(t) =>
      var tick := w.txs[t];
      w.(txs := w.txs[t := tick.(next := tick.next + 1, topic := 0,
                                 toUpdate := tick.toUpdate + [tick.listing[tick.next].eventId])])
    case MarkProduced(t) => w.(txs := w.txs[t := w.txs[t].(marked := true)])
    case BeginHandle(t, r) => w.(txs := w.txs[t := Handling(r.event, None)])
    case InsertAudit(t) =>
      // the offset is settled before the transaction commits
      w.(settled := w.settled + {w.txs[t].received.eventId},
         txs := w.txs[t := w.txs[t].(row := Some(NewInboxEvent(w.txs[t].received)))])
    case InsertAuditFails(t) =>
      w.(settled := w.settled + {w.txs[t].received.eventId}, txs := w.txs - {t})
    case Commit(t) => Committed(w, w.txs[t]).(txs := w.txs - {t})
    case Rollback(t) => w.(txs := w.txs - {t})
  }

  ghost predicate CanRun(w: World, actions: seq<Action>)
    decreases |actions|
  {
    actions == [] || (Enabled(w, actions[0]) && CanRun(Apply(w, actions[0]), actions[1..]))
  }

  ghost function Run(w: World, actions: seq<Action>): World
    requires CanRun(w, actions)
    decreases |actions|
  {
    if actions == [] then w else Run(Apply(w, actions[0]), actions[1..])
  }

  // ----- the invariant -----

  /** `e` is a committed event as it was inserted. */
  ghost predicate Genuine(events: map<EventID, Event>, e: Event) {
    e.eventId in events && e == events[e.eventId].(status := Pending)
  }

  ghost predicate PaymentsOk(payments: map<int, Payment>, nextPayment: int) {
    forall id | id in payments :: payments[id].id == id && id < nextPayment
  }

  ghost predicate HasEvent(events: map<EventID, Event>, id: int) {
    exists x :: x in events && events[x].parentId == id
  }

  /** Payments and events correspond one to one, and an event carries its payment. */
  ghost predicate EventsOk(payments: map<int, Payment>, events: map<EventID, Event>) {
    && (forall x | x in events ::
          && events[x].eventId == x
          && events[x].parentId in payments && events[x].parentMetadata == payments[events[x].parentId])
    && (forall x, y | x in events && y in events && events[x].parentId == events[y].parentId :: x == y)
    && (forall id | id in payments :: HasEvent(events, id))
  }

  ghost predicate SaveOk(payments: map<int, Payment>, nextPayment: int, events: map<EventID, Event>, tx: Tx) {
    tx.Saving? ==>
      && (tx.payment.Some? ==> tx.payment.value.id < nextPayment && tx.payment.value.id !in payments)
      && (tx.event.Some? ==>
            && tx.payment.Some? && tx.event.value == NewEvent(tx.event.value.eventId, tx.payment.value)
            && tx.event.value.eventId !in events)
  }

  /** Transactions in flight write different payments and different events. */
  ghost predicate SavesApart(tx: Tx, tx': Tx) {
    tx.Saving? && tx'.Saving? ==>
      && (tx.payment.Some? && tx'.payment.Some? ==> tx.payment.value.id != tx'.payment.value.id)
      && (tx.event.Some? && tx'.event.Some? ==> tx.event.value.eventId != tx'.event.value.eventId)
  }

  ghost predicate OnAllTopics(topics: seq<Topic>, accepted: seq<Record>, e: Event) {
    forall i | 0 <= i < |topics| :: Record(topics[i], e) in accepted
  }

  ghost predicate ListedBefore(listing: seq<Event>, n: nat, x: EventID) {
    exists i :: 0 <= i < n <= |listing| && listing[i].eventId == x
  }

  ghost predicate TickOk(topics: seq<Topic>, events: map<EventID, Event>, accepted: seq<Record>, tx: Tx) {
    tx.Ticking? ==>
      && (forall e | e in tx.listing :: Genuine(events, e))
      && (forall i, j | 0 <= i < j < |tx.listing| :: tx.listing[i].eventId != tx.listing[j].eventId)
      && tx.next <= |tx.listing| && tx.topic <= |topics|
      && (tx.next < |tx.listing| ==>
            forall i | 0 <= i < tx.topic :: Record(topics[i], tx.listing[tx.next]) in accepted)
      && (forall x | x in tx.toUpdate ::
            x in events && OnAllTopics(topics, accepted, events[x].(status := Pending)))
      && (forall x | x in tx.toUpdate :: ListedBefore(tx.listing, tx.next, x))
      && (forall k, l | 0 <= k < l < |tx.toUpdate| :: tx.toUpdate[k] != tx.toUpdate[l])
  }

  /** A produced event was accepted for every configured topic. */
  ghost predicate ProducedOk(topics: seq<Topic>, events: map<EventID, Event>, accepted: seq<Record>) {
    forall x | x in events && events[x].status.Produced? ::
      OnAllTopics(topics, accepted, events[x].(status := Pending))
  }

  ghost predicate RecordsOk(topics: seq<Topic>, events: map<EventID, Event>, accepted: seq<Record>) {
    forall r | r in accepted :: r.topic in topics && Genuine(events, r.event)
  }

  /** Every audit row is a committed event, and none is there twice. */
  ghost predicate AuditOk(events: map<EventID, Event>, audit: seq<InboxEvent>) {
    && (forall row | row in audit ::
          row.outboxEventId in events && row == NewInboxEvent(events[row.outboxEventId].(status := Pending)))
    && (forall i, j | 0 <= i < j < |audit| :: audit[i].outboxEventId != audit[j].outboxEventId)
  }

  ghost predicate HandleOk(events: map<EventID, Event>, audit: seq<InboxEvent>, tx: Tx) {
    tx.Handling? ==>
      && Genuine(events, tx.received)
      && (tx.row.Some? ==> tx.row.value == NewInboxEvent(tx.received) && !Audited(audit, tx.received.eventId))
  }

  ghost predicate HandlesApart(tx: Tx, tx': Tx) {
    tx.Handling? && tx'.Handling? && tx.row.Some? && tx'.row.Some? ==> tx.received.eventId != tx'.received.eventId
  }

  ghost predicate Sound(w: World) {
    && PaymentsOk(w.payments, w.nextPayment)
    && EventsOk(w.payments, w.events)
    && ProducedOk(w.topics, w.events, w.accepted)
    && RecordsOk(w.topics, w.events, w.accepted)
    && AuditOk(w.events, w.audit)
    && (forall t | t in w.txs :: TxOk(w, w.txs[t]))
    && (forall t, u | t in w.txs && u in w.txs && t != u :: Apart(w.txs[t], w.txs[u]))
  }

  ghost predicate TxOk(w: World, tx: Tx) {
    && SaveOk(w.payments, w.nextPayment, w.events, tx)
    && TickOk(w.topics, w.events, w.accepted, tx)
    && HandleOk(w.events, w.audit, tx)
  }

  ghost predicate Apart(tx: Tx, tx': Tx) {
    SavesApart(tx, tx') && HandlesApart(tx, tx')
  }

  lemma InitialIsSound(w: World)
    requires Initial(w)
    ensures Sound(w)
  {
  }

  /** A step that only changes one transaction in flight, and perhaps adds records and advances the sequence. */
  lemma OneTxChanges(w: World, w': World, t: TxID)
    requires Sound(w) && t in w'.txs && w'.txs == w.txs[t := w'.txs[t]]
    requires w'.(txs := w.txs, nextPayment := w.nextPayment, accepted := w.accepted, settled := w.settled) == w
    requires w.nextPayment <= w'.nextPayment && w.accepted <= w'.accepted
    requires RecordsOk(w'.topics, w'.events, w'.accepted)
    requires TxOk(w', w'.txs[t])
    requires forall u | u in w.txs && u != t :: Apart(w'.txs[t], w.txs[u])
    ensures Sound(w')
  {
    hide EventsOk, AuditOk, RecordsOk, Audited, Genuine, OnAllTopics, TickOk, SaveOk, HandleOk, ProducedOk,
         SavesApart, HandlesApart;
    MoreRecords(w, w');
    forall u | u in w'.txs ensures TxOk(w', w'.txs[u]) {
      if u != t {
        assert TxOk(w, w.txs[u]);
        TxOkWithMoreRecords(w, w', w.txs[u]);
      }
    }
    forall u, v | u in w'.txs && v in w'.txs && u != v ensures Apart(w'.txs[u], w'.txs[v]) {
      if v == t {
        ApartIsSymmetric(w'.txs[t], w.txs[u]);
      } else if u != t {
        assert Apart(w.txs[u], w.txs[v]);
      }
    }
  }

  lemma ApartIsSymmetric(tx: Tx, tx': Tx)
    ensures Apart(tx, tx') <==> Apart(tx', tx)
  {
  }

  lemma MoreRecords(w: World, w': World)
    requires w.accepted <= w'.accepted && ProducedOk(w.topics, w.events, w.accepted)
    ensures ProducedOk(w.topics, w.events, w'.accepted)
  {
    forall x | x in w.events && w.events[x].status.Produced?
      ensures OnAllTopics(w.topics, w'.accepted, w.events[x].(status := Pending))
    {
      StillOnAllTopics(w.topics, w.accepted, w'.accepted, w.events[x].(status := Pending));
    }
  }

  lemma StillOnAllTopics(topics: seq<Topic>, accepted: seq<Record>, accepted': seq<Record>, e: Event)
    requires accepted <= accepted' && OnAllTopics(topics, accepted, e)
    ensures OnAllTopics(topics, accepted', e)
  {
  }

  lemma TxOkWithMoreRecords(w: World, w': World, tx: Tx)
    requires TxOk(w, tx) && w.accepted <= w'.accepted && w.nextPayment <= w'.nextPayment
    requires w'.topics == w.topics && w'.events == w.events && w'.payments == w.payments && w'.audit == w.audit
    ensures TxOk(w', tx)
  {
    TickOkWithMoreRecords(w.topics, w.events, w.accepted, w'.accepted, tx);
  }

  lemma TickOkWithMoreRecords(topics: seq<Topic>, events: map<EventID, Event>, accepted: seq<Record>,
                              accepted': seq<Record>, tx: Tx)
    requires TickOk(topics, events, accepted, tx) && accepted <= accepted'
    ensures TickOk(topics, events, accepted', tx)
  {
    hide Genuine, OnAllTopics, ListedBefore;
    if tx.Ticking? {
      forall x | x in tx.toUpdate
        ensures x in events && OnAllTopics(topics, accepted', events[x].(status := Pending))
      {
        StillOnAllTopics(topics, accepted, accepted', events[x].(status := Pending));
      }
      if tx.next < |tx.listing| {
        forall i | 0 <= i < tx.topic ensures Record(topics[i], tx.listing[tx.next]) in accepted' {
          assert Record(topics[i], tx.listing[tx.next]) in accepted;
        }
      }
    }
  }

  /** The end of a transaction that changes nothing else. */
  lemma TxEnds(w: World, w': World, t: TxID)
    requires Sound(w) && w'.txs == w.txs - {t} && w'.(txs := w.txs, settled := w.settled) == w
    ensures Sound(w')
  {
    hide EventsOk, AuditOk, RecordsOk, Audited, Genuine, OnAllTopics, TickOk, SaveOk, HandleOk, ProducedOk,
         SavesApart, HandlesApart;
    forall u | u in w'.txs ensures TxOk(w', w'.txs[u]) {
      assert TxOk(w, w.txs[u]);
    }
  }

  lemma SaveStepIsSound(w: World, a: Action)
    requires Sound(w) && Enabled(w, a) && (a.BeginSave? || a.InsertPayment? || a.InsertEvent?)
    ensures Sound(Apply(w, a))
  {
    hide EventsOk, AuditOk, RecordsOk, Audited, Genuine, OnAllTopics, TickOk, HandleOk, ProducedOk, EventIdFree;
    var w' := Apply(w, a);
    var tx := w'.txs[a.tx];
    assert a.tx in w.txs ==> TxOk(w, w.txs[a.tx]);
    SaveIsNoTickOrHandle(w', tx);
    forall u | u in w.txs && u != a.tx ensures Apart(tx, w.txs[u]) {
      assert TxOk(w, w.txs[u]);
      assert a.tx in w.txs ==> Apart(w.txs[a.tx], w.txs[u]);
      if a.InsertEvent? && w.txs[u].Saving? && w.txs[u].event.Some? {
        IdIsFree(w, a.eventId, u);
      }
    }
    if a.InsertEvent? {
      assert a.eventId !in w.events by { IdIsNew(w, a.eventId); }
    }
    OneTxChanges(w, w', a.tx);
  }

  lemma SaveIsNoTickOrHandle(w: World, tx: Tx)
    requires tx.Saving?
    ensures TickOk(w.topics, w.events, w.accepted, tx) && HandleOk(w.events, w.audit, tx)
  {
  }

  lemma IdIsNew(w: World, x: EventID)
    requires EventIdFree(w, x)
    ensures x !in w.events
  {
  }

  lemma IdIsFree(w: World, x: EventID, u: TxID)
    requires EventIdFree(w, x) && u in w.txs && w.txs[u].Saving? && w.txs[u].event.Some?
    ensures w.txs[u].event.value.eventId != x
  {
  }

  lemma TickStepIsSound(w: World, a: Action)
    requires Sound(w) && Enabled(w, a)
    requires a.BeginTick? || a.ProduceTo? || a.Skip? || a.FinishEvent? || a.MarkProduced?
    ensures Sound(Apply(w, a))
  {
    hide EventsOk, AuditOk, RecordsOk, Audited, Genuine, OnAllTopics, TickOk, ProducedOk, ListsPending, ListedBefore;
    var w' := Apply(w, a);
    assert a.tx in w.txs ==> TxOk(w, w.txs[a.tx]);
    match a {
      case BeginTick(t, listing) =>
        TickBeginsOk(w, listing);
      case ProduceTo(t, accepts) =>
        if accepts {
          ProduceIsOk(w, w.txs[t]);
        } else {
          SkipIsOk(w, w.txs[t]);
        }
      case Skip(t) =>
        SkipIsOk(w, w.txs[t]);
      case FinishEvent(t) =>
        FinishIsOk(w, w.txs[t]);
      case MarkProduced(t) =>
        MarkIsOk(w, w.txs[t]);
    }
    OneTxChanges(w, w', a.tx);
  }

  lemma TickBeginsOk(w: World, listing: seq<Event>)
    requires ListsPending(w.events, listing)
    ensures TickOk(w.topics, w.events, w.accepted, Ticking(listing, 0, 0, [], false))
  {
    forall e | e in listing ensures Genuine(w.events, e) {
      assert e.(status := Pending) == e;
    }
  }

  lemma SkipIsOk(w: World, tx: Tx)
    requires tx.Ticking? && TickOk(w.topics, w.events, w.accepted, tx) && tx.next < |tx.listing|
    ensures TickOk(w.topics, w.events, w.accepted, tx.(next := tx.next + 1, topic := 0))
  {
    hide Genuine, OnAllTopics;
  }

  lemma MarkIsOk(w: World, tx: Tx)
    requires tx.Ticking? && TickOk(w.topics, w.events, w.accepted, tx)
    ensures TickOk(w.topics, w.events, w.accepted, tx.(marked := true))
  {
    hide Genuine, OnAllTopics, ListedBefore;
  }

  lemma ProduceIsOk(w: World, tx: Tx)
    requires tx.Ticking? && TickOk(w.topics, w.events, w.accepted, tx) && RecordsOk(w.topics, w.events, w.accepted)
    requires tx.next < |tx.listing| && tx.topic < |w.topics|
    ensures var accepted' := w.accepted + [Record(w.topics[tx.topic], tx.listing[tx.next])];
            && TickOk(w.topics, w.events, accepted', tx.(topic := tx.topic + 1))
            && RecordsOk(w.topics, w.events, accepted')
  {
    hide Genuine, OnAllTopics, ListedBefore;
    var accepted' := w.accepted + [Record(w.topics[tx.topic], tx.listing[tx.next])];
    TickOkWithMoreRecords(w.topics, w.events, w.accepted, accepted', tx);
    assert Record(w.topics[tx.topic], tx.listing[tx.next]) in accepted';
  }

  lemma FinishIsOk(w: World, tx: Tx)
    requires tx.Ticking? && TickOk(w.topics, w.events, w.accepted, tx)
    requires tx.next < |tx.listing| && tx.topic == |w.topics|
    ensures TickOk(w.topics, w.events, w.accepted,
                   tx.(next := tx.next + 1, topic := 0, toUpdate := tx.toUpdate + [tx.listing[tx.next].eventId]))
  {
    var e := tx.listing[tx.next];
    assert Genuine(w.events, e);
    assert OnAllTopics(w.topics, w.accepted, w.events[e.eventId].(status := Pending));
    forall x | x in tx.toUpdate ensures x != e.eventId && ListedBefore(tx.listing, tx.next + 1, x) {
      var i :| 0 <= i < tx.next && tx.listing[i].eventId == x;
    }
    assert ListedBefore(tx.listing, tx.next + 1, e.eventId);
    var toUpdate' := tx.toUpdate + [e.eventId];
    forall x | x in toUpdate'
      ensures x in w.events && OnAllTopics(w.topics, w.accepted, w.events[x].(status := Pending))
      ensures ListedBefore(tx.listing, tx.next + 1, x)
    {
      assert x in tx.toUpdate || x == e.eventId;
    }
    forall k, l | 0 <= k < l < |toUpdate'| ensures toUpdate'[k] != toUpdate'[l] {
      assert toUpdate'[k] in tx.toUpdate;
    }
  }

  lemma HandleStepIsSound(w: World, a: Action)
    requires Sound(w) && Enabled(w, a) && (a.BeginHandle? || a.InsertAudit?)
    ensures Sound(Apply(w, a))
  {
    hide EventsOk, AuditOk, Audited, Genuine, OnAllTopics, TickOk, ProducedOk;
    var w' := Apply(w, a);
    var tx := w'.txs[a.tx];
    assert a.tx in w.txs ==> TxOk(w, w.txs[a.tx]);
    HandleIsNoTick(w', tx);
    forall u | u in w.txs && u != a.tx ensures Apart(tx, w.txs[u]) {
    }
    OneTxChanges(w, w', a.tx);
  }

  lemma HandleIsNoTick(w: World, tx: Tx)
    requires tx.Handling?
    ensures TickOk(w.topics, w.events, w.accepted, tx)
  {
  }

  // ----- commits -----

  lemma SaveCommits(w: World, t: TxID)
    requires Sound(w) && Enabled(w, Commit(t)) && w.txs[t].Saving?
    ensures Sound(Apply(w, Commit(t)))
  {
    hide AuditOk, RecordsOk, Audited, TickOk, HandleOk, OnAllTopics, ProducedOk, EventsOk, Genuine;
    var w' := Apply(w, Commit(t));
    var tx := w.txs[t];
    assert TxOk(w, tx);
    var (p, e) := (tx.payment.value, tx.event.value);
    NewPairCorresponds(w.payments, w.events, p, e);
    OthersKeepTheirEvents(w, e);
    forall u | u in w'.txs ensures TxOk(w', w'.txs[u]) {
      assert TxOk(w, w.txs[u]) && Apart(tx, w.txs[u]);
      TxWithMoreEvents(w, e, w.txs[u]);
    }
    forall u, v | u in w'.txs && v in w'.txs && u != v ensures Apart(w'.txs[u], w'.txs[v]) {
      assert Apart(w.txs[u], w.txs[v]);
    }
  }

  lemma NewPairCorresponds(payments: map<int, Payment>, events: map<EventID, Event>, p: Payment, e: Event)
    requires EventsOk(payments, events) && p.id !in payments && e.eventId !in events && e == NewEvent(e.eventId, p)
    ensures EventsOk(payments[p.id := p], events[e.eventId := e])
  {
    var payments', events' := payments[p.id := p], events[e.eventId := e];
    forall id | id in payments' ensures HasEvent(events', id) {
      if id == p.id {
        assert events'[e.eventId].parentId == id;
      } else {
        assert HasEvent(events, id);
        var x :| x in events && events[x].parentId == id;
        assert events'[x].parentId == id;
      }
    }
  }

  lemma OthersKeepTheirEvents(w: World, e: Event)
    requires e.eventId !in w.events && e.status.Pending?
    requires ProducedOk(w.topics, w.events, w.accepted) && RecordsOk(w.topics, w.events, w.accepted)
    requires AuditOk(w.events, w.audit)
    ensures var events' := w.events[e.eventId := e];
            && ProducedOk(w.topics, events', w.accepted) && RecordsOk(w.topics, events', w.accepted)
            && AuditOk(events', w.audit)
  {
    hide OnAllTopics;
  }

  lemma TxWithMoreEvents(w: World, e: Event, tx: Tx)
    requires e.eventId !in w.events
    requires TickOk(w.topics, w.events, w.accepted, tx) && HandleOk(w.events, w.audit, tx)
    ensures var events' := w.events[e.eventId := e];
            TickOk(w.topics, events', w.accepted, tx) && HandleOk(events', w.audit, tx)
  {
    hide OnAllTopics, ListedBefore, Audited;
  }

  lemma TickCommits(w: World, t: TxID)
    requires Sound(w) && Enabled(w, Commit(t)) && w.txs[t].Ticking?
    ensures Sound(Apply(w, Commit(t)))
  {
    hide EventsOk, AuditOk, RecordsOk, Audited, TickOk, HandleOk, SaveOk, OnAllTopics, ProducedOk, Genuine,
         SavesApart, HandlesApart;
    var w' := Apply(w, Commit(t));
    var tx := w.txs[t];
    assert TxOk(w, tx);
    MarkedRowsAreStillOk(w, tx);
    forall u | u in w'.txs ensures TxOk(w', w'.txs[u]) {
      assert TxOk(w, w.txs[u]);
      TxWithMarkedEvents(w, tx.toUpdate, w.txs[u]);
    }
    forall u, v | u in w'.txs && v in w'.txs && u != v ensures Apart(w'.txs[u], w'.txs[v]) {
      assert Apart(w.txs[u], w.txs[v]);
    }
  }

  lemma MarkedRowsAreStillOk(w: World, tx: Tx)
    requires tx.Ticking? && TickOk(w.topics, w.events, w.accepted, tx)
    requires EventsOk(w.payments, w.events) && ProducedOk(w.topics, w.events, w.accepted)
    requires RecordsOk(w.topics, w.events, w.accepted) && AuditOk(w.events, w.audit)
    ensures var events' := MarkAll(w.events, tx.toUpdate);
            && EventsOk(w.payments, events') && ProducedOk(w.topics, events', w.accepted)
            && RecordsOk(w.topics, events', w.accepted) && AuditOk(events', w.audit)
  {
    hide EventsOk, OnAllTopics, ListedBefore;
    MarkingKeepsThePairs(w.payments, w.events, tx.toUpdate);
    var events' := MarkAll(w.events, tx.toUpdate);
    forall x | x in events' ensures events'[x].(status := Pending) == w.events[x].(status := Pending) {
    }
  }

  lemma MarkingKeepsThePairs(payments: map<int, Payment>, events: map<EventID, Event>, ids: seq<EventID>)
    requires EventsOk(payments, events)
    ensures EventsOk(payments, MarkAll(events, ids))
  {
    hide HasEvent;
    var events' := MarkAll(events, ids);
    forall x | x in events' ensures events'[x].(status := Pending) == events[x].(status := Pending) {
    }
    forall id | id in payments ensures HasEvent(events', id) {
      assert HasEvent(events, id);
      StillHasEvent(events, ids, id);
    }
  }

  lemma StillHasEvent(events: map<EventID, Event>, ids: seq<EventID>, id: int)
    requires HasEvent(events, id)
    ensures HasEvent(MarkAll(events, ids), id)
  {
    var x :| x in events && events[x].parentId == id;
    assert MarkAll(events, ids)[x].parentId == id;
  }

  lemma TxWithMarkedEvents(w: World, ids: seq<EventID>, tx: Tx)
    requires TxOk(w, tx)
    ensures TxOk(w.(events := MarkAll(w.events, ids)), tx)
  {
    hide OnAllTopics, ListedBefore, Audited;
    var events' := MarkAll(w.events, ids);
    forall x | x in events' ensures events'[x].(status := Pending) == w.events[x].(status := Pending) {
    }
  }

  lemma HandleCommits(w: World, t: TxID)
    requires Sound(w) && Enabled(w, Commit(t)) && w.txs[t].Handling?
    ensures Sound(Apply(w, Commit(t)))
  {
    hide EventsOk, RecordsOk, TickOk, SaveOk, OnAllTopics, ProducedOk, SavesApart;
    var w' := Apply(w, Commit(t));
    var tx := w.txs[t];
    assert TxOk(w, tx);
    forall u | u in w'.txs ensures TxOk(w', w'.txs[u]) {
      assert TxOk(w, w.txs[u]) && Apart(tx, w.txs[u]);
    }
    forall u, v | u in w'.txs && v in w'.txs && u != v ensures Apart(w'.txs[u], w'.txs[v]) {
      assert Apart(w.txs[u], w.txs[v]);
    }
  }

  /** What every step of every transaction keeps. */
  lemma StepIsSound(w: World, a: Action)
    requires Sound(w) && Enabled(w, a)
    ensures Sound(Apply(w, a))
  {
    hide Sound, TxOk, Apart, TickOk, SaveOk, HandleOk;
    match a {
      case BeginSave(_) => SaveStepIsSound(w, a);
      case InsertPayment(_, _) => SaveStepIsSound(w, a);
      case InsertEvent(_, _) => SaveStepIsSound(w, a);
      case BeginHandle(_, _) => HandleStepIsSound(w, a);
      case InsertAudit(_) => HandleStepIsSound(w, a);
      case InsertAuditFails(t) => TxEnds(w, Apply(w, a), t);
      case Rollback(t) => TxEnds(w, Apply(w, a), t);
      case Commit(t) =>
        match w.txs[t] {
          case Saving(_, _) => SaveCommits(w, t);
          case Ticking(_, _, _, _, _) => TickCommits(w, t);
          case Handling(_, _) => HandleCommits(w, t);
        }
      case _ => TickStepIsSound(w, a);
    }
  }
}
