/** What the outbox and inbox guarantee over every run, and exactly when a handled message leaves no row. */
module OutboxRuns {
  import opened Wrappers
  import opened OutboxProtocol

  lemma {:induction false} RunIsSound(w: World, actions: seq<Action>)
    requires Sound(w) && CanRun(w, actions)
    ensures Sound(Run(w, actions))
    decreases |actions|
  {
    hide Sound, Enabled, Apply;
    if actions != [] {
      StepIsSound(w, actions[0]);
      RunIsSound(Apply(w, actions[0]), actions[1..]);
    }
  }

  /** Whatever is handled, or has its row, was accepted before. */
  ghost predicate Traced(w: World) {
    && (forall row | row in w.audit :: Sent(w, row.outboxEventId))
    && (forall t | t in w.txs && w.txs[t].Handling? ::
          && Sent(w, w.txs[t].received.eventId)
          && (w.txs[t].row.Some? ==> w.txs[t].row.value.outboxEventId == w.txs[t].received.eventId))
  }

  ghost predicate Sent(w: World, x: EventID) {
    exists i :: 0 <= i < |w.accepted| && w.accepted[i].event.eventId == x
  }

  lemma StillSent(w: World, w': World, x: EventID)
    requires Sent(w, x) && w.accepted <= w'.accepted
    ensures Sent(w', x)
  {
    var i :| 0 <= i < |w.accepted| && w.accepted[i].event.eventId == x;
    assert w'.accepted[i] == w.accepted[i];
  }

  lemma StepStaysTraced(w: World, a: Action)
    requires Traced(w) && Enabled(w, a)
    ensures Traced(Apply(w, a))
  {
    hide Sent, ListsPending, EventIdFree, NobodyInserts, MarkAll, Audited;
    var w' := Apply(w, a);
    forall x | Sent(w, x) ensures Sent(w', x) {
      StillSent(w, w', x);
    }
    if a.BeginHandle? {
      AcceptedIsSent(w', a.record);
    }
  }

  lemma AcceptedIsSent(w: World, r: Record)
    requires r in w.accepted
    ensures Sent(w, r.event.eventId)
  {
    var i :| 0 <= i < |w.accepted| && w.accepted[i] == r;
    assert w.accepted[i].event.eventId == r.event.eventId;
  }

  lemma {:induction false} RunStaysTraced(w: World, actions: seq<Action>)
    requires Traced(w) && CanRun(w, actions)
    ensures Traced(Run(w, actions))
    decreases |actions|
  {
    hide Traced, Enabled, Apply;
    if actions != [] {
      StepStaysTraced(w, actions[0]);
      RunStaysTraced(Apply(w, actions[0]), actions[1..]);
    }
  }

  /**
    From any interleaving: payments and events correspond one to one; an event that is not pending was
    accepted for every topic; every record and every audit row is that of a committed payment's event, with
    the status it was sent with; every audit row's event was accepted for some topic; and no event has two
    audit rows.
   */
  lemma OutboxEndToEnd(w: World, actions: seq<Action>)
    requires Initial(w) && CanRun(w, actions)
    ensures var v := Run(w, actions);
            && (forall id | id in v.payments :: exists x :: x in v.events && v.events[x].parentId == id)
            && (forall x, y | x in v.events && y in v.events && v.events[x].parentId == v.events[y].parentId :: x == y)
            && (forall x | x in v.events ::
                  v.events[x].parentId in v.payments
                  && v.events[x].parentMetadata == v.payments[v.events[x].parentId])
            && (forall x, i | x in v.events && !v.events[x].status.Pending? && 0 <= i < |v.topics| ::
                  Record(v.topics[i], v.events[x].(status := Pending)) in v.accepted)
            && (forall r | r in v.accepted ::
                  && r.topic in v.topics && r.event.eventId in v.events && r.event.status.Pending?
                  && r.event.parentId in v.payments && r.event.parentMetadata == v.payments[r.event.parentId]
                  && v.events[r.event.eventId].parentId == r.event.parentId)
            && (forall row | row in v.audit ::
                  && row.parentId in v.payments && row.parentMetadata == v.payments[row.parentId]
                  && row.outboxEventId in v.events && v.events[row.outboxEventId].parentId == row.parentId
                  && exists r ::
                       r in v.accepted && r.event.eventId == row.outboxEventId && r.event.status == row.status)
            && (forall i, j | 0 <= i < j < |v.audit| :: v.audit[i].outboxEventId != v.audit[j].outboxEventId)
  {
    hide Sound, Traced, CanRun, Run;
    InitialIsSound(w);
    assert Traced(w) by { NothingToTrace(w); }
    RunIsSound(w, actions);
    RunStaysTraced(w, actions);
    SoundMeans(Run(w, actions));
    TracedMeans(Run(w, actions));
  }

  lemma NothingToTrace(w: World)
    requires Initial(w)
    ensures Traced(w)
  {
  }

  lemma TracedMeans(v: World)
    requires Sound(v) && Traced(v)
    ensures forall row | row in v.audit :: exists r ::
              r in v.accepted && r.event.eventId == row.outboxEventId && r.event.status == row.status
  {
    hide TxOk, Apart, EventsOk, ProducedOk;
    forall row | row in v.audit
      ensures exists r :: r in v.accepted && r.event.eventId == row.outboxEventId && r.event.status == row.status
    {
      var i :| 0 <= i < |v.accepted| && v.accepted[i].event.eventId == row.outboxEventId;
      assert v.accepted[i] in v.accepted;
    }
  }

  lemma SoundMeans(v: World)
    requires Sound(v)
    ensures forall id | id in v.payments :: exists x :: x in v.events && v.events[x].parentId == id
    ensures forall x, y | x in v.events && y in v.events && v.events[x].parentId == v.events[y].parentId :: x == y
    ensures forall x | x in v.events ::
              v.events[x].parentId in v.payments
              && v.events[x].parentMetadata == v.payments[v.events[x].parentId]
    ensures forall x, i | x in v.events && !v.events[x].status.Pending? && 0 <= i < |v.topics| ::
              Record(v.topics[i], v.events[x].(status := Pending)) in v.accepted
    ensures forall r | r in v.accepted ::
              && r.topic in v.topics && r.event.eventId in v.events && r.event.status.Pending?
              && r.event.parentId in v.payments && r.event.parentMetadata == v.payments[r.event.parentId]
              && v.events[r.event.eventId].parentId == r.event.parentId
    ensures forall row | row in v.audit ::
              && row.parentId in v.payments && row.parentMetadata == v.payments[row.parentId]
              && row.outboxEventId in v.events && v.events[row.outboxEventId].parentId == row.parentId
    ensures forall i, j | 0 <= i < j < |v.audit| :: v.audit[i].outboxEventId != v.audit[j].outboxEventId
  {
    hide TxOk, Apart;
    forall id | id in v.payments ensures exists x :: x in v.events && v.events[x].parentId == id {
      assert HasEvent(v.events, id);
    }
  }

  // ----- nothing committed is lost -----

  ghost predicate Kept(events: map<EventID, Event>, events': map<EventID, Event>) {
    forall x | x in events ::
      && x in events' && events'[x].(status := events[x].status) == events[x]
      && (events[x].status.Produced? ==> events'[x].status.Produced?)
  }

  /** `w'` has everything that `w` has committed, published and settled. */
  ghost predicate Grown(w: World, w': World) {
    && w'.topics == w.topics && w.accepted <= w'.accepted && w.audit <= w'.audit && w.settled <= w'.settled
    && (forall id | id in w.payments :: id in w'.payments && w'.payments[id] == w.payments[id])
    && Kept(w.events, w'.events)
  }

  lemma StepOnlyGrows(w: World, a: Action)
    requires Sound(w) && Enabled(w, a)
    ensures Grown(w, Apply(w, a))
  {
    hide EventsOk, AuditOk, RecordsOk, ProducedOk, TickOk, HandleOk, Apart, Audited, ListsPending, EventIdFree,
         NobodyInserts;
    if a.Commit? {
      assert TxOk(w, w.txs[a.tx]);
    }
  }

  lemma {:induction false} RunOnlyGrows(w: World, actions: seq<Action>)
    requires Sound(w) && CanRun(w, actions)
    ensures Grown(w, Run(w, actions))
    decreases |actions|
  {
    hide Sound, Enabled, Apply;
    if actions != [] {
      StepIsSound(w, actions[0]);
      StepOnlyGrows(w, actions[0]);
      RunOnlyGrows(Apply(w, actions[0]), actions[1..]);
    }
  }

  /** The update of a tick affects as many rows as it names: that guard never aborts a tick. */
  lemma RowCountAlwaysMatches(w: World, t: TxID)
    requires Sound(w) && t in w.txs && w.txs[t].Ticking?
    ensures RowsAffected(w.events, w.txs[t].toUpdate) == |w.txs[t].toUpdate|
  {
    assert TxOk(w, w.txs[t]);
    var ids := w.txs[t].toUpdate;
    DistinctCount(ids);
    assert (set x | x in w.events && x in ids) == (set x | x in ids);
  }

  lemma {:induction false} DistinctCount(ids: seq<EventID>)
    requires forall k, l | 0 <= k < l < |ids| :: ids[k] != ids[l]
    ensures |set x | x in ids| == |ids|
  {
    if ids != [] {
      var init, last := ids[..|ids| - 1], ids[|ids| - 1];
      DistinctCount(init);
      assert (set x | x in ids) == (set x | x in init) + {last};
    }
  }

  // ----- handled, but not saved -----

  ghost predicate InsertedByOther(txs: map<TxID, Tx>, t: TxID, x: EventID) {
    exists u :: u != t && InsertedBy(txs, u, x)
  }

  /** The event has an audit row, or a transaction in flight is about to commit one. */
  ghost predicate Saved(w: World, x: EventID) {
    Audited(w.audit, x) || exists t :: InsertedBy(w.txs, t, x)
  }

  ghost predicate Inserts(w: World, a: Action, x: EventID)
    requires Enabled(w, a)
  {
    a.InsertAudit? && w.txs[a.tx].received.eventId == x
  }

  /** The transaction that inserted the row is rolled back. */
  ghost predicate Undoes(w: World, a: Action, x: EventID)
    requires Enabled(w, a)
  {
    a.Rollback? && InsertedBy(w.txs, a.tx, x)
  }

  lemma SavedHereOrElsewhere(w: World, t: TxID, x: EventID)
    ensures Saved(w, x) <==> Audited(w.audit, x) || InsertedBy(w.txs, t, x) || InsertedByOther(w.txs, t, x)
  {
    hide InsertedBy, Audited;
    if u :| InsertedBy(w.txs, u, x) {
      assert u == t || InsertedByOther(w.txs, t, x);
    }
  }

  lemma OthersAreUntouched(txs: map<TxID, Tx>, txs': map<TxID, Tx>, t: TxID, x: EventID)
    requires txs - {t} == txs' - {t}
    ensures InsertedByOther(txs, t, x) <==> InsertedByOther(txs', t, x)
  {
    forall u | u != t ensures InsertedBy(txs, u, x) <==> InsertedBy(txs', u, x) {
      assert u in txs <==> u in txs - {t};
      assert u in txs' <==> u in txs' - {t};
      assert u in txs ==> txs[u] == (txs - {t})[u];
      assert u in txs' ==> txs'[u] == (txs' - {t})[u];
    }
  }

  /** A row that a transaction has inserted is inserted nowhere else. */
  lemma InsertedOnce(w: World, t: TxID, x: EventID)
    requires Sound(w) && InsertedBy(w.txs, t, x)
    ensures !Audited(w.audit, x) && !InsertedByOther(w.txs, t, x)
  {
    hide EventsOk, AuditOk, RecordsOk, ProducedOk, TickOk, SaveOk, SavesApart, Audited;
    assert TxOk(w, w.txs[t]);
    forall u | u in w.txs && u != t ensures !InsertedBy(w.txs, u, x) {
      assert Apart(w.txs[t], w.txs[u]);
    }
  }

  lemma OneMoreRow(audit: seq<InboxEvent>, row: InboxEvent, x: EventID)
    ensures Audited(audit + [row], x) <==> Audited(audit, x) || row.outboxEventId == x
  {
    if Audited(audit, x) {
      var i :| 0 <= i < |audit| && audit[i].outboxEventId == x;
      assert (audit + [row])[i].outboxEventId == x;
    }
    assert (audit + [row])[|audit|] == row;
  }

  lemma SavedBecomes(w: World, a: Action, x: EventID)
    requires Sound(w) && Enabled(w, a)
    ensures Saved(Apply(w, a), x) <==> (Saved(w, x) && !Undoes(w, a, x)) || Inserts(w, a, x)
  {
    hide EventsOk, AuditOk, RecordsOk, ProducedOk, TickOk, SaveOk, ListsPending, EventIdFree, Apart, NobodyInserts,
         Audited, InsertedByOther, Saved, MarkAll;
    var w' := Apply(w, a);
    SavedHereOrElsewhere(w, a.tx, x);
    SavedHereOrElsewhere(w', a.tx, x);
    assert w.txs - {a.tx} == w'.txs - {a.tx};
    OthersAreUntouched(w.txs, w'.txs, a.tx, x);
    if InsertedBy(w.txs, a.tx, x) {
      InsertedOnce(w, a.tx, x);
    }
    if a.Commit? && w.txs[a.tx].Handling? {
      assert TxOk(w, w.txs[a.tx]);
      OneMoreRow(w.audit, w.txs[a.tx].row.value, x);
    }
  }

  /** Every message that was handled has its row, and every row being inserted is of a message handled. */
  ghost predicate AllSaved(w: World) {
    && (forall x | x in w.settled :: Saved(w, x))
    && (forall t, x | InsertedBy(w.txs, t, x) :: x in w.settled)
  }

  /** The step settles a message without its row: an insert fails that is no duplicate, or is rolled back. */
  ghost predicate Drops(w: World, a: Action)
    requires Enabled(w, a)
  {
    || (a.InsertAuditFails? && !Saved(w, w.txs[a.tx].received.eventId))
    || (a.Rollback? && w.txs[a.tx].Handling? && w.txs[a.tx].row.Some?)
  }

  lemma StepSavesUnlessItDrops(w: World, a: Action)
    requires Sound(w) && Enabled(w, a) && AllSaved(w)
    ensures AllSaved(Apply(w, a)) <==> !Drops(w, a)
  {
    hide Sound, Saved, InsertedBy, ListsPending, EventIdFree, NobodyInserts, MarkAll, Audited;
    var w' := Apply(w, a);
    forall x ensures Saved(w', x) <==> (Saved(w, x) && !Undoes(w, a, x)) || Inserts(w, a, x) {
      SavedBecomes(w, a, x);
    }
    forall t, x | InsertedBy(w'.txs, t, x) ensures x in w'.settled {
      InsertedBefore(w, a, t, x);
    }
    if Drops(w, a) {
      DropsIsUndone(w, a);
    } else if a.Rollback? {
      RollsBackNoInsert(w, a);
    }
  }

  lemma InsertedBefore(w: World, a: Action, t: TxID, x: EventID)
    requires Enabled(w, a) && InsertedBy(Apply(w, a).txs, t, x)
    ensures InsertedBy(w.txs, t, x) || Inserts(w, a, x)
  {
    hide ListsPending, EventIdFree, NobodyInserts, MarkAll, Audited;
    assert t != a.tx ==> t in w.txs && Apply(w, a).txs[t] == w.txs[t];
  }

  lemma DropsIsUndone(w: World, a: Action)
    requires Enabled(w, a) && Drops(w, a)
    ensures var x := w.txs[a.tx].received.eventId;
            if a.Rollback? then InsertedBy(w.txs, a.tx, x) && Undoes(w, a, x)
            else x in Apply(w, a).settled && !Saved(w, x) && !Inserts(w, a, x)
  {
  }

  lemma RollsBackNoInsert(w: World, a: Action)
    requires Enabled(w, a) && a.Rollback? && !Drops(w, a)
    ensures forall x :: !Undoes(w, a, x)
  {
  }

  /** Along the whole run every message handled has its row. */
  ghost predicate AlwaysSaved(w: World, actions: seq<Action>)
    requires CanRun(w, actions)
    decreases |actions|
  {
    AllSaved(w) && (actions != [] ==> AlwaysSaved(Apply(w, actions[0]), actions[1..]))
  }

  ghost predicate NeverDrops(w: World, actions: seq<Action>)
    requires CanRun(w, actions)
    decreases |actions|
  {
    actions != [] ==> !Drops(w, actions[0]) && NeverDrops(Apply(w, actions[0]), actions[1..])
  }

  lemma {:induction false} SavedFromHere(w: World, actions: seq<Action>)
    requires Sound(w) && AllSaved(w) && CanRun(w, actions)
    ensures AlwaysSaved(w, actions) <==> NeverDrops(w, actions)
    decreases |actions|
  {
    hide Sound, Enabled, Apply, AllSaved, Drops;
    if actions != [] {
      StepIsSound(w, actions[0]);
      StepSavesUnlessItDrops(w, actions[0]);
      var next := Apply(w, actions[0]);
      if AllSaved(next) {
        SavedFromHere(next, actions[1..]);
      }
    }
  }

  /**
    Because the message is settled before its transaction commits, "settled" means "saved" throughout a run
    exactly if no insert of the run fails for another reason than a duplicate, and none is rolled back.
   */
  lemma SettledIsSavedIff(w: World, actions: seq<Action>)
    requires Initial(w) && CanRun(w, actions)
    ensures AlwaysSaved(w, actions) <==> NeverDrops(w, actions)
  {
    InitialIsSound(w);
    SavedFromHere(w, actions);
  }

  /** From any state, a delivery whose commit fails settles the message and leaves no row. */
  lemma FailedCommitLosesTheRow(w: World, r: Record, t: TxID)
    requires Sound(w) && r in w.accepted && t !in w.txs && !Saved(w, r.event.eventId)
    ensures var actions := [BeginHandle(t, r), InsertAudit(t), Rollback(t)];
            && CanRun(w, actions)
            && r.event.eventId in Run(w, actions).settled && !Saved(Run(w, actions), r.event.eventId)
  {
    hide Sound, MarkAll, Audited;
    var x := r.event.eventId;
    var w1 := Apply(w, BeginHandle(t, r));
    StepIsSound(w, BeginHandle(t, r));
    SavedBecomes(w, BeginHandle(t, r), x);
    NobodySavesIt(w1, x);
    var w2 := Apply(w1, InsertAudit(t));
    StepIsSound(w1, InsertAudit(t));
    SavedBecomes(w2, Rollback(t), x);
    var actions := [BeginHandle(t, r), InsertAudit(t), Rollback(t)];
    var w3 := Apply(w2, Rollback(t));
    RunsOn(w, actions[0], actions[1..]);
    RunsOn(w1, actions[1], actions[2..]);
    RunsOn(w2, actions[2], []);
  }

  lemma NobodySavesIt(w: World, x: EventID)
    requires !Saved(w, x)
    ensures NobodyInserts(w, x) && !Audited(w.audit, x)
  {
    forall t | t in w.txs && w.txs[t].Handling? && w.txs[t].row.Some? ensures w.txs[t].received.eventId != x {
      assert !InsertedBy(w.txs, t, x);
    }
  }

  lemma RunsOn(w: World, a: Action, rest: seq<Action>)
    requires Enabled(w, a) && CanRun(Apply(w, a), rest)
    ensures CanRun(w, [a] + rest) && Run(w, [a] + rest) == Run(Apply(w, a), rest)
  {
    assert ([a] + rest)[1..] == rest;
  }
}
