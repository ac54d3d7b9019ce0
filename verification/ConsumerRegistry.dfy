/** The consumer's map from partition to tracker, and the rebalance callbacks that start and stop commit loops. */
module ConsumerRegistry {
  import opened Wrappers
  import opened OffsetTracker
  import opened CommitProtocol

  datatype TopicPartition = TopicPartition(partition: int, offset: Offset)

  type Views = map<int, Tracker>

  function Partitions(tps: seq<TopicPartition>): set<int> {
    set tp | tp in tps :: tp.partition
  }

  function StartOffset(tp: TopicPartition): Offset {
    if tp.offset < 0 then OFFSET_BEGINNING else tp.offset
  }

  /** The trackers after the assign callback has gone through `tps`. */
  function AssignAll(views: Views, tps: seq<TopicPartition>): Views {
    if tps == [] then views
    else
      var last := tps[|tps| - 1];
      AssignAll(views, tps[..|tps| - 1])[last.partition := NewTracker(StartOffset(last))]
  }

  /** The trackers left, and the offsets to commit, after the revoke callback has gone through `ps`. */
  function RevokeAll(views: Views, ps: seq<int>): (Views, seq<TopicPartition>) {
    if ps == [] then (views, [])
    else
      var (left, toCommit) := RevokeAll(views, ps[..|ps| - 1]);
      var p := ps[|ps| - 1];
      if p !in left || !Find(left[p]).0.ToCommit? then (left, toCommit)
      else
        var o := Find(left[p]).0.offset;
        (left - {p}, if 0 <= o then toCommit + [TopicPartition(p, o)] else toCommit)
  }

  /** The trackers left are those not revoked, and those whose scan was skipped. */
  ghost predicate LeftAfter(views: Views, ps: seq<int>, left: Views) {
    && (forall p :: p in left <==> p in views && (p in ps ==> !Find(views[p]).0.ToCommit?))
    && (forall p | p in left :: left[p] == views[p])
  }

  /** The offsets to commit are the nonnegative ones that the scans of the revoked partitions choose. */
  ghost predicate CommittedAfter(views: Views, ps: seq<int>, toCommit: seq<TopicPartition>) {
    forall tp :: tp in toCommit <==>
      && tp.partition in ps && tp.partition in views && 0 <= tp.offset
      && Find(views[tp.partition]).0 == ToCommit(tp.offset)
  }

  ghost predicate OncePerPartition(toCommit: seq<TopicPartition>) {
    forall i, j | 0 <= i < j < |toCommit| :: toCommit[i].partition != toCommit[j].partition
  }

  lemma LeftAfterOneMore(views: Views, ps: seq<int>, left: Views, p: int)
    requires LeftAfter(views, ps, left) && p !in ps
    ensures LeftAfter(views, ps + [p], if p in left && Find(left[p]).0.ToCommit? then left - {p} else left)
  {
    hide Find;
    assert forall q :: q in ps + [p] <==> q in ps || q == p;
  }

  lemma CommittedAfterOneMore(views: Views, ps: seq<int>, toCommit: seq<TopicPartition>, p: int)
    requires CommittedAfter(views, ps, toCommit) && OncePerPartition(toCommit) && p !in ps
    ensures var more := if p in views && Find(views[p]).0.ToCommit? && 0 <= Find(views[p]).0.offset
                        then [TopicPartition(p, Find(views[p]).0.offset)] else [];
            CommittedAfter(views, ps + [p], toCommit + more) && OncePerPartition(toCommit + more)
  {
    hide Find;
    assert forall q :: q in ps + [p] <==> q in ps || q == p;
    assert forall tp | tp in toCommit :: tp.partition != p;
  }

  lemma {:induction false} RevokesOneByOne(views: Views, ps: seq<int>)
    requires forall i, j | 0 <= i < j < |ps| :: ps[i] != ps[j]
    ensures var (left, toCommit) := RevokeAll(views, ps);
            LeftAfter(views, ps, left) && CommittedAfter(views, ps, toCommit) && OncePerPartition(toCommit)
  {
    hide Find;
    if ps != [] {
      hide LeftAfter, CommittedAfter, OncePerPartition;
      var init, p := ps[..|ps| - 1], ps[|ps| - 1];
      RevokesOneByOne(views, init);
      var (left, toCommit) := RevokeAll(views, init);
      assert ps == init + [p] && p !in init;
      LeftAfterOneMore(views, init, left, p);
      CommittedAfterOneMore(views, init, toCommit, p);
      NotYetRevoked(views, init, left, p);
      assert toCommit + [] == toCommit;
    }
  }

  /** Each partition revoked is committed where its own scan says, and kept only if the scan was skipped. */
  lemma RevokeIsPerPartition(views: Views, ps: seq<int>)
    requires forall i, j | 0 <= i < j < |ps| :: ps[i] != ps[j]
    ensures var (left, toCommit) := RevokeAll(views, ps);
            && (forall p :: p in left <==> p in views && (p in ps ==> !Find(views[p]).0.ToCommit?))
            && (forall p | p in left :: left[p] == views[p])
            && (forall tp :: tp in toCommit <==>
                  && tp.partition in ps && tp.partition in views && 0 <= tp.offset
                  && Find(views[tp.partition]).0 == ToCommit(tp.offset))
            && (forall i, j | 0 <= i < j < |toCommit| :: toCommit[i].partition != toCommit[j].partition)
  {
    hide Find, RevokeAll;
    RevokesOneByOne(views, ps);
  }

  lemma NotYetRevoked(views: Views, ps: seq<int>, left: Views, p: int)
    requires LeftAfter(views, ps, left) && p !in ps
    ensures (p in left <==> p in views) && (p in left ==> left[p] == views[p])
  {
  }

  /** Entry `i` is the last one listed for its partition. */
  ghost predicate LastListed(tps: seq<TopicPartition>, i: int) {
    0 <= i < |tps| && forall j | i < j < |tps| :: tps[j].partition != tps[i].partition
  }

  /**
    The tracker of each assigned partition is empty and starts at the last offset listed for it, having
    committed what is below; with a negative one, it starts at the beginning.
   */
  lemma {:induction false} AssignedStartsAt(views: Views, tps: seq<TopicPartition>, i: int)
    requires 0 <= i < |tps| && forall j | i < j < |tps| :: tps[j].partition != tps[i].partition
    ensures var (p, o) := (tps[i].partition, tps[i].offset);
            && p in AssignAll(views, tps)
            && AssignAll(views, tps)[p] == if o < 0 then Tracker(map[], -2, -1) else Tracker(map[], o, o - 1)
  {
    if i < |tps| - 1 {
      var init := tps[..|tps| - 1];
      assert forall j | i < j < |init| :: init[j] == tps[j];
      AssignedStartsAt(views, init, i);
      assert tps[|tps| - 1].partition != tps[i].partition;
    }
  }

  lemma {:induction false} UnassignedKeepsTracker(views: Views, tps: seq<TopicPartition>, p: int)
    requires forall i | 0 <= i < |tps| :: tps[i].partition != p
    ensures (p in AssignAll(views, tps) <==> p in views) && (p in views ==> AssignAll(views, tps)[p] == views[p])
  {
    if tps != [] {
      var init := tps[..|tps| - 1];
      assert forall i | 0 <= i < |init| :: init[i] == tps[i];
      UnassignedKeepsTracker(views, init, p);
    }
  }

  /** The callback's trackers are those the assignment of the commit protocol starts a session with. */
  lemma AssignStartsSession(c: Cluster, readOk: bool, views: Views, tp: TopicPartition)
    requires Enabled(c, Assign(readOk))
    requires if readOk then (if c.committed < 0 then tp.offset < 0 else tp.offset == c.committed) else tp.offset < 0
    ensures Apply(c, Assign(readOk)).slot.tracker == AssignAll(views, [tp])[tp.partition]
  {
    AssignedStartsAt(views, [tp], 0);
  }

  lemma NothingListed()
    ensures Partitions([]) == {}
  {
  }

  lemma OneMorePartition(tps: seq<TopicPartition>, tp: TopicPartition)
    ensures Partitions(tps + [tp]) == Partitions(tps) + {tp.partition}
  {
  }

  lemma AssignOneMore(views: Views, tps: seq<TopicPartition>, i: nat)
    requires i < |tps|
    ensures Partitions(tps[..i + 1]) == Partitions(tps[..i]) + {tps[i].partition}
    ensures AssignAll(views, tps[..i + 1]) ==
            AssignAll(views, tps[..i])[tps[i].partition := NewTracker(StartOffset(tps[i]))]
  {
    hide NewTracker, StartOffset;
    assert tps[..i + 1] == tps[..i] + [tps[i]];
    assert tps[..i + 1][..i] == tps[..i];
    OneMorePartition(tps[..i], tps[i]);
  }

  /** The partition has a tracker, and its scan finds an offset. */
  predicate Finds(views: Views, p: int) {
    p in views && Find(views[p]).0.ToCommit?
  }

  class KafkaConsumer {
    var msgsStateMap: map<int, PartitionState>
    /** How often the map's read lock was taken and not released; it cannot be locked for writing after that. */
    var readLocksLeaked: nat
    /** Every tracker this consumer has created. */
    ghost var trackers: set<PartitionState>
    /** The partitions the group has handed to this consumer and not taken back. */
    ghost var owned: set<int>

    /**
      A running loop belongs to the tracker registered for its partition, so no partition has two. The
      registered loops that run are those of the owned partitions.
     */
    ghost predicate Valid()
      reads this, trackers
    {
      && (forall p | p in msgsStateMap :: msgsStateMap[p] in trackers)
      && (forall p | p in msgsStateMap :: msgsStateMap[p].id == p && msgsStateMap[p].maxReceived.Some?)
      && (forall t | t in trackers && t.loopRunning :: t.id in msgsStateMap && msgsStateMap[t.id] == t)
      && (forall p | p in owned :: p in msgsStateMap)
      && (forall p | p in msgsStateMap :: msgsStateMap[p].loopRunning <==> p in owned)
    }

    ghost function Trackers(): Views
      requires Valid()
      reads this, trackers
    {
      map p | p in msgsStateMap :: msgsStateMap[p].View()
    }

    constructor ()
      ensures Valid() && Trackers() == map[] && owned == {} && trackers == {} && readLocksLeaked == 0
    {
      msgsStateMap := map[];
      readLocksLeaked := 0;
      trackers := {};
      owned := {};
    }

    /**
      `committed` is the group's committed offsets for the partitions, or None if reading them failed. A leaked
      read lock blocks the callback for good.
     */
    method AssignPrtnCB(partitions: seq<TopicPartition>, committed: Option<seq<TopicPartition>>) returns (blocked: bool)
      requires Valid()
      requires committed.Some? ==> Partitions(committed.value) == Partitions(partitions)
      modifies this, trackers
      ensures Valid() && fresh(trackers - old(trackers)) && old(trackers) <= trackers
      ensures readLocksLeaked == old(readLocksLeaked) && (blocked <==> readLocksLeaked > 0)
      ensures owned == if blocked then old(owned) else old(owned) + Partitions(partitions)
      ensures Trackers() == if blocked then old(Trackers())
                            else AssignAll(old(Trackers()), if committed.Some? then committed.value else partitions)
      ensures !blocked ==> StartedAt(if committed.Some? then committed.value else partitions)
      ensures !blocked ==> forall tp | tp in partitions :: tp.partition in owned
    {
      hide Partitions, NewTracker, PartitionState.View, StartedAt;
      if readLocksLeaked > 0 {
        return true;
      }
      var tps := if committed.Some? then committed.value else partitions;
      NothingListed();
      var i := 0;
      while i < |tps|
        invariant 0 <= i <= |tps|
        invariant Valid() && fresh(trackers - old(trackers)) && old(trackers) <= trackers
        invariant readLocksLeaked == old(readLocksLeaked)
        invariant owned == old(owned) + Partitions(tps[..i])
        invariant Trackers() == AssignAll(old(Trackers()), tps[..i])
      {
        var tp := tps[i];
        var startOffset := tp.offset;
        if startOffset < 0 {
          startOffset := OFFSET_BEGINNING;
        }
        AssignOneMore(old(Trackers()), tps, i);
        Install(tp.partition, startOffset);
        i := i + 1;
      }
      assert tps[..|tps|] == tps;
      AllStarted(old(Trackers()), tps);
      AllListed(partitions);
      return false;
    }

    /** The last entry listed for a partition is where its running tracker starts, with nothing in its map. */
    ghost predicate StartedAt(tps: seq<TopicPartition>)
      reads this, trackers
    {
      && (forall p | p in msgsStateMap :: msgsStateMap[p] in trackers)
      && forall i | LastListed(tps, i) ::
        && tps[i].partition in msgsStateMap
        && var t, o := msgsStateMap[tps[i].partition], tps[i].offset;
        && t.state == map[] && t.maxReceived == Some(if o < 0 then -2 else o)
        && t.lastCommited == (if o < 0 then -1 else o - 1)
    }

    lemma AllStarted(views: Views, tps: seq<TopicPartition>)
      requires Valid() && Trackers() == AssignAll(views, tps)
      ensures StartedAt(tps)
    {
      hide AssignAll;
      forall i | LastListed(tps, i)
        ensures tps[i].partition in msgsStateMap
        ensures msgsStateMap[tps[i].partition].View() ==
                if tps[i].offset < 0 then Tracker(map[], -2, -1) else Tracker(map[], tps[i].offset, tps[i].offset - 1)
      {
        AssignedStartsAt(views, tps, i);
        assert Trackers()[tps[i].partition] == msgsStateMap[tps[i].partition].View();
      }
    }

    lemma AllListed(tps: seq<TopicPartition>)
      ensures forall tp | tp in tps :: tp.partition in Partitions(tps)
    {
    }

    /** Cancels the loop of a partition and waits for it to exit. */
    method StopLoop(partition: int)
      requires Valid()
      modifies this`owned, trackers
      ensures Valid() && owned == old(owned) - {partition} && Trackers() == old(Trackers())
      ensures partition in msgsStateMap ==> !msgsStateMap[partition].loopRunning
    {
      owned := owned - {partition};
      if partition in msgsStateMap {
        msgsStateMap[partition].loopRunning := false;
      }
      assert forall p | p in msgsStateMap :: msgsStateMap[p].View() == old(msgsStateMap[p].View());
    }

    /** Registers a new tracker in place of a stopped one, and starts its loop. */
    method StartLoop(prtnState: PartitionState)
      requires Valid() && prtnState !in trackers && !prtnState.loopRunning && prtnState.maxReceived.Some?
      requires prtnState.id !in owned
      modifies this`msgsStateMap, this`trackers, this`owned, prtnState
      ensures Valid() && trackers == old(trackers) + {prtnState} && owned == old(owned) + {prtnState.id}
      ensures Trackers() == old(Trackers())[prtnState.id := old(prtnState.View())]
    {
      assert forall p | p in msgsStateMap :: msgsStateMap[p] != prtnState;
      msgsStateMap := msgsStateMap[prtnState.id := prtnState];
      prtnState.loopRunning := true;
      trackers := trackers + {prtnState};
      owned := owned + {prtnState.id};
    }

    /** Replaces the tracker of one partition: the old loop has exited before the new one starts. */
    method Install(partition: int, startOffset: Offset)
      requires Valid()
      modifies this`msgsStateMap, this`trackers, this`owned, trackers
      ensures Valid() && fresh(trackers - old(trackers)) && old(trackers) <= trackers
      ensures owned == old(owned) + {partition}
      ensures Trackers() == old(Trackers())[partition := NewTracker(startOffset)]
    {
      hide NewTracker, PartitionState.View;
      var prtnState := new PartitionState(partition, startOffset);
      StopLoop(partition);
      StartLoop(prtnState);
    }

    /** A leaked read lock blocks the callback for good as soon as a tracker is to be removed. */
    method RevokePrtnCB(partitions: seq<int>) returns (toCommit: seq<TopicPartition>, blocked: bool)
      requires Valid()
      modifies this, trackers
      ensures Valid() && trackers == old(trackers) && readLocksLeaked == old(readLocksLeaked)
      ensures blocked <==> readLocksLeaked > 0 && exists p :: p in partitions && Finds(old(Trackers()), p)
      ensures !blocked ==> owned == old(owned) - set p | p in partitions
      ensures !blocked ==> (Trackers(), toCommit) == RevokeAll(old(Trackers()), partitions)
    {
      hide Find, PartitionState.View;
      toCommit := [];
      var i := 0;
      while i < |partitions|
        invariant 0 <= i <= |partitions|
        invariant Valid() && trackers == old(trackers) && readLocksLeaked == old(readLocksLeaked)
        invariant owned == old(owned) - set p | p in partitions[..i]
        invariant (Trackers(), toCommit) == RevokeAll(old(Trackers()), partitions[..i])
        invariant readLocksLeaked > 0 ==>
                    Trackers() == old(Trackers()) && forall p | p in partitions[..i] :: !Finds(old(Trackers()), p)
      {
        var partition := partitions[i];
        assert partitions[..i + 1][..i] == partitions[..i];
        assert forall p :: p in partitions[..i + 1] <==> p in partitions[..i] || p == partition;
        i := i + 1;
        var attempt;
        attempt, blocked := StopAndFind(partition);
        if blocked {
          assert partition in partitions;
          return;
        }
        if attempt.None? {
          continue;
        }
        if attempt.value >= 0 {
          toCommit := toCommit + [TopicPartition(partition, attempt.value)];
        }
      }
      assert partitions[..|partitions|] == partitions;
      blocked := false;
    }

    method Remove(partition: int)
      requires Valid() && partition in msgsStateMap && partition !in owned
      modifies this`msgsStateMap
      ensures Valid() && Trackers() == old(Trackers()) - {partition}
    {
      hide PartitionState.View;
      msgsStateMap := msgsStateMap - {partition};
    }

    /** The scan of one partition's tracker. */
    method ScanOf(partition: int) returns (result: FindResult)
      requires Valid() && partition in msgsStateMap
      modifies trackers`state
      ensures Valid() && result == Find(old(Trackers())[partition]).0
      ensures Trackers() == old(Trackers())[partition := Find(old(Trackers())[partition]).1]
    {
      hide Find, ScanOutcome;
      result := msgsStateMap[partition].FindLatestToCommit();
      assert forall p | p in msgsStateMap && p != partition ::
               msgsStateMap[p].View() == old(msgsStateMap[p].View());
    }

    lemma SkippedScanChangesNothing(t: Tracker)
      ensures !Find(t).0.ToCommit? ==> Find(t).1 == t
    {
    }

    /** One round of the revoke loop: None when there is no tracker, or its scan was skipped. */
    method StopAndFind(partition: int) returns (attempt: Option<Offset>, blocked: bool)
      requires Valid()
      modifies this`msgsStateMap, this`owned, trackers
      ensures Valid() && owned == old(owned) - {partition}
      ensures attempt.Some? <==> Finds(old(Trackers()), partition)
      ensures attempt.Some? ==> Find(old(Trackers())[partition]).0.offset == attempt.value
      ensures blocked <==> attempt.Some? && readLocksLeaked > 0
      ensures !blocked ==>
                Trackers() == if attempt.Some? then old(Trackers()) - {partition} else old(Trackers())
    {
      hide Find, PartitionState.View;
      StopLoop(partition);
      ghost var views := Trackers();
      if partition !in msgsStateMap {
        return None, false;
      }
      SkippedScanChangesNothing(views[partition]);
      var latestToCommit := ScanOf(partition);
      if !latestToCommit.ToCommit? {
        return None, false;
      }
      if readLocksLeaked > 0 {
        return Some(latestToCommit.offset), true;
      }
      Remove(partition);
      return Some(latestToCommit.offset), false;
    }

    method AppendMsgState(tp: TopicPartition)
      requires Valid()
      modifies trackers
      ensures Valid()
      ensures Trackers() == if tp.partition !in old(Trackers()) then old(Trackers())
                            else old(Trackers())[tp.partition := Append(old(Trackers())[tp.partition], tp.offset)]
    {
      if tp.partition in msgsStateMap {
        msgsStateMap[tp.partition].AppendMsgState(tp.offset);
        assert forall p | p in old(msgsStateMap) && p != tp.partition ::
                 msgsStateMap[p].View() == old(msgsStateMap[p].View());
      }
    }

    /** With no tracker for the partition the read lock is never released. */
    method UpdateState(tp: TopicPartition, newState: MsgState)
      requires Valid()
      modifies trackers, this`readLocksLeaked
      ensures Valid()
      ensures Trackers() == if tp.partition !in old(Trackers()) then old(Trackers())
                            else old(Trackers())[tp.partition :=
                                   Settle(old(Trackers())[tp.partition], tp.offset, newState)]
      ensures readLocksLeaked == old(readLocksLeaked) + if tp.partition in old(Trackers()) then 0 else 1
    {
      if tp.partition !in msgsStateMap {
        readLocksLeaked := readLocksLeaked + 1;
        return;
      }
      msgsStateMap[tp.partition].UpdateState(tp.offset, newState);
      assert forall p | p in old(msgsStateMap) && p != tp.partition ::
               msgsStateMap[p].View() == old(msgsStateMap[p].View());
    }
  }
}
