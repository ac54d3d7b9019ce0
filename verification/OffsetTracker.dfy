/**
  The per-partition offset tracker: which received offsets are pending or settled, and which offset
  may be committed next. The functions specify the operations on tracker values; the class
  PartitionState holds the fields the consumer goroutines update in place.
 */
module OffsetTracker {
  import opened Wrappers

  type Offset = int

  /** kafka.OffsetBeginning: the position recorded when no committed offset is known. */
  const OFFSET_BEGINNING: Offset := -2

  datatype MsgState = Pending | Success | Error

  type StateMap = map<Offset, MsgState>

  datatype Tracker = Tracker(state: StateMap, maxReceived: Offset, lastCommited: Offset)

  datatype FindResult = MaxReceivedMissing | Skipped | ToCommit(offset: Offset)

  function NewTracker(start: Offset): Tracker {
    Tracker(map[], start, if start < 0 then -1 else start - 1)
  }

  function Append(t: Tracker, o: Offset): Tracker {
    t.(state := t.state[o := Pending], maxReceived := if t.maxReceived < o then o else t.maxReceived)
  }

  function Settle(t: Tracker, o: Offset, outcome: MsgState): Tracker {
    t.(state := t.state[o := outcome])
  }

  function Publish(t: Tracker, o: Offset): Tracker {
    t.(lastCommited := o, maxReceived := if o > t.maxReceived then o else t.maxReceived)
  }

  /** What the commit scan leaves of `state`, and the offset it chooses, when it stands at `from`. */
  function Scan(state: StateMap, from: Offset, max: Offset): (StateMap, Offset)
    decreases max - from + 1
  {
    if from > max then (state, max)
    else if from !in state then Scan(state, from + 1, max)
    else if state[from].Pending? then (state, from)
    else
      var rest := state - {from};
      if rest == map[] then (rest, from + 1) else Scan(rest, from + 1, max)
  }

  function Find(t: Tracker): (FindResult, Tracker) {
    if t.lastCommited == t.maxReceived then (Skipped, t)
    else
      var (left, chosen) := Scan(t.state, t.lastCommited, t.maxReceived);
      (ToCommit(chosen), t.(state := left))
  }

  // ----- the closed form of the scan -----

  ghost predicate PendingBetween(state: StateMap, from: Offset, max: Offset, o: Offset) {
    from <= o <= max && o in state && state[o].Pending?
  }

  ghost predicate AnyPending(state: StateMap, from: Offset, max: Offset) {
    exists o :: PendingBetween(state, from, max, o)
  }

  /** The entries of `state` outside the half-open interval [from, to). */
  ghost function Without(state: StateMap, from: Offset, to: Offset): StateMap {
    map o | o in state && !(from <= o < to) :: state[o]
  }

  /**
    The scan stops at the least pending offset of the window and drops the window below it. With nothing
    pending it drops the whole window, and chooses one past the greatest entry if that emptied a nonempty
    map, and `max` otherwise.
   */
  ghost predicate ScanOutcome(state: StateMap, from: Offset, max: Offset, left: StateMap, chosen: Offset) {
    if AnyPending(state, from, max) then
      && PendingBetween(state, from, max, chosen)
      && (forall o | PendingBetween(state, from, max, o) :: chosen <= o)
      && left == Without(state, from, chosen)
    else
      && left == Without(state, from, max + 1)
      && (if state != map[] && left == map[]
          then chosen - 1 in state && forall o | o in state :: o <= chosen - 1
          else chosen == max)
  }

  lemma {:induction false} ScanHasClosedForm(state: StateMap, from: Offset, max: Offset)
    ensures ScanOutcome(state, from, max, Scan(state, from, max).0, Scan(state, from, max).1)
    decreases max - from + 1
  {
    if from > max {
      assert Without(state, from, max + 1) == state;
    } else if from in state && state[from].Pending? {
      assert PendingBetween(state, from, max, from);
      assert Without(state, from, from) == state;
    } else {
      var rest := state - {from};
      if rest == map[] && from in state {
        assert rest.Keys == state.Keys - {from};
        assert forall o | o in state :: o == from || o in rest;
        assert Without(state, from, max + 1) == map[];
      } else {
        assert from !in state ==> rest == state;
        ScanHasClosedForm(rest, from + 1, max);
        OutcomeExtends(state, from, max, Scan(rest, from + 1, max).0, Scan(rest, from + 1, max).1);
      }
    }
  }

  /** Moving the scan past a settled or absent offset changes neither the chosen offset nor the leftovers. */
  lemma OutcomeExtends(state: StateMap, from: Offset, max: Offset, left: StateMap, chosen: Offset)
    requires from <= max
    requires from !in state || !state[from].Pending?
    requires state - {from} != map[] || state == map[]
    requires ScanOutcome(state - {from}, from + 1, max, left, chosen)
    ensures ScanOutcome(state, from, max, left, chosen)
  {
    var rest := state - {from};
    assert forall o :: o in rest <==> o in state && o != from;
    assert forall o :: PendingBetween(state, from, max, o) <==> PendingBetween(rest, from + 1, max, o);
    if AnyPending(state, from, max) {
      var o :| PendingBetween(state, from, max, o);
      assert PendingBetween(rest, from + 1, max, o);
    } else if AnyPending(rest, from + 1, max) {
      var o :| PendingBetween(rest, from + 1, max, o);
      assert PendingBetween(state, from, max, o);
    }
    var to := if AnyPending(state, from, max) then chosen else max + 1;
    assert Without(rest, from + 1, to) == Without(state, from, to);
    if !AnyPending(state, from, max) && left == map[] {
      forall o | o in rest ensures from < o { assert from < o || o in left; }
      assert rest == map[] ==> state == map[];
    }
  }

  /** The closed form determines both the chosen offset and what is left. */
  lemma ScanOutcomeIsUnique(state: StateMap, from: Offset, max: Offset,
                            left: StateMap, chosen: Offset, left': StateMap, chosen': Offset)
    requires ScanOutcome(state, from, max, left, chosen)
    requires ScanOutcome(state, from, max, left', chosen')
    ensures left == left' && chosen == chosen'
  {
    if AnyPending(state, from, max) {
      assert chosen <= chosen' <= chosen;
    }
  }

  /**
    With every entry inside the window: the least pending offset if there is one, else one past the
    greatest entry, else `maxReceived`; and exactly the entries at or above the result are kept.
   */
  lemma FindInRange(t: Tracker)
    requires t.lastCommited != t.maxReceived
    requires forall o | o in t.state :: t.lastCommited <= o <= t.maxReceived
    ensures Find(t).0.ToCommit?
    ensures var chosen := Find(t).0.offset;
            && Find(t).1 == t.(state := map o | o in t.state && chosen <= o :: t.state[o])
            && (if exists o :: o in t.state && t.state[o].Pending?
                then chosen in t.state && t.state[chosen].Pending?
                     && forall o | o in t.state && t.state[o].Pending? :: chosen <= o
                else if t.state != map[]
                then chosen - 1 in t.state && forall o | o in t.state :: o <= chosen - 1
                else chosen == t.maxReceived)
  {
    ScanHasClosedForm(t.state, t.lastCommited, t.maxReceived);
    var (left, chosen) := Scan(t.state, t.lastCommited, t.maxReceived);
    assert forall o :: PendingBetween(t.state, t.lastCommited, t.maxReceived, o)
                       <==> o in t.state && t.state[o].Pending?;
    assert Without(t.state, t.lastCommited, t.maxReceived + 1) == map[];
  }

  // ----- the mutable tracker -----

  class PartitionState {
    const id: int
    var state: StateMap
    var maxReceived: Option<Offset>
    var lastCommited: Offset
    /** Whether the commitOffsetLoop goroutine of this tracker has been started and has not exited. */
    var loopRunning: bool

    ghost function View(): Tracker
      reads this
      requires maxReceived.Some?
    {
      Tracker(state, maxReceived.value, lastCommited)
    }

    constructor (partition: int, start: Offset)
      ensures id == partition && !loopRunning && state == map[] && maxReceived == Some(start)
      ensures lastCommited == if start < 0 then -1 else start - 1
      ensures View() == NewTracker(start)
    {
      var initialLastCommited := start - 1;
      if start == OFFSET_BEGINNING || start < 0 {
        initialLastCommited := -1;
      }
      id := partition;
      state := map[];
      maxReceived := Some(start);
      lastCommited := initialLastCommited;
      loopRunning := false;
    }

    method AppendMsgState(o: Offset)
      modifies this`state, this`maxReceived
      ensures state == old(state)[o := Pending]
      ensures maxReceived == if old(maxReceived).Some? && o <= old(maxReceived).value then old(maxReceived) else Some(o)
      ensures old(maxReceived).Some? ==> View() == Append(old(View()), o)
    {
      state := state[o := Pending];
      if maxReceived.None? || maxReceived.value < o {
        maxReceived := Some(o);
      }
    }

    method UpdateState(o: Offset, outcome: MsgState)
      modifies this`state
      ensures state == old(state)[o := outcome]
    {
      state := state[o := outcome];
    }

    method FindLatestToCommit() returns (result: FindResult)
      modifies this`state
      ensures maxReceived.None? <==> result.MaxReceivedMissing?
      ensures maxReceived.None? ==> state == old(state)
      ensures maxReceived.Some? ==> (result, View()) == Find(old(View()))
      ensures result.ToCommit? ==>
                ScanOutcome(old(state), lastCommited, maxReceived.value, state, result.offset)
      ensures !result.ToCommit? ==> state == old(state)
    {
      if maxReceived.None? {
        return MaxReceivedMissing;
      }
      var latestToCommit := maxReceived.value;
      if lastCommited == maxReceived.value {
        return Skipped;
      }
      ghost var goal := Scan(state, lastCommited, maxReceived.value);
      ScanHasClosedForm(state, lastCommited, maxReceived.value);
      var offset := lastCommited;
      while offset <= maxReceived.value
        invariant Scan(state, offset, maxReceived.value) == goal
        invariant latestToCommit == maxReceived.value
      {
        if offset !in state {
          offset := offset + 1;
          continue;
        }
        if !state[offset].Pending? {
          state := state - {offset};
          if |state| == 0 {
            latestToCommit := offset + 1;
            break;
          }
          offset := offset + 1;
          continue;
        }
        latestToCommit := offset;
        break;
      }
      return ToCommit(latestToCommit);
    }

    /** The second half of a commit tick, under the re-acquired lock. */
    method PublishCommitted(o: Offset)
      requires maxReceived.Some?
      modifies this`lastCommited, this`maxReceived
      ensures lastCommited == o
      ensures maxReceived == if o <= old(maxReceived).value then old(maxReceived) else Some(o)
      ensures View() == Publish(old(View()), o)
    {
      lastCommited := o;
      if lastCommited > maxReceived.value {
        maxReceived := Some(o);
      }
    }

    /** One tick of commitOffsetLoop with nothing interleaved; `accepted` is the broker's answer. */
    method CommitTick(accepted: bool) returns (attempt: FindResult)
      requires maxReceived.Some?
      modifies this`state, this`lastCommited, this`maxReceived
      ensures maxReceived.Some? && attempt == Find(old(View())).0
      ensures attempt.ToCommit? && accepted ==> lastCommited == attempt.offset <= maxReceived.value
      ensures !(attempt.ToCommit? && accepted) ==> lastCommited == old(lastCommited) && maxReceived == old(maxReceived)
      ensures View() == if attempt.ToCommit? && accepted
                        then Publish(Find(old(View())).1, attempt.offset)
                        else Find(old(View())).1
    {
      attempt := FindLatestToCommit();
      if attempt.ToCommit? && accepted {
        PublishCommitted(attempt.offset);
      }
    }
  }
}
