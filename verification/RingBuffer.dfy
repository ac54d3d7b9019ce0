/** The ring of recent messages of a room, against the full history of pushes. */
module RingBuffer {
  import opened Wrappers

  datatype RespMsg = RespMsg(offset: int, data: string)

  /** The last `size` messages of `history`, or all of them if there are fewer. */
  function Recent<T>(history: seq<T>, size: nat): seq<T> {
    if |history| <= size then history else history[|history| - size..]
  }

  lemma RecentMeans<T>(history: seq<T>, size: nat)
    ensures var recent := Recent(history, size);
            && |recent| == (if |history| < size then |history| else size)
            && (forall k | 0 <= k < |recent| :: recent[k] == history[|history| - |recent| + k])
            && (recent != [] ==> recent[|recent| - 1] == history[|history| - 1])
  {
  }

  /** Forgetting along the way makes no difference. */
  lemma RecentOfRecent<T>(history: seq<T>, more: seq<T>, size: nat)
    ensures Recent(Recent(history, size) + more, size) == Recent(history + more, size)
  {
    if |history| > size {
      var kept := Recent(history, size);
      assert history + more == history[..|history| - size] + (kept + more);
    }
  }

  // ----- the replay from an offset -----

  /** What the replay is for: the messages kept that are newer than `offset`. */
  function Newer(kept: seq<RespMsg>, offset: int): seq<RespMsg> {
    if kept == [] then []
    else
      var last := kept[|kept| - 1];
      Newer(kept[..|kept| - 1], offset) + if last.offset > offset then [last] else []
  }

  /**
    What the replay does: every round of its search looks at the slot after the oldest, so it finds the
    newest message or none; None stands for the nil dereference on a slot never written.
   */
  function Replayed(kept: seq<RespMsg>, size: nat, offset: int): Option<seq<RespMsg>> {
    if kept == [] then Some([])
    else if |kept| == 1 && size > 1 then None
    else
      var probed := if |kept| == 1 then kept[0] else kept[1];
      if probed.offset > offset then Some([kept[|kept| - 1]]) else Some([])
  }

  ghost predicate Increasing(kept: seq<RespMsg>) {
    forall i, j | 0 <= i < j < |kept| :: kept[i].offset < kept[j].offset
  }

  lemma PrefixIncreases(kept: seq<RespMsg>)
    requires Increasing(kept) && kept != []
    ensures Increasing(kept[..|kept| - 1])
    ensures forall i | 0 <= i < |kept| - 1 :: kept[i].offset < kept[|kept| - 1].offset
  {
  }

  lemma SuffixEnds(kept: seq<RespMsg>, i: nat)
    requires i < |kept|
    ensures kept[i..] == kept[..|kept| - 1][i..] + [kept[|kept| - 1]]
  {
  }

  lemma {:induction false} NewerFrom(kept: seq<RespMsg>, offset: int, i: nat)
    requires Increasing(kept) && i < |kept| && kept[i].offset > offset && (i > 0 ==> kept[i - 1].offset <= offset)
    ensures Newer(kept, offset) == kept[i..]
    decreases |kept|
  {
    hide Increasing;
    PrefixIncreases(kept);
    SuffixEnds(kept, i);
    if i == |kept| - 1 {
      NothingNewer(kept[..|kept| - 1], offset);
    } else {
      NewerFrom(kept[..|kept| - 1], offset, i);
    }
  }

  lemma {:induction false} NothingNewer(kept: seq<RespMsg>, offset: int)
    requires Increasing(kept) && (kept != [] ==> kept[|kept| - 1].offset <= offset)
    ensures Newer(kept, offset) == []
  {
    hide Increasing;
    if kept != [] {
      PrefixIncreases(kept);
      NothingNewer(kept[..|kept| - 1], offset);
    }
  }

  /** Whatever the order, exactly the messages with a larger offset are newer. */
  lemma {:induction false} NewerMeans(kept: seq<RespMsg>, offset: int)
    ensures forall m | m in Newer(kept, offset) :: m in kept && m.offset > offset
    ensures forall m | m in kept && m.offset > offset :: m in Newer(kept, offset)
  {
    if kept != [] {
      NewerMeans(kept[..|kept| - 1], offset);
      assert kept == kept[..|kept| - 1] + [kept[|kept| - 1]];
    }
  }

  lemma FirstNewer(kept: seq<RespMsg>, offset: int) returns (i: nat)
    requires kept != [] && kept[|kept| - 1].offset > offset
    ensures i < |kept| && kept[i].offset > offset && (i > 0 ==> kept[i - 1].offset <= offset)
  {
    i := |kept| - 1;
    while i > 0 && kept[i - 1].offset > offset
      invariant i < |kept| && kept[i].offset > offset
    {
      i := i - 1;
    }
  }

  /**
    With offsets in order, the replay returns exactly the newer messages only of an empty ring, of a ring of
    size one, of two messages unless both are newer, and of more messages only if none is newer.
   */
  lemma ReplayIsRightIff(kept: seq<RespMsg>, size: nat, offset: int)
    requires Increasing(kept) && |kept| <= size
    ensures Replayed(kept, size, offset) == Some(Newer(kept, offset)) <==>
            (match |kept|
             case 0 => true
             case 1 => size == 1
             case 2 => kept[0].offset <= offset
             case _ => kept[|kept| - 1].offset <= offset)
  {
    hide Newer;
    if kept == [] || kept[|kept| - 1].offset <= offset {
      NothingNewer(kept, offset);
      assert |kept| > 2 ==> kept[1].offset < kept[|kept| - 1].offset;
    } else {
      var i := FirstNewer(kept, offset);
      NewerFrom(kept, offset, i);
      assert |Newer(kept, offset)| == |kept| - i;
      assert i == |kept| - 1 ==> Newer(kept, offset) == [kept[|kept| - 1]];
    }
  }

  // ----- positions modulo the size -----

  /** The slot of the message pushed as number `j`. */
  function Slot(j: int, size: nat): (slot: int)
    ensures size > 0 ==> 0 <= slot < size
  {
    if size == 0 then 0 else j % size
  }

  lemma RemainderIs(x: int, s: int, q: int, r: int)
    requires 0 <= r < s && x == q * s + r
    ensures x % s == r
  {
    var d := q - x / s;
    assert d * s == q * s - (x / s) * s;
    assert x == (x / s) * s + x % s;
    if d > 0 {
      AtLeast(d, s);
    } else if d < 0 {
      AtLeast(-d, s);
    }
  }

  lemma AtLeast(d: int, s: int)
    requires d >= 1 && s > 0
    ensures d * s >= s
  {
    assert (d - 1) * s >= 0;
  }

  /** How slots follow each other, up to once around. */
  lemma SlotsFollow(x: int, y: int, size: nat)
    requires size > 0 && 0 <= x - y <= size
    ensures var r := Slot(y, size) + (x - y);
            Slot(x, size) == if r < size then r else r - size
  {
    var r := y % size + (x - y);
    assert y == (y / size) * size + y % size;
    if r < size {
      RemainderIs(x, size, y / size, r);
    } else {
      assert (y / size + 1) * size == (y / size) * size + size;
      RemainderIs(x, size, y / size + 1, r - size);
    }
  }

  lemma FirstSlots(x: int, size: nat)
    requires 0 <= x < size
    ensures Slot(x, size) == x
  {
  }

  class RingBuffer {
    const buffer: array<Option<RespMsg>>
    const size: nat
    var head: nat
    var count: nat
    /** Every message pushed, oldest first. */
    ghost var history: seq<RespMsg>

    ghost predicate Valid()
      reads this, buffer
    {
      && buffer.Length == size
      && count == (if |history| < size then |history| else size)
      && head == Slot(|history|, size)
      && (forall j | |history| - count <= j < |history| :: buffer[Slot(j, size)] == Some(history[j]))
      && (forall k | |history| <= k < size :: buffer[k] == None)
    }

    constructor (size: nat)
      ensures Valid() && history == [] && this.size == size && fresh(buffer)
    {
      this.size := size;
      buffer := new Option<RespMsg>[size](_ => None);
      head := 0;
      count := 0;
      history := [];
    }

    /** A ring of size zero has no slot to write to: the push panics. */
    method Push(msg: RespMsg) returns (panics: bool)
      requires Valid()
      modifies this, buffer
      ensures Valid() && (panics <==> size == 0)
      ensures history == if panics then old(history) else old(history) + [msg]
      ensures !panics ==> Recent(history, size) == Recent(Recent(old(history), size) + [msg], size)
    {
      if size == 0 {
        return true;
      }
      RecentOfRecent(history, [msg], size);
      Write(msg);
      return false;
    }

    method Write(msg: RespMsg)
      requires Valid() && size > 0
      modifies this, buffer
      ensures Valid() && history == old(history) + [msg]
    {
      hide Slot;
      ghost var n := |history|;
      SlotsFollow(n + 1, n, size);
      NextIndex(head + 1);
      buffer[head] := Some(msg);
      head := (head + 1) % size;
      if count < size {
        FirstSlots(n, size);
        count := count + 1;
      }
      history := history + [msg];
      forall j | |history| - count <= j < n ensures buffer[Slot(j, size)] == Some(history[j]) {
        SlotsFollow(n, j, size);
      }
    }

    lemma NextIndex(x: int)
      requires size > 0 && 0 <= x < 2 * size
      ensures x % size == if x < size then x else x - size
    {
      if x >= size {
        RemainderIs(x, size, 1, x - size);
      } else {
        RemainderIs(x, size, 0, x);
      }
    }

    /** The index computed for the oldest message kept is its slot. */
    lemma OldestIndex()
      requires Valid() && count > 0
      ensures (head - count + size) % size == Slot(|history| - count, size)
    {
      hide Slot;
      var n := |history|;
      SlotsFollow(n, n - count, size);
      NextIndex(head - count + size);
    }

    method GetAll() returns (result: seq<RespMsg>)
      requires Valid()
      ensures result == Recent(history, size)
      ensures |result| == (if |history| < size then |history| else size)
      ensures forall k | 0 <= k < |result| :: result[k] == history[|history| - |result| + k]
    {
      hide Slot, Recent;
      RecentMeans(history, size);
      KeptIsCount();
      if count == 0 {
        return [];
      }
      var oldestIdx := (head - count + size) % size;
      OldestIndex();
      var all := CopyFrom(oldestIdx, 0);
      return all;
    }

    /** Copies what is kept, but for the `skipped` oldest messages, starting at the slot of the oldest. */
    method CopyFrom(oldestIdx: nat, skipped: nat) returns (copied: seq<RespMsg>)
      requires Valid() && skipped < count && oldestIdx == Slot(|history| - count, size)
      ensures copied == Recent(history, size)[skipped..]
    {
      hide Slot;
      ghost var n := |history|;
      var numMsg := count - skipped;
      var result := new RespMsg[numMsg](_ => RespMsg(0, ""));
      for i := 0 to numMsg
        invariant forall k | 0 <= k < i :: result[k] == history[n - numMsg + k]
      {
        SlotsFollow(n - numMsg + i, n - count, size);
        NextIndex(oldestIdx + skipped + i);
        var idx := (oldestIdx + skipped + i) % size;
        result[i] := buffer[idx].value;
      }
      copied := result[..];
    }

    lemma KeptIsCount()
      requires Valid()
      ensures |Recent(history, size)| == count
    {
    }

    /** The loop of the search, whose index is the same in every round: None when it reads an empty slot. */
    method GetFromOffset(offset: int) returns (result: Option<seq<RespMsg>>)
      requires Valid()
      ensures result == Replayed(Recent(history, size), size, offset)
      ensures var n := |history|;
              var kept := if n < size then n else size;
              result ==
              if kept == 0 then Some([])
              else if kept == 1 && size > 1 then None
              else if history[n - kept + if kept == 1 then 0 else 1].offset > offset then Some([history[n - 1]])
              else Some([])
    {
      hide Slot, Recent;
      RecentMeans(history, size);
      KeptIsCount();
      if count == 0 {
        return Some([]);
      }
      var oldestIdx := (head - count + size) % size;
      OldestIndex();
      SlotAfterOldest(oldestIdx);
      var startPos := -1;
      for i := 0 to count
        invariant i > 0 ==> buffer[(oldestIdx + 1) % size].Some?
        invariant startPos == if i > 0 && buffer[(oldestIdx + 1) % size].value.offset > offset then i - 1 else -1
      {
        var idx := (oldestIdx + 1) % size;
        if buffer[idx].None? {
          return None;
        }
        if buffer[idx].value.offset > offset {
          startPos := i;
        }
      }
      if startPos == -1 {
        return Some([]);
      }
      var found := CopyFrom(oldestIdx, startPos);
      assert found == [Recent(history, size)[count - 1]];
      return Some(found);
    }

    /** The slot after the oldest holds the second message kept, the only one of a ring of size one, or nothing. */
    lemma SlotAfterOldest(oldestIdx: int)
      requires Valid() && count > 0 && oldestIdx == Slot(|history| - count, size)
      ensures 0 <= (oldestIdx + 1) % size < size
      ensures var kept := Recent(history, size);
              buffer[(oldestIdx + 1) % size] ==
              if |kept| > 1 then Some(kept[1]) else if size == 1 then Some(kept[0]) else None
    {
      hide Slot, Recent;
      RecentMeans(history, size);
      var n := |history|;
      NextIndex(oldestIdx + 1);
      if count > 1 {
        SlotsFollow(n - count + 1, n - count, size);
      } else if size > 1 {
        FirstSlots(0, size);
      }
    }
  }
}
