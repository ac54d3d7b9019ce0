/** The token bucket: which calls it grants, over whole runs with a nondecreasing clock. */
module TokenBucket {
  datatype Rates = Rates(max: real, perSecond: real) {
    predicate Valid() {
      0.0 <= max && 0.0 <= perSecond
    }
  }

  datatype Bucket = Bucket(tokens: real, lastRefill: real)

  /** One call of Allow with its two readings of the clock, in seconds. */
  datatype Call = Call(begun: real, ended: real)

  function Min(a: real, b: real): real {
    if a <= b then a else b
  }

  function NewBucket(k: Rates, now: real): Bucket {
    Bucket(k.max, now)
  }

  /** The tokens that accrue in this many seconds. */
  function Accrued(k: Rates, seconds: real): real {
    seconds * k.perSecond
  }

  function Refilled(k: Rates, b: Bucket, c: Call): Bucket {
    Bucket(Min(k.max, b.tokens + Accrued(k, c.begun - b.lastRefill)), c.ended)
  }

  function Decide(k: Rates, b: Bucket, c: Call): (bool, Bucket) {
    var full := Refilled(k, b, c);
    if full.tokens >= 1.0 then (true, full.(tokens := full.tokens - 1.0)) else (false, full)
  }

  class RateLimiter {
    const refillRate: real
    const maxTokens: real
    var lastRefill: real
    var tokens: real

    ghost function Limits(): Rates {
      Rates(maxTokens, refillRate)
    }

    ghost function View(): Bucket
      reads this
    {
      Bucket(tokens, lastRefill)
    }

    constructor (maxTokens: real, refillRate: real, now: real)
      ensures this.maxTokens == maxTokens && this.refillRate == refillRate && tokens == maxTokens && lastRefill == now
      ensures Limits() == Rates(maxTokens, refillRate) && View() == NewBucket(Limits(), now)
    {
      this.refillRate := refillRate;
      this.maxTokens := maxTokens;
      tokens := maxTokens;
      lastRefill := now;
    }

    method Allow(c: Call) returns (allowed: bool)
      modifies this
      ensures (allowed, View()) == Decide(Limits(), old(View()), c)
      ensures var accrued := old(tokens) + (c.begun - old(lastRefill)) * refillRate;
              var available := if maxTokens < accrued then maxTokens else accrued;
              && (allowed <==> available >= 1.0)
              && tokens == (if allowed then available - 1.0 else available) && lastRefill == c.ended
    {
      Refill(c);
      if tokens >= 1.0 {
        tokens := tokens - 1.0;
        return true;
      }
      return false;
    }

    method Refill(c: Call)
      modifies this
      ensures View() == Refilled(Limits(), old(View()), c)
      ensures var accrued := old(tokens) + (c.begun - old(lastRefill)) * refillRate;
              tokens == (if maxTokens < accrued then maxTokens else accrued) && lastRefill == c.ended
    {
      var elapsed := c.begun - lastRefill;
      var toRefill := elapsed * refillRate;
      tokens := Min(maxTokens, tokens + toRefill);
      lastRefill := c.ended;
    }
  }

  // ----- runs -----

  /** The calls are serialised by the mutex, and the clock does not run backwards. */
  ghost predicate Timed(now: real, calls: seq<Call>) {
    && (forall i | 0 <= i < |calls| :: now <= calls[i].begun <= calls[i].ended)
    && (forall i, j | 0 <= i < j < |calls| :: calls[i].ended <= calls[j].begun)
  }

  /** The bucket after the first `n` calls. */
  ghost function After(k: Rates, b: Bucket, calls: seq<Call>, n: nat): Bucket
    requires n <= |calls|
  {
    if n == 0 then b else Decide(k, After(k, b, calls, n - 1), calls[n - 1]).1
  }

  /** The tokens call `j` finds after refilling. */
  ghost function Available(k: Rates, b: Bucket, calls: seq<Call>, j: nat): real
    requires j < |calls|
  {
    Refilled(k, After(k, b, calls, j), calls[j]).tokens
  }

  ghost predicate Granted(k: Rates, b: Bucket, calls: seq<Call>, j: nat)
    requires j < |calls|
  {
    Decide(k, After(k, b, calls, j), calls[j]).0
  }

  /** How many of the calls `from`, ..., `to - 1` are granted. */
  ghost function Grants(k: Rates, b: Bucket, calls: seq<Call>, from: nat, to: nat): nat
    requires to <= |calls|
  {
    if to <= from then 0
    else Grants(k, b, calls, from, to - 1) + if Granted(k, b, calls, to - 1) then 1 else 0
  }

  /** The tokens that accrue between call `from` and call `to`; none accrue during a call. */
  ghost function Credit(k: Rates, calls: seq<Call>, from: nat, to: nat): real
    requires to < |calls|
  {
    if to <= from then 0.0
    else Credit(k, calls, from, to - 1) + Accrued(k, calls[to].begun - calls[to - 1].ended)
  }

  lemma {:induction false} LastRefillIsLastCall(k: Rates, b: Bucket, calls: seq<Call>, n: nat)
    requires n <= |calls|
    ensures After(k, b, calls, n).lastRefill == if n == 0 then b.lastRefill else calls[n - 1].ended
  {
  }

  lemma AccruedIsAdditive(k: Rates, s: real, t: real)
    ensures Accrued(k, s + t) == Accrued(k, s) + Accrued(k, t)
  {
  }

  lemma NothingIsLost(k: Rates, seconds: real)
    requires k.Valid() && seconds >= 0.0
    ensures Accrued(k, seconds) >= 0.0
  {
  }

  lemma DecideKeepsRange(k: Rates, b: Bucket, c: Call)
    requires k.Valid() && 0.0 <= b.tokens <= k.max && b.lastRefill <= c.begun
    ensures 0.0 <= Refilled(k, b, c).tokens <= k.max
    ensures 0.0 <= Decide(k, b, c).1.tokens <= k.max
  {
    hide Accrued;
    NothingIsLost(k, c.begun - b.lastRefill);
  }

  lemma {:induction false} TokensInRange(k: Rates, b: Bucket, calls: seq<Call>, n: nat)
    requires k.Valid() && n <= |calls| && Timed(b.lastRefill, calls) && 0.0 <= b.tokens <= k.max
    ensures 0.0 <= After(k, b, calls, n).tokens <= k.max
  {
    hide Accrued;
    if n > 0 {
      TokensInRange(k, b, calls, n - 1);
      LastRefillIsLastCall(k, b, calls, n - 1);
      DecideKeepsRange(k, After(k, b, calls, n - 1), calls[n - 1]);
    }
  }

  /** What a call finds, from what the call before it found. */
  lemma NextAvailable(k: Rates, b: Bucket, calls: seq<Call>, j: nat)
    requires 0 < j < |calls|
    ensures Available(k, b, calls, j) ==
            Min(k.max, Available(k, b, calls, j - 1) - (if Granted(k, b, calls, j - 1) then 1.0 else 0.0)
                       + Accrued(k, calls[j].begun - calls[j - 1].ended))
  {
    hide Accrued;
    LastRefillIsLastCall(k, b, calls, j);
  }

  /** Of the tokens call `j` finds, how many the window that opens with call `i` leaves. */
  ghost function Room(k: Rates, b: Bucket, calls: seq<Call>, i: nat, j: nat): real
    requires i <= j < |calls|
  {
    k.max + Credit(k, calls, i, j) - Grants(k, b, calls, i, j) as real
  }

  lemma RoomStep(k: Rates, b: Bucket, calls: seq<Call>, i: nat, j: nat)
    requires i < j < |calls|
    ensures Room(k, b, calls, i, j) ==
            Room(k, b, calls, i, j - 1) - (if Granted(k, b, calls, j - 1) then 1.0 else 0.0)
            + Accrued(k, calls[j].begun - calls[j - 1].ended)
  {
    hide Accrued;
  }

  /** No window leaves less than the bucket holds. */
  lemma {:induction false} NoWindowIsTighter(k: Rates, b: Bucket, calls: seq<Call>, i: nat, j: nat)
    requires i <= j < |calls|
    ensures Available(k, b, calls, j) <= Room(k, b, calls, i, j)
  {
    hide Accrued;
    if i < j {
      NoWindowIsTighter(k, b, calls, i, j - 1);
      NextAvailable(k, b, calls, j);
      RoomStep(k, b, calls, i, j);
    }
  }

  /** A bucket that starts full holds exactly what its tightest window leaves. */
  lemma {:induction false} TightestWindow(k: Rates, start: real, calls: seq<Call>, j: nat) returns (i: nat)
    requires k.Valid() && j < |calls| && Timed(start, calls)
    ensures i <= j && Available(k, NewBucket(k, start), calls, j) == Room(k, NewBucket(k, start), calls, i, j)
  {
    hide Accrued;
    var b := NewBucket(k, start);
    i := j;
    if j == 0 {
      NothingIsLost(k, calls[0].begun - start);
    } else {
      var i' := TightestWindow(k, start, calls, j - 1);
      NextAvailable(k, b, calls, j);
      RoomStep(k, b, calls, i', j);
      if Available(k, b, calls, j) < k.max {
        i := i';
      }
    }
  }

  lemma GrantedOnAvailable(k: Rates, b: Bucket, calls: seq<Call>, j: nat)
    requires j < |calls|
    ensures Granted(k, b, calls, j) <==> Available(k, b, calls, j) >= 1.0
  {
  }

  /** A call is granted exactly when every window it closes has room for one more grant. */
  lemma GrantedIffEveryWindowHasRoom(k: Rates, start: real, calls: seq<Call>, j: nat)
    requires k.Valid() && j < |calls| && Timed(start, calls)
    ensures var b := NewBucket(k, start);
            Granted(k, b, calls, j) <==>
            forall i | 0 <= i <= j ::
              Grants(k, b, calls, i, j) as real + 1.0 <= k.max + Credit(k, calls, i, j)
  {
    hide Available, Granted, Grants, Credit, After;
    var b := NewBucket(k, start);
    GrantedOnAvailable(k, b, calls, j);
    if Granted(k, b, calls, j) {
      forall i | 0 <= i <= j
        ensures Grants(k, b, calls, i, j) as real + 1.0 <= k.max + Credit(k, calls, i, j)
      {
        NoWindowIsTighter(k, b, calls, i, j);
        assert Room(k, b, calls, i, j) >= 1.0;
      }
    } else {
      var i := TightestWindow(k, start, calls, j);
      assert Grants(k, b, calls, i, j) as real + 1.0 > k.max + Credit(k, calls, i, j);
    }
  }

  lemma {:induction false} CreditIsElapsedTime(k: Rates, start: real, calls: seq<Call>, i: nat, j: nat)
    requires k.Valid() && i < j < |calls| && Timed(start, calls)
    ensures Credit(k, calls, i, j) <= Accrued(k, calls[j].begun - calls[i].ended)
  {
    if i < j - 1 {
      hide Accrued;
      CreditIsElapsedTime(k, start, calls, i, j - 1);
      var before, inside, gap := calls[j - 1].begun - calls[i].ended, calls[j - 1].ended - calls[j - 1].begun,
                                 calls[j].begun - calls[j - 1].ended;
      NothingIsLost(k, inside);
      AccruedIsAdditive(k, before, inside);
      AccruedIsAdditive(k, before + inside, gap);
      assert before + inside + gap == calls[j].begun - calls[i].ended;
    }
  }

  /**
    Whatever the bucket holds at first, any window of calls is granted at most `max` plus what accrues while
    it lasts, and the tokens never leave [0, max].
   */
  lemma WindowBound(k: Rates, b: Bucket, calls: seq<Call>, i: nat, j: nat)
    requires k.Valid() && i <= j < |calls| && Timed(b.lastRefill, calls) && 0.0 <= b.tokens <= k.max
    ensures Grants(k, b, calls, i, j + 1) as real <= k.max + Credit(k, calls, i, j)
    ensures i < j ==>
              Grants(k, b, calls, i, j + 1) as real <= k.max + Accrued(k, calls[j].begun - calls[i].ended)
    ensures 0.0 <= After(k, b, calls, j + 1).tokens <= k.max
  {
    hide Accrued;
    NoWindowIsTighter(k, b, calls, i, j);
    TokensInRange(k, b, calls, j);
    TokensInRange(k, b, calls, j + 1);
    LastRefillIsLastCall(k, b, calls, j);
    DecideKeepsRange(k, After(k, b, calls, j), calls[j]);
    if i < j {
      CreditIsElapsedTime(k, b.lastRefill, calls, i, j);
    }
  }
}
