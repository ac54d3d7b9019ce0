/** Filtering and flattening of sequences. */
module Lists {
  ghost function Filter<T>(p: T -> bool, s: seq<T>): seq<T> {
    if s == [] then []
    else
      var last := s[|s| - 1];
      Filter(p, s[..|s| - 1]) + (if p(last) then [last] else [])
  }

  lemma FilterAppend<T>(p: T -> bool, s: seq<T>, x: T)
    ensures Filter(p, s + [x]) == Filter(p, s) + (if p(x) then [x] else [])
  {
    assert (s + [x])[..|s|] == s;
  }

  function Flatten<T>(ss: seq<seq<T>>): seq<T> {
    if ss == [] then [] else Flatten(ss[..|ss| - 1]) + ss[|ss| - 1]
  }

  lemma FlattenAppend<T>(ss: seq<seq<T>>, s: seq<T>)
    ensures Flatten(ss + [s]) == Flatten(ss) + s
  {
    assert (ss + [s])[..|ss|] == ss;
  }

  /** Splitting a filter into two exclusive ones loses and duplicates nothing. */
  lemma {:induction false} FilterSplits<T>(p: T -> bool, q: T -> bool, whole: T -> bool, s: seq<T>)
    requires forall x | x in s :: whole(x) == (p(x) || q(x)) && !(p(x) && q(x))
    ensures multiset(Filter(whole, s)) == multiset(Filter(p, s)) + multiset(Filter(q, s))
  {
    if s != [] {
      FilterSplits(p, q, whole, s[..|s| - 1]);
    }
  }

  lemma {:induction false} FilterNone<T>(p: T -> bool, s: seq<T>)
    requires forall x | x in s :: !p(x)
    ensures Filter(p, s) == []
  {
    if s != [] {
      FilterNone(p, s[..|s| - 1]);
    }
  }

  lemma {:induction false} FilterAll<T>(p: T -> bool, s: seq<T>)
    requires forall x | x in s :: p(x)
    ensures Filter(p, s) == s
  {
    if s != [] {
      FilterAll(p, s[..|s| - 1]);
      assert s == s[..|s| - 1] + [s[|s| - 1]];
    }
  }

  /** What is kept is what satisfies the filter. */
  lemma {:induction false} FilterMeans<T>(p: T -> bool, s: seq<T>)
    ensures forall x | x in Filter(p, s) :: x in s && p(x)
    ensures forall x | x in s && p(x) :: x in Filter(p, s)
  {
    if s != [] {
      FilterMeans(p, s[..|s| - 1]);
      assert s == s[..|s| - 1] + [s[|s| - 1]];
    }
  }

  /** A sequence with the multiset of a set lists its elements, each once. */
  lemma ListsSet<T>(s: seq<T>, found: set<T>)
    requires multiset(s) == multiset(found)
    ensures forall x | x in s :: x in found
    ensures forall x | x in found :: x in s
    ensures forall i, j | 0 <= i < j < |s| :: s[i] != s[j]
  {
    forall x | x in s ensures x in found {
      assert x in multiset(s);
    }
    forall x | x in found ensures x in s {
      assert x in multiset(found);
    }
    forall i, j | 0 <= i < j < |s| ensures s[i] != s[j] {
      assert s == s[..i] + [s[i]] + s[i + 1..j] + [s[j]] + s[j + 1..];
      assert multiset(s) == multiset(s[..i]) + multiset{s[i]} + multiset(s[i + 1..j]) + multiset{s[j]}
                            + multiset(s[j + 1..]);
      assert multiset(found)[s[i]] <= 1;
    }
  }

  lemma {:induction false} FlattenCounts<T>(ss: seq<seq<T>>, i: nat, x: T)
    requires i < |ss|
    ensures multiset(ss[i])[x] <= multiset(Flatten(ss))[x]
  {
    var init, last := ss[..|ss| - 1], ss[|ss| - 1];
    assert multiset(Flatten(ss)) == multiset(Flatten(init)) + multiset(last);
    if i < |init| {
      FlattenCounts(init, i, x);
    }
  }

  lemma {:induction false} FlattenCountsBoth<T>(ss: seq<seq<T>>, i: nat, j: nat, x: T)
    requires i < j < |ss|
    ensures multiset(ss[i])[x] + multiset(ss[j])[x] <= multiset(Flatten(ss))[x]
  {
    var init, last := ss[..|ss| - 1], ss[|ss| - 1];
    assert multiset(Flatten(ss)) == multiset(Flatten(init)) + multiset(last);
    if j < |init| {
      FlattenCountsBoth(init, i, j, x);
    } else {
      FlattenCounts(init, i, x);
    }
  }

  lemma {:induction false} FlattenComesFrom<T>(ss: seq<seq<T>>, x: T) returns (i: nat)
    requires x in Flatten(ss)
    ensures i < |ss| && x in ss[i]
  {
    var init, last := ss[..|ss| - 1], ss[|ss| - 1];
    if x in last {
      i := |ss| - 1;
    } else {
      i := FlattenComesFrom(init, x);
    }
  }

  lemma Occurs<T>(s: seq<T>, x: T)
    ensures x in s <==> multiset(s)[x] > 0
  {
    assert x in s <==> x in multiset(s);
  }

  /** The lists share the set out: each element is in one list, once. */
  lemma FlattenShares<T>(ss: seq<seq<T>>, whole: set<T>)
    requires multiset(Flatten(ss)) == multiset(whole)
    ensures forall i, x | 0 <= i < |ss| && x in ss[i] :: x in whole
    ensures forall x | x in whole :: exists i :: 0 <= i < |ss| && x in ss[i]
    ensures forall i, k, l | 0 <= i < |ss| && 0 <= k < l < |ss[i]| :: ss[i][k] != ss[i][l]
    ensures forall i, j, x | 0 <= i < j < |ss| && x in ss[i] :: x !in ss[j]
  {
    ListsSet(Flatten(ss), whole);
    forall i, x | 0 <= i < |ss| && x in ss[i] ensures x in whole {
      FlattenCounts(ss, i, x);
      assert x in multiset(ss[i]);
    }
    forall x | x in whole ensures exists i :: 0 <= i < |ss| && x in ss[i] {
      var i := FlattenComesFrom(ss, x);
    }
    forall i, k, l | 0 <= i < |ss| && 0 <= k < l < |ss[i]| ensures ss[i][k] != ss[i][l] {
      NoneTwice(ss, whole, i);
    }
    forall i, j, x | 0 <= i < j < |ss| && x in ss[i] ensures x !in ss[j] {
      Occurs(ss[i], x);
      Occurs(ss[j], x);
      FlattenCountsBoth(ss, i, j, x);
    }
  }

  lemma NoneTwice<T>(ss: seq<seq<T>>, whole: set<T>, i: nat)
    requires i < |ss| && multiset(Flatten(ss)) == multiset(whole)
    ensures forall k, l | 0 <= k < l < |ss[i]| :: ss[i][k] != ss[i][l]
  {
    var s := ss[i];
    forall k, l | 0 <= k < l < |s| ensures s[k] != s[l] {
      assert s == s[..k] + [s[k]] + s[k + 1..l] + [s[l]] + s[l + 1..];
      assert multiset(s) == multiset(s[..k]) + multiset{s[k]} + multiset(s[k + 1..l]) + multiset{s[l]}
                            + multiset(s[l + 1..]);
      FlattenCounts(ss, i, s[k]);
    }
  }
}
