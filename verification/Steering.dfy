/** What one boid gathers from its neighbours, and why the order it meets them in does not matter. */
module Steering {
  import opened Lists

  datatype Vector2D = Vector2D(x: real, y: real) {
    function Add(v: Vector2D): Vector2D {
      Vector2D(x + v.x, y + v.y)
    }

    /** The square of Distance: radii are compared squared, so no root is taken. */
    function DistanceSquared(v: Vector2D): real {
      (x - v.x) * (x - v.x) + (y - v.y) * (y - v.y)
    }
  }

  const ZERO := Vector2D(0.0, 0.0)

  const FISH_TARGET_SIZE := 45
  const COH_RADIUS: real := (FISH_TARGET_SIZE * 3) as real
  /** An untyped integer constant division: 22, not 22.5. */
  const SEP_RADIUS: real := (FISH_TARGET_SIZE / 2) as real

  datatype Body = Body(position: Vector2D, velocity: Vector2D)

  /** The push of one boid away from another that is too close. */
  type Push = (Vector2D, Vector2D) -> Vector2D

  /** The accumulators of calcAcceleration. */
  datatype Sums = Sums(velocity: Vector2D, position: Vector2D, separation: Vector2D, countCoh: real, countSep: real) {
    function Plus(s: Sums): Sums {
      Sums(velocity.Add(s.velocity), position.Add(s.position), separation.Add(s.separation),
           countCoh + s.countCoh, countSep + s.countSep)
    }
  }

  const NOTHING := Sums(ZERO, ZERO, ZERO, 0.0, 0.0)

  predicate Separates(me: Vector2D, other: Vector2D) {
    me.DistanceSquared(other) <= SEP_RADIUS * SEP_RADIUS
  }

  predicate Coheres(me: Vector2D, other: Vector2D) {
    !Separates(me, other) && me.DistanceSquared(other) < COH_RADIUS * COH_RADIUS
  }

  function Contribution(me: Vector2D, other: Body, push: Push): Sums {
    if Separates(me, other.position) then Sums(ZERO, ZERO, push(me, other.position), 0.0, 1.0)
    else if Coheres(me, other.position) then Sums(other.velocity, other.position, ZERO, 1.0, 0.0)
    else NOTHING
  }

  /** The sum of `each` over the boids listed in `ids`. */
  ghost function SumOver(each: int -> Sums, ids: seq<int>): Sums {
    if ids == [] then NOTHING
    else SumOver(each, ids[..|ids| - 1]).Plus(each(ids[|ids| - 1]))
  }

  lemma SumAppend(each: int -> Sums, ids: seq<int>, id: int)
    ensures SumOver(each, ids + [id]) == SumOver(each, ids).Plus(each(id))
  {
    assert (ids + [id])[..|ids|] == ids;
  }

  /** What each boid of `bodies` contributes to one at `me`. */
  ghost function Gathered(bodies: seq<Body>, me: Vector2D, push: Push): int -> Sums {
    (id: int) => if 0 <= id < |bodies| then Contribution(me, bodies[id], push) else NOTHING
  }

  /** Whether boid `id` contributes anything at all. */
  ghost function Counts(bodies: seq<Body>, me: Vector2D): int -> bool {
    (id: int) => 0 <= id < |bodies| &&
                 (Separates(me, bodies[id].position) || Coheres(me, bodies[id].position))
  }

  lemma {:induction false} OnlyThoseThatCount(each: int -> Sums, keep: int -> bool, ids: seq<int>)
    requires forall id | id in ids && !keep(id) :: each(id) == NOTHING
    ensures SumOver(each, Filter(keep, ids)) == SumOver(each, ids)
  {
    if ids != [] {
      var init, last := ids[..|ids| - 1], ids[|ids| - 1];
      assert forall id | id in init :: id in ids;
      OnlyThoseThatCount(each, keep, init);
      SumAppend(each, Filter(keep, init), last);
      assert last in ids;
      assert Filter(keep, init) + [] == Filter(keep, init);
      assert !keep(last) ==> SumOver(each, init).Plus(NOTHING) == SumOver(each, init);
    }
  }

  lemma {:induction false} SumOfConcat(each: int -> Sums, a: seq<int>, b: seq<int>)
    ensures SumOver(each, a + b) == SumOver(each, a).Plus(SumOver(each, b))
  {
    if b == [] {
      assert a + b == a;
    } else {
      var init := b[..|b| - 1];
      assert (a + b)[..|a + b| - 1] == a + init;
      SumOfConcat(each, a, init);
    }
  }

  /** The sums depend only on which boids are listed how often. */
  lemma {:induction false} SumIgnoresOrder(each: int -> Sums, a: seq<int>, b: seq<int>)
    requires multiset(a) == multiset(b)
    ensures SumOver(each, a) == SumOver(each, b)
    decreases |a|
  {
    assert |multiset(a)| == |a| && |multiset(b)| == |b|;
    if a != [] {
      var init, last := a[..|a| - 1], a[|a| - 1];
      var k, without := TakeOut(a, b);
      SumIgnoresOrder(each, init, without);
      SumAround(each, b, k);
    }
  }

  lemma SumAround(each: int -> Sums, ids: seq<int>, k: nat)
    requires k < |ids|
    ensures SumOver(each, ids) == SumOver(each, ids[..k] + ids[k + 1..]).Plus(each(ids[k]))
  {
    hide SumOver, Sums.Plus;
    var before, here, after := ids[..k], [ids[k]], ids[k + 1..];
    assert ids == before + (here + after);
    SumOfConcat(each, before, after);
    SumOfConcat(each, before, here + after);
    SumOfConcat(each, here, after);
    SumOfOne(each, ids[k]);
    PlusInAnyOrder(SumOver(each, before), each(ids[k]), SumOver(each, after));
  }

  lemma SumOfOne(each: int -> Sums, id: int)
    ensures SumOver(each, [id]) == each(id)
  {
    assert SumOver(each, [id]) == NOTHING.Plus(each(id));
  }

  lemma PlusInAnyOrder(a: Sums, b: Sums, c: Sums)
    ensures a.Plus(b.Plus(c)) == a.Plus(c).Plus(b)
  {
  }

  /** The last element of `a` taken out of a rearrangement of `a`. */
  lemma TakeOut(a: seq<int>, b: seq<int>) returns (k: nat, without: seq<int>)
    requires a != [] && multiset(a) == multiset(b)
    ensures k < |b| && b[k] == a[|a| - 1] && without == b[..k] + b[k + 1..]
    ensures multiset(without) == multiset(a[..|a| - 1])
  {
    var init, last := a[..|a| - 1], a[|a| - 1];
    assert a == init + [last];
    assert last in multiset(b);
    k :| 0 <= k < |b| && b[k] == last;
    without := b[..k] + b[k + 1..];
    assert b == b[..k] + [last] + b[k + 1..];
    assert multiset(b) == multiset(without) + multiset{last};
    assert multiset(a) == multiset(init) + multiset{last};
    assert multiset(without) == multiset(b) - multiset{last} == multiset(a) - multiset{last} == multiset(init);
  }

  // ----- each accumulator on its own -----

  /** The sum of the vectors that `f` gives for the listed boids. */
  ghost function Total(f: int -> Vector2D, ids: seq<int>): Vector2D {
    if ids == [] then ZERO else Total(f, ids[..|ids| - 1]).Add(f(ids[|ids| - 1]))
  }

  lemma TotalOfNone(f: int -> Vector2D)
    ensures Total(f, []) == Vector2D(0.0, 0.0)
  {
  }

  lemma TotalOfOneMore(f: int -> Vector2D, ids: seq<int>, id: int)
    ensures Total(f, ids + [id]) == Vector2D(Total(f, ids).x + f(id).x, Total(f, ids).y + f(id).y)
  {
    assert (ids + [id])[..|ids|] == ids;
  }

  ghost function VelocityOf(bodies: seq<Body>): int -> Vector2D {
    (id: int) => if 0 <= id < |bodies| then bodies[id].velocity else ZERO
  }

  ghost function PositionOf(bodies: seq<Body>): int -> Vector2D {
    (id: int) => if 0 <= id < |bodies| then bodies[id].position else ZERO
  }

  ghost function PushFrom(bodies: seq<Body>, me: Vector2D, push: Push): int -> Vector2D {
    (id: int) => if 0 <= id < |bodies| then push(me, bodies[id].position) else ZERO
  }

  /** At most 22 away: 484 is the square. */
  ghost function TooClose(bodies: seq<Body>, me: Vector2D): int -> bool {
    (id: int) => 0 <= id < |bodies| && me.DistanceSquared(bodies[id].position) <= 484.0
  }

  /** More than 22 and less than 135 away: 18225 is the square. */
  ghost function Alongside(bodies: seq<Body>, me: Vector2D): int -> bool {
    (id: int) => 0 <= id < |bodies| && 484.0 < me.DistanceSquared(bodies[id].position) < 18225.0
  }

  /** What one boid contributes: its push, or its velocity and its position, or nothing. */
  lemma OneNeighbour(me: Vector2D, other: Body, push: Push)
    ensures var (p, v) := (other.position, other.velocity);
            var squared := me.DistanceSquared(p);
            && (squared <= 484.0 ==>
                  Contribution(me, other, push) ==
                  Sums(Vector2D(0.0, 0.0), Vector2D(0.0, 0.0), push(me, p), 0.0, 1.0))
            && (484.0 < squared < 18225.0 ==>
                  Contribution(me, other, push) == Sums(v, p, Vector2D(0.0, 0.0), 1.0, 0.0))
            && (18225.0 <= squared ==>
                  Contribution(me, other, push) ==
                  Sums(Vector2D(0.0, 0.0), Vector2D(0.0, 0.0), Vector2D(0.0, 0.0), 0.0, 0.0))
  {
    hide Vector2D.DistanceSquared;
    RadiiSquared();
  }

  lemma SquareIs(v: Vector2D, w: Vector2D)
    ensures v.DistanceSquared(w) == (v.x - w.x) * (v.x - w.x) + (v.y - w.y) * (v.y - w.y)
  {
  }

  lemma RadiiSquared()
    ensures SEP_RADIUS * SEP_RADIUS == 484.0 && COH_RADIUS * COH_RADIUS == 18225.0
  {
    assert SEP_RADIUS == 22.0 && COH_RADIUS == 135.0;
  }

  /** The same, by who is too close and who is alongside. */
  lemma NeighbourAdds(bodies: seq<Body>, me: Vector2D, push: Push, id: int)
    requires 0 <= id < |bodies|
    ensures Gathered(bodies, me, push)(id) ==
            if TooClose(bodies, me)(id) then Sums(ZERO, ZERO, PushFrom(bodies, me, push)(id), 0.0, 1.0)
            else if Alongside(bodies, me)(id)
            then Sums(VelocityOf(bodies)(id), PositionOf(bodies)(id), ZERO, 1.0, 0.0)
            else NOTHING
    ensures !(TooClose(bodies, me)(id) && Alongside(bodies, me)(id))
  {
    hide Separates, Coheres, TooClose, Alongside;
    WhoIsWhere(bodies, me, id);
  }

  lemma WhoIsWhere(bodies: seq<Body>, me: Vector2D, id: int)
    requires 0 <= id < |bodies|
    ensures TooClose(bodies, me)(id) <==> Separates(me, bodies[id].position)
    ensures Alongside(bodies, me)(id) <==> Coheres(me, bodies[id].position)
    ensures !(TooClose(bodies, me)(id) && Alongside(bodies, me)(id))
  {
    hide Vector2D.DistanceSquared;
    RadiiSquared();
  }

  lemma NothingChanges(v: Vector2D)
    ensures v.Add(ZERO) == v
  {
  }

  /** The velocities and positions of those alongside are summed, and those boids counted. */
  lemma {:induction false} CohesionSums(bodies: seq<Body>, me: Vector2D, push: Push, ids: seq<int>)
    requires forall id | id in ids :: 0 <= id < |bodies|
    ensures var (sums, near) := (SumOver(Gathered(bodies, me, push), ids), Filter(Alongside(bodies, me), ids));
            && sums.velocity == Total(VelocityOf(bodies), near) && sums.position == Total(PositionOf(bodies), near)
            && sums.countCoh == |near| as real
  {
    hide Gathered, Alongside, TooClose, VelocityOf, PositionOf, PushFrom, Vector2D.Add, Total;
    if ids == [] {
      TotalOfNone(VelocityOf(bodies));
      TotalOfNone(PositionOf(bodies));
    } else {
      var init, last := ids[..|ids| - 1], ids[|ids| - 1];
      assert last in ids && forall id | id in init :: id in ids;
      CohesionSums(bodies, me, push, init);
      NeighbourAdds(bodies, me, push, last);
      var near := Filter(Alongside(bodies, me), init);
      TotalAppend(VelocityOf(bodies), near, last);
      TotalAppend(PositionOf(bodies), near, last);
      NothingChanges(Total(VelocityOf(bodies), near));
      NothingChanges(Total(PositionOf(bodies), near));
      assert near + [] == near;
    }
  }

  lemma TotalAppend(f: int -> Vector2D, ids: seq<int>, id: int)
    ensures Total(f, ids + [id]) == Total(f, ids).Add(f(id))
  {
    assert (ids + [id])[..|ids|] == ids;
  }

  /** The pushes of those too close are summed, and those boids counted. */
  lemma {:induction false} SeparationSums(bodies: seq<Body>, me: Vector2D, push: Push, ids: seq<int>)
    requires forall id | id in ids :: 0 <= id < |bodies|
    ensures var (sums, close) := (SumOver(Gathered(bodies, me, push), ids), Filter(TooClose(bodies, me), ids));
            sums.separation == Total(PushFrom(bodies, me, push), close) && sums.countSep == |close| as real
  {
    hide Gathered, Alongside, TooClose, VelocityOf, PositionOf, PushFrom, Vector2D.Add, Total;
    if ids == [] {
      TotalOfNone(PushFrom(bodies, me, push));
    } else {
      var init, last := ids[..|ids| - 1], ids[|ids| - 1];
      assert last in ids && forall id | id in init :: id in ids;
      SeparationSums(bodies, me, push, init);
      NeighbourAdds(bodies, me, push, last);
      var close := Filter(TooClose(bodies, me), init);
      TotalAppend(PushFrom(bodies, me, push), close, last);
      NothingChanges(Total(PushFrom(bodies, me, push), close));
      assert close + [] == close;
    }
  }
}
