/** The cell index that replaces the scan over all pairs of boids. */
module SpatialGrid {
  import opened Lists
  import opened Steering

  const SCREEN_WIDTH := 1620.0
  const SCREEN_HEIGHT := 960.0

  /** Go's int(x): truncation toward zero. */
  function Truncate(x: real): int {
    if x >= 0.0 then x.Floor else -(-x).Floor
  }

  lemma TruncatesTowardZero(x: real)
    ensures 0.0 <= x ==> 0 <= Truncate(x) && Truncate(x) as real <= x < (Truncate(x) + 1) as real
    ensures x <= 0.0 ==> Truncate(x) <= 0 && (Truncate(x) - 1) as real < x <= Truncate(x) as real
  {
  }

  function Ceil(x: real): int {
    -(-x).Floor
  }

  function Clamp(i: int, n: int): (c: int)
    requires n > 0
    ensures 0 <= c < n
  {
    if i >= n then n - 1 else if i < 0 then 0 else i
  }

  /** A layout of `cols` by `rows` square cells. */
  datatype Layout = Layout(cols: int, rows: int, cellSize: real) {
    predicate Valid() {
      cols > 0 && rows > 0 && cellSize > 0.0
    }

    function Col(p: Vector2D): int requires Valid() { Truncate(p.x / cellSize) }

    function Row(p: Vector2D): int requires Valid() { Truncate(p.y / cellSize) }

    /** The cell a boid is stored in: boids off the screen go to the nearest border cell. */
    function CellIndex(p: Vector2D): (index: int)
      requires Valid()
      ensures 0 <= index < cols * rows
    {
      CellBounds(Clamp(Col(p), cols), Clamp(Row(p), rows));
      Clamp(Row(p), rows) * cols + Clamp(Col(p), cols)
    }

    lemma CellBounds(c: int, r: int)
      requires Valid() && 0 <= c < cols && 0 <= r < rows
      ensures 0 <= r * cols + c < cols * rows
    {
      assert r * cols <= (rows - 1) * cols;
      assert 0 <= r * cols;
    }

    lemma CellsAreDistinct(c: int, r: int, c': int, r': int)
      requires Valid() && 0 <= c < cols && 0 <= c' < cols && r * cols + c == r' * cols + c'
      ensures c == c' && r == r'
    {
      if r < r' {
        RowsAreApart(r, r');
      } else if r' < r {
        RowsAreApart(r', r);
      }
    }

    lemma RowsAreApart(r: int, r': int)
      requires Valid() && r < r'
      ensures r * cols + cols <= r' * cols
      decreases r' - r
    {
      assert r' * cols == (r' - 1) * cols + cols;
      if r < r' - 1 {
        RowsAreApart(r, r' - 1);
      }
    }

    /** The positions from which the three by three block around a query reaches the grid. */
    predicate InReach(p: Vector2D) {
      && -2.0 * cellSize < p.x < (cols + 1) as real * cellSize
      && -2.0 * cellSize < p.y < (rows + 1) as real * cellSize
    }

    /** Whether a boid at `p` is stored in the block around a query from `q`. */
    predicate InBlock(q: Vector2D, p: Vector2D)
      requires Valid()
    {
      && Col(q) - 1 <= Clamp(Col(p), cols) <= Col(q) + 1
      && Row(q) - 1 <= Clamp(Row(p), rows) <= Row(q) + 1
    }
  }

  // ----- geometry -----

  lemma QuotientsAreClose(x: real, x': real, size: real)
    requires size > 0.0 && x - x' < size
    ensures x / size - x' / size < 1.0
  {
    LessThanOne(x / size, x, x' / size, x', size);
  }

  lemma LessThanOne(t: real, x: real, t': real, x': real, size: real)
    requires size > 0.0 && t * size == x && t' * size == x' && x - x' < size
    ensures t - t' < 1.0
  {
    var shortfall := 1.0 - (t - t');
    assert shortfall * size == size - (t * size - t' * size);
    if shortfall <= 0.0 {
      NotPositive(shortfall, size);
    }
  }

  lemma NotPositive(d: real, size: real)
    requires size > 0.0 && d <= 0.0
    ensures d * size <= 0.0
  {
  }

  lemma QuotientInRange(x: real, lo: real, hi: real, size: real)
    requires size > 0.0
    ensures lo * size < x < hi * size <==> lo < x / size < hi
  {
    var t := x / size;
    assert t * size == x;
    if lo < t { assert lo * size < t * size; } else { assert t * size <= lo * size; }
    if t < hi { assert t * size < hi * size; } else { assert hi * size <= t * size; }
  }

  /** Boids less than a cell apart along an axis are stored within one column of the query. */
  lemma StoredNearby(x: real, x': real, size: real, n: int)
    requires size > 0.0 && n > 0 && -size < x - x' < size
    requires -2.0 * size < x < (n + 1) as real * size
    ensures Truncate(x / size) - 1 <= Clamp(Truncate(x' / size), n) <= Truncate(x / size) + 1
  {
    QuotientsAreClose(x, x', size);
    QuotientsAreClose(x', x, size);
    QuotientInRange(x, -2.0, (n + 1) as real, size);
    TruncationsAreClose(x / size, x' / size, n);
  }

  lemma TruncationsAreClose(t: real, t': real, n: int)
    requires n > 0 && -1.0 < t - t' < 1.0 && -2.0 < t < (n + 1) as real
    ensures Truncate(t) - 1 <= Clamp(Truncate(t'), n) <= Truncate(t) + 1
  {
  }

  /** Out of reach along an axis, no visited column exists. */
  lemma NoCellVisited(x: real, size: real, n: int)
    requires size > 0.0 && n > 0 && !(-2.0 * size < x < (n + 1) as real * size)
    ensures Truncate(x / size) + 1 < 0 || n <= Truncate(x / size) - 1
  {
    QuotientInRange(x, -2.0, (n + 1) as real, size);
  }

  lemma SquareExceeds(d: real, r: real)
    requires r > 0.0 && (d <= -r || r <= d)
    ensures r * r <= d * d
  {
    if r <= d {
      assert r * r <= r * d <= d * d;
    } else {
      assert r * r <= r * (-d) <= (-d) * (-d);
    }
  }

  /** A boid that counts is less than the cohesion radius away along each axis. */
  lemma CountsMeansClose(me: Vector2D, other: Vector2D)
    requires Separates(me, other) || Coheres(me, other)
    ensures -COH_RADIUS < me.x - other.x < COH_RADIUS && -COH_RADIUS < me.y - other.y < COH_RADIUS
  {
    var dx, dy := me.x - other.x, me.y - other.y;
    assert SEP_RADIUS == 22.0 && COH_RADIUS == 135.0;
    assert me.DistanceSquared(other) == dx * dx + dy * dy < COH_RADIUS * COH_RADIUS;
    assert dx * dx >= 0.0 && dy * dy >= 0.0;
    if !(-COH_RADIUS < dx < COH_RADIUS) {
      SquareExceeds(dx, COH_RADIUS);
    }
    if !(-COH_RADIUS < dy < COH_RADIUS) {
      SquareExceeds(dy, COH_RADIUS);
    }
  }

  lemma BlockHoldsAllThatCount(l: Layout, me: Vector2D, other: Vector2D)
    requires l.Valid() && l.cellSize >= COH_RADIUS && l.InReach(me)
    requires Separates(me, other) || Coheres(me, other)
    ensures l.InBlock(me, other)
  {
    CountsMeansClose(me, other);
    StoredNearby(me.x, other.x, l.cellSize, l.cols);
    StoredNearby(me.y, other.y, l.cellSize, l.rows);
  }

  lemma OutOfReachSeesNothing(l: Layout, me: Vector2D, other: Vector2D)
    requires l.Valid() && !l.InReach(me)
    ensures !l.InBlock(me, other)
  {
    if !(-2.0 * l.cellSize < me.x < (l.cols + 1) as real * l.cellSize) {
      NoCellVisited(me.x, l.cellSize, l.cols);
    } else {
      NoCellVisited(me.y, l.cellSize, l.rows);
    }
  }

  // ----- the query against the full scan -----

  function All(n: nat): seq<int> {
    seq(n, i => i)
  }

  ghost function Everyone(n: nat): set<int> {
    set i | i in All(n)
  }

  /** The boids stored in the block around `me`, by id. */
  ghost function Block(l: Layout, bodies: seq<Body>, me: Vector2D): set<int>
    requires l.Valid()
  {
    set i | i in All(|bodies|) && l.InBlock(me, bodies[i].position)
  }

  lemma {:induction false} FilterOfDistinct(keep: int -> bool, s: seq<int>, found: set<int>)
    requires multiset(s) == multiset(found)
    ensures multiset(Filter(keep, s)) == multiset(set i | i in found && keep(i))
  {
    if s == [] {
      assert |multiset(s)| == 0;
      assert |multiset(found)| == |found| == 0;
    } else {
      var init, last := s[..|s| - 1], s[|s| - 1];
      LastOfDistinct(s, found);
      FilterOfDistinct(keep, init, found - {last});
      var rest := set i | i in found - {last} && keep(i);
      assert (set i | i in found && keep(i)) == if keep(last) then rest + {last} else rest;
    }
  }

  lemma LastOfDistinct(s: seq<int>, found: set<int>)
    requires s != [] && multiset(s) == multiset(found)
    ensures s[|s| - 1] in found
    ensures multiset(s[..|s| - 1]) == multiset(found - {s[|s| - 1]})
  {
    var init, last := s[..|s| - 1], s[|s| - 1];
    assert s == init + [last];
    assert last in multiset(s) && multiset(found)[last] == 1;
    assert multiset(init) == multiset(s) - multiset{last};
  }

  /** The ids of `among` that contribute to a boid at `me`. */
  ghost function Contributing(bodies: seq<Body>, me: Vector2D, among: set<int>): set<int> {
    set i | i in among && Counts(bodies, me)(i)
  }

  lemma ContributorsAreInBlock(l: Layout, bodies: seq<Body>, me: Vector2D)
    requires l.Valid() && l.cellSize >= COH_RADIUS && l.InReach(me)
    ensures Contributing(bodies, me, Block(l, bodies, me)) == Contributing(bodies, me, Everyone(|bodies|))
  {
    hide Separates, Coheres, Layout.InBlock, Layout.InReach;
    forall i | i in Everyone(|bodies|) && Counts(bodies, me)(i) ensures i in Block(l, bodies, me) {
      BlockHoldsAllThatCount(l, me, bodies[i].position);
    }
  }

  /** A boid is always among those that contribute to its own sums. */
  lemma ContributesToItself(bodies: seq<Body>, q: nat)
    requires q < |bodies|
    ensures q in Contributing(bodies, bodies[q].position, Everyone(|bodies|))
  {
    var me := bodies[q].position;
    assert me.DistanceSquared(me) == 0.0 && Separates(me, me);
    assert All(|bodies|)[q] == q;
  }

  lemma OutOfReachBlockIsEmpty(l: Layout, bodies: seq<Body>, me: Vector2D)
    requires l.Valid() && !l.InReach(me)
    ensures Block(l, bodies, me) == {}
  {
    hide Layout.InBlock, Layout.InReach;
    forall i | 0 <= i < |bodies| ensures !l.InBlock(me, bodies[i].position) {
      OutOfReachSeesNothing(l, me, bodies[i].position);
    }
  }

  /** The ids the block query lists that count are those of the full scan, exactly when in reach. */
  lemma QueryAgainstScan(l: Layout, bodies: seq<Body>, q: nat, listed: seq<int>)
    requires l.Valid() && l.cellSize >= COH_RADIUS && q < |bodies|
    requires multiset(listed) == multiset(Block(l, bodies, bodies[q].position))
    ensures var keep := Counts(bodies, bodies[q].position);
            multiset(Filter(keep, listed)) == multiset(Filter(keep, All(|bodies|)))
            <==> l.InReach(bodies[q].position)
  {
    hide Counts, Block, All, Everyone, Filter, Layout.InReach;
    var me := bodies[q].position;
    var keep := Counts(bodies, me);
    AllAreListed(|bodies|);
    FilterOfDistinct(keep, listed, Block(l, bodies, me));
    FilterOfDistinct(keep, All(|bodies|), Everyone(|bodies|));
    var seen, there := Contributing(bodies, me, Block(l, bodies, me)), Contributing(bodies, me, Everyone(|bodies|));
    if l.InReach(me) {
      ContributorsAreInBlock(l, bodies, me);
    } else {
      OutOfReachBlockIsEmpty(l, bodies, me);
      ContributesToItself(bodies, q);
      assert q in multiset(there) && q !in multiset(seen);
    }
  }

  lemma {:induction false} AllAreListed(n: nat)
    ensures multiset(All(n)) == multiset(Everyone(n))
  {
    if n == 0 {
      assert All(n) == [];
    } else {
      AllAreListed(n - 1);
      assert All(n) == All(n - 1) + [n - 1];
      assert Everyone(n) == Everyone(n - 1) + {n - 1};
    }
  }

  lemma UncountedAddNothing(bodies: seq<Body>, me: Vector2D, push: Push)
    ensures forall id | !Counts(bodies, me)(id) :: Gathered(bodies, me, push)(id) == NOTHING
  {
  }

  /**
    What a boid gathers from the block query is what it gathers from all boids, whatever the push, exactly
    when its position is in reach: out of reach it does not even find itself.
   */
  lemma GridAgreesWithScan(l: Layout, bodies: seq<Body>, q: nat, listed: seq<int>, push: Push)
    requires l.Valid() && l.cellSize >= COH_RADIUS && q < |bodies|
    requires multiset(listed) == multiset(Block(l, bodies, bodies[q].position))
    ensures var each := Gathered(bodies, bodies[q].position, push);
            SumOver(each, listed) == SumOver(each, All(|bodies|)) <==> l.InReach(bodies[q].position)
  {
    hide Counts, Gathered, Block, All, Filter, Separates, Coheres;
    var me := bodies[q].position;
    var each, keep := Gathered(bodies, me, push), Counts(bodies, me);
    QueryAgainstScan(l, bodies, q, listed);
    UncountedAddNothing(bodies, me, push);
    OnlyThoseThatCount(each, keep, listed);
    OnlyThoseThatCount(each, keep, All(|bodies|));
    if l.InReach(me) {
      SumIgnoresOrder(each, Filter(keep, listed), Filter(keep, All(|bodies|)));
    } else {
      OutOfReachBlockIsEmpty(l, bodies, me);
      assert |multiset(listed)| == 0;
      ScanFindsItself(bodies, q, push);
    }
  }

  lemma ScanFindsItself(bodies: seq<Body>, q: nat, push: Push)
    requires q < |bodies|
    ensures SumOver(Gathered(bodies, bodies[q].position, push), All(|bodies|)).countSep > 0.0
  {
    var me := bodies[q].position;
    SeparationCount(bodies, me, push, All(|bodies|));
    assert me.DistanceSquared(me) == 0.0 && Separates(me, me);
    assert All(|bodies|)[q] == q;
  }

  /** The separation count is positive as soon as somebody listed is close. */
  lemma {:induction false} SeparationCount(bodies: seq<Body>, me: Vector2D, push: Push, ids: seq<int>)
    ensures SumOver(Gathered(bodies, me, push), ids).countSep >= 0.0
    ensures (exists id :: id in ids && 0 <= id < |bodies| && Separates(me, bodies[id].position)) ==>
              SumOver(Gathered(bodies, me, push), ids).countSep > 0.0
  {
    if ids != [] {
      var init, last := ids[..|ids| - 1], ids[|ids| - 1];
      SeparationCount(bodies, me, push, init);
      assert ids == init + [last];
      assert forall id | id in ids :: id in init || id == last;
    }
  }
}
