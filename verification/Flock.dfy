/** The grid object, and one frame of the game: rebuild the grid, query it for every boid, then move them all. */
module Flock {
  import opened Lists
  import opened SpatialGrid
  import opened Steering

  class Boid {
    const id: nat
    var position: Vector2D
    var velocity: Vector2D

    constructor (id: nat, position: Vector2D, velocity: Vector2D)
      ensures this.id == id && View() == Body(position, velocity)
    {
      this.id := id;
      this.position := position;
      this.velocity := velocity;
    }

    ghost function View(): Body
      reads this
    {
      Body(position, velocity)
    }

    /** The accumulation loop of calcAcceleration over the neighbours `neib`. */
    method CalcAcceleration(boids: seq<Boid>, neib: seq<int>, push: Push) returns (sums: Sums)
      requires forall id | id in neib :: 0 <= id < |boids|
      ensures sums == SumOver(Gathered(Views(boids), position, push), neib)
      ensures var near := Filter(Alongside(Views(boids), position), neib);
              && sums.velocity == Total(VelocityOf(Views(boids)), near)
              && sums.position == Total(PositionOf(Views(boids)), near)
              && sums.countCoh == |near| as real
      ensures var close := Filter(TooClose(Views(boids), position), neib);
              && sums.separation == Total(PushFrom(Views(boids), position, push), close)
              && sums.countSep == |close| as real
    {
      ghost var each := Gathered(Views(boids), position, push);
      var avgVelocity, avgPosition, separation := ZERO, ZERO, ZERO;
      var countCoh, countSep := 0.0, 0.0;
      for i := 0 to |neib|
        invariant Sums(avgVelocity, avgPosition, separation, countCoh, countSep) == SumOver(each, neib[..i])
      {
        assert neib[..i + 1] == neib[..i] + [neib[i]];
        SumAppend(each, neib[..i], neib[i]);
        assert neib[i] in neib;
        var other := boids[neib[i]];
        var distSquared := position.DistanceSquared(other.position);
        if distSquared <= SEP_RADIUS * SEP_RADIUS {
          separation := separation.Add(push(position, other.position));
          countSep := countSep + 1.0;
        } else if distSquared < COH_RADIUS * COH_RADIUS {
          avgVelocity := avgVelocity.Add(other.velocity);
          avgPosition := avgPosition.Add(other.position);
          countCoh := countCoh + 1.0;
        }
      }
      assert neib[..|neib|] == neib;
      sums := Sums(avgVelocity, avgPosition, separation, countCoh, countSep);
      CohesionSums(Views(boids), position, push, neib);
      SeparationSums(Views(boids), position, push, neib);
    }
  }

  ghost function Views(boids: seq<Boid>): seq<Body>
    reads boids
  {
    seq(|boids|, i requires 0 <= i < |boids| reads boids => boids[i].View())
  }

  // ----- which boids the cells hold -----

  /** Whether the boid with this id is stored in the cell of this index. */
  ghost function StoredIn(l: Layout, bodies: seq<Body>, index: int): int -> bool
    requires l.Valid()
  {
    (id: int) => 0 <= id < |bodies| && l.CellIndex(bodies[id].position) == index
  }

  ghost predicate IsAt(l: Layout, p: Vector2D, c: int, r: int)
    requires l.Valid()
  {
    Clamp(l.Col(p), l.cols) == c && Clamp(l.Row(p), l.rows) == r
  }

  /** The boids stored in column `c`, row `r`: none if there is no such cell. */
  ghost function At(l: Layout, bodies: seq<Body>, c: int, r: int): set<int>
    requires l.Valid()
  {
    set i | i in All(|bodies|) && IsAt(l, bodies[i].position, c, r)
  }

  ghost predicate IsVisited(l: Layout, q: Vector2D, p: Vector2D, nc: int, nr: int)
    requires l.Valid()
  {
    var (c, r) := (Clamp(l.Col(p), l.cols), Clamp(l.Row(p), l.rows));
    || (l.Col(q) - 1 <= c < l.Col(q) + nc && l.Row(q) - 1 <= r <= l.Row(q) + 1)
    || (c == l.Col(q) + nc && l.Row(q) - 1 <= r < l.Row(q) + nr)
  }

  /** The boids the block query has listed before it visits column `nc`, row `nr` of the block. */
  ghost function Visited(l: Layout, bodies: seq<Body>, q: Vector2D, nc: int, nr: int): set<int>
    requires l.Valid()
  {
    set i | i in All(|bodies|) && IsVisited(l, q, bodies[i].position, nc, nr)
  }

  lemma VisitNext(l: Layout, bodies: seq<Body>, q: Vector2D, nc: int, nr: int)
    requires l.Valid() && -1 <= nc <= 1 && -1 <= nr <= 1
    ensures multiset(Visited(l, bodies, q, nc, nr + 1)) ==
            multiset(Visited(l, bodies, q, nc, nr)) + multiset(At(l, bodies, l.Col(q) + nc, l.Row(q) + nr))
  {
    hide Clamp, Layout.Col, Layout.Row, All;
    var before, here := Visited(l, bodies, q, nc, nr), At(l, bodies, l.Col(q) + nc, l.Row(q) + nr);
    assert Visited(l, bodies, q, nc, nr + 1) == before + here;
    assert before !! here;
  }

  lemma VisitEnds(l: Layout, bodies: seq<Body>, q: Vector2D)
    requires l.Valid()
    ensures Visited(l, bodies, q, -1, -1) == {}
    ensures Visited(l, bodies, q, -1, 2) == Visited(l, bodies, q, 0, -1)
    ensures Visited(l, bodies, q, 0, 2) == Visited(l, bodies, q, 1, -1)
    ensures Visited(l, bodies, q, 1, 2) == Visited(l, bodies, q, 2, -1) == Block(l, bodies, q)
  {
    hide Clamp, Layout.Col, Layout.Row, All;
  }

  /** A cell holds exactly the boids whose clamped column and row it has. */
  lemma CellHolds(l: Layout, bodies: seq<Body>, c: int, r: int)
    requires l.Valid() && 0 <= c < l.cols && 0 <= r < l.rows
    ensures multiset(Filter(StoredIn(l, bodies, r * l.cols + c), All(|bodies|))) == multiset(At(l, bodies, c, r))
  {
    hide Filter, All, Clamp, Layout.Col, Layout.Row;
    var keep, everyone := StoredIn(l, bodies, r * l.cols + c), Everyone(|bodies|);
    AllAreListed(|bodies|);
    FilterOfDistinct(keep, All(|bodies|), everyone);
    forall i | i in everyone ensures keep(i) <==> i in At(l, bodies, c, r) {
      CellOf(l, bodies, i, c, r);
    }
    assert (set i | i in everyone && keep(i)) == At(l, bodies, c, r);
  }

  lemma CellOf(l: Layout, bodies: seq<Body>, i: int, c: int, r: int)
    requires l.Valid() && 0 <= c < l.cols && 0 <= r < l.rows && i in Everyone(|bodies|)
    ensures 0 <= i < |bodies|
    ensures StoredIn(l, bodies, r * l.cols + c)(i) <==> IsAt(l, bodies[i].position, c, r)
  {
    hide Layout.Col, Layout.Row;
    var p := bodies[i].position;
    if l.CellIndex(p) == r * l.cols + c {
      l.CellsAreDistinct(Clamp(l.Col(p), l.cols), Clamp(l.Row(p), l.rows), c, r);
    }
  }

  lemma NoSuchCell(l: Layout, bodies: seq<Body>, c: int, r: int)
    requires l.Valid() && (c < 0 || r < 0 || c >= l.cols || r >= l.rows)
    ensures At(l, bodies, c, r) == {}
  {
  }

  class SpiralGrid {
    const cells: array<seq<int>>
    const rows: int
    const cols: int
    const cellSize: real

    ghost function Shape(): Layout {
      Layout(cols, rows, cellSize)
    }

    ghost predicate Valid() {
      Shape().Valid() && cells.Length == cols * rows
    }

    /** Every cell lists, in order of insertion, the first `n` boids whose position it covers. */
    ghost predicate Holds(bodies: seq<Body>, n: nat)
      requires Valid()
      reads cells
    {
      forall k | 0 <= k < cells.Length :: cells[k] == Filter(StoredIn(Shape(), bodies, k), All(n))
    }

    constructor (cellSize: real)
      requires cellSize > 0.0
      ensures Valid() && fresh(cells) && this.cellSize == cellSize
      ensures (cols - 1) as real * cellSize < SCREEN_WIDTH <= cols as real * cellSize
      ensures (rows - 1) as real * cellSize < SCREEN_HEIGHT <= rows as real * cellSize
      ensures forall k | 0 <= k < cells.Length :: cells[k] == []
    {
      CeilCovers(SCREEN_WIDTH, cellSize);
      CeilCovers(SCREEN_HEIGHT, cellSize);
      var c, r := Ceil(SCREEN_WIDTH / cellSize), Ceil(SCREEN_HEIGHT / cellSize);
      cols, rows := c, r;
      cells := new seq<int>[c * r](_ => []);
      this.cellSize := cellSize;
    }

    method GetCellIndex(p: Vector2D) returns (index: int)
      requires Valid()
      ensures index == Shape().CellIndex(p) && 0 <= index < cells.Length
      ensures var col := Truncate(p.x / cellSize);
              var row := Truncate(p.y / cellSize);
              index == (if row < 0 then 0 else if row >= rows then rows - 1 else row) * cols
                       + (if col < 0 then 0 else if col >= cols then cols - 1 else col)
    {
      var col, row := Truncate(p.x / cellSize), Truncate(p.y / cellSize);
      if col >= cols {
        col := cols - 1;
      }
      if row >= rows {
        row := rows - 1;
      }
      if col < 0 {
        col := 0;
      }
      if row < 0 {
        row := 0;
      }
      index := row * cols + col;
    }

    method Insert(b: Boid)
      requires Valid()
      modifies cells
      ensures var k := Shape().CellIndex(b.position);
              0 <= k < cells.Length && cells[..] == old(cells[..])[k := old(cells[..])[k] + [b.id]]
    {
      var index := GetCellIndex(b.position);
      cells[index] := cells[index] + [b.id];
    }

    method Clean()
      modifies cells
      ensures forall k | 0 <= k < cells.Length :: cells[k] == []
    {
      for i := 0 to cells.Length
        invariant forall k | 0 <= k < i :: cells[k] == []
      {
        cells[i] := [];
      }
    }

    /** Appends to `buffer` the boids of one cell of the block, if the cell exists. */
    method VisitCell(col: int, row: int, buffer: seq<int>, ghost bodies: seq<Body>) returns (result: seq<int>)
      requires Valid() && Holds(bodies, |bodies|)
      ensures multiset(result) == multiset(buffer) + multiset(At(Shape(), bodies, col, row))
    {
      hide Filter, All, At, StoredIn;
      if col < 0 || row < 0 || col >= cols || row >= rows {
        NoSuchCell(Shape(), bodies, col, row);
        return buffer;
      }
      CellHolds(Shape(), bodies, col, row);
      Shape().CellBounds(col, row);
      var cell := cells[row * cols + col];
      result := buffer;
      for i := 0 to |cell|
        invariant result == buffer + cell[..i]
      {
        result := result + [cell[i]];
      }
      assert cell[..|cell|] == cell;
    }

    method GetNeighbours(b: Boid, buffer: seq<int>, ghost bodies: seq<Body>) returns (result: seq<int>)
      requires Valid() && Holds(bodies, |bodies|)
      ensures multiset(result) == multiset(buffer) + multiset(Block(Shape(), bodies, b.position))
    {
      hide Holds, Layout.Col, Layout.Row, At, Visited, Block;
      ghost var l, q := Shape(), b.position;
      var bCol, bRow := Truncate(b.position.x / cellSize), Truncate(b.position.y / cellSize);
      ColAndRow(l, q);
      VisitEnds(l, bodies, q);
      result := buffer;
      for nc := -1 to 2
        invariant multiset(result) == multiset(buffer) + multiset(Visited(l, bodies, q, nc, -1))
      {
        for nr := -1 to 2
          invariant multiset(result) == multiset(buffer) + multiset(Visited(l, bodies, q, nc, nr))
        {
          VisitNext(l, bodies, q, nc, nr);
          result := VisitCell(bCol + nc, bRow + nr, result, bodies);
        }
      }
    }
  }

  lemma ColAndRow(l: Layout, p: Vector2D)
    requires l.Valid()
    ensures l.Col(p) == Truncate(p.x / l.cellSize) && l.Row(p) == Truncate(p.y / l.cellSize)
  {
  }

  lemma CeilCovers(extent: real, size: real)
    requires extent > 0.0 && size > 0.0
    ensures Ceil(extent / size) > 0
    ensures (Ceil(extent / size) - 1) as real * size < extent <= Ceil(extent / size) as real * size
  {
    var t := extent / size;
    assert t * size == extent;
    assert t > 0.0;
    ScaledBounds(t, extent, Ceil(t), size);
  }

  lemma ScaledBounds(t: real, extent: real, n: int, size: real)
    requires size > 0.0 && t * size == extent && (n - 1) as real < t <= n as real
    ensures (n - 1) as real * size < extent <= n as real * size
  {
    Scaled(t, n as real, size);
    Scaled((n - 1) as real, t, size);
  }

  lemma Scaled(a: real, b: real, size: real)
    requires size > 0.0
    ensures a <= b ==> a * size <= b * size
    ensures a < b ==> a * size < b * size
  {
    assert (b - a) * size == b * size - a * size;
  }

  /** What a block query from boid `q` lists: ids only, and nothing at all out of reach. */
  lemma QueriedSums(l: Layout, bodies: seq<Body>, q: nat, listed: seq<int>, push: Push)
    requires l.Valid() && l.cellSize >= COH_RADIUS && q < |bodies|
    requires multiset(listed) == multiset(Block(l, bodies, bodies[q].position))
    ensures forall id | id in listed :: 0 <= id < |bodies|
    ensures var me := bodies[q].position;
            SumOver(Gathered(bodies, me, push), listed) ==
            if l.InReach(me) then SumOver(Gathered(bodies, me, push), All(|bodies|)) else NOTHING
  {
    hide Layout.InReach, Layout.InBlock, Gathered;
    GridAgreesWithScan(l, bodies, q, listed, push);
    forall id | id in listed ensures 0 <= id < |bodies| {
      assert id in multiset(listed);
    }
    if !l.InReach(bodies[q].position) {
      OutOfReachBlockIsEmpty(l, bodies, bodies[q].position);
      assert |multiset(listed)| == 0;
    }
  }

  /** How a boid moves, given what it has gathered. */
  type Step = (Body, Sums) -> Body

  class Game {
    const sg: SpiralGrid
    const boids: seq<Boid>

    ghost predicate Valid() {
      && sg.Valid() && sg.cellSize == COH_RADIUS
      && forall i | 0 <= i < |boids| :: boids[i].id == i
    }

    constructor (boids: seq<Boid>)
      requires forall i | 0 <= i < |boids| :: boids[i].id == i
      ensures Valid() && this.boids == boids && fresh(sg.cells)
    {
      sg := new SpiralGrid(COH_RADIUS);
      this.boids := boids;
    }

    method Rebuild()
      requires Valid()
      modifies sg.cells
      ensures sg.Holds(Views(boids), |boids|)
    {
      sg.Clean();
      for i := 0 to |boids|
        invariant sg.Holds(Views(boids), i)
      {
        label before:
        sg.Insert(boids[i]);
        InsertedOneMore@before(i);
      }
    }

    twostate lemma InsertedOneMore(i: nat)
      requires Valid() && i < |boids| && old(sg.Holds(Views(boids), i)) && old(Views(boids)) == Views(boids)
      requires var k := sg.Shape().CellIndex(boids[i].position);
               sg.cells[..] == old(sg.cells[..])[k := old(sg.cells[..])[k] + [i]]
      ensures sg.Holds(Views(boids), i + 1)
    {
      forall k | 0 <= k < sg.cells.Length
        ensures sg.cells[k] == Filter(StoredIn(sg.Shape(), Views(boids), k), All(i + 1))
      {
        assert All(i + 1) == All(i) + [i];
        FilterAppend(StoredIn(sg.Shape(), Views(boids), k), All(i), i);
        assert sg.cells[k] == sg.cells[..][k] && old(sg.cells[k]) == old(sg.cells[..])[k];
      }
    }

    method Update(push: Push, step: Step)
      requires Valid()
      modifies sg.cells, boids
      ensures forall i | 0 <= i < |boids| ::
                var (bodies, me) := (old(Views(boids)), old(boids[i].View()));
                boids[i].View() == step(me,
                  if sg.Shape().InReach(me.position)
                  then SumOver(Gathered(bodies, me.position, push), All(|boids|))
                  else NOTHING)
    {
      Rebuild();
      var accels := Query(push);
      for i := 0 to |boids|
        invariant forall j | 0 <= j < i :: boids[j].View() == step(old(boids[j].View()), accels[j])
        invariant forall j | i <= j < |boids| :: boids[j].View() == old(boids[j].View())
      {
        var moved := step(Body(boids[i].position, boids[i].velocity), accels[i]);
        boids[i].position, boids[i].velocity := moved.position, moved.velocity;
      }
    }

    /** What every boid gathers, all from the same positions. */
    method Query(push: Push) returns (accels: seq<Sums>)
      requires Valid() && sg.Holds(Views(boids), |boids|)
      ensures |accels| == |boids|
      ensures forall i | 0 <= i < |boids| ::
                accels[i] == if sg.Shape().InReach(boids[i].position)
                             then SumOver(Gathered(Views(boids), boids[i].position, push), All(|boids|))
                             else NOTHING
    {
      hide SpiralGrid.Holds, Gathered, SumOver, Block, Layout.InReach;
      accels := [];
      for i := 0 to |boids|
        invariant |accels| == i
        invariant forall j | 0 <= j < i ::
                    accels[j] == if sg.Shape().InReach(boids[j].position)
                                 then SumOver(Gathered(Views(boids), boids[j].position, push), All(|boids|))
                                 else NOTHING
      {
        var b := boids[i];
        var neib := sg.GetNeighbours(b, [], Views(boids));
        QueriedSums(sg.Shape(), Views(boids), i, neib, push);
        var acc := b.CalcAcceleration(boids, neib, push);
        accels := accels + [acc];
      }
    }
  }
}
