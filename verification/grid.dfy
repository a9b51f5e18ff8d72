/**
 * The navigation grid shared by both AI tank controllers: cells, world
 * positions, the conversions between them, bounds, walkability and the
 * eight-neighbourhood without corner cutting.
 */
module Grid {
  /** A grid cell (`Vector2Int`). */
  datatype Cell = Cell(x: int, y: int)

  /** A world position in the plane (`Vector2`, or the x/y part of a `Vector3`). */
  datatype Point = Point(x: real, y: real)

  /**
   * The grid a controller is configured with: `gridSize`, `tileSize`, and the
   * obstacle query behind `IsWalkable` (a physics overlap test around the
   * cell's centre), which appears here as an uninterpreted predicate over cells.
   */
  datatype NavGrid = NavGrid(width: int, height: int, tileSize: real, walkable: Cell -> bool)

  /** A grid with a positive tile size, the configuration the controllers
      run with. */
  type TiledGrid = g: NavGrid | g.tileSize > 0.0 witness NavGrid(0, 0, 1.0, c => true)

  /** The single-precision float nearest to the square root of two: the length
      `Vector2.Distance` reports for one diagonal step between cell coordinates. */
  const Sqrt2F: real := 1.41421353816986083984375

  predicate IsWithinBounds(g: NavGrid, c: Cell) {
    0 <= c.x < g.width && 0 <= c.y < g.height
  }

  predicate IsWalkable(g: NavGrid, c: Cell) {
    g.walkable(c)
  }

  /** A cell the search may stand on. */
  predicate Passable(g: NavGrid, c: Cell) {
    IsWithinBounds(g, c) && IsWalkable(g, c)
  }

  /** `Mathf.Clamp` on integers: the lower bound is tested first. */
  function Clamp(v: int, lo: int, hi: int): (r: int)
    ensures lo <= hi ==> lo <= r <= hi
    ensures lo <= v <= hi ==> r == v
    ensures v < lo ==> r == lo
  {
    if v < lo then lo else if v > hi then hi else v
  }

  /** The cell containing a world position: floor of the position over the tile
      size, clamped into the grid. */
  function WorldToGrid(g: NavGrid, p: Point): (c: Cell)
    requires g.tileSize > 0.0
    ensures g.width >= 1 && g.height >= 1 ==> IsWithinBounds(g, c)
    ensures 0 <= (p.x / g.tileSize).Floor < g.width ==> c.x == (p.x / g.tileSize).Floor
    ensures 0 <= (p.y / g.tileSize).Floor < g.height ==> c.y == (p.y / g.tileSize).Floor
  {
    Cell(Clamp((p.x / g.tileSize).Floor, 0, g.width - 1),
         Clamp((p.y / g.tileSize).Floor, 0, g.height - 1))
  }

  /** The centre of a cell in world coordinates. */
  function GridToWorld(g: NavGrid, c: Cell): Point {
    Point(c.x as real * g.tileSize + g.tileSize / 2.0,
          c.y as real * g.tileSize + g.tileSize / 2.0)
  }

  /** A centre coordinate over the tile size is the cell coordinate plus one
      half, whose floor is the cell coordinate. */
  lemma CentreOverTile(k: int, t: real, x: real)
    requires t > 0.0 && x == k as real * t + t / 2.0
    ensures x / t == k as real + 0.5
    ensures (x / t).Floor == k
  {
    DivExact(x, k as real + 0.5, t);
  }

  lemma DivExact(x: real, b: real, t: real)
    requires t != 0.0 && x == b * t
    ensures x / t == b
  {
  }

  lemma DivMul(a: real, t: real)
    requires t != 0.0
    ensures (a / t) * t == a
  {
  }

  /** Converting a cell to its centre and back gives the same cell. */
  lemma WorldToGridOfGridToWorld(g: NavGrid, c: Cell)
    requires g.tileSize > 0.0 && IsWithinBounds(g, c)
    ensures WorldToGrid(g, GridToWorld(g, c)) == c
  {
    var p := GridToWorld(g, c);
    CentreOverTile(c.x, g.tileSize, p.x);
    CentreOverTile(c.y, g.tileSize, p.y);
  }

  /** A position inside the grid's area lies within half a tile of the centre
      of the cell it converts to, on each axis. */
  lemma GridToWorldNearPosition(g: NavGrid, p: Point)
    requires g.tileSize > 0.0
    requires 0.0 <= p.x < g.width as real * g.tileSize
    requires 0.0 <= p.y < g.height as real * g.tileSize
    ensures var q := GridToWorld(g, WorldToGrid(g, p));
      q.x - g.tileSize / 2.0 <= p.x < q.x + g.tileSize / 2.0 &&
      q.y - g.tileSize / 2.0 <= p.y < q.y + g.tileSize / 2.0
  {
    var c := WorldToGrid(g, p);
    var q := GridToWorld(g, c);
    CentreNear(p.x, g.tileSize, g.width, c.x, q.x);
    CentreNear(p.y, g.tileSize, g.height, c.y, q.y);
  }

  /** One axis of GridToWorldNearPosition. */
  lemma CentreNear(v: real, t: real, n: int, c: int, centre: real)
    requires t > 0.0 && 0.0 <= v < n as real * t
    requires c == Clamp((v / t).Floor, 0, n - 1)
    requires centre == c as real * t + t / 2.0
    ensures centre - t / 2.0 <= v < centre + t / 2.0
  {
    FloorInRange(v, t, n);
  }

  lemma FloorInRange(v: real, t: real, n: int)
    requires t > 0.0 && 0.0 <= v < n as real * t
    ensures 0 <= (v / t).Floor < n
    ensures (v / t).Floor as real * t <= v < (v / t).Floor as real * t + t
  {
    var f := (v / t).Floor;
    FloorBounds(v, t, f as real);
    if f >= n {
      MulMonotone(n as real, f as real, t);
    }
  }

  lemma FloorBounds(v: real, t: real, lo: real)
    requires t > 0.0 && lo <= v / t < lo + 1.0
    ensures lo * t <= v < lo * t + t
  {
    var q := v / t;
    var hi := lo + 1.0;
    DivMul(v, t);
    assert q * t == v;
    MulMonotone(lo, q, t);
    MulMonotone(q, hi, t);
    assert v < hi * t;
    assert hi * t == lo * t + t;
  }

  lemma MulMonotone(a: real, b: real, t: real)
    requires t > 0.0 && a <= b
    ensures a * t <= b * t
    ensures a < b ==> a * t < b * t
  {
  }

  /**
   * A move of one step from `p` to `n` that `GetNeighbors` admits: one of the
   * eight surrounding cells, inside the grid and walkable, and for a diagonal
   * both flanking cardinal cells walkable (no corner cutting; the flanking
   * cells are only tested for walkability, not for bounds).
   */
  predicate IsNeighborStep(g: NavGrid, p: Cell, n: Cell) {
    -1 <= n.x - p.x <= 1 && -1 <= n.y - p.y <= 1 && n != p &&
    Passable(g, n) &&
    (n.x != p.x && n.y != p.y ==> IsWalkable(g, Cell(n.x, p.y)) && IsWalkable(g, Cell(p.x, n.y)))
  }

  /** The 3x3 block around `p` in the order of the nested loops of
      `GetNeighbors`: x from -1 to 1, and for each x, y from -1 to 1. */
  function Block(p: Cell): (b: seq<Cell>)
    ensures |b| == 9
    ensures forall i :: 0 <= i < 9 ==> b[i] == Cell(p.x + i / 3 - 1, p.y + i % 3 - 1)
  {
    [Cell(p.x - 1, p.y - 1), Cell(p.x - 1, p.y), Cell(p.x - 1, p.y + 1),
     Cell(p.x, p.y - 1),     Cell(p.x, p.y),     Cell(p.x, p.y + 1),
     Cell(p.x + 1, p.y - 1), Cell(p.x + 1, p.y), Cell(p.x + 1, p.y + 1)]
  }

  /** The cells of `s` that are admissible steps from `p`, in order. */
  function Admitted(g: NavGrid, p: Cell, s: seq<Cell>): seq<Cell> {
    if s == [] then []
    else Admitted(g, p, s[..|s| - 1]) +
         (if IsNeighborStep(g, p, s[|s| - 1]) then [s[|s| - 1]] else [])
  }

  /** The list `GetNeighbors` returns. */
  function Neighbors(g: NavGrid, p: Cell): seq<Cell> {
    Admitted(g, p, Block(p))
  }

  /** The step cost `Vector2.Distance` gives between two neighbouring cells. */
  function StepCost(a: Cell, b: Cell): (r: real)
    ensures r >= 1.0
    ensures r < 2.0
  {
    if a.x != b.x && a.y != b.y then Sqrt2F else 1.0
  }

  lemma {:induction false} AdmittedMembers(g: NavGrid, p: Cell, s: seq<Cell>, c: Cell)
    ensures c in Admitted(g, p, s) <==> c in s && IsNeighborStep(g, p, c)
  {
    if s != [] {
      AdmittedMembers(g, p, s[..|s| - 1], c);
      assert s == s[..|s| - 1] + [s[|s| - 1]];
    }
  }

  lemma BlockMembers(p: Cell, c: Cell)
    ensures c in Block(p) <==> -1 <= c.x - p.x <= 1 && -1 <= c.y - p.y <= 1
  {
    if -1 <= c.x - p.x <= 1 && -1 <= c.y - p.y <= 1 {
      assert Block(p)[3 * (c.x - p.x + 1) + (c.y - p.y + 1)] == c;
    }
  }

  /** A cell is listed by `GetNeighbors` exactly when it is an admissible step. */
  lemma NeighborsMembers(g: NavGrid, p: Cell, c: Cell)
    ensures c in Neighbors(g, p) <==> IsNeighborStep(g, p, c)
  {
    AdmittedMembers(g, p, Block(p), c);
    BlockMembers(p, c);
  }

  /**
   * `GetNeighbors`: scans the 3x3 block around `p`, skipping the centre, cells
   * outside the grid or not walkable, and diagonals whose flanking cells are
   * not both walkable.
   */
  method GetNeighbors(g: NavGrid, p: Cell) returns (neighbors: seq<Cell>)
    ensures neighbors == Neighbors(g, p)
    ensures forall c :: c in neighbors <==> IsNeighborStep(g, p, c)
  {
    neighbors := [];
    for x := -1 to 2
      invariant neighbors == Admitted(g, p, Block(p)[..3 * (x + 1)])
    {
      for y := -1 to 2
        invariant neighbors == Admitted(g, p, Block(p)[..3 * (x + 1) + (y + 1)])
      {
        ScanStep(g, p, x, y);
        if x == 0 && y == 0 {
          continue;
        }
        var n := Cell(p.x + x, p.y + y);
        if !IsWithinBounds(g, n) || !IsWalkable(g, n) {
          continue;
        }
        if Abs(x) + Abs(y) == 2 {
          var n1 := Cell(p.x + x, p.y);
          var n2 := Cell(p.x, p.y + y);
          if !IsWalkable(g, n1) || !IsWalkable(g, n2) {
            continue;
          }
        }
        neighbors := neighbors + [n];
      }
    }
    assert Block(p)[..9] == Block(p);
    forall c ensures c in neighbors <==> IsNeighborStep(g, p, c) {
      NeighborsMembers(g, p, c);
    }
  }

  /** One iteration of the nested loops of `GetNeighbors` extends the scan by
      the cell (p.x + x, p.y + y) exactly when that cell is an admissible step. */
  lemma ScanStep(g: NavGrid, p: Cell, x: int, y: int)
    requires -1 <= x <= 1 && -1 <= y <= 1
    ensures IsNeighborStep(g, p, Cell(p.x + x, p.y + y)) <==>
      !(x == 0 && y == 0) && IsWithinBounds(g, Cell(p.x + x, p.y + y)) && IsWalkable(g, Cell(p.x + x, p.y + y)) &&
      (Abs(x) + Abs(y) == 2 ==> IsWalkable(g, Cell(p.x + x, p.y)) && IsWalkable(g, Cell(p.x, p.y + y)))
    ensures var k := 3 * (x + 1) + (y + 1);
      0 <= k < 9 &&
      Admitted(g, p, Block(p)[..k + 1]) == Admitted(g, p, Block(p)[..k]) +
        (if IsNeighborStep(g, p, Cell(p.x + x, p.y + y)) then [Cell(p.x + x, p.y + y)] else [])
  {
    var k := 3 * (x + 1) + (y + 1);
    assert Block(p)[k] == Cell(p.x + x, p.y + y);
    assert Block(p)[..k + 1][..k] == Block(p)[..k];
  }

  function Abs(v: int): int {
    if v < 0 then -v else v
  }
}
