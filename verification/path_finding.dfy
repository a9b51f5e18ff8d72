/**
 * Grid path search: the Dijkstra search of the enemy controller, the A*
 * search of the allied controller (same loop, Manhattan heuristic added to
 * the priority), and the parent-map path reconstruction both use.
 */
module PathFinding {
  import opened Wrappers
  import opened Grid
  import opened PriorityQueues

  /** Which priority the frontier is ordered by. */
  datatype Strategy = Dijkstra | AStar

  /** The Manhattan distance between two cells, used as the A* heuristic. */
  function Heuristic(a: Cell, b: Cell): (h: real)
    ensures h >= 0.0
    ensures h == 0.0 <==> a == b
  {
    (Abs(a.x - b.x) + Abs(a.y - b.y)) as real
  }

  /** The heuristic does not depend on which cell is the goal. */
  lemma HeuristicSymmetric(a: Cell, b: Cell)
    ensures Heuristic(a, b) == Heuristic(b, a)
  {
  }

  /** The heuristic is not admissible: for one diagonal step it exceeds the
      actual step cost, so A* with it need not return a cheapest path. */
  lemma HeuristicOverestimatesDiagonal(g: NavGrid, a: Cell, b: Cell)
    requires IsNeighborStep(g, a, b) && a.x != b.x && a.y != b.y
    ensures Heuristic(a, b) == 2.0 > StepCost(a, b)
  {
  }

  /** The priority a cell enters the frontier with, given its cost so far. */
  function PriorityOf(strategy: Strategy, cost: real, c: Cell, end: Cell): real {
    match strategy
    case Dijkstra => cost
    case AStar => cost + Heuristic(c, end)
  }

  /**
   * A parent map as the search builds it: `start` is its own parent and the
   * only cell that is; every other recorded cell was reached by an admissible
   * step from its parent, which is recorded too and has a strictly smaller
   * cost so far. Following parents therefore never revisits a cell.
   */
  ghost predicate ParentMap(g: NavGrid, start: Cell, cameFrom: map<Cell, Cell>, cost: map<Cell, real>) {
    cameFrom.Keys == cost.Keys &&
    start in cameFrom && cameFrom[start] == start && cost[start] == 0.0 &&
    (forall k :: k in cost ==> cost[k] >= 0.0) &&
    (forall k {:trigger Parent(cameFrom, k)} :: k in cameFrom ==>
       Parent(cameFrom, k) in cameFrom &&
       (k != start ==> IsNeighborStep(g, Parent(cameFrom, k), k) && cost[Parent(cameFrom, k)] < cost[k]))
  }

  /** The recorded parent of a cell. Facts about parents are stated through
      this function so that the solver unfolds a parent chain only as far as
      a proof asks for it. */
  ghost function Parent(cameFrom: map<Cell, Cell>, k: Cell): Cell
    requires k in cameFrom
  {
    cameFrom[k]
  }

  /**
   * `cells` leads from `start` to `end` by admissible steps: empty when the two
   * are the same cell, otherwise its first cell is a step from `start`, each
   * next cell a step from the previous one, and its last cell is `end`.
   */
  ghost predicate IsGridPath(g: NavGrid, start: Cell, cells: seq<Cell>, end: Cell) {
    (|cells| == 0 ==> start == end) &&
    (|cells| > 0 ==> IsNeighborStep(g, start, cells[0]) && cells[|cells| - 1] == end) &&
    (forall i, j {:trigger cells[i], cells[j]} :: 0 <= i && j == i + 1 < |cells| ==> IsNeighborStep(g, cells[i], cells[j]))
  }

  /** The world centres of a sequence of cells. */
  function Centres(g: NavGrid, cells: seq<Cell>): (ps: seq<Point>)
    ensures |ps| == |cells|
    ensures forall i :: 0 <= i < |cells| ==> ps[i] == GridToWorld(g, cells[i])
  {
    seq(|cells|, i requires 0 <= i < |cells| => GridToWorld(g, cells[i]))
  }

  function Reverse<T>(s: seq<T>): (r: seq<T>)
    ensures |r| == |s|
    ensures forall i :: 0 <= i < |s| ==> r[i] == s[|s| - 1 - i]
  {
    seq(|s|, i requires 0 <= i < |s| => s[|s| - 1 - i])
  }

  /** Each in-bounds cell of a path converts back from its centre to itself,
      so a path of centres determines the cells it was built from. */
  lemma CentresRoundTrip(g: NavGrid, cells: seq<Cell>)
    requires g.tileSize > 0.0
    ensures forall i :: 0 <= i < |cells| && IsWithinBounds(g, cells[i]) ==>
      WorldToGrid(g, Centres(g, cells)[i]) == cells[i]
  {
    forall i | 0 <= i < |cells| && IsWithinBounds(g, cells[i])
      ensures WorldToGrid(g, Centres(g, cells)[i]) == cells[i]
    {
      WorldToGridOfGridToWorld(g, cells[i]);
    }
  }

  /** Reversing twice gives the sequence back, and a reversal keeps every
      element with its multiplicity. */
  lemma {:induction false} ReversePermutes<T>(s: seq<T>)
    ensures Reverse(Reverse(s)) == s
    ensures multiset(Reverse(s)) == multiset(s)
  {
    if s != [] {
      var init := s[..|s| - 1];
      ReversePermutes(init);
      assert Reverse(s) == [s[|s| - 1]] + Reverse(init);
      assert s == init + [s[|s| - 1]];
    }
  }

  /** The cells of the grid rectangle [0, w) x [0, h). */
  ghost function Rect(w: nat, h: nat): set<Cell> {
    set x, y | 0 <= x < w && 0 <= y < h :: Cell(x, y)
  }

  ghost function Column(x: int, h: nat): set<Cell> {
    set y | 0 <= y < h :: Cell(x, y)
  }

  lemma {:induction false} ColumnSize(x: int, h: nat)
    ensures |Column(x, h)| == h
  {
    if h > 0 {
      ColumnSize(x, h - 1);
      assert Column(x, h) == Column(x, h - 1) + {Cell(x, h - 1)};
    }
  }

  lemma {:induction false} RectSize(w: nat, h: nat)
    ensures |Rect(w, h)| == w * h
  {
    if w > 0 {
      RectSize(w - 1, h);
      ColumnSize(w - 1, h);
      RectSplit(w, h);
      var left, col := Rect(w - 1, h), Column(w - 1, h);
      assert |left + col| == |left| + |col|;
      assert w * h == (w - 1) * h + h;
    }
  }

  /** The rectangle of width `w` is the one of width `w - 1` plus its last
      column, the two being disjoint. */
  lemma RectSplit(w: nat, h: nat)
    requires w > 0
    ensures Rect(w, h) == Rect(w - 1, h) + Column(w - 1, h)
    ensures Rect(w - 1, h) !! Column(w - 1, h)
  {
    var left, col := Rect(w - 1, h), Column(w - 1, h);
    forall c | c in Rect(w, h) ensures c in left + col {
      if c.x < w - 1 {
        assert c == Cell(c.x, c.y);
      }
    }
    forall c | c in col ensures c !in left {
    }
  }

  lemma SubsetSize<T>(a: set<T>, b: set<T>)
    requires a <= b
    ensures |a| <= |b|
  {
    assert b == a + (b - a);
  }

  /** A grid of at most 10001 cells has parent maps of at most 10001 entries. */
  lemma ParentMapSize(g: NavGrid, cameFrom: map<Cell, Cell>)
    requires g.width >= 0 && g.height >= 0
    requires forall k :: k in cameFrom ==> IsWithinBounds(g, k)
    ensures |cameFrom.Keys| <= g.width * g.height
  {
    assert cameFrom.Keys <= Rect(g.width, g.height) by {
      forall k | k in cameFrom ensures k in Rect(g.width, g.height) {
        assert k == Cell(k.x, k.y);
      }
    }
    SubsetSize(cameFrom.Keys, Rect(g.width, g.height));
    RectSize(g.width, g.height);
  }

  /** The key of the first entry that is its own parent, or the default cell
      (0, 0) when there is none. The model does not fix the dictionary's
      enumeration order: any self-parented key may be returned. */
  method FirstSelfParent(cameFrom: map<Cell, Cell>) returns (k: Cell)
    ensures (exists c :: c in cameFrom && cameFrom[c] == c) ==> k in cameFrom && cameFrom[k] == k
    ensures (forall c :: c in cameFrom ==> cameFrom[c] != c) ==> k == Cell(0, 0)
  {
    if c :| c in cameFrom && cameFrom[c] == c {
      k := c;
    } else {
      k := Cell(0, 0);
    }
  }

  /** The most steps `ReconstructPath` follows before giving up. */
  const MaxSteps: int := 10000

  /**
   * `ReconstructPath`: follows parents from `current` back to the cell that is
   * its own parent, collecting cell centres, and reverses them. A cell missing
   * from the map gives an empty list. The walk stops after `MaxSteps` steps;
   * on a parent map of at most `MaxSteps + 1` cells that limit is never what
   * stops it, and the result is the full path from the start (excluded) to
   * `current` (included).
   */
  method ReconstructPath(g: NavGrid, cameFrom: map<Cell, Cell>, current: Cell,
                         ghost start: Cell, ghost cost: map<Cell, real>)
    returns (totalPath: seq<Point>, ghost cells: seq<Cell>)
    requires ParentMap(g, start, cameFrom, cost)
    ensures current !in cameFrom ==> totalPath == []
    ensures current == start ==> totalPath == []
    ensures current in cameFrom && |cameFrom.Keys| <= MaxSteps + 1 ==>
      totalPath == Centres(g, cells) && IsGridPath(g, start, cells, current)
  {
    cells := [];
    if current !in cameFrom {
      return [], [];
    }
    assert start in cameFrom && cameFrom[start] == start;
    var startNode := FirstSelfParent(cameFrom);
    SelfParentIsStart(g, start, cameFrom, cost, startNode);
    var rev: seq<Point> := [];
    ghost var revCells: seq<Cell> := [];
    ghost var visited: set<Cell> := {};
    var step := current;
    var safety := 0;
    while step != startNode && safety < MaxSteps
      invariant Walked(g, start, cameFrom, cost, current, revCells, visited, step)
      invariant 0 <= safety <= MaxSteps && |revCells| == safety
      invariant rev == Centres(g, revCells)
      decreases MaxSteps - safety
    {
      WalkStep(g, start, cameFrom, cost, current, revCells, visited, step);
      rev := rev + [GridToWorld(g, step)];
      revCells := revCells + [step];
      visited := visited + {step};
      if step !in cameFrom {
        break;
      }
      step := cameFrom[step];
      safety := safety + 1;
    }
    totalPath := Reverse(rev);
    cells := Reverse(revCells);
    if |cameFrom.Keys| <= MaxSteps + 1 {
      WalkComplete(g, start, cameFrom, cost, revCells, visited, step, current);
    }
  }

  /** The start is the only cell that is its own parent. */
  lemma SelfParentIsStart(g: NavGrid, start: Cell, cameFrom: map<Cell, Cell>, cost: map<Cell, real>, k: Cell)
    requires ParentMap(g, start, cameFrom, cost) && k in cameFrom
    ensures Parent(cameFrom, k) == k <==> k == start
  {
  }

  /**
   * The state of the parent walk of `ReconstructPath` from `current`: the
   * cells collected so far (`revCells`, the set of them `visited`) begin at
   * `current`, none is `start`, each is the parent of the one before, and
   * `step`, the parent of the last one, costs less than all of them.
   */
  ghost predicate Walked(g: NavGrid, start: Cell, cameFrom: map<Cell, Cell>, cost: map<Cell, real>,
                         current: Cell, revCells: seq<Cell>, visited: set<Cell>, step: Cell) {
    ParentMap(g, start, cameFrom, cost) && step in cameFrom && |revCells| == |visited| &&
    (forall c :: c in visited ==> c in cameFrom && c != start && cost[step] < cost[c]) &&
    (forall i :: 0 <= i < |revCells| ==> revCells[i] in visited) &&
    (revCells == [] ==> step == current) &&
    (revCells != [] ==> revCells[0] == current && step == Parent(cameFrom, revCells[|revCells| - 1])) &&
    (forall i, j {:trigger revCells[i], revCells[j]} :: 0 <= i && j == i + 1 < |revCells| ==> revCells[j] == Parent(cameFrom, revCells[i]))
  }

  /** One step of the walk away from `start` keeps its description. */
  lemma WalkStep(g: NavGrid, start: Cell, cameFrom: map<Cell, Cell>, cost: map<Cell, real>,
                 current: Cell, revCells: seq<Cell>, visited: set<Cell>, step: Cell)
    requires Walked(g, start, cameFrom, cost, current, revCells, visited, step) && Parent(cameFrom, step) != step
    ensures Walked(g, start, cameFrom, cost, current, revCells + [step], visited + {step}, Parent(cameFrom, step))
  {
    var next := Parent(cameFrom, step);
    assert step != start;
    assert next in cameFrom && cost[next] < cost[step];
    assert step !in visited;
    var r := revCells + [step];
    forall i, j {:trigger r[i], r[j]} | 0 <= i && j == i + 1 < |r|
      ensures r[j] == Parent(cameFrom, r[i])
    {
      if j < |revCells| {
        assert r[i] == revCells[i] && r[j] == revCells[j];
      }
    }
  }

  /** A parent walk that stopped at a cell which is its own parent, or after
      as many steps as cells minus one, has reached `start`, and the cells it
      collected, reversed, are a grid path from `start` to `current`. */
  lemma WalkComplete(g: NavGrid, start: Cell, cameFrom: map<Cell, Cell>, cost: map<Cell, real>,
                     revCells: seq<Cell>, visited: set<Cell>, step: Cell, current: Cell)
    requires Walked(g, start, cameFrom, cost, current, revCells, visited, step) && |cameFrom.Keys| <= MaxSteps + 1
    requires Parent(cameFrom, step) == step || |visited| == MaxSteps
    ensures Reverse(Centres(g, revCells)) == Centres(g, Reverse(revCells))
    ensures IsGridPath(g, start, Reverse(revCells), current)
  {
    if step != start {
      ChainBound(cameFrom.Keys, visited, start, step);
    }
    ReversedChain(g, start, cameFrom, cost, revCells, current);
  }

  lemma ChainBound(keys: set<Cell>, visited: set<Cell>, start: Cell, step: Cell)
    requires visited <= keys && start in keys && step in keys
    requires start !in visited && step !in visited && step != start
    ensures |visited| + 2 <= |keys|
  {
    SubsetSize(visited + {step, start}, keys);
  }

  /** A parent chain walked back from `current` to `start`, reversed, is a
      grid path from `start` to `current`. */
  lemma ReversedChain(g: NavGrid, start: Cell, cameFrom: map<Cell, Cell>, cost: map<Cell, real>,
                      revCells: seq<Cell>, current: Cell)
    requires ParentMap(g, start, cameFrom, cost)
    requires forall i :: 0 <= i < |revCells| ==> revCells[i] in cameFrom && revCells[i] != start
    requires revCells == [] ==> start == current
    requires revCells != [] ==> revCells[0] == current && start == Parent(cameFrom, revCells[|revCells| - 1])
    requires forall i, j {:trigger revCells[i], revCells[j]} :: 0 <= i && j == i + 1 < |revCells| ==> revCells[j] == Parent(cameFrom, revCells[i])
    ensures Reverse(Centres(g, revCells)) == Centres(g, Reverse(revCells))
    ensures IsGridPath(g, start, Reverse(revCells), current)
  {
    var cells := Reverse(revCells);
    var n := |revCells|;
    if n > 0 {
      assert cells[0] == revCells[n - 1];
      assert IsNeighborStep(g, Parent(cameFrom, revCells[n - 1]), revCells[n - 1]);
    }
    forall i, j | 0 <= i && j == i + 1 < n ensures IsNeighborStep(g, cells[i], cells[j]) {
      var k := n - 2 - i;
      assert cells[j] == revCells[k] && cells[i] == revCells[k + 1] == Parent(cameFrom, revCells[k]);
    }
  }

  /**
   * The search loop shared by `Dijkstra` and `AStarSearch`. It answers `None`
   * at once when the start or the goal is outside the grid or not walkable,
   * and `None` when the frontier empties without reaching the goal. The loop
   * is bounded by `fuel` dequeues; running out of fuel also answers `None`.
   */
  method Search(g: NavGrid, start: Cell, end: Cell, strategy: Strategy, fuel: nat)
    returns (path: Option<seq<Point>>, ghost cells: seq<Cell>)
    ensures !Passable(g, start) || !Passable(g, end) ==> path == None
    ensures Passable(g, start) && start == end && fuel > 0 ==> path == Some([])
    ensures path.Some? && g.width * g.height <= MaxSteps + 1 ==>
      path.value == Centres(g, cells) && IsGridPath(g, start, cells, end)
  {
    cells := [];
    if !IsWithinBounds(g, start) || !IsWalkable(g, start) {
      return None, [];
    }
    if !IsWithinBounds(g, end) || !IsWalkable(g, end) {
      return None, [];
    }
    var frontier := new PriorityQueue<Cell>();
    frontier.Enqueue(start, PriorityOf(strategy, 0.0, start, end));
    SingletonSeq(frontier.elements, (start, PriorityOf(strategy, 0.0, start, end)));
    var cameFrom := map[start := start];
    var costSoFar := map[start := 0.0];
    var dequeued := 0;
    while frontier.Count() > 0 && dequeued < fuel
      invariant fresh(frontier) && frontier.Valid()
      invariant ParentMap(g, start, cameFrom, costSoFar)
      invariant forall k :: k in cameFrom ==> Passable(g, k)
      invariant forall e :: e in frontier.elements ==> e.0 in cameFrom
      invariant dequeued == 0 ==> frontier.elements == [(start, PriorityOf(strategy, 0.0, start, end))]
      invariant start == end ==> dequeued == 0
      decreases fuel - dequeued
    {
      var head := frontier.Dequeue();
      var current := head.value;
      dequeued := dequeued + 1;
      if current == end {
        var found;
        ParentMapSize(g, cameFrom);
        found, cells := ReconstructPath(g, cameFrom, end, start, costSoFar);
        return Some(found), cells;
      }
      var neighbors := GetNeighbors(g, current);
      for i := 0 to |neighbors|
        invariant fresh(frontier) && frontier.Valid()
        invariant ParentMap(g, start, cameFrom, costSoFar)
        invariant forall k :: k in cameFrom ==> Passable(g, k)
        invariant forall e :: e in frontier.elements ==> e.0 in cameFrom
        invariant current in cameFrom
      {
        var next := neighbors[i];
        var newCost := costSoFar[current] + StepCost(current, next);
        if next !in costSoFar || newCost < costSoFar[next] {
          Relax(g, start, cameFrom, costSoFar, current, next, newCost);
          costSoFar := costSoFar[next := newCost];
          frontier.Enqueue(next, PriorityOf(strategy, newCost, next, end));
          cameFrom := cameFrom[next := current];
        }
      }
    }
    return None, [];
  }

  lemma SingletonSeq<T>(s: seq<T>, x: T)
    requires multiset(s) == multiset{x}
    ensures s == [x]
  {
    assert |s| == |multiset(s)| == 1;
    assert s[0] in multiset(s);
  }

  /** Recording `current` as the parent of `next` at a cost lower than any
      recorded for `next` keeps the parent map well formed. */
  lemma Relax(g: NavGrid, start: Cell, cameFrom: map<Cell, Cell>, cost: map<Cell, real>,
              current: Cell, next: Cell, newCost: real)
    requires ParentMap(g, start, cameFrom, cost)
    requires current in cameFrom && IsNeighborStep(g, current, next)
    requires newCost == cost[current] + StepCost(current, next)
    requires next !in cost || newCost < cost[next]
    ensures ParentMap(g, start, cameFrom[next := current], cost[next := newCost])
  {
    var cameFrom', cost' := cameFrom[next := current], cost[next := newCost];
    assert next != start;
    forall k | k in cameFrom'
      ensures Parent(cameFrom', k) in cameFrom' &&
        (k != start ==> IsNeighborStep(g, Parent(cameFrom', k), k) && cost'[Parent(cameFrom', k)] < cost'[k])
    {
      if k != next {
        assert Parent(cameFrom', k) == Parent(cameFrom, k);
      }
    }
  }

  /** `Dijkstra`: the search ordered by cost so far. */
  method DijkstraSearch(g: NavGrid, start: Cell, end: Cell, fuel: nat)
    returns (path: Option<seq<Point>>, ghost cells: seq<Cell>)
    ensures !Passable(g, start) || !Passable(g, end) ==> path == None
    ensures Passable(g, start) && start == end && fuel > 0 ==> path == Some([])
    ensures path.Some? && g.width * g.height <= MaxSteps + 1 ==>
      path.value == Centres(g, cells) && IsGridPath(g, start, cells, end)
  {
    path, cells := Search(g, start, end, Dijkstra, fuel);
  }

  /** `AStarSearch`: the search ordered by cost so far plus the Manhattan
      distance to the goal. */
  method AStarSearch(g: NavGrid, start: Cell, end: Cell, fuel: nat)
    returns (path: Option<seq<Point>>, ghost cells: seq<Cell>)
    ensures !Passable(g, start) || !Passable(g, end) ==> path == None
    ensures Passable(g, start) && start == end && fuel > 0 ==> path == Some([])
    ensures path.Some? && g.width * g.height <= MaxSteps + 1 ==>
      path.value == Centres(g, cells) && IsGridPath(g, start, cells, end)
  {
    path, cells := Search(g, start, end, AStar, fuel);
  }
}
