/**
 * The enemy tank's AI: it attacks a sensed player, otherwise heads for a
 * capture point chosen through the shared claim registry, otherwise patrols
 * (or idles); it keeps a Dijkstra path to its navigation target, follows it
 * waypoint by waypoint and fires at a player in range.
 *
 * Engine queries become inputs: the closest living player the detection
 * query reports, the random draws, the motion step `Vector2.MoveTowards`
 * produces, the cannon alignment test, the clock and the frame time.
 */
module EnemyAI {
  import opened Wrappers
  import opened Grid
  import opened PathFinding
  import opened TargetCoordination
  import opened CapturePointSelection
  import opened Steering
  import opened Health

  /** `EnemyTankController.AIState`. */
  datatype AIState = Idle | SeekingCapturePoint | AttackingPlayer | Patrolling

  /** The inspector settings and identity of one enemy tank. `idHash` is
      `uniqueID.GetHashCode()`. */
  datatype Profile = Profile(
    grid: TiledGrid,
    ownTag: string,
    uniqueID: string,
    idHash: int,
    fireRate: real,
    shootingRange: real,
    pathRecalculationRate: real,
    nearbyPointMaxAttempts: int,
    enablePatrolling: bool)

  /** The controller's per-tank fields, and the tank's position. A target
      player is known by its position. */
  datatype Tank = Tank(
    currentState: AIState,
    currentTargetPlayer: Option<Point>,
    currentTargetCapturePoint: Option<PointId>,
    currentNavigationTargetPosition: Point,
    patrolTargetPosition: Point,
    nextPatrolChangeTime: real,
    currentPath: Option<seq<Point>>,
    currentPathIndex: nat,
    timeSinceLastPathRecalc: real,
    lastTargetPosition: Point,
    nextFireTime: real,
    position: Point,
    capturePointCount: nat)

  /* ---------------- GetNearbyWalkablePoint ---------------- */

  /** C#'s `%` on `int`: the remainder takes the sign of the dividend. */
  function TruncRem(a: int, b: int): (r: int)
    requires b > 0
    ensures -b < r < b
    ensures a >= 0 ==> 0 <= r
    ensures a <= 0 ==> r <= 0
  {
    if a >= 0 then a % b else -((-a) % b)
  }

  /**
   * The per-tank bias added to every random probe: `randomXOffset % 3` and
   * `randomYOffset % 3`, where the offsets are `hash % 10 - 5` and
   * `(hash >> 5) % 10 - 5`. The arithmetic shift is a floor division by 32,
   * which is Dafny's `/` for a positive divisor.
   */
  function HashBias(hash: int): (b: Cell)
    ensures -2 <= b.x <= 2 && -2 <= b.y <= 2
  {
    Cell(TruncRem(TruncRem(hash, 10) - 5, 3), TruncRem(TruncRem(hash / 32, 10) - 5, 3))
  }

  /** The cells probed around `originCell`: each random draw (each axis from
      `Random.Range(-radius, radius + 1)`) plus the bias. */
  function Probes(originCell: Cell, draws: seq<Cell>, bias: Cell): (ps: seq<Cell>)
    ensures |ps| == |draws|
    ensures forall i :: 0 <= i < |draws| ==>
      ps[i] == Cell(originCell.x + (draws[i].x + bias.x), originCell.y + (draws[i].y + bias.y))
  {
    seq(|draws|, i requires 0 <= i < |draws| =>
      Cell(originCell.x + (draws[i].x + bias.x), originCell.y + (draws[i].y + bias.y)))
  }

  /** Every probe lies within `radius + 2` cells of the origin on each axis:
      each draw of `Random.Range(-radius, radius + 1)` is in [-radius, radius]
      and the bias moves it by at most 2. */
  lemma ProbesNearOrigin(originCell: Cell, draws: seq<Cell>, hash: int, radius: int)
    requires forall i :: 0 <= i < |draws| ==> -radius <= draws[i].x <= radius && -radius <= draws[i].y <= radius
    ensures var ps := Probes(originCell, draws, HashBias(hash));
      forall i :: 0 <= i < |ps| ==>
        -(radius + 2) <= ps[i].x - originCell.x <= radius + 2 &&
        -(radius + 2) <= ps[i].y - originCell.y <= radius + 2
  {
  }

  /** A cell the tank can move to that is not its own. */
  predicate FreeCell(g: NavGrid, tankCell: Cell, c: Cell) {
    Passable(g, c) && c != tankCell
  }

  /** The index of the first free cell. */
  function FirstFree(g: NavGrid, tankCell: Cell, cells: seq<Cell>): (r: Option<nat>)
    ensures r.Some? ==> r.value < |cells| && FreeCell(g, tankCell, cells[r.value])
    ensures r.Some? ==> forall j :: 0 <= j < r.value ==> !FreeCell(g, tankCell, cells[j])
    ensures r.None? ==> forall j :: 0 <= j < |cells| ==> !FreeCell(g, tankCell, cells[j])
  {
    if cells == [] then None
    else if FreeCell(g, tankCell, cells[0]) then Some(0)
    else
      var rest := FirstFree(g, tankCell, cells[1..]);
      if rest.Some? then Some(rest.value + 1) else None
  }

  /** The number of iterations of a `for (i = 0; i < n; i++)` loop. */
  function Attempts(n: int): nat {
    if n < 0 then 0 else n
  }

  /**
   * What `GetNearbyWalkablePoint` returns for a sequence of probes: the centre
   * of the first free probe; failing that, the centre of the tank's own cell
   * when some probe hit it and it is passable (the only passable cell a
   * probe can then have hit); failing that, `origin` itself.
   */
  function NearbyWalkablePoint(g: TiledGrid, origin: Point, tankCell: Cell, probes: seq<Cell>): (r: Point)
    ensures r == origin || exists c :: c in probes && Passable(g, c) && r == GridToWorld(g, c)
    ensures (exists i :: 0 <= i < |probes| && FreeCell(g, tankCell, probes[i])) ==>
      exists c :: c in probes && FreeCell(g, tankCell, c) && r == GridToWorld(g, c)
  {
    var first := FirstFree(g, tankCell, probes);
    if first.Some? then GridToWorld(g, probes[first.value])
    else if tankCell in probes && Passable(g, tankCell) then GridToWorld(g, tankCell)
    else origin
  }

  /* ---------------- GenerateNewPatrolPoint ---------------- */

  /** `GenerateNewPatrolPoint`'s probe count, and that of its fallback. */
  const PatrolAttempts: nat := 20
  const FallbackAttempts: nat := 10

  /** The cells of the candidate patrol points: the tank's position moved by
      each random offset (a random angle and a distance in
      [0.3 * patrolRadius, patrolRadius]). */
  function PatrolCells(g: TiledGrid, position: Point, offsets: seq<Point>): (cs: seq<Cell>)
    ensures |cs| == |offsets|
    ensures forall i :: 0 <= i < |offsets| ==>
      cs[i] == WorldToGrid(g, Point(position.x + offsets[i].x, position.y + offsets[i].y))
  {
    seq(|offsets|, i requires 0 <= i < |offsets| =>
      WorldToGrid(g, Point(position.x + offsets[i].x, position.y + offsets[i].y)))
  }

  /** Every candidate cell lies inside a non-empty grid, and a candidate
      position inside the grid's area lies within half a tile of its cell's
      centre on each axis. */
  lemma PatrolCellsInGrid(g: TiledGrid, position: Point, offsets: seq<Point>)
    requires g.width >= 1 && g.height >= 1
    ensures var cs := PatrolCells(g, position, offsets);
      forall i :: 0 <= i < |cs| ==> IsWithinBounds(g, cs[i])
    ensures var cs := PatrolCells(g, position, offsets);
      forall i :: 0 <= i < |cs| ==>
        var p := Point(position.x + offsets[i].x, position.y + offsets[i].y);
        var q := GridToWorld(g, cs[i]);
        0.0 <= p.x < g.width as real * g.tileSize && 0.0 <= p.y < g.height as real * g.tileSize ==>
        q.x - g.tileSize / 2.0 <= p.x < q.x + g.tileSize / 2.0 &&
        q.y - g.tileSize / 2.0 <= p.y < q.y + g.tileSize / 2.0
  {
    var cs := PatrolCells(g, position, offsets);
    forall i | 0 <= i < |cs|
      ensures var p := Point(position.x + offsets[i].x, position.y + offsets[i].y);
        var q := GridToWorld(g, cs[i]);
        0.0 <= p.x < g.width as real * g.tileSize && 0.0 <= p.y < g.height as real * g.tileSize ==>
        q.x - g.tileSize / 2.0 <= p.x < q.x + g.tileSize / 2.0 &&
        q.y - g.tileSize / 2.0 <= p.y < q.y + g.tileSize / 2.0
    {
      var p := Point(position.x + offsets[i].x, position.y + offsets[i].y);
      if 0.0 <= p.x < g.width as real * g.tileSize && 0.0 <= p.y < g.height as real * g.tileSize {
        GridToWorldNearPosition(g, p);
      }
    }
  }

  /** The patrol point `GenerateNewPatrolPoint` picks: the centre of the first
      candidate cell that is passable and not the tank's own, else the nearby
      walkable point of the tank's own position (radius 5, 10 attempts). */
  function PatrolPoint(g: TiledGrid, position: Point, offsets: seq<Point>, fallbackDraws: seq<Cell>, bias: Cell): Point
    requires |offsets| >= PatrolAttempts && |fallbackDraws| >= FallbackAttempts
  {
    var cur := WorldToGrid(g, position);
    var cells := PatrolCells(g, position, offsets[..PatrolAttempts]);
    var first := FirstFree(g, cur, cells);
    if first.Some? then GridToWorld(g, cells[first.value])
    else NearbyWalkablePoint(g, position, cur, Probes(cur, fallbackDraws[..FallbackAttempts], bias))
  }

  /** A patrol point is the centre of a passable cell or the tank's own
      position; when some candidate cell is free it is the centre of a free
      cell. */
  lemma PatrolPointIsWalkable(g: TiledGrid, position: Point, offsets: seq<Point>, fallbackDraws: seq<Cell>, bias: Cell)
    requires |offsets| >= PatrolAttempts && |fallbackDraws| >= FallbackAttempts
    ensures var r := PatrolPoint(g, position, offsets, fallbackDraws, bias);
      r == position || exists c :: Passable(g, c) && r == GridToWorld(g, c)
    ensures var cells := PatrolCells(g, position, offsets[..PatrolAttempts]);
      (exists i :: 0 <= i < |cells| && FreeCell(g, WorldToGrid(g, position), cells[i])) ==>
      exists c :: FreeCell(g, WorldToGrid(g, position), c) &&
        PatrolPoint(g, position, offsets, fallbackDraws, bias) == GridToWorld(g, c)
  {
    var cur := WorldToGrid(g, position);
    var cells := PatrolCells(g, position, offsets[..PatrolAttempts]);
    var first := FirstFree(g, cur, cells);
    if first.Some? {
      assert Passable(g, cells[first.value]);
    }
  }

  /* ---------------- DecideNextAction ---------------- */

  /** The new tank fields after `DecideNextAction`, and whether the claim
      registry must release the previous point and claim the new one. */
  datatype Decision = Decision(tank: Tank, claimChanged: bool)

  /** The player branch: attack, drop the capture point, and forget the path
      when the tank was not attacking yet or the player has moved more than
      0.5 since the last search. */
  function Chase(k: Tank, player: Point): Decision {
    var k1 := k.(currentState := AttackingPlayer, currentTargetCapturePoint := None,
                 currentNavigationTargetPosition := player);
    Decision(if k.currentState != AttackingPlayer || Farther(k.lastTargetPosition, player, 0.5)
             then k1.(currentPath := None) else k1,
             k.currentTargetCapturePoint.Some?)
  }

  /** The capture point branch: seek the chosen point `id`; a newly chosen
      point is claimed and approached through `nav`, the nearby walkable
      point around it. */
  function Seek(k: Tank, id: PointId, nav: Point): Decision {
    if Some(id) != k.currentTargetCapturePoint then
      Decision(k.(currentState := SeekingCapturePoint, currentTargetCapturePoint := Some(id),
                  currentNavigationTargetPosition := nav, currentPath := None), true)
    else Decision(k.(currentState := SeekingCapturePoint), false)
  }

  /** The patrol branches: a tank not yet patrolling heads for its patrol
      point and releases its claim. With capture points around the target is
      kept (`dropTarget` false); without any it is dropped. */
  function Patrol(k: Tank, dropTarget: bool): Decision {
    var k1 := if dropTarget then k.(currentTargetCapturePoint := None) else k;
    if k.currentState != Patrolling then
      Decision(k1.(currentState := Patrolling, currentNavigationTargetPosition := k.patrolTargetPosition,
                   currentPath := None), k.currentTargetCapturePoint.Some?)
    else Decision(k1, false)
  }

  /** The idle branches: the point is dropped, and a tank not yet idle stops
      where it is and releases its claim. */
  function GoIdle(k: Tank): Decision {
    if k.currentState != Idle then
      Decision(k.(currentState := Idle, currentTargetCapturePoint := None,
                  currentNavigationTargetPosition := k.position, currentPath := None),
               k.currentTargetCapturePoint.Some?)
    else Decision(k.(currentTargetCapturePoint := None), false)
  }

  /** The navigation target around a newly chosen capture point. */
  function ApproachPoint(k: Tank, point: PointView, nearbyDraws: seq<Cell>, p: Profile): Point
    requires |nearbyDraws| >= p.nearbyPointMaxAttempts
  {
    NearbyWalkablePoint(p.grid, point.position, WorldToGrid(p.grid, k.position),
      Probes(WorldToGrid(p.grid, point.position), nearbyDraws[..Attempts(p.nearbyPointMaxAttempts)], HashBias(p.idHash)))
  }

  /**
   * `DecideNextAction`: a sensed player comes first; then, when the tank has
   * capture points, the best one, else patrol, else idle; with no capture
   * points, patrol or idle. `points` are the capture points as seen this
   * tick, `jitter` the random perturbation of `FindBestCapturePoint` and
   * `nearbyDraws` the draws of `GetNearbyWalkablePoint`.
   */
  function Decide(k: Tank, points: seq<Slot>, jitter: Point, nearbyDraws: seq<Cell>, p: Profile, t: Targeters): Decision
    requires |nearbyDraws| >= p.nearbyPointMaxAttempts
  {
    if k.currentTargetPlayer.Some? then Chase(k, k.currentTargetPlayer.value)
    else if |points| > 0 then
      var best := FindBestCapturePoint(points, p.ownTag, t, p.uniqueID, k.position, jitter);
      if best.Some? then
        var point := points[best.value].value;
        Seek(k, point.id, ApproachPoint(k, point, nearbyDraws, p))
      else if p.enablePatrolling then Patrol(k, false)
      else GoIdle(k)
    else if p.enablePatrolling then Patrol(k, true)
    else GoIdle(k)
  }

  /** The registry after `DecideNextAction`: on a change, the previous point
      is released and the new one claimed. */
  function Reclaimed(t: Targeters, prev: Option<PointId>, d: Decision, tankId: string): Targeters {
    if d.claimChanged then Added(Removed(t, prev, tankId), d.tank.currentTargetCapturePoint, tankId) else t
  }

  /** The points a tank may claim while heading for `target`. */
  function Held(target: Option<PointId>): set<PointId> {
    if target.Some? then {target.value} else {}
  }

  /**
   * The claim invariant of one tank: it claims nothing but its current
   * target; an idle tank has no target; and a tank with a target has
   * capture points to choose from.
   */
  ghost predicate ClaimsConsistent(t: Targeters, k: Tank, tankId: string) {
    tankId != "" &&
    ClaimsOf(t, tankId) <= Held(k.currentTargetCapturePoint) &&
    (k.currentState == Idle ==> k.currentTargetCapturePoint.None?) &&
    (k.currentTargetCapturePoint.Some? ==> k.capturePointCount > 0)
  }

  /** How one registry update moves a tank's claims, and every other tank's
      claims are untouched. */
  lemma ReclaimedClaims(t: Targeters, prev: Option<PointId>, d: Decision, tankId: string, other: string)
    requires tankId != ""
    ensures d.claimChanged ==>
      ClaimsOf(Reclaimed(t, prev, d, tankId), tankId) ==
        (ClaimsOf(t, tankId) - Held(prev)) + Held(d.tank.currentTargetCapturePoint)
    ensures other != tankId ==> ClaimsOf(Reclaimed(t, prev, d, tankId), other) == ClaimsOf(t, other)
  {
    if d.claimChanged {
      var r := Removed(t, prev, tankId);
      ClaimsOfRemoved(t, prev, tankId, other);
      ClaimsOfAdded(r, d.tank.currentTargetCapturePoint, tankId, other);
    }
  }

  /** What every branch of `DecideNextAction` leaves alone: the capture point
      count; the target, unless it is dropped or the claim moves; and an idle
      tank never keeps a target. */
  lemma DecideShape(k: Tank, points: seq<Slot>, jitter: Point, nearbyDraws: seq<Cell>, p: Profile, t: Targeters)
    requires |nearbyDraws| >= p.nearbyPointMaxAttempts
    ensures var d := Decide(k, points, jitter, nearbyDraws, p, t);
      d.tank.capturePointCount == k.capturePointCount &&
      (d.tank.currentState == Idle ==> d.tank.currentTargetCapturePoint.None?) &&
      (!d.claimChanged ==>
         d.tank.currentTargetCapturePoint == k.currentTargetCapturePoint ||
         (d.tank.currentTargetCapturePoint.None? && (k.currentState == Idle || |points| == 0))) &&
      (d.tank.currentTargetCapturePoint.Some? ==>
         d.tank.currentTargetCapturePoint == k.currentTargetCapturePoint || |points| > 0)
  {
    if k.currentTargetPlayer.None? && |points| > 0 {
      var best := FindBestCapturePoint(points, p.ownTag, t, p.uniqueID, k.position, jitter);
      if best.Some? {
        var point := points[best.value].value;
        assert Decide(k, points, jitter, nearbyDraws, p, t) == Seek(k, point.id, ApproachPoint(k, point, nearbyDraws, p));
      }
    }
  }

  /** `DecideNextAction` keeps the claim invariant, over capture point lists
      of the length recorded at start, and never touches another tank's
      claims. */
  lemma DecidePreservesClaims(k: Tank, points: seq<Slot>, jitter: Point, nearbyDraws: seq<Cell>,
                              p: Profile, t: Targeters)
    requires |nearbyDraws| >= p.nearbyPointMaxAttempts && |points| == k.capturePointCount
    requires ClaimsConsistent(t, k, p.uniqueID)
    ensures var d := Decide(k, points, jitter, nearbyDraws, p, t);
      ClaimsConsistent(Reclaimed(t, k.currentTargetCapturePoint, d, p.uniqueID), d.tank, p.uniqueID)
    ensures var d := Decide(k, points, jitter, nearbyDraws, p, t);
      forall other :: other != p.uniqueID ==>
        ClaimsOf(Reclaimed(t, k.currentTargetCapturePoint, d, p.uniqueID), other) == ClaimsOf(t, other)
  {
    var d := Decide(k, points, jitter, nearbyDraws, p, t);
    DecideShape(k, points, jitter, nearbyDraws, p, t);
    ReclaimedClaims(t, k.currentTargetCapturePoint, d, p.uniqueID, p.uniqueID);
    forall other | other != p.uniqueID
      ensures ClaimsOf(Reclaimed(t, k.currentTargetCapturePoint, d, p.uniqueID), other) == ClaimsOf(t, other)
    {
      ReclaimedClaims(t, k.currentTargetCapturePoint, d, p.uniqueID, other);
    }
  }

  /** With a player sensed, the tank attacks, drops its capture point and
      releases its claim on it. */
  lemma DecideAttacksPlayer(k: Tank, points: seq<Slot>, jitter: Point, nearbyDraws: seq<Cell>, p: Profile, t: Targeters)
    requires |nearbyDraws| >= p.nearbyPointMaxAttempts && p.uniqueID != ""
    requires k.currentTargetPlayer.Some?
    ensures var d := Decide(k, points, jitter, nearbyDraws, p, t);
      d.tank.currentState == AttackingPlayer && d.tank.currentTargetCapturePoint == None &&
      d.tank.currentNavigationTargetPosition == k.currentTargetPlayer.value &&
      ClaimsOf(Reclaimed(t, k.currentTargetCapturePoint, d, p.uniqueID), p.uniqueID) ==
        ClaimsOf(t, p.uniqueID) - Held(k.currentTargetCapturePoint)
  {
    var d := Decide(k, points, jitter, nearbyDraws, p, t);
    ReclaimedClaims(t, k.currentTargetCapturePoint, d, p.uniqueID, p.uniqueID);
  }

  /** A seeking tank heads for the point `FindBestCapturePoint` chose, which
      its own team does not control. */
  lemma DecideSeeksBestPoint(k: Tank, points: seq<Slot>, jitter: Point, nearbyDraws: seq<Cell>, p: Profile, t: Targeters)
    requires |nearbyDraws| >= p.nearbyPointMaxAttempts
    requires k.currentTargetPlayer.None?
    ensures var d := Decide(k, points, jitter, nearbyDraws, p, t);
      var best := FindBestCapturePoint(points, p.ownTag, t, p.uniqueID, k.position, jitter);
      (d.tank.currentState == SeekingCapturePoint <==> best.Some?) &&
      (best.Some? ==>
         d.tank.currentTargetCapturePoint == Some(points[best.value].value.id) &&
         points[best.value].value.controllingTeamTag != Some(p.ownTag))
  {
  }

  /** The patrol branch with capture points keeps its target point, so the
      release and claim it performs leave the registry as it was. */
  lemma DecidePatrolKeepsClaim(k: Tank, points: seq<Slot>, jitter: Point, nearbyDraws: seq<Cell>, p: Profile, t: Targeters)
    requires |nearbyDraws| >= p.nearbyPointMaxAttempts && p.enablePatrolling && |points| > 0
    requires k.currentTargetPlayer.None? && k.currentState != Patrolling
    requires FindBestCapturePoint(points, p.ownTag, t, p.uniqueID, k.position, jitter).None?
    requires Targeting(t, k.currentTargetCapturePoint, p.uniqueID)
    ensures var d := Decide(k, points, jitter, nearbyDraws, p, t);
      d.claimChanged && d.tank.currentState == Patrolling &&
      d.tank.currentTargetCapturePoint == k.currentTargetCapturePoint &&
      Reclaimed(t, k.currentTargetCapturePoint, d, p.uniqueID) == t
  {
    RemoveThenAddIsIdentity(t, k.currentTargetCapturePoint, p.uniqueID);
  }

  /* ---------------- MoveAlongPath and HandleShooting ---------------- */

  /** `MoveAlongPath`: with a waypoint ahead, the tank moves to `newPosition`
      (the `Vector2.MoveTowards` step) and the cursor advances once that
      position is within 0.1 of the waypoint. */
  function Moved(k: Tank, newPosition: Point): Tank {
    if k.currentPath.None? || k.currentPathIndex >= |k.currentPath.value| then k
    else
      var targetWaypoint := k.currentPath.value[k.currentPathIndex];
      if Closer(newPosition, targetWaypoint, 0.1) then
        k.(position := newPosition, currentPathIndex := k.currentPathIndex + 1)
      else k.(position := newPosition)
  }

  /** The cursor never passes the end of the path and moves by at most one
      waypoint per call; nothing but the position and the cursor changes. */
  lemma MovedCursor(k: Tank, newPosition: Point)
    requires k.currentPath.Some? ==> k.currentPathIndex <= |k.currentPath.value|
    ensures var m := Moved(k, newPosition);
      (m.currentPath.Some? ==> m.currentPathIndex <= |m.currentPath.value|) &&
      k.currentPathIndex <= m.currentPathIndex <= k.currentPathIndex + 1 &&
      m == k.(position := m.position, currentPathIndex := m.currentPathIndex)
    ensures k.currentPath.None? || k.currentPathIndex >= |k.currentPath.value| ==> Moved(k, newPosition) == k
  {
  }

  /** The fire gate of `HandleShooting`: attacking a sensed player within
      shooting range, the cooldown over and the cannon within 20 degrees of
      the player (`aligned`). */
  predicate Fires(k: Tank, p: Profile, time: real, aligned: bool) {
    k.currentState == AttackingPlayer && k.currentTargetPlayer.Some? &&
    NoFarther(k.position, k.currentTargetPlayer.value, p.shootingRange) &&
    time >= k.nextFireTime && aligned
  }

  /** The fields after `HandleShooting`: a shot restarts the cooldown. */
  function AfterShooting(k: Tank, p: Profile, time: real, aligned: bool): Tank {
    if Fires(k, p, time, aligned) then k.(nextFireTime := time + p.fireRate) else k
  }

  /** Two shots are at least `fireRate` apart. */
  lemma ShotsAreSpaced(k: Tank, p: Profile, t1: real, a1: bool, t2: real, a2: bool)
    requires Fires(k, p, t1, a1)
    requires Fires(AfterShooting(k, p, t1, a1), p, t2, a2)
    ensures t2 >= t1 + p.fireRate
  {
  }

  /** The random draws of one `GenerateNewPatrolPoint` call: the candidate
      offsets, the fallback probes and the delay before the next change. */
  datatype PatrolDraws = PatrolDraws(offsets: seq<Point>, fallbackDraws: seq<Cell>, wait: real)

  predicate EnoughDraws(d: PatrolDraws) {
    |d.offsets| >= PatrolAttempts && |d.fallbackDraws| >= FallbackAttempts
  }

  /** The fields after `GenerateNewPatrolPoint`: a new patrol point and
      change time, and a patrolling tank heads for the point afresh. */
  function PatrolRenewed(k: Tank, p: Profile, time: real, d: PatrolDraws): Tank
    requires EnoughDraws(d)
  {
    var pt := PatrolPoint(p.grid, k.position, d.offsets, d.fallbackDraws, HashBias(p.idHash));
    if k.currentState == Patrolling
    then k.(patrolTargetPosition := pt, currentNavigationTargetPosition := pt,
            currentPath := None, nextPatrolChangeTime := time + d.wait)
    else k.(patrolTargetPosition := pt, nextPatrolChangeTime := time + d.wait)
  }

  /** The timed renewal at the end of `Update`: a patrolling tank whose
      change time has passed renews its patrol point. */
  function TimedPatrol(k: Tank, p: Profile, time: real, d: PatrolDraws): Tank
    requires EnoughDraws(d)
  {
    if k.currentState == Patrolling && time > k.nextPatrolChangeTime then PatrolRenewed(k, p, time, d) else k
  }

  /**
   * What `HandlePathfinding` makes of fields `k`, as `k2` with the search's
   * cells `cells`: no path while idle; at the destination cell no path, and a
   * patrolling tank renews its patrol point and searches towards it unless
   * it lies in the tank's cell, where the cursor stays; otherwise a new search (timer reset, target
   * remembered, cursor at the start) when the path is missing or empty, the
   * recalculation period has elapsed, or an attacked player has moved more
   * than 0.1 since the last search, and only the timer advances if not. A
   * search gives no path for an impassable end, and a found one is a grid
   * path trimmed within a tenth of a tile.
   */
  ghost predicate Pathed(p: Profile, k: Tank, dt: real, time: real, d: PatrolDraws, k2: Tank, cells: seq<Cell>)
    requires EnoughDraws(d)
  {
    var g := p.grid;
    var start := WorldToGrid(g, k.position);
    var end := WorldToGrid(g, k.currentNavigationTargetPosition);
    var timer := k.timeSinceLastPathRecalc + dt;
    var recalc := k.currentPath.None? || |k.currentPath.value| == 0 || timer >= p.pathRecalculationRate ||
      (k.currentState == AttackingPlayer && Farther(k.currentNavigationTargetPosition, k.lastTargetPosition, 0.1));
    (k.currentState == Idle ==> k2 == k.(timeSinceLastPathRecalc := timer, currentPath := None)) &&
    (k.currentState != Idle && k.currentState != Patrolling && start == end ==>
       k2 == k.(timeSinceLastPathRecalc := timer, currentPath := None)) &&
    (k.currentState == Patrolling && start == end ==>
       var pt := PatrolPoint(g, k.position, d.offsets, d.fallbackDraws, HashBias(p.idHash));
       k2 == k.(timeSinceLastPathRecalc := timer, patrolTargetPosition := pt,
                currentNavigationTargetPosition := pt, nextPatrolChangeTime := time + d.wait,
                currentPath := k2.currentPath, currentPathIndex := k2.currentPathIndex) &&
       (WorldToGrid(g, pt) == start ==> k2.currentPath == None && k2.currentPathIndex == k.currentPathIndex) &&
       (WorldToGrid(g, pt) != start ==> k2.currentPathIndex == 0) &&
       (!Passable(g, start) || !Passable(g, WorldToGrid(g, pt)) ==> k2.currentPath == None) &&
       (k2.currentPath.Some? && g.width * g.height <= MaxSteps + 1 ==>
          IsGridPath(g, start, cells, WorldToGrid(g, pt)) &&
          k2.currentPath.value == Trimmed(Centres(g, cells), k.position, g.tileSize * 0.1))) &&
    (k.currentState != Idle && start != end ==>
       (!recalc ==> k2 == k.(timeSinceLastPathRecalc := timer)) &&
       (recalc ==>
          k2 == k.(timeSinceLastPathRecalc := 0.0, lastTargetPosition := k.currentNavigationTargetPosition,
                   currentPath := k2.currentPath, currentPathIndex := 0) &&
          (!Passable(g, start) || !Passable(g, end) ==> k2.currentPath == None) &&
          (k2.currentPath.Some? && g.width * g.height <= MaxSteps + 1 ==>
             IsGridPath(g, start, cells, end) &&
             k2.currentPath.value == Trimmed(Centres(g, cells), k.position, g.tileSize * 0.1))))
  }

  /**
   * What one frame brings in from outside the controller: the closest living
   * player `DetectPlayers` found, the capture points as they are now, the
   * random draws, the clock, the frame time, the search fuel, the position
   * `Vector2.MoveTowards` gives and whether the cannon is aligned with the
   * player. A patrol point may be renewed twice in a frame, hence two sets
   * of patrol draws.
   */
  datatype Tick = Tick(
    sensedPlayer: Option<Point>,
    points: seq<Slot>,
    jitter: Point,
    nearbyDraws: seq<Cell>,
    time: real,
    dt: real,
    fuel: nat,
    newPosition: Point,
    aligned: bool,
    pathPatrol: PatrolDraws,
    timedPatrol: PatrolDraws)

  /** `EnemyTankController`. `registry` is the claim dictionary the enemy
      tanks share. */
  class EnemyTankController {
    const profile: Profile
    const registry: TargetRegistry
    var currentState: AIState
    var currentTargetPlayer: Option<Point>
    var currentTargetCapturePoint: Option<PointId>
    var currentNavigationTargetPosition: Point
    var patrolTargetPosition: Point
    var nextPatrolChangeTime: real
    var currentPath: Option<seq<Point>>
    var currentPathIndex: nat
    var timeSinceLastPathRecalc: real
    var lastTargetPosition: Point
    var nextFireTime: real
    var position: Point
    var capturePointCount: nat

    /** All the fields at once. */
    function Snapshot(): Tank
      reads this
    {
      Tank(currentState, currentTargetPlayer, currentTargetCapturePoint, currentNavigationTargetPosition,
           patrolTargetPosition, nextPatrolChangeTime, currentPath, currentPathIndex,
           timeSinceLastPathRecalc, lastTargetPosition, nextFireTime, position, capturePointCount)
    }

    ghost predicate Consistent()
      reads this, registry
    {
      ClaimsConsistent(registry.targeters, Snapshot(), profile.uniqueID)
    }

    /** The field initialisers and `Awake`. `profile.uniqueID` is the fresh
        identifier `Awake` generates, which no tank has claimed anything
        under. */
    constructor (profile: Profile, registry: TargetRegistry, position: Point)
      requires profile.uniqueID != "" && ClaimsOf(registry.targeters, profile.uniqueID) == {}
      ensures this.profile == profile && this.registry == registry
      ensures Snapshot() == Tank(Idle, None, None, Point(0.0, 0.0), Point(0.0, 0.0), 0.0, None, 0, 0.0,
                                 Point(0.0, 0.0), 0.0, position, 0)
      ensures Consistent()
    {
      this.profile := profile;
      this.registry := registry;
      currentState := Idle;
      currentTargetPlayer := None;
      currentTargetCapturePoint := None;
      currentNavigationTargetPosition := Point(0.0, 0.0);
      patrolTargetPosition := Point(0.0, 0.0);
      nextPatrolChangeTime := 0.0;
      currentPath := None;
      currentPathIndex := 0;
      timeSinceLastPathRecalc := 0.0;
      lastTargetPosition := Point(0.0, 0.0);
      nextFireTime := 0.0;
      this.position := position;
      capturePointCount := 0;
    }

    /** `Start`: records the capture points, idles on the spot and picks a
        first patrol point. The delayed first decision is the caller's. */
    method Start(points: seq<Slot>, time: real, offsets: seq<Point>, fallbackDraws: seq<Cell>, wait: real)
      requires |offsets| >= PatrolAttempts && |fallbackDraws| >= FallbackAttempts
      modifies this
      ensures capturePointCount == |points| && currentState == Idle
      ensures currentNavigationTargetPosition == old(position) && lastTargetPosition == old(position)
      ensures patrolTargetPosition == PatrolPoint(profile.grid, old(position), offsets, fallbackDraws, HashBias(profile.idHash))
      ensures nextPatrolChangeTime == time + wait
      ensures currentTargetCapturePoint == old(currentTargetCapturePoint) && position == old(position)
      ensures old(Consistent()) && old(currentTargetCapturePoint).None? ==> Consistent()
      ensures Snapshot() == old(Snapshot()).(capturePointCount := |points|, currentState := Idle,
        currentNavigationTargetPosition := old(position), lastTargetPosition := old(position),
        patrolTargetPosition := PatrolPoint(profile.grid, old(position), offsets, fallbackDraws, HashBias(profile.idHash)),
        nextPatrolChangeTime := time + wait)
    {
      capturePointCount := |points|;
      currentState := Idle;
      currentNavigationTargetPosition := position;
      lastTargetPosition := position;
      GenerateNewPatrolPoint(time, offsets, fallbackDraws, wait);
    }

    /** `GetNearbyWalkablePoint`: probes `maxAttempts` random cells around
        `origin`'s cell. */
    method GetNearbyWalkablePoint(origin: Point, currentTankGridPos: Cell, maxAttempts: int, draws: seq<Cell>)
      returns (r: Point)
      requires |draws| >= maxAttempts
      ensures r == NearbyWalkablePoint(profile.grid, origin, currentTankGridPos,
                     Probes(WorldToGrid(profile.grid, origin), draws[..Attempts(maxAttempts)], HashBias(profile.idHash)))
    {
      var g := profile.grid;
      var originGridPos := WorldToGrid(g, origin);
      ghost var probes := Probes(originGridPos, draws[..Attempts(maxAttempts)], HashBias(profile.idHash));
      var bestFoundPos := originGridPos;
      var foundAnyWalkable := false;
      var i := 0;
      while i < maxAttempts
        invariant 0 <= i <= Attempts(maxAttempts)
        invariant forall j :: 0 <= j < i ==> !FreeCell(g, currentTankGridPos, probes[j])
        invariant foundAnyWalkable <==> exists j :: 0 <= j < i && Passable(g, probes[j])
        invariant foundAnyWalkable ==> bestFoundPos == currentTankGridPos && Passable(g, bestFoundPos)
      {
        var randomXOffset := TruncRem(profile.idHash, 10) - 5;
        var randomYOffset := TruncRem(profile.idHash / 32, 10) - 5;
        var randomX := draws[i].x + TruncRem(randomXOffset, 3);
        var randomY := draws[i].y + TruncRem(randomYOffset, 3);
        var potentialGridPos := Cell(originGridPos.x + randomX, originGridPos.y + randomY);
        assert potentialGridPos == probes[i];
        if IsWithinBounds(g, potentialGridPos) && IsWalkable(g, potentialGridPos) {
          foundAnyWalkable := true;
          bestFoundPos := potentialGridPos;
          if potentialGridPos != currentTankGridPos {
            return GridToWorld(g, potentialGridPos);
          }
        }
        i := i + 1;
      }
      if foundAnyWalkable {
        ghost var j :| 0 <= j < i && Passable(g, probes[j]);
        assert probes[j] == currentTankGridPos;
        return GridToWorld(g, bestFoundPos);
      } else {
        return origin;
      }
    }

    /** `GenerateNewPatrolPoint`: up to 20 random candidates, then the nearby
        fallback; a patrolling tank heads for the new point at once. `wait`
        is the random delay before the next change. */
    method GenerateNewPatrolPoint(time: real, offsets: seq<Point>, fallbackDraws: seq<Cell>, wait: real)
      requires |offsets| >= PatrolAttempts && |fallbackDraws| >= FallbackAttempts
      modifies this
      ensures Snapshot() == PatrolRenewed(old(Snapshot()), profile, time, PatrolDraws(offsets, fallbackDraws, wait))
    {
      var g := profile.grid;
      var foundValidPoint := false;
      var currentGridPos := WorldToGrid(g, position);
      ghost var cells := PatrolCells(g, position, offsets[..PatrolAttempts]);
      var i := 0;
      while i < PatrolAttempts
        invariant 0 <= i <= PatrolAttempts
        invariant forall j :: 0 <= j < i ==> !FreeCell(g, currentGridPos, cells[j])
        invariant foundValidPoint ==> FirstFree(g, currentGridPos, cells) == Some(i)
        invariant foundValidPoint ==>
          patrolTargetPosition == PatrolPoint(g, position, offsets, fallbackDraws, HashBias(profile.idHash))
        invariant Snapshot() == old(Snapshot()).(patrolTargetPosition := patrolTargetPosition)
      {
        var potentialPoint := Point(position.x + offsets[i].x, position.y + offsets[i].y);
        var gridPos := WorldToGrid(g, potentialPoint);
        assert gridPos == cells[i];
        if IsWithinBounds(g, gridPos) && IsWalkable(g, gridPos) && gridPos != currentGridPos {
          patrolTargetPosition := GridToWorld(g, gridPos);
          foundValidPoint := true;
          break;
        }
        i := i + 1;
      }
      if !foundValidPoint {
        patrolTargetPosition := GetNearbyWalkablePoint(position, currentGridPos, FallbackAttempts, fallbackDraws);
      }
      if currentState == Patrolling {
        currentNavigationTargetPosition := patrolTargetPosition;
        currentPath := None;
      }
      nextPatrolChangeTime := time + wait;
    }

    /** `DecideNextAction`, with the registry update at its end. */
    method DecideNextAction(points: seq<Slot>, jitter: Point, nearbyDraws: seq<Cell>)
      requires |nearbyDraws| >= profile.nearbyPointMaxAttempts
      modifies this, registry
      ensures var d := Decide(old(Snapshot()), points, jitter, nearbyDraws, profile, old(registry.targeters));
        Snapshot() == d.tank &&
        registry.targeters == Reclaimed(old(registry.targeters), old(currentTargetCapturePoint), d, profile.uniqueID)
    {
      var previousTargetCapturePoint := currentTargetCapturePoint;
      var targetPointChanged;
      if currentTargetPlayer.Some? {
        targetPointChanged := ChasePlayer(currentTargetPlayer.value);
      } else if |points| > 0 {
        var bestCapturePoint := FindBestCapturePoint(points, profile.ownTag, registry.targeters, profile.uniqueID, position, jitter);
        if bestCapturePoint.Some? {
          var best := points[bestCapturePoint.value].value;
          var nav := currentNavigationTargetPosition;
          if Some(best.id) != currentTargetCapturePoint {
            nav := GetNearbyWalkablePoint(best.position, WorldToGrid(profile.grid, position),
                                          profile.nearbyPointMaxAttempts, nearbyDraws);
          }
          targetPointChanged := SeekPoint(best.id, nav);
        } else if profile.enablePatrolling {
          targetPointChanged := EnterPatrol(false);
        } else {
          targetPointChanged := EnterIdle();
        }
      } else if profile.enablePatrolling {
        targetPointChanged := EnterPatrol(true);
      } else {
        targetPointChanged := EnterIdle();
      }
      if targetPointChanged {
        registry.RemoveTankFromTargeters(previousTargetCapturePoint, profile.uniqueID);
        registry.AddTankToTargeters(currentTargetCapturePoint, profile.uniqueID);
      }
    }

    /** The player branch of `DecideNextAction`. */
    method ChasePlayer(player: Point) returns (targetPointChanged: bool)
      modifies this
      ensures Decision(Snapshot(), targetPointChanged) == Chase(old(Snapshot()), player)
    {
      var previousState := currentState;
      targetPointChanged := currentTargetCapturePoint.Some?;
      currentState := AttackingPlayer;
      currentTargetCapturePoint := None;
      currentNavigationTargetPosition := player;
      if previousState != AttackingPlayer || Farther(lastTargetPosition, currentNavigationTargetPosition, 0.5) {
        currentPath := None;
      }
    }

    /** The chosen-point branch of `DecideNextAction`; `nav` is only used
        for a newly chosen point. */
    method SeekPoint(id: PointId, nav: Point) returns (targetPointChanged: bool)
      modifies this
      ensures Decision(Snapshot(), targetPointChanged) == Seek(old(Snapshot()), id, nav)
    {
      currentState := SeekingCapturePoint;
      targetPointChanged := false;
      if Some(id) != currentTargetCapturePoint {
        currentTargetCapturePoint := Some(id);
        currentNavigationTargetPosition := nav;
        currentPath := None;
        targetPointChanged := true;
      }
    }

    /** The patrol branches of `DecideNextAction`. */
    method EnterPatrol(dropTarget: bool) returns (targetPointChanged: bool)
      modifies this
      ensures Decision(Snapshot(), targetPointChanged) == Patrol(old(Snapshot()), dropTarget)
    {
      targetPointChanged := false;
      if currentState != Patrolling {
        currentState := Patrolling;
        currentNavigationTargetPosition := patrolTargetPosition;
        currentPath := None;
        if currentTargetCapturePoint.Some? {
          targetPointChanged := true;
        }
      }
      if dropTarget {
        currentTargetCapturePoint := None;
      }
    }

    /** The idle branches of `DecideNextAction`. */
    method EnterIdle() returns (targetPointChanged: bool)
      modifies this
      ensures Decision(Snapshot(), targetPointChanged) == GoIdle(old(Snapshot()))
    {
      targetPointChanged := false;
      if currentState != Idle {
        currentState := Idle;
        currentNavigationTargetPosition := position;
        currentPath := None;
        if currentTargetCapturePoint.Some? {
          targetPointChanged := true;
        }
      }
      currentTargetCapturePoint := None;
    }

    /** `FindPath`: a Dijkstra search from `startGridPos` to `endGridPos`,
        dropping the first waypoint when the tank already stands within a
        tenth of a tile of it, and a cursor back at the start. */
    method FindPath(startGridPos: Cell, endGridPos: Cell, fuel: nat) returns (ghost cells: seq<Cell>)
      modifies this
      ensures Snapshot() == old(Snapshot()).(currentPath := currentPath, currentPathIndex := 0)
      ensures !Passable(profile.grid, startGridPos) || !Passable(profile.grid, endGridPos) ==> currentPath == None
      ensures Passable(profile.grid, startGridPos) && startGridPos == endGridPos && fuel > 0 ==> currentPath == Some([])
      ensures currentPath.Some? && profile.grid.width * profile.grid.height <= MaxSteps + 1 ==>
        IsGridPath(profile.grid, startGridPos, cells, endGridPos) &&
        currentPath.value == Trimmed(Centres(profile.grid, cells), position, profile.grid.tileSize * 0.1)
    {
      var path;
      path, cells := DijkstraSearch(profile.grid, startGridPos, endGridPos, fuel);
      currentPath := path;
      if currentPath.Some? && |currentPath.value| > 0 &&
         Closer(position, currentPath.value[0], profile.grid.tileSize * 0.1) {
        currentPath := Some(currentPath.value[1..]);
      }
      currentPathIndex := 0;
    }

    /**
     * `HandlePathfinding`: no path while idle; at the destination cell no
     * path, and a patrolling tank picks a new patrol point and searches
     * towards it; otherwise a new search when the path is missing or empty,
     * the recalculation period has elapsed, or an attacked player has moved
     * more than 0.1 since the last search.
     */
    method HandlePathfinding(dt: real, time: real, offsets: seq<Point>, fallbackDraws: seq<Cell>, wait: real, fuel: nat)
      returns (ghost cells: seq<Cell>)
      requires |offsets| >= PatrolAttempts && |fallbackDraws| >= FallbackAttempts
      modifies this
      ensures currentState == old(currentState) && currentTargetCapturePoint == old(currentTargetCapturePoint)
      ensures currentTargetPlayer == old(currentTargetPlayer) && capturePointCount == old(capturePointCount)
      ensures Pathed(profile, old(Snapshot()), dt, time, PatrolDraws(offsets, fallbackDraws, wait), Snapshot(), cells)
    {
      cells := [];
      timeSinceLastPathRecalc := timeSinceLastPathRecalc + dt;
      if currentState == Idle {
        currentPath := None;
        return;
      }
      var g := profile.grid;
      var startGridPos := WorldToGrid(g, position);
      var endGridPos := WorldToGrid(g, currentNavigationTargetPosition);
      if startGridPos == endGridPos {
        currentPath := None;
        if currentState == Patrolling {
          cells := RenewPatrolRoute(startGridPos, time, offsets, fallbackDraws, wait, fuel);
        }
        return;
      }
      var targetPosChanged := Farther(currentNavigationTargetPosition, lastTargetPosition, 0.1);
      var timerElapsed := timeSinceLastPathRecalc >= profile.pathRecalculationRate;
      var pathInvalid := currentPath.None? || |currentPath.value| == 0;
      if pathInvalid || timerElapsed || (currentState == AttackingPlayer && targetPosChanged) {
        cells := FindPath(startGridPos, endGridPos, fuel);
        timeSinceLastPathRecalc := 0.0;
        lastTargetPosition := currentNavigationTargetPosition;
      }
    }

    /** The arrival branch of `HandlePathfinding` for a patrolling tank: a
        new patrol point becomes the navigation target and, unless it lies in
        the tank's own cell, a search runs towards it. */
    method RenewPatrolRoute(startGridPos: Cell, time: real, offsets: seq<Point>, fallbackDraws: seq<Cell>,
                            wait: real, fuel: nat)
      returns (ghost cells: seq<Cell>)
      requires |offsets| >= PatrolAttempts && |fallbackDraws| >= FallbackAttempts
      requires currentState == Patrolling && currentPath == None
      requires startGridPos == WorldToGrid(profile.grid, position)
      modifies this
      ensures var g := profile.grid;
        var p := PatrolPoint(g, old(position), offsets, fallbackDraws, HashBias(profile.idHash));
        Snapshot() == old(Snapshot()).(patrolTargetPosition := p, currentNavigationTargetPosition := p,
                                       nextPatrolChangeTime := time + wait,
                                       currentPath := currentPath, currentPathIndex := currentPathIndex) &&
        (WorldToGrid(g, p) == startGridPos ==> currentPath == None && currentPathIndex == old(currentPathIndex)) &&
        (WorldToGrid(g, p) != startGridPos ==> currentPathIndex == 0) &&
        (!Passable(g, startGridPos) || !Passable(g, WorldToGrid(g, p)) ==> currentPath == None) &&
        (currentPath.Some? && g.width * g.height <= MaxSteps + 1 ==>
           IsGridPath(g, startGridPos, cells, WorldToGrid(g, p)) &&
           currentPath.value == Trimmed(Centres(g, cells), position, g.tileSize * 0.1))
    {
      cells := [];
      GenerateNewPatrolPoint(time, offsets, fallbackDraws, wait);
      currentNavigationTargetPosition := patrolTargetPosition;
      var endGridPos := WorldToGrid(profile.grid, currentNavigationTargetPosition);
      if startGridPos != endGridPos {
        cells := FindPath(startGridPos, endGridPos, fuel);
      }
    }

    /** `MoveAlongPath`; `newPosition` is where `Vector2.MoveTowards` puts the
        tank this frame. */
    method MoveAlongPath(newPosition: Point)
      modifies this
      ensures Snapshot() == Moved(old(Snapshot()), newPosition)
    {
      if currentPath.None? || currentPathIndex >= |currentPath.value| {
        return;
      }
      var targetWaypoint := currentPath.value[currentPathIndex];
      position := newPosition;
      if Closer(position, targetWaypoint, 0.1) {
        currentPathIndex := currentPathIndex + 1;
      }
    }

    /** `HandleShooting`; `fired` says whether `Shoot` ran. */
    method HandleShooting(time: real, aligned: bool) returns (fired: bool)
      modifies this
      ensures fired == Fires(old(Snapshot()), profile, time, aligned)
      ensures Snapshot() == AfterShooting(old(Snapshot()), profile, time, aligned)
    {
      fired := false;
      if currentState != AttackingPlayer || currentTargetPlayer.None? {
        return;
      }
      if NoFarther(position, currentTargetPlayer.value, profile.shootingRange) && time >= nextFireTime {
        if aligned {
          fired := true;
          nextFireTime := time + profile.fireRate;
        }
      }
    }

    /**
     * `Update`: nothing while the tank is dead; otherwise sense, decide,
     * keep the path, move, shoot, and renew the patrol point once its time
     * has passed. Every tick keeps the claim invariant and leaves other
     * tanks' claims alone.
     */
    method Update(selfHealth: TankHealth?, tick: Tick) returns (fired: bool, ghost planned: Tank, ghost cells: seq<Cell>)
      requires |tick.nearbyDraws| >= profile.nearbyPointMaxAttempts
      requires EnoughDraws(tick.pathPatrol) && EnoughDraws(tick.timedPatrol)
      modifies this, registry
      ensures selfHealth != null && selfHealth.currentHealth <= 0.0 ==>
        !fired && Snapshot() == old(Snapshot()) && registry.targeters == old(registry.targeters)
      ensures !(selfHealth != null && selfHealth.currentHealth <= 0.0) ==>
        var d := Decide(old(Snapshot()).(currentTargetPlayer := tick.sensedPlayer), tick.points, tick.jitter,
                        tick.nearbyDraws, profile, old(registry.targeters));
        var m := Moved(planned, tick.newPosition);
        registry.targeters == Reclaimed(old(registry.targeters), old(currentTargetCapturePoint), d, profile.uniqueID) &&
        Pathed(profile, d.tank, tick.dt, tick.time, tick.pathPatrol, planned, cells) &&
        fired == Fires(m, profile, tick.time, tick.aligned) &&
        Snapshot() == TimedPatrol(AfterShooting(m, profile, tick.time, tick.aligned), profile, tick.time, tick.timedPatrol)
      ensures fired ==> currentState == AttackingPlayer && currentTargetPlayer == tick.sensedPlayer
      ensures old(Consistent()) && |tick.points| == old(capturePointCount) ==>
        Consistent() &&
        forall other :: other != profile.uniqueID ==> ClaimsOf(registry.targeters, other) == ClaimsOf(old(registry.targeters), other)
    {
      fired, planned, cells := false, Snapshot(), [];
      if selfHealth != null && selfHealth.currentHealth <= 0.0 {
        return;
      }
      Think(tick);
      fired, planned, cells := Act(tick);
    }

    /** The first half of `Update`: take in the sensed player and decide. */
    method Think(tick: Tick)
      requires |tick.nearbyDraws| >= profile.nearbyPointMaxAttempts
      modifies this, registry
      ensures var d := Decide(old(Snapshot()).(currentTargetPlayer := tick.sensedPlayer), tick.points, tick.jitter,
                              tick.nearbyDraws, profile, old(registry.targeters));
        Snapshot() == d.tank &&
        registry.targeters == Reclaimed(old(registry.targeters), old(currentTargetCapturePoint), d, profile.uniqueID)
      ensures currentTargetPlayer == tick.sensedPlayer
      ensures old(Consistent()) && |tick.points| == old(capturePointCount) ==>
        Consistent() &&
        forall other :: other != profile.uniqueID ==> ClaimsOf(registry.targeters, other) == ClaimsOf(old(registry.targeters), other)
    {
      ghost var wasConsistent := Consistent();
      ghost var t0 := registry.targeters;
      currentTargetPlayer := tick.sensedPlayer;
      ghost var k0 := Snapshot();
      assert wasConsistent ==> ClaimsConsistent(t0, k0, profile.uniqueID);
      DecideNextAction(tick.points, tick.jitter, tick.nearbyDraws);
      if wasConsistent && |tick.points| == k0.capturePointCount {
        DecidePreservesClaims(k0, tick.points, tick.jitter, tick.nearbyDraws, profile, t0);
      }
    }

    /** The second half of `Update`, after the decision: path, motion,
        shooting and the timed patrol renewal, none of which touches the
        state, the targets or the claims. */
    method Act(tick: Tick) returns (fired: bool, ghost planned: Tank, ghost cells: seq<Cell>)
      requires EnoughDraws(tick.pathPatrol) && EnoughDraws(tick.timedPatrol)
      modifies this
      ensures Pathed(profile, old(Snapshot()), tick.dt, tick.time, tick.pathPatrol, planned, cells)
      ensures var m := Moved(planned, tick.newPosition);
        fired == Fires(m, profile, tick.time, tick.aligned) &&
        Snapshot() == TimedPatrol(AfterShooting(m, profile, tick.time, tick.aligned), profile, tick.time, tick.timedPatrol)
      ensures currentState == old(currentState) && currentTargetCapturePoint == old(currentTargetCapturePoint)
      ensures currentTargetPlayer == old(currentTargetPlayer) && capturePointCount == old(capturePointCount)
      ensures fired ==> currentState == AttackingPlayer
    {
      cells := HandlePathfinding(tick.dt, tick.time, tick.pathPatrol.offsets, tick.pathPatrol.fallbackDraws,
                                 tick.pathPatrol.wait, tick.fuel);
      planned := Snapshot();
      MoveAlongPath(tick.newPosition);
      fired := HandleShooting(tick.time, tick.aligned);
      if currentState == Patrolling && tick.time > nextPatrolChangeTime {
        GenerateNewPatrolPoint(tick.time, tick.timedPatrol.offsets, tick.timedPatrol.fallbackDraws, tick.timedPatrol.wait);
      }
    }

    /** `OnDestroy`: releases the tank's claim, after which it claims
        nothing. */
    method OnDestroy()
      modifies registry
      ensures registry.targeters == Removed(old(registry.targeters), currentTargetCapturePoint, profile.uniqueID)
      ensures old(Consistent()) ==> ClaimsOf(registry.targeters, profile.uniqueID) == {}
    {
      ClaimsOfRemoved(registry.targeters, currentTargetCapturePoint, profile.uniqueID, profile.uniqueID);
      registry.RemoveTankFromTargeters(currentTargetCapturePoint, profile.uniqueID);
    }
  }
}
