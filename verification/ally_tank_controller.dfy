/**
 * The ally tank's AI: it attacks a sensed enemy, otherwise keeps heading for
 * a capture point its team does not control (the nearest one when it has
 * none), otherwise patrols between random walkable cells. It keeps an A*
 * path, shifted sideways by a per-tank offset, follows it waypoint by
 * waypoint and fires at an enemy in range and in sight.
 *
 * Engine queries become inputs: the closest living enemy the detection query
 * reports, the random draws, the motion step `Vector2.MoveTowards` produces,
 * the line-of-sight raycast, the perpendicular directions of the path
 * offset, the clock and the frame time.
 */
module AllyAI {
  import opened Wrappers
  import opened Grid
  import opened PathFinding
  import opened CapturePointSelection
  import opened Steering
  import opened Health

  /** `AllyTankController.AIState`. */
  datatype AIState = Idle | SeekingCapturePoint | AttackingEnemy | Patrolling

  /** The inspector settings of one ally tank; `instanceId` is
      `gameObject.GetInstanceID()`. */
  datatype Profile = Profile(
    grid: TiledGrid,
    ownTag: string,
    instanceId: int,
    fireRate: real,
    shootingRange: real,
    pathRecalculationRate: real,
    patrolPointReachedDistance: real,
    minStateChangeInterval: real,
    minPatrolPointChangeInterval: real,
    targetMovementThreshold: real)

  /** The controller's fields, and the tank's position. The target enemy is
      known by its position, the target capture point by its index in the
      list of capture points. */
  datatype Tank = Tank(
    currentState: AIState,
    currentTargetEnemy: Option<Point>,
    currentTargetCapturePoint: Option<nat>,
    currentNavigationTargetPosition: Point,
    currentPath: Option<seq<Point>>,
    currentPathIndex: nat,
    timeSinceLastPathRecalc: real,
    lastTargetPosition: Point,
    nextFireTime: real,
    lastStateChangeTime: real,
    lastPatrolPointChangeTime: real,
    position: Point)

  /**
   * The controller invariant: the tank seeks a capture point exactly when it
   * has one as target, and the path cursor never passes the end of the path.
   */
  ghost predicate Coherent(k: Tank) {
    (k.currentState == SeekingCapturePoint <==> k.currentTargetCapturePoint.Some?) &&
    (k.currentPath.Some? ==> k.currentPathIndex <= |k.currentPath.value|)
  }

  /* ---------------- SelectNewPatrolPoint ---------------- */

  /** The number of random cells `SelectNewPatrolPoint` tries. */
  const PatrolDraws: nat := 30

  /** The squared minimum distance between successive patrol points:
      two and a half times the reach distance, squared. */
  function MinPatrolDistSqr(p: Profile): real {
    (p.patrolPointReachedDistance * 2.5) * (p.patrolPointReachedDistance * 2.5)
  }

  /** A cell worth patrolling to: walkable, not the tank's own cell, and with
      a centre farther than the minimum from the previous navigation target. */
  predicate Acceptable(g: NavGrid, cur: Cell, previous: Point, minSqr: real, c: Cell) {
    IsWalkable(g, c) && c != cur && DistanceSqr(GridToWorld(g, c), previous) > minSqr
  }

  /** The index of the first acceptable cell. */
  function FirstAcceptable(g: NavGrid, cur: Cell, previous: Point, minSqr: real, cells: seq<Cell>): (r: Option<nat>)
    ensures r.Some? ==> r.value < |cells| && Acceptable(g, cur, previous, minSqr, cells[r.value])
    ensures r.Some? ==> forall j :: 0 <= j < r.value ==> !Acceptable(g, cur, previous, minSqr, cells[j])
    ensures r.None? ==> forall j :: 0 <= j < |cells| ==> !Acceptable(g, cur, previous, minSqr, cells[j])
  {
    if cells == [] then None
    else if Acceptable(g, cur, previous, minSqr, cells[0]) then Some(0)
    else
      var rest := FirstAcceptable(g, cur, previous, minSqr, cells[1..]);
      if rest.Some? then Some(rest.value + 1) else None
  }

  /** The new navigation target: the centre of the first acceptable draw,
      else `fallback`. */
  function PatrolTarget(g: NavGrid, cur: Cell, previous: Point, minSqr: real, draws: seq<Cell>, fallback: Point): Point
    requires |draws| >= PatrolDraws
  {
    var first := FirstAcceptable(g, cur, previous, minSqr, draws[..PatrolDraws]);
    if first.Some? then GridToWorld(g, draws[first.value]) else fallback
  }

  /** The fields after `SelectNewPatrolPoint`: the tank heads for the new
      target, a search counts as done towards it, and with no acceptable draw
      the tank goes idle where it stands. */
  function PatrolPick(k: Tank, p: Profile, draws: seq<Cell>): Tank
    requires |draws| >= PatrolDraws
  {
    var cur := WorldToGrid(p.grid, k.position);
    var found := FirstAcceptable(p.grid, cur, k.currentNavigationTargetPosition, MinPatrolDistSqr(p), draws[..PatrolDraws]).Some?;
    var target := PatrolTarget(p.grid, cur, k.currentNavigationTargetPosition, MinPatrolDistSqr(p), draws, k.position);
    (if found then k else k.(currentState := Idle)).(
      currentNavigationTargetPosition := target, lastTargetPosition := target, currentPath := None)
  }

  /** A new patrol point is the centre of an acceptable cell among the draws,
      and the tank goes idle exactly when no draw is acceptable. */
  lemma PatrolPickOutcome(k: Tank, p: Profile, draws: seq<Cell>)
    requires |draws| >= PatrolDraws && k.currentState != Idle
    ensures var r := PatrolPick(k, p, draws);
      var cur := WorldToGrid(p.grid, k.position);
      var minSqr := MinPatrolDistSqr(p);
      r.currentPath == None && r.lastTargetPosition == r.currentNavigationTargetPosition &&
      (r.currentState == Idle <==>
         forall i :: 0 <= i < PatrolDraws ==> !Acceptable(p.grid, cur, k.currentNavigationTargetPosition, minSqr, draws[i])) &&
      (r.currentState == Idle ==> r.currentNavigationTargetPosition == k.position) &&
      (r.currentState != Idle ==>
         r.currentState == k.currentState &&
         exists i :: 0 <= i < PatrolDraws &&
           Acceptable(p.grid, cur, k.currentNavigationTargetPosition, minSqr, draws[i]) &&
           r.currentNavigationTargetPosition == GridToWorld(p.grid, draws[i]))
  {
    var cur := WorldToGrid(p.grid, k.position);
    var cells := draws[..PatrolDraws];
    var first := FirstAcceptable(p.grid, cur, k.currentNavigationTargetPosition, MinPatrolDistSqr(p), cells);
    if first.Some? {
      assert cells[first.value] == draws[first.value];
    } else {
      forall i | 0 <= i < PatrolDraws
        ensures !Acceptable(p.grid, cur, k.currentNavigationTargetPosition, MinPatrolDistSqr(p), draws[i])
      {
        assert cells[i] == draws[i];
      }
    }
  }

  /** `CheckPatrolPointReached`: a patrolling tank within reach of its patrol
      point picks a new one, unless it changed points less than the minimum
      interval ago. */
  function PatrolCheck(k: Tank, p: Profile, time: real, draws: seq<Cell>): Tank
    requires |draws| >= PatrolDraws
  {
    if k.currentState != Patrolling then k
    else if Closer(k.position, k.currentNavigationTargetPosition, p.patrolPointReachedDistance) &&
            time - k.lastPatrolPointChangeTime >= p.minPatrolPointChangeInterval
    then PatrolPick(k, p, draws).(lastPatrolPointChangeTime := time)
    else k
  }

  /** Patrol points change no faster than the minimum interval, and the check
      keeps the controller invariant. */
  lemma PatrolCheckThrottled(k: Tank, p: Profile, time: real, draws: seq<Cell>)
    requires |draws| >= PatrolDraws && Coherent(k)
    ensures var r := PatrolCheck(k, p, time, draws);
      Coherent(r) &&
      (r != k ==> time - k.lastPatrolPointChangeTime >= p.minPatrolPointChangeInterval &&
                  r.lastPatrolPointChangeTime == time)
  {
  }

  /* ---------------- DecideNextAction ---------------- */

  /** `Vector3 != Vector3` in the plane: Unity's approximate comparison, which
      calls two vectors equal when their squared distance is below
      `kEpsilon * kEpsilon` (1e-5 squared, in single precision). */
  predicate Differs(a: Point, b: Point) {
    DistanceSqr(a, b) >= 0.0000000000999999944
  }

  /** The attack branch: a tank not yet attacking starts to, dropping its
      capture point; it retargets when the enemy has moved more than the
      threshold from the navigation target. Either event drops the path. */
  function Engage(k: Tank, enemy: Point, p: Profile, time: real): Tank {
    var k1 := if k.currentState != AttackingEnemy
      then k.(currentState := AttackingEnemy, lastStateChangeTime := time, currentTargetCapturePoint := None)
      else k;
    var moved := Farther(k.currentNavigationTargetPosition, enemy, p.targetMovementThreshold);
    var k2 := if moved then k1.(currentNavigationTargetPosition := enemy) else k1;
    if k.currentState != AttackingEnemy || moved then k2.(currentPath := None) else k2
  }

  /** The current capture point exists and the tank's team does not control
      it. */
  predicate CurrentPointValid(k: Tank, points: seq<Slot>, ownTag: string) {
    k.currentTargetCapturePoint.Some? && k.currentTargetCapturePoint.value < |points| &&
    Suitable(points[k.currentTargetCapturePoint.value], ownTag)
  }

  /** The keep-going branch: follow the current point if it has moved. */
  function Follow(k: Tank, pointPosition: Point): Tank {
    if Differs(k.currentNavigationTargetPosition, pointPosition)
    then k.(currentNavigationTargetPosition := pointPosition, currentPath := None)
    else k
  }

  /** The nearest-point branch: switch to the point at `index` unless the
      tank already seeks it. */
  function SeekClosest(k: Tank, index: nat, pointPosition: Point, time: real): Tank {
    if k.currentState != SeekingCapturePoint || k.currentTargetCapturePoint != Some(index)
    then k.(currentState := SeekingCapturePoint, lastStateChangeTime := time, currentTargetCapturePoint := Some(index),
            currentNavigationTargetPosition := pointPosition, currentPath := None)
    else k
  }

  /** Whether the tank may enter patrol: it is not patrolling, and the minimum
      interval since the last state change has passed or it is idle. */
  predicate MayPatrol(k: Tank, p: Profile, time: real) {
    k.currentState != Patrolling &&
    (time - k.lastStateChangeTime >= p.minStateChangeInterval || k.currentState == Idle)
  }

  /**
   * `DecideNextAction`: a sensed enemy comes first; then a valid current
   * capture point the tank is seeking; then the nearest capture point its
   * team does not control; then patrol, when allowed. `points` is the list of
   * capture points as it stands and `draws` the cells `SelectNewPatrolPoint`
   * would try.
   */
  function Decide(k: Tank, points: seq<Slot>, p: Profile, time: real, draws: seq<Cell>): Tank
    requires |draws| >= PatrolDraws
  {
    if k.currentTargetEnemy.Some? then Engage(k, k.currentTargetEnemy.value, p, time)
    else if CurrentPointValid(k, points, p.ownTag) && k.currentState == SeekingCapturePoint then
      Follow(k, points[k.currentTargetCapturePoint.value].value.position)
    else Reconsider(k, points, p, time, draws)
  }

  /** The last branch of the decision: the closest point the team does not
      control, or else patrolling once the state change interval allows. */
  function Reconsider(k: Tank, points: seq<Slot>, p: Profile, time: real, draws: seq<Cell>): Tank
    requires |draws| >= PatrolDraws
  {
    var closest := Nearest(points, p.ownTag, k.position);
    if closest.Some? then SeekClosest(k, closest.value, points[closest.value].value.position, time)
    else if MayPatrol(k, p, time) then
      PatrolPick(k.(currentState := Patrolling, lastStateChangeTime := time, currentTargetCapturePoint := None), p, draws)
    else k
  }

  /** Every decision keeps the controller invariant; with an enemy sensed the
      tank attacks it with no capture point; a tank the decision touches and
      leaves seeking heads for a point its team does not control. (A tank
      left untouched may go on seeking a point its team has since taken, until
      the state change interval lets it patrol.) */
  lemma DecideOutcome(k: Tank, points: seq<Slot>, p: Profile, time: real, draws: seq<Cell>)
    requires |draws| >= PatrolDraws && Coherent(k)
    ensures var r := Decide(k, points, p, time, draws);
      Coherent(r) &&
      (k.currentTargetEnemy.Some? ==> r.currentState == AttackingEnemy && r.currentTargetCapturePoint == None) &&
      (k.currentTargetEnemy.None? && r.currentState == SeekingCapturePoint && r != k ==>
         r.currentTargetCapturePoint.value < |points| &&
         Suitable(points[r.currentTargetCapturePoint.value], p.ownTag))
  {
  }

  /** A tank already seeking a capture point its team still does not control
      keeps seeking it: its state, its target and its last state change time
      stay, its navigation target ends up at the point's position (up to
      Unity's vector tolerance), and only the path may be dropped. */
  lemma SeekingKeepsValidPoint(k: Tank, points: seq<Slot>, p: Profile, time: real, draws: seq<Cell>)
    requires |draws| >= PatrolDraws
    requires k.currentTargetEnemy.None? && k.currentState == SeekingCapturePoint
    requires CurrentPointValid(k, points, p.ownTag)
    ensures var r := Decide(k, points, p, time, draws);
      r.currentState == k.currentState && r.currentTargetCapturePoint == k.currentTargetCapturePoint &&
      r.lastStateChangeTime == k.lastStateChangeTime &&
      !Differs(r.currentNavigationTargetPosition, points[k.currentTargetCapturePoint.value].value.position) &&
      r == k.(currentNavigationTargetPosition := r.currentNavigationTargetPosition, currentPath := r.currentPath)
  {
  }

  /** The minimum state change interval never delays attacking or switching
      to the nearest capture point: there the decision does not depend on
      when the state last changed. */
  lemma StateChangeIntervalOnlyGatesPatrol(k: Tank, points: seq<Slot>, p: Profile, time: real, draws: seq<Cell>, earlier: real)
    requires |draws| >= PatrolDraws
    requires k.currentTargetEnemy.Some? || Nearest(points, p.ownTag, k.position).Some?
    ensures Decide(k.(lastStateChangeTime := earlier), points, p, time, draws).(lastStateChangeTime := 0.0) ==
            Decide(k, points, p, time, draws).(lastStateChangeTime := 0.0)
  {
  }

  /** A tank leaves a non-attack state for patrol only once the interval has
      passed or when idle; short of that, with nothing to attack or seek, it
      keeps all its fields. */
  lemma PatrolEntryRespectsInterval(k: Tank, points: seq<Slot>, p: Profile, time: real, draws: seq<Cell>)
    requires |draws| >= PatrolDraws
    requires k.currentTargetEnemy.None? && Nearest(points, p.ownTag, k.position).None?
    requires !(CurrentPointValid(k, points, p.ownTag) && k.currentState == SeekingCapturePoint)
    ensures Decide(k, points, p, time, draws) != k ==> MayPatrol(k, p, time)
    ensures !MayPatrol(k, p, time) ==> Decide(k, points, p, time, draws) == k
  {
  }

  /* ---------------- Paths, motion and shooting ---------------- */

  /** The signed sideways offset of this tank's paths: a fifth of a tile, to
      the left for an even instance id and to the right for an odd one (C#'s
      `% 2 == 0` and Dafny's agree on evenness for negative ids too). */
  function FinalOffset(p: Profile): real {
    0.2 * p.grid.tileSize * (if p.instanceId % 2 == 0 then 1.0 else -1.0)
  }

  /** `ApplyPathOffset`: paths of fewer than two waypoints are kept; otherwise
      each waypoint moves by `finalOffset` along `perp(i)`, the unit
      perpendicular the source derives from the path's direction there. */
  function ApplyPathOffset(path: seq<Point>, perp: nat -> Point, finalOffset: real): (r: seq<Point>)
    ensures |r| == |path|
    ensures |path| < 2 ==> r == path
  {
    if |path| < 2 then path
    else (seq(|path|, i requires 0 <= i < |path| =>
            Point(path[i].x + perp(i).x * finalOffset, path[i].y + perp(i).y * finalOffset)))
  }

  /** With unit perpendiculars every waypoint of a longer path ends up exactly
      `|finalOffset|` from where the search put it. */
  lemma OffsetDisplacement(path: seq<Point>, perp: nat -> Point, finalOffset: real, i: nat)
    requires |path| >= 2 && i < |path| && DistanceSqr(perp(i), Point(0.0, 0.0)) == 1.0
    ensures DistanceSqr(ApplyPathOffset(path, perp, finalOffset)[i], path[i]) == finalOffset * finalOffset
  {
    var u := perp(i);
    var q := ApplyPathOffset(path, perp, finalOffset)[i];
    assert q.x - path[i].x == u.x * finalOffset && q.y - path[i].y == u.y * finalOffset;
    assert (u.x * finalOffset) * (u.x * finalOffset) + (u.y * finalOffset) * (u.y * finalOffset) ==
           (u.x * u.x + u.y * u.y) * (finalOffset * finalOffset);
  }

  /**
   * What `HandlePathfinding` makes of fields `k`, as `k2` with the search's
   * cells `cells`: no path while idle, and none at the destination cell
   * unless patrolling; otherwise, when the destination is another cell and
   * the path is missing or empty, the recalculation period has elapsed or the
   * navigation target has moved beyond the threshold since the last search,
   * a new search (timer reset, target remembered, cursor at the start), and
   * only the timer advances if not. A search gives no path for an impassable
   * end, and a found one is a grid path, offset sideways and trimmed within
   * 0.15 of a tile.
   */
  ghost predicate Pathed(p: Profile, k: Tank, dt: real, perp: nat -> Point, k2: Tank, cells: seq<Cell>) {
    var g := p.grid;
    var start := WorldToGrid(g, k.position);
    var end := WorldToGrid(g, k.currentNavigationTargetPosition);
    var timer := k.timeSinceLastPathRecalc + dt;
    var needsRecalc := k.currentPath.None? || |k.currentPath.value| == 0 || timer >= p.pathRecalculationRate ||
      Farther(k.currentNavigationTargetPosition, k.lastTargetPosition, p.targetMovementThreshold);
    (k.currentState == Idle || (start == end && k.currentState != Patrolling) ==>
       k2 == k.(timeSinceLastPathRecalc := timer, currentPath := None)) &&
    (k.currentState != Idle && (start != end || k.currentState == Patrolling) ==>
       (!(needsRecalc && start != end) ==> k2 == k.(timeSinceLastPathRecalc := timer)) &&
       (needsRecalc && start != end ==>
          k2 == k.(timeSinceLastPathRecalc := 0.0, lastTargetPosition := k.currentNavigationTargetPosition,
                   currentPath := k2.currentPath, currentPathIndex := 0) &&
          (!Passable(g, start) || !Passable(g, end) ==> k2.currentPath == None) &&
          (k2.currentPath.Some? && g.width * g.height <= MaxSteps + 1 ==>
             IsGridPath(g, start, cells, end) &&
             k2.currentPath.value == Trimmed(ApplyPathOffset(Centres(g, cells), perp, FinalOffset(p)),
                                             k.position, g.tileSize * 0.15))))
  }

  /** `MoveAlongPath`: with a waypoint ahead the tank moves to `newPosition`;
      within 0.1 of the waypoint the cursor advances, and past the last
      waypoint the path is dropped. */
  function Moved(k: Tank, newPosition: Point): Tank {
    if k.currentPath.None? || k.currentPathIndex >= |k.currentPath.value| then k
    else
      var targetWaypoint := k.currentPath.value[k.currentPathIndex];
      if Closer(newPosition, targetWaypoint, 0.1) then
        var k1 := k.(position := newPosition, currentPathIndex := k.currentPathIndex + 1);
        if k.currentPathIndex + 1 >= |k.currentPath.value| then k1.(currentPath := None) else k1
      else k.(position := newPosition)
  }

  /** Moving keeps the invariant; the cursor moves by at most one waypoint,
      and a path survives a step only while waypoints remain ahead. */
  lemma MovedCursor(k: Tank, newPosition: Point)
    requires Coherent(k)
    ensures var m := Moved(k, newPosition);
      Coherent(m) &&
      k.currentPathIndex <= m.currentPathIndex <= k.currentPathIndex + 1 &&
      (m.currentPathIndex != k.currentPathIndex ==>
         (m.currentPath.Some? <==> m.currentPathIndex < |k.currentPath.value|)) &&
      m.currentState == k.currentState && m.currentTargetCapturePoint == k.currentTargetCapturePoint
  {
  }

  /** The fire gate of `HandleShooting`: attacking a sensed enemy within
      shooting range, in line of sight, the cooldown over. */
  predicate Fires(k: Tank, p: Profile, time: real, lineOfSight: bool) {
    k.currentState == AttackingEnemy && k.currentTargetEnemy.Some? &&
    NoFarther(k.position, k.currentTargetEnemy.value, p.shootingRange) &&
    lineOfSight && time >= k.nextFireTime
  }

  /** The fields after `HandleShooting`: a shot restarts the cooldown. */
  function AfterShooting(k: Tank, p: Profile, time: real, lineOfSight: bool): Tank {
    if Fires(k, p, time, lineOfSight) then k.(nextFireTime := time + p.fireRate) else k
  }

  /** Two shots are at least `fireRate` apart. */
  lemma ShotsAreSpaced(k: Tank, p: Profile, t1: real, s1: bool, t2: real, s2: bool)
    requires Fires(k, p, t1, s1)
    requires Fires(AfterShooting(k, p, t1, s1), p, t2, s2)
    ensures t2 >= t1 + p.fireRate
  {
  }

  /**
   * What one frame brings in from outside the controller: the closest living
   * enemy `DetectEnemies` found, the capture points as they are now, the
   * clock, the frame time, the search fuel, the position `Vector2.MoveTowards`
   * gives, the line of sight to the enemy, the perpendiculars of the path
   * offset, and the random cells of the two patrol point choices a frame may
   * make.
   */
  datatype Tick = Tick(
    sensedEnemy: Option<Point>,
    points: seq<Slot>,
    time: real,
    dt: real,
    fuel: nat,
    newPosition: Point,
    lineOfSight: bool,
    perp: nat -> Point,
    reachedDraws: seq<Cell>,
    decideDraws: seq<Cell>)

  /** `AllyTankController`. */
  class AllyTankController {
    const profile: Profile
    var currentState: AIState
    var currentTargetEnemy: Option<Point>
    var currentTargetCapturePoint: Option<nat>
    var currentNavigationTargetPosition: Point
    var currentPath: Option<seq<Point>>
    var currentPathIndex: nat
    var timeSinceLastPathRecalc: real
    var lastTargetPosition: Point
    var nextFireTime: real
    var lastStateChangeTime: real
    var lastPatrolPointChangeTime: real
    var position: Point

    /** All the fields at once. */
    function Snapshot(): Tank
      reads this
    {
      Tank(currentState, currentTargetEnemy, currentTargetCapturePoint, currentNavigationTargetPosition,
           currentPath, currentPathIndex, timeSinceLastPathRecalc, lastTargetPosition, nextFireTime,
           lastStateChangeTime, lastPatrolPointChangeTime, position)
    }

    /** The field initialisers. */
    constructor (profile: Profile, position: Point)
      ensures this.profile == profile
      ensures Snapshot() == Tank(Patrolling, None, None, Point(0.0, 0.0), None, 0, 0.0, Point(0.0, 0.0), 0.0,
                                 -10.0, -10.0, position)
      ensures Coherent(Snapshot())
    {
      this.profile := profile;
      currentState := Patrolling;
      currentTargetEnemy := None;
      currentTargetCapturePoint := None;
      currentNavigationTargetPosition := Point(0.0, 0.0);
      currentPath := None;
      currentPathIndex := 0;
      timeSinceLastPathRecalc := 0.0;
      lastTargetPosition := Point(0.0, 0.0);
      nextFireTime := 0.0;
      lastStateChangeTime := -10.0;
      lastPatrolPointChangeTime := -10.0;
      this.position := position;
    }

    /** `Start`: patrol from where the tank stands, with the patrol interval
        already over, towards a first patrol point. */
    method Start(time: real, draws: seq<Cell>)
      requires |draws| >= PatrolDraws
      modifies this
      ensures Snapshot() == PatrolPick(old(Snapshot()).(
        currentState := Patrolling, currentNavigationTargetPosition := old(position),
        lastTargetPosition := old(position), lastStateChangeTime := time,
        lastPatrolPointChangeTime := time - profile.minPatrolPointChangeInterval), profile, draws)
      ensures old(currentTargetCapturePoint).None? ==> Coherent(Snapshot())
    {
      currentState := Patrolling;
      currentNavigationTargetPosition := position;
      lastTargetPosition := position;
      lastStateChangeTime := time;
      lastPatrolPointChangeTime := time - profile.minPatrolPointChangeInterval;
      SelectNewPatrolPoint(draws);
    }

    /** `SelectNewPatrolPoint`: up to 30 random cells of the grid. */
    method SelectNewPatrolPoint(draws: seq<Cell>)
      requires |draws| >= PatrolDraws
      modifies this
      ensures Snapshot() == PatrolPick(old(Snapshot()), profile, draws)
    {
      var g := profile.grid;
      var currentGridPos := WorldToGrid(g, position);
      var minPatrolDistSqr := MinPatrolDistSqr(profile);
      var pointFound, newTarget := ScanPatrolDraws(currentGridPos, minPatrolDistSqr, draws);
      if !pointFound {
        currentState := Idle;
        newTarget := position;
      }
      currentNavigationTargetPosition := newTarget;
      lastTargetPosition := currentNavigationTargetPosition;
      currentPath := None;
    }

    /** The draw loop of `SelectNewPatrolPoint`. */
    method ScanPatrolDraws(currentGridPos: Cell, minPatrolDistSqr: real, draws: seq<Cell>)
      returns (pointFound: bool, newTarget: Point)
      requires |draws| >= PatrolDraws
      ensures pointFound == FirstAcceptable(profile.grid, currentGridPos, currentNavigationTargetPosition,
                                           minPatrolDistSqr, draws[..PatrolDraws]).Some?
      ensures newTarget == PatrolTarget(profile.grid, currentGridPos, currentNavigationTargetPosition,
                                        minPatrolDistSqr, draws, position)
    {
      var g := profile.grid;
      ghost var cells := draws[..PatrolDraws];
      pointFound := false;
      newTarget := position;
      var i := 0;
      while i < PatrolDraws
        invariant 0 <= i <= PatrolDraws
        invariant forall j :: 0 <= j < i ==> !Acceptable(g, currentGridPos, currentNavigationTargetPosition, minPatrolDistSqr, cells[j])
        invariant pointFound ==> FirstAcceptable(g, currentGridPos, currentNavigationTargetPosition, minPatrolDistSqr, cells) == Some(i)
        invariant newTarget == (if pointFound
          then PatrolTarget(g, currentGridPos, currentNavigationTargetPosition, minPatrolDistSqr, draws, position)
          else position)
      {
        var randomGridPos := draws[i];
        assert randomGridPos == cells[i];
        if IsWalkable(g, randomGridPos) && randomGridPos != currentGridPos {
          var potentialTarget := GridToWorld(g, randomGridPos);
          if DistanceSqr(potentialTarget, currentNavigationTargetPosition) > minPatrolDistSqr {
            newTarget := potentialTarget;
            pointFound := true;
            break;
          }
        }
        i := i + 1;
      }
    }

    /** `CheckPatrolPointReached`. */
    method CheckPatrolPointReached(time: real, draws: seq<Cell>)
      requires |draws| >= PatrolDraws
      modifies this
      ensures Snapshot() == PatrolCheck(old(Snapshot()), profile, time, draws)
    {
      if currentState != Patrolling {
        return;
      }
      var reached := false;
      if Closer(position, currentNavigationTargetPosition, profile.patrolPointReachedDistance) {
        reached := true;
      }
      if reached && time - lastPatrolPointChangeTime >= profile.minPatrolPointChangeInterval {
        SelectNewPatrolPoint(draws);
        currentPath := None;
        lastPatrolPointChangeTime := time;
      }
    }

    /** `DecideNextAction`; `closest` is computed only where the source
        calls `FindClosestCapturePoint`. */
    method DecideNextAction(points: seq<Slot>, time: real, draws: seq<Cell>)
      requires |draws| >= PatrolDraws
      modifies this
      ensures Snapshot() == Decide(old(Snapshot()), points, profile, time, draws)
    {
      if currentTargetEnemy.Some? {
        EngageEnemy(currentTargetEnemy.value, time);
      } else if currentTargetCapturePoint.Some? && currentTargetCapturePoint.value < |points| &&
                points[currentTargetCapturePoint.value].Some? &&
                points[currentTargetCapturePoint.value].value.controllingTeamTag != Some(profile.ownTag) &&
                currentState == SeekingCapturePoint {
        var pointPosition := points[currentTargetCapturePoint.value].value.position;
        if Differs(currentNavigationTargetPosition, pointPosition) {
          currentNavigationTargetPosition := pointPosition;
          currentPath := None;
        }
      } else {
        ReconsiderTarget(points, time, draws);
      }
    }

    /** The last branch of `DecideNextAction`. */
    method ReconsiderTarget(points: seq<Slot>, time: real, draws: seq<Cell>)
      requires |draws| >= PatrolDraws
      modifies this
      ensures Snapshot() == Reconsider(old(Snapshot()), points, profile, time, draws)
    {
      var closestValidPoint := FindClosestCapturePoint(points, profile.ownTag, position);
      if closestValidPoint.Some? {
        if currentState != SeekingCapturePoint || currentTargetCapturePoint != closestValidPoint {
          currentState := SeekingCapturePoint;
          lastStateChangeTime := time;
          currentTargetCapturePoint := closestValidPoint;
          currentNavigationTargetPosition := points[closestValidPoint.value].value.position;
          currentPath := None;
        }
      } else if currentState != Patrolling {
        if time - lastStateChangeTime >= profile.minStateChangeInterval || currentState == Idle {
          currentState := Patrolling;
          lastStateChangeTime := time;
          currentTargetCapturePoint := None;
          SelectNewPatrolPoint(draws);
          currentPath := None;
        }
      }
    }

    /** The attack branch of `DecideNextAction`. */
    method EngageEnemy(enemy: Point, time: real)
      modifies this
      ensures Snapshot() == Engage(old(Snapshot()), enemy, profile, time)
    {
      var forcePathRecalc := false;
      if currentState != AttackingEnemy {
        currentState := AttackingEnemy;
        lastStateChangeTime := time;
        currentTargetCapturePoint := None;
        forcePathRecalc := true;
      }
      if Farther(currentNavigationTargetPosition, enemy, profile.targetMovementThreshold) {
        currentNavigationTargetPosition := enemy;
        forcePathRecalc := true;
      }
      if forcePathRecalc {
        currentPath := None;
      }
    }

    /** `FindPath_AStar`: an A* search whose non-empty result is offset
        sideways, dropping the first waypoint when the tank already stands
        within 0.15 of a tile of it, and a cursor back at the start. */
    method FindPathAStar(startGridPos: Cell, endGridPos: Cell, fuel: nat, perp: nat -> Point) returns (ghost cells: seq<Cell>)
      modifies this
      ensures Snapshot() == old(Snapshot()).(currentPath := currentPath, currentPathIndex := 0)
      ensures !Passable(profile.grid, startGridPos) || !Passable(profile.grid, endGridPos) ==> currentPath == None
      ensures currentPath.Some? && profile.grid.width * profile.grid.height <= MaxSteps + 1 ==>
        IsGridPath(profile.grid, startGridPos, cells, endGridPos) && |cells| > 0 &&
        currentPath.value == Trimmed(ApplyPathOffset(Centres(profile.grid, cells), perp, FinalOffset(profile)),
                                     position, profile.grid.tileSize * 0.15)
    {
      var rawPath;
      rawPath, cells := AStarSearch(profile.grid, startGridPos, endGridPos, fuel);
      if rawPath.Some? && |rawPath.value| > 0 {
        currentPath := Some(ApplyPathOffset(rawPath.value, perp, FinalOffset(profile)));
      } else {
        currentPath := None;
      }
      if currentPath.Some? && |currentPath.value| > 0 &&
         Closer(position, currentPath.value[0], profile.grid.tileSize * 0.15) {
        currentPath := Some(currentPath.value[1..]);
      }
      currentPathIndex := 0;
    }

    /**
     * `HandlePathfinding`: no path while idle, none at the destination cell
     * unless patrolling; otherwise a new search when the path is missing or
     * empty, the recalculation period has elapsed or the navigation target
     * has moved beyond the threshold since the last search (whether
     * attacking or not), provided the destination cell is another cell.
     */
    method HandlePathfinding(dt: real, fuel: nat, perp: nat -> Point) returns (ghost cells: seq<Cell>)
      modifies this
      ensures Pathed(profile, old(Snapshot()), dt, perp, Snapshot(), cells)
    {
      cells := [];
      timeSinceLastPathRecalc := timeSinceLastPathRecalc + dt;
      var hasTarget := currentState != Idle;
      if !hasTarget {
        currentPath := None;
        return;
      }
      var g := profile.grid;
      var startGridPos := WorldToGrid(g, position);
      var endGridPos := WorldToGrid(g, currentNavigationTargetPosition);
      if startGridPos == endGridPos && currentState != Patrolling {
        if currentPath.Some? {
          currentPath := None;
        }
        return;
      }
      var targetPosChanged := Farther(currentNavigationTargetPosition, lastTargetPosition, profile.targetMovementThreshold);
      var timerElapsed := timeSinceLastPathRecalc >= profile.pathRecalculationRate;
      var pathInvalid := currentPath.None? || |currentPath.value| == 0;
      var needsRecalc := pathInvalid || timerElapsed || (currentState == AttackingEnemy && targetPosChanged) ||
                         (currentState != AttackingEnemy && targetPosChanged);
      if needsRecalc && startGridPos != endGridPos {
        cells := FindPathAStar(startGridPos, endGridPos, fuel, perp);
        timeSinceLastPathRecalc := 0.0;
        lastTargetPosition := currentNavigationTargetPosition;
      }
    }

    /** `MoveAlongPath`; `newPosition` is where `Vector2.MoveTowards` puts the
        tank this frame. */
    method MoveAlongPath(newPosition: Point)
      modifies this
      ensures Snapshot() == Moved(old(Snapshot()), newPosition)
    {
      if currentPath.None? || currentPathIndex >= |currentPath.value| {
        return;
      }
      var targetWaypoint := currentPath.value[currentPathIndex];
      position := newPosition;
      if Closer(position, targetWaypoint, 0.1) {
        currentPathIndex := currentPathIndex + 1;
        if currentPathIndex >= |currentPath.value| {
          currentPath := None;
        }
      }
    }

    /** `HandleShooting`; `lineOfSight` is `IsDirectPathClear` from the fire
        point to the enemy and `fired` says whether `Shoot` ran. */
    method HandleShooting(time: real, lineOfSight: bool) returns (fired: bool)
      modifies this
      ensures fired == Fires(old(Snapshot()), profile, time, lineOfSight)
      ensures Snapshot() == AfterShooting(old(Snapshot()), profile, time, lineOfSight)
    {
      fired := false;
      if currentState != AttackingEnemy || currentTargetEnemy.None? {
        return;
      }
      if NoFarther(position, currentTargetEnemy.value, profile.shootingRange) && lineOfSight && time >= nextFireTime {
        fired := true;
        nextFireTime := time + profile.fireRate;
      }
    }

    /** `Update`: nothing while the tank is dead; otherwise the patrol check,
        sensing, the decision, the path, the motion and the shot, keeping the
        controller invariant. */
    method Update(selfHealth: TankHealth?, tick: Tick) returns (fired: bool, ghost planned: Tank, ghost cells: seq<Cell>)
      requires |tick.reachedDraws| >= PatrolDraws && |tick.decideDraws| >= PatrolDraws
      modifies this
      ensures selfHealth != null && selfHealth.currentHealth <= 0.0 ==> !fired && Snapshot() == old(Snapshot())
      ensures !(selfHealth != null && selfHealth.currentHealth <= 0.0) ==>
        var d := Decide(PatrolCheck(old(Snapshot()), profile, tick.time, tick.reachedDraws).(currentTargetEnemy := tick.sensedEnemy),
                        tick.points, profile, tick.time, tick.decideDraws);
        var m := Moved(planned, tick.newPosition);
        Pathed(profile, d, tick.dt, tick.perp, planned, cells) &&
        fired == Fires(m, profile, tick.time, tick.lineOfSight) &&
        Snapshot() == AfterShooting(m, profile, tick.time, tick.lineOfSight)
      ensures fired ==> currentState == AttackingEnemy && currentTargetEnemy == tick.sensedEnemy
      ensures Coherent(old(Snapshot())) ==> Coherent(Snapshot())
    {
      fired, planned, cells := false, Snapshot(), [];
      if selfHealth != null && selfHealth.currentHealth <= 0.0 {
        return;
      }
      Think(tick);
      fired, planned, cells := Act(tick);
    }

    /** The first half of `Update`: the patrol check, sensing and the
        decision. */
    method Think(tick: Tick)
      requires |tick.reachedDraws| >= PatrolDraws && |tick.decideDraws| >= PatrolDraws
      modifies this
      ensures Snapshot() ==
        Decide(PatrolCheck(old(Snapshot()), profile, tick.time, tick.reachedDraws).(currentTargetEnemy := tick.sensedEnemy),
               tick.points, profile, tick.time, tick.decideDraws)
      ensures currentTargetEnemy == tick.sensedEnemy
      ensures Coherent(old(Snapshot())) ==> Coherent(Snapshot())
    {
      ghost var k0 := Snapshot();
      CheckPatrolPointReached(tick.time, tick.reachedDraws);
      if Coherent(k0) {
        PatrolCheckThrottled(k0, profile, tick.time, tick.reachedDraws);
      }
      currentTargetEnemy := tick.sensedEnemy;
      ghost var k1 := Snapshot();
      DecideNextAction(tick.points, tick.time, tick.decideDraws);
      if Coherent(k1) {
        DecideOutcome(k1, tick.points, profile, tick.time, tick.decideDraws);
      }
    }

    /** The second half of `Update`, after the decision: path, motion and
        shooting, none of which changes the state or the targets. */
    method Act(tick: Tick) returns (fired: bool, ghost planned: Tank, ghost cells: seq<Cell>)
      modifies this
      ensures Pathed(profile, old(Snapshot()), tick.dt, tick.perp, planned, cells)
      ensures var m := Moved(planned, tick.newPosition);
        fired == Fires(m, profile, tick.time, tick.lineOfSight) &&
        Snapshot() == AfterShooting(m, profile, tick.time, tick.lineOfSight)
      ensures currentState == old(currentState) && currentTargetCapturePoint == old(currentTargetCapturePoint)
      ensures currentTargetEnemy == old(currentTargetEnemy)
      ensures fired ==> currentState == AttackingEnemy
      ensures Coherent(old(Snapshot())) ==> Coherent(Snapshot())
    {
      cells := HandlePathfinding(tick.dt, tick.fuel, tick.perp);
      planned := Snapshot();
      ghost var k := Snapshot();
      MoveAlongPath(tick.newPosition);
      if Coherent(k) {
        MovedCursor(k, tick.newPosition);
      }
      fired := HandleShooting(tick.time, tick.lineOfSight);
    }
  }
}
