# Tank arena: a verified model of the game core

This project models the core of a small Unity arena game in Dafny. Tanks of
two teams (the player with allied tanks, and enemy tanks) drive over a tile
grid, shoot each other and fight over capture points.

The model covers:

- **The navigation grid** (module `Grid`). It converts world positions to
  cells and back, checks bounds and walkability, and lists the
  eight-neighbourhood of a cell without corner cutting.
- **Path search** (modules `PathFinding` and `PriorityQueues`). The enemy
  uses Dijkstra and the ally uses A* with a Manhattan heuristic. Both share
  the list-backed priority queue and the parent-map path reconstruction.
  The enemy and ally copies of `GetNeighbors`, `ReconstructPath`,
  `WorldToGrid`, `GridToWorld` and `PriorityQueue` are line-for-line the
  same, so each is modelled once; the table below cites the enemy copy.
- **The claim registry** (module `TargetCoordination`). This is the static
  dictionary through which enemy tanks record which capture point each of
  them is heading for.
- **Capture point choice** (module `CapturePointSelection`). The enemy
  prefers its own claim, then the least-claimed point, then the nearest one.
  The ally takes the nearest point its team does not control.
- **Capture points** (module `CapturePoints`). A zone holds a list of tanks,
  and a state machine with Neutral, Capturing, Captured and Contested states
  drives the point's progress and team tags.
- **The match** (module `Match`): game states, timer, passive scoring and
  the win check.
- **Tank health** (module `Health`) and **bullet impacts** (module
  `Bullets`).
- **The two AI controllers** (modules `EnemyAI` and `AllyAI`, with the
  shared distance tests in `Steering`). Each one senses, decides, keeps a
  path, moves, shoots and patrols.

How the source is rendered:

- **Updates in place.** Classes that update their own fields in place
  (`TankHealth`, `BulletDestruction`, `CapturePoint`, `StateMachine`,
  `GameManager`, the priority queue, the registry and both controllers)
  become Dafny classes. Each method's contract gives the new state in terms
  of the old one: through a pure function of the old state, and for the
  controllers' path steps through the `Pathed` relations over the cells the
  search returned.
- **Loops.** Loops become `while` or `for` loops with invariants. These are
  the neighbour scan, the search, the path reconstruction, the patrol and
  nearby-point probes, the scoring loop and the nearest-point scan.
- **Floats and engine queries.** Floating-point numbers are modelled as
  exact reals. Engine queries are inputs of the operation that uses them:
  random draws, physics overlaps, sensing, the clock and `MoveTowards`.

Properties proved include:

- A path returned by either search is a chain of admissible grid steps from
  the start to the goal, given as cell centres.
- Converting a cell to world coordinates and back gives the same cell.
- Every capture point step keeps the point's fields consistent with its
  state.
- A team alone in a zone completes the capture, and the point then stays
  captured.
- Bullets never cause friendly fire.
- Health stays between zero and the maximum, and a tank dies exactly once.
- Every enemy tick keeps the claim invariant: a tank claims nothing but its
  own target, and no tank ever touches another tank's claims.
- Both controllers keep their state coherent, fire at most once per
  `fireRate`, and advance along a path by at most one waypoint per frame.

Consequences of the code as written that a reader may not expect:

- **No passive score.** No capture point state ever writes a Controlled
  status; only the Contested state's `Enter` writes a status, and it writes
  Contested. The passive scoring therefore never awards anything, and only
  the timer can end a match (`CapturePoints.StatusNeutralOrContested`,
  `Match.NoPassiveScore`).
- **The heuristic is not admissible.** The Manhattan heuristic is 2 for a
  diagonal step that costs about 1.414, so A* may return a path that is not
  the cheapest (`PathFinding.HeuristicOverestimatesDiagonal`).
- **The safety limit only logs.** Reaching the reconstruction's step limit
  logs an error and returns the partial path. On grids of at most 10001
  cells the limit is provably never what stops the walk
  (`PathFinding.ReconstructPath`).
- **The ally's state-change interval gates only patrol entry.** Attacking
  and switching to the nearest capture point are never delayed by it
  (`AllyAI.StateChangeIntervalOnlyGatesPatrol`).
- **The ally can keep seeking a lost point.** An ally whose current point
  was taken by its own team keeps seeking it until the interval lets it
  patrol (`AllyAI.DecideOutcome`).
- **The enemy patrol keeps its claim.** An enemy entering patrol while
  capture points exist keeps its target point. The release and re-claim it
  performs leave the registry unchanged (`EnemyAI.DecidePatrolKeepsClaim`).

## Model

| member | source | states |
|---|---|---|
| Grid.Clamp | Assets/Script/EnemyTankController.cs:563-564 | `Mathf.Clamp` on integers: the result lies in [lo, hi] when lo <= hi, a value already inside is kept, and a value below the range gives lo |
| Grid.WorldToGrid | Assets/Script/EnemyTankController.cs:560-566 | the cell of a position is inside any non-empty grid, and on each axis it is the floor of coordinate over tile size whenever that floor is in range |
| Grid.WorldToGridOfGridToWorld | Assets/Script/EnemyTankController.cs:560-572 | round trip: converting an in-bounds cell to its centre and back gives the same cell |
| Grid.GridToWorldNearPosition | Assets/Script/EnemyTankController.cs:560-572 | a position inside the grid's area lies within half a tile of the centre of the cell it converts to, on each axis |
| Grid.CentreOverTile | Assets/Script/EnemyTankController.cs:568-572 | a cell centre divided by the tile size is the cell coordinate plus one half, so its floor is the cell coordinate |
| Grid.CentreNear | Assets/Script/EnemyTankController.cs:560-572 | one axis of the half-tile bound between a position and the centre of its cell |
| Grid.FloorInRange | Assets/Script/EnemyTankController.cs:561-562 | for a coordinate inside the grid's area, `FloorToInt(v / tileSize)` is in [0, n) and brackets v within one tile |
| Grid.StepCost | Assets/Script/EnemyTankController.cs:504 | the cost `Vector2.Distance` gives for a step between neighbouring cells is at least 1 and below 2 (1 straight, the float nearest the square root of 2 diagonally) |
| Grid.Block | Assets/Script/EnemyTankController.cs:536-537 | the nested offset loops visit nine cells, the i-th being the offset (i / 3 - 1, i % 3 - 1): x outer, y inner |
| Grid.BlockMembers | Assets/Script/EnemyTankController.cs:536-539 | the nine cells visited are exactly the cells within one step on both axes |
| Grid.AdmittedMembers | Assets/Script/EnemyTankController.cs:534-550 | a cell is kept by the filter exactly when it was scanned and is an admissible step |
| Grid.NeighborsMembers | Assets/Script/EnemyTankController.cs:534-550 | a cell is listed as a neighbour exactly when it is an admissible step: adjacent, other than the cell itself, in bounds, walkable, and for a diagonal both flanking cells walkable |
| Grid.ScanStep | Assets/Script/EnemyTankController.cs:537-547 | one inner iteration appends its cell exactly when the cell is an admissible step |
| Grid.GetNeighbors | Assets/Script/EnemyTankController.cs:534-550 | returns the admissible steps in loop order; membership in the result is equivalent to being an admissible step |
| PriorityQueues.PriorityQueue.constructor | Assets/Script/EnemyTankController.cs:576 | a new queue is empty and sorted |
| PriorityQueues.PriorityQueue.Enqueue | Assets/Script/EnemyTankController.cs:578-581 | after the add and sort, the entries are in ascending priority order and are the old entries plus the new one, as a multiset |
| PriorityQueues.PriorityQueue.Dequeue | Assets/Script/EnemyTankController.cs:582-585 | an empty queue reports the error and stays empty; otherwise it returns the entry of least priority and removes exactly that entry, keeping the order |
| PathFinding.Heuristic | Assets/Script/AllyTankController.cs:320-323 | the Manhattan distance is non-negative and zero exactly for the same cell |
| PathFinding.HeuristicSymmetric | Assets/Script/AllyTankController.cs:320-323 | the Manhattan distance does not depend on which cell is the goal |
| PathFinding.HeuristicOverestimatesDiagonal | Assets/Script/AllyTankController.cs:320-323 | for an admissible diagonal step the heuristic (2) exceeds the step's actual cost, so it is not admissible |
| PathFinding.CentresRoundTrip | Assets/Script/EnemyTankController.cs:524 | every in-bounds cell of a path converts back from its waypoint centre to itself, so the waypoints determine the cells |
| PathFinding.ReversePermutes | Assets/Script/EnemyTankController.cs:530 | reversing the path twice restores it, and a reversal keeps every waypoint with its multiplicity |
| PathFinding.RectSize | Assets/Script/EnemyTankController.cs:552 | the grid's in-bounds cells number width times height |
| PathFinding.ParentMapSize | Assets/Script/EnemyTankController.cs:497-510 | a parent map whose keys are in bounds has at most width times height entries |
| PathFinding.FirstSelfParent | Assets/Script/EnemyTankController.cs:520 | `FirstOrDefault` on self-parented entries: a self-parented key when one exists, else the default cell (0, 0) |
| PathFinding.SelfParentIsStart | Assets/Script/EnemyTankController.cs:498 | in a parent map built by the search, the start is the only cell that is its own parent |
| PathFinding.WalkStep | Assets/Script/EnemyTankController.cs:523-528 | one iteration of the parent walk keeps it a chain of parents from the target that has not reached the start and whose costs strictly decrease |
| PathFinding.WalkComplete | Assets/Script/EnemyTankController.cs:523-531 | on a map of at most 10001 cells, a walk that stopped has reached the start, and its reversed cells form a grid path from start to target |
| PathFinding.ReversedChain | Assets/Script/EnemyTankController.cs:523-531 | a parent chain from the target back to the start, reversed, is a grid path from the start to the target |
| PathFinding.ReconstructPath | Assets/Script/EnemyTankController.cs:517-532 | a target missing from the map gives an empty path and the start gives an empty path; on a map of at most 10001 cells the result is the centres of a grid path from the start (excluded) to the target (included) |
| PathFinding.Relax | Assets/Script/EnemyTankController.cs:505-510 | recording a cheaper parent for a neighbour keeps the parent map well formed (admissible steps, strictly decreasing costs toward the start) |
| PathFinding.Search | Assets/Script/EnemyTankController.cs:494-515 | no path when the start or the goal is out of bounds or unwalkable; an empty path when start equals goal; otherwise any path found is the cell centres of a grid path from start to goal |
| PathFinding.DijkstraSearch | Assets/Script/EnemyTankController.cs:494-515 | Dijkstra: both ends checked up front; a result is a grid path from start to goal |
| PathFinding.AStarSearch | Assets/Script/AllyTankController.cs:326-357 | A*: an impassable start or goal gives no path, a start equal to the goal gives the empty path, and a result is a grid path from start to goal |
| TargetCoordination.TargetCount | Assets/Script/EnemyTankController.cs:119-122 | a missing or unknown point has a count of 0 |
| TargetCoordination.Added | Assets/Script/EnemyTankController.cs:102-109 | a missing point or an empty id changes nothing; otherwise the tank claims the point, its count rises by one unless already claimed, and every other point is untouched |
| TargetCoordination.Removed | Assets/Script/EnemyTankController.cs:111-117 | the keys are unchanged, the tank no longer claims the point, its count drops by one exactly when it did, and every other point is untouched |
| TargetCoordination.AddThenRemoveRestoresCounts | Assets/Script/EnemyTankController.cs:102-117 | claiming an unclaimed point and releasing it restores every point's count |
| TargetCoordination.RemoveThenAddIsIdentity | Assets/Script/EnemyTankController.cs:102-117 | releasing a held claim and claiming it again gives back the same registry |
| TargetCoordination.ClaimsOfAdded | Assets/Script/EnemyTankController.cs:102-109 | a claim adds exactly that point to the tank's claims and leaves every other tank's claims unchanged |
| TargetCoordination.ClaimsOfRemoved | Assets/Script/EnemyTankController.cs:111-117 | a release removes exactly that point from the tank's claims and leaves every other tank's claims unchanged |
| TargetCoordination.TargetingCounts | Assets/Script/EnemyTankController.cs:119-128 | a point some tank claims has a count of at least one |
| TargetCoordination.TargetRegistry.constructor | Assets/Script/EnemyTankController.cs:96 | the registry starts empty |
| TargetCoordination.TargetRegistry.AddTankToTargeters | Assets/Script/EnemyTankController.cs:102-109 | the registry becomes `Added` of its old value |
| TargetCoordination.TargetRegistry.RemoveTankFromTargeters | Assets/Script/EnemyTankController.cs:111-117 | the registry becomes `Removed` of its old value |
| TargetCoordination.TargetRegistry.ResetTargetCounts | Assets/Script/EnemyTankController.cs:130-133 | afterwards no point has a claim or a non-zero count |
| CapturePointSelection.DistanceSqr | Assets/Script/EnemyTankController.cs:336 | a squared distance is non-negative |
| CapturePointSelection.DistanceSqrSymmetric | Assets/Script/EnemyTankController.cs:336 | the squared distance does not depend on the order of the points, and is zero from a point to itself |
| CapturePointSelection.FirstClaimed | Assets/Script/EnemyTankController.cs:343-344 | `FirstOrDefault`: the earliest suitable point the tank claims, or none exactly when it claims no suitable point |
| CapturePointSelection.LeastKey | Assets/Script/EnemyTankController.cs:351-354 | `OrderBy(count).ThenBy(distance).FirstOrDefault()`: none exactly when no point is suitable; otherwise a suitable point whose key no suitable point beats, and strictly better than every earlier one (stable sort) |
| CapturePointSelection.FindBestCapturePoint | Assets/Script/EnemyTankController.cs:319-357 | none exactly when no point exists outside the own team's control; a point the tank already claims wins (the earliest such); otherwise the least-claimed, then nearest, point from the jittered position |
| CapturePointSelection.BestPrefersUnclaimed | Assets/Script/EnemyTankController.cs:350-354 | a tank with no claim of its own picks an unclaimed point whenever a suitable unclaimed point exists |
| CapturePointSelection.Nearest | Assets/Script/AllyTankController.cs:216-230 | none exactly when every suitable point is at `float.MaxValue` or beyond; otherwise a suitable point no suitable point is closer than, strictly closer than every earlier one |
| CapturePointSelection.FindClosestCapturePoint | Assets/Script/AllyTankController.cs:216-230 | the scan returns `Nearest` |
| CapturePoints.Opposing | Assets/Script/CapturedState.cs:31 | the opposing team of Player is Enemy and of Enemy is Player |
| CapturePoints.Purged | Assets/Script/CapturePoint.cs:96 | `RemoveAll(null)`: keeps exactly the colliders not destroyed, never lengthening the list |
| CapturePoints.CountTag | Assets/Script/CapturePoint.cs:97 | the count is at most the list length, and zero exactly when no collider carries the tag |
| CapturePoints.RemoveFirst | Assets/Script/CapturePoint.cs:88 | `List.Remove`: nothing changes when the collider is absent; otherwise one occurrence goes, as a multiset |
| CapturePoints.PurgedTwice | Assets/Script/CapturePoint.cs:96 | purging is idempotent |
| CapturePoints.PurgedNoDuplicates | Assets/Script/CapturePoint.cs:96 | purging keeps a zone without duplicates |
| CapturePoints.RemoveFirstNoDuplicates | Assets/Script/CapturePoint.cs:85-92 | in a zone without duplicates, removal keeps it without duplicates, leaves no copy of the collider and keeps every other collider |
| CapturePoints.EnterEffect | Assets/Script/ContestedState.cs:8-15 | each state's `Enter` resets exactly its fields (Neutral and Contested clear teams and progress, Capturing clears the controller, Captured pins progress at the capture time); only the status-writing Contested `Enter` changes the status, to Contested |
| CapturePoints.RunConsistent | Assets/Script/CapturingState.cs:18-42 | every `Execute` keeps fields and state consistent: no team or progress in Neutral and Contested, progress below the capture time while Capturing, full progress and the team in control once Captured |
| CapturePoints.StatusNeutralOrContested | Assets/Script/CapturePoint.cs:155-158 | no `Execute` sets a status other than Neutral or Contested, and with the status-keeping Contested variant the status never changes |
| CapturePoints.CapturedDoesNotDecay | Assets/Script/CapturedState.cs:28-50 | a captured point with no opponent in its zone stays as it is, even when the zone is empty |
| CapturePoints.NoDirectCaptureSwitch | Assets/Script/CapturingState.cs:18-42 | a point being captured never switches straight into another capture |
| CapturePoints.CaptureCompletes | Assets/Script/CapturingState.cs:24-33 | a team alone in the zone completes the capture within n frames once n frames cover the missing progress, and ends controlling the point |
| CapturePoints.StaysCaptured | Assets/Script/CapturedState.cs:34-41 | any number of frames without an opponent leaves a captured point unchanged |
| CapturePoints.StateMachine.constructor | Assets/Script/IState.cs:12 | a new machine has no state and has invoked no hook |
| CapturePoints.StateMachine.ChangeState | Assets/Script/IState.cs:14-19 | Exit of the old state (if any), then the new state becomes current and its Enter runs on the owner |
| CapturePoints.CapturePoint.constructor | Assets/Script/CapturePoint.cs:33-43 | no progress, no teams, status Neutral, empty zone |
| CapturePoints.CapturePoint.Start | Assets/Script/CapturePoint.cs:47-68 | installs Neutral through its Enter, leaving a consistent point with the status unchanged |
| CapturePoints.CapturePoint.Update | Assets/Script/CapturePoint.cs:70-73 | without a state nothing happens; otherwise the state's Execute runs as `Run` says, recorded with the hooks of any switch |
| CapturePoints.CapturePoint.EnterState | Assets/Script/NeutralState.cs:6-12 | the current state's Enter has the effect `EnterEffect` gives |
| CapturePoints.CapturePoint.ExecuteState | Assets/Script/IState.cs:21-24 | the current state's Execute has the effect `Run` gives, with Execute then Exit/Enter recorded |
| CapturePoints.CapturePoint.ExecuteNeutral | Assets/Script/NeutralState.cs:14-31 | Neutral's Execute counts both teams in the purged zone and applies the Neutral rule |
| CapturePoints.CapturePoint.NeutralRule | Assets/Script/NeutralState.cs:18-30 | one team alone starts its capture, both teams contest, an empty zone stays Neutral |
| CapturePoints.CapturePoint.ExecuteCapturing | Assets/Script/CapturingState.cs:18-42 | Capturing's Execute counts capturers and opponents in the purged zone and applies the Capturing rule |
| CapturePoints.CapturePoint.CapturingRule | Assets/Script/CapturingState.cs:24-41 | alone, progress grows by the frame time and completes the capture at the capture time; an empty zone reverts to Neutral; anything else contests |
| CapturePoints.CapturePoint.ExecuteCaptured | Assets/Script/CapturedState.cs:28-50 | an opponent in the zone contests the point, otherwise nothing changes |
| CapturePoints.CapturePoint.ExecuteContested | Assets/Script/ContestedState.cs:17-31 | Contested's Execute counts both teams in the purged zone and applies the Contested rule |
| CapturePoints.CapturePoint.ContestedRule | Assets/Script/ContestedState.cs:21-30 | one team alone starts its capture, an empty zone reverts to Neutral, both teams stay Contested |
| CapturePoints.CapturePoint.OnTriggerEnter2D | Assets/Script/CapturePoint.cs:75-83 | a team tank not yet in the zone is appended and the state re-executed; anything else changes nothing; the zone stays free of duplicates |
| CapturePoints.CapturePoint.OnTriggerExit2D | Assets/Script/CapturePoint.cs:85-92 | a team tank in the zone is removed and the state re-executed; anything else changes nothing; the zone stays free of duplicates |
| CapturePoints.CapturePoint.GetTeamCountInZone | Assets/Script/CapturePoint.cs:95-98 | purges destroyed colliders from the zone and returns the number carrying the tag |
| CapturePoints.CapturePoint.ResetCaptureProgress | Assets/Script/CapturePoint.cs:100-102 | only the progress changes, to 0 |
| CapturePoints.CapturePoint.SetStatus | Assets/Script/CapturePoint.cs:155-158 | only the status changes |
| CapturePoints.CapturePoint.SetState | Assets/Script/CapturePoint.cs:145-147 | the machine switches to the new state, whose Enter takes effect |
| Match.CountStatusBounds | Assets/Script/GameManager.cs:166-184 | the number of points with a status is at most the number of points, and zero exactly when none has it |
| Match.ScoreGainIsRateTimesCount | Assets/Script/GameManager.cs:166-184 | the accumulated gain equals the per-point rate times the number of points the team controls |
| Match.NoPassiveScore | Assets/Script/GameManager.cs:166-188 | when every point is Neutral, Contested or gone (all a point ever reports), neither team gains any score |
| Match.GameManager.constructor | Assets/Script/GameManager.cs:38-53 | Playing, zero scores, timer stopped, time scale 1 |
| Match.GameManager.Awake | Assets/Script/GameManager.cs:73-74 | the enemy claim registry is emptied |
| Match.GameManager.InitializeGame | Assets/Script/GameManager.cs:124-138 | Playing, zero scores, full timer running, time scale 1 |
| Match.GameManager.PauseGame | Assets/Script/GameManager.cs:216-226 | only a game in progress pauses, freezing time; scores and timer unchanged |
| Match.GameManager.ResumeGame | Assets/Script/GameManager.cs:228-238 | only a paused game resumes, restoring time; scores and timer unchanged |
| Match.GameManager.EndGame | Assets/Script/GameManager.cs:240-254 | only a game in progress ends, once, recording the winner, stopping the timer and freezing time |
| Match.GameManager.ScoreGains | Assets/Script/GameManager.cs:166-184 | each team's gain is the rate times the number of points it controls |
| Match.PlayingFrameOutcome | Assets/Script/GameManager.cs:140-203 | in a playing frame the timer runs down and on expiry stops at zero and ends the game with winner "None"; scores grow by the controlled counts times the rate and frame time; the player wins at the threshold first, else the enemy; a game that goes on keeps every other field; a finished game has its timer stopped and time frozen |
| Match.GameManager.UpdatePlayingState | Assets/Script/GameManager.cs:140-203 | the fields become `PlayingFrame` of the old ones: timer expiry, score growth, the player-first threshold win, and a finished game has time frozen |
| Match.GameManager.Update | Assets/Script/GameManager.cs:93-122 | Escape pauses a game in progress without a playing frame, changing only the state and the time scale; Escape on a paused game resumes it (time scale 1) and a playing frame (`PlayingFrame`) follows; a game in progress without Escape runs a playing frame; a paused game without Escape, a finished game and the main menu keep every field |
| Match.GameManager.RestartGame | Assets/Script/GameManager.cs:279-291 | time scale back to 1, every other field unchanged, and the claim registry emptied |
| Health.Damaged | Assets/Script/TankHealth.cs:55-68 | a dead tank is unchanged; a living tank's health drops by the damage, floored at 0, reaching 0 exactly when the damage is at least the health |
| Health.Healed | Assets/Script/TankHealth.cs:86-94 | a dead tank stays dead; a living one gains health capped at the maximum, reaching it exactly when the sum does |
| Health.KillsExactly | Assets/Script/TankHealth.cs:55-68 | damage kills exactly a living tank whose health it meets or exceeds, and a killed tank is never killed again |
| Health.DamagePreservesInvariant | Assets/Script/TankHealth.cs:55-68 | non-negative damage keeps health in [0, max] with zero health exactly for a dead tank |
| Health.HealPreservesInvariant | Assets/Script/TankHealth.cs:86-94 | non-negative healing keeps the health invariant |
| Health.FreshTankValid | Assets/Script/TankHealth.cs:23-26 | a tank with a positive maximum starts valid |
| Health.TankHealth.constructor | Assets/Script/TankHealth.cs:23-26 | full health, alive, and valid when the maximum is positive |
| Health.TankHealth.TakeDamage | Assets/Script/TankHealth.cs:55-68 | health becomes `Damaged`; the tank dies (one death event) exactly when damage kills it; validity is kept |
| Health.TankHealth.Die | Assets/Script/TankHealth.cs:70-84 | raises one death event and destroys the tank |
| Health.TankHealth.Heal | Assets/Script/TankHealth.cs:86-94 | health becomes `Healed`; life and death are unchanged; validity is kept |
| Bullets.Resolve | Assets/Script/BulletDestruction.cs:55-122 | capture zone layer passes exactly; a stopping outcome never concerns the shooter; a tank hit damages exactly a different tag; an obstacle stop needs a masked layer; passing through happens exactly when no rule applies |
| Bullets.NoFriendlyFire | Assets/Script/BulletDestruction.cs:71-98 | a bullet never damages its own team, its shooter or anything in the capture zone layer |
| Bullets.OpposingTankIsHit | Assets/Script/BulletDestruction.cs:79-98 | an opposing tank outside the capture zone layer is always damaged and stops the bullet |
| Bullets.Bullet.constructor | Assets/Script/BulletDestruction.cs:28-45 | records damage, mask, shooter, tag and capture zone layer; not destroyed |
| Bullets.Bullet.OnTriggerEnter2D | Assets/Script/BulletDestruction.cs:55-122 | the bullet is destroyed exactly on a stopping outcome; an opposing tank takes exactly the bullet's damage; any other touched tank is unharmed |
| Steering.Trimmed | Assets/Script/EnemyTankController.cs:488-490 | a path whose first waypoint is within the bound loses it; otherwise the path is unchanged |
| Steering.TrimmedKeepsDestination | Assets/Script/EnemyTankController.cs:488-490 | trimming drops at most the first waypoint and keeps the destination and the order |
| EnemyAI.TruncRem | Assets/Script/EnemyTankController.cs:366-367 | C# `%`: the remainder is smaller than the divisor in size and has the dividend's sign |
| EnemyAI.HashBias | Assets/Script/EnemyTankController.cs:366-370 | the per-tank bias is between -2 and 2 on each axis |
| EnemyAI.ProbesNearOrigin | Assets/Script/EnemyTankController.cs:359-372 | with draws of `Random.Range(-radius, radius + 1)`, every probe lies within `radius + 2` cells of the origin cell on each axis |
| EnemyAI.FirstFree | Assets/Script/EnemyTankController.cs:374-380 | the earliest probe that is passable and not the tank's cell, or none exactly when there is none |
| EnemyAI.NearbyWalkablePoint | Assets/Script/EnemyTankController.cs:359-389 | the result is the origin or the centre of a passable probe, and the centre of a free probe whenever one exists |
| EnemyAI.PatrolCellsInGrid | Assets/Script/EnemyTankController.cs:396-407 | every candidate cell lies inside the grid, and a candidate position inside the grid area lies within half a tile of its cell centre |
| EnemyAI.PatrolPointIsWalkable | Assets/Script/EnemyTankController.cs:391-429 | a patrol point is the tank's position or the centre of a passable cell, and the centre of a free cell whenever a candidate is free |
| EnemyAI.ReclaimedClaims | Assets/Script/EnemyTankController.cs:313-316 | the registry update moves the tank's claim from the previous point to the new one and leaves other tanks' claims unchanged |
| EnemyAI.DecideShape | Assets/Script/EnemyTankController.cs:220-317 | the decision keeps the point count, never leaves an idle tank with a target, and changes the target only with a claim change or by dropping it |
| EnemyAI.DecidePreservesClaims | Assets/Script/EnemyTankController.cs:220-317 | the decision and its registry update keep the claim invariant and leave other tanks' claims unchanged |
| EnemyAI.DecideAttacksPlayer | Assets/Script/EnemyTankController.cs:226-238 | a sensed player is attacked, the capture point dropped and its claim released |
| EnemyAI.DecideSeeksBestPoint | Assets/Script/EnemyTankController.cs:240-258 | without a player the tank seeks exactly when a best point exists, and then targets that point, which its team does not control |
| EnemyAI.DecidePatrolKeepsClaim | Assets/Script/EnemyTankController.cs:260-270 | entering patrol with capture points around keeps the target point, and the release and re-claim leave the registry unchanged |
| EnemyAI.MovedCursor | Assets/Script/EnemyTankController.cs:593-602 | the cursor never passes the path's end and advances by at most one; only the position and cursor change |
| EnemyAI.ShotsAreSpaced | Assets/Script/EnemyTankController.cs:655-673 | two shots are at least `fireRate` apart |
| EnemyAI.EnemyTankController.constructor | Assets/Script/EnemyTankController.cs:139-151 | idle, no targets, no path, no claims, and the claim invariant holds |
| EnemyAI.EnemyTankController.Start | Assets/Script/EnemyTankController.cs:153-168 | records the point count, idles on the spot and picks the first patrol point, every other field (path, cursor, timers, targets, position) unchanged; the claim invariant is kept |
| EnemyAI.EnemyTankController.GetNearbyWalkablePoint | Assets/Script/EnemyTankController.cs:359-389 | the probe loop returns `NearbyWalkablePoint` of its probes |
| EnemyAI.EnemyTankController.GenerateNewPatrolPoint | Assets/Script/EnemyTankController.cs:391-429 | the fields become `PatrolRenewed`: the patrol point becomes `PatrolPoint` and the next change is due after the wait; a patrolling tank retargets and drops its path |
| EnemyAI.EnemyTankController.DecideNextAction | Assets/Script/EnemyTankController.cs:220-317 | the fields become `Decide`'s and the registry moves the claim as `Reclaimed` says |
| EnemyAI.EnemyTankController.ChasePlayer | Assets/Script/EnemyTankController.cs:226-238 | the attack branch as `Chase` |
| EnemyAI.EnemyTankController.SeekPoint | Assets/Script/EnemyTankController.cs:240-258 | the seek branch as `Seek` |
| EnemyAI.EnemyTankController.EnterPatrol | Assets/Script/EnemyTankController.cs:260-270 | the patrol branches as `Patrol` |
| EnemyAI.EnemyTankController.EnterIdle | Assets/Script/EnemyTankController.cs:272-283 | the idle branches as `GoIdle` |
| EnemyAI.EnemyTankController.FindPath | Assets/Script/EnemyTankController.cs:478-492 | no path from or to an impassable cell; an empty path at the goal; a path found is a grid path, trimmed of a first waypoint within a tenth of a tile; cursor reset |
| EnemyAI.EnemyTankController.HandlePathfinding | Assets/Script/EnemyTankController.cs:435-476 | the new fields are `Pathed` from the old: no path while idle or at the destination cell (a patrolling tank renews its patrol point there and, unless the point lies in its own cell, where the cursor stays, searches towards it; the path found is a trimmed grid path, and none if either end is impassable); otherwise a new search exactly when the path is missing or empty, the period elapsed or the attacked player moved more than 0.1, whose result is a trimmed grid path; state and targets unchanged |
| EnemyAI.EnemyTankController.RenewPatrolRoute | Assets/Script/EnemyTankController.cs:448-464 | a new patrol point becomes the target; in the tank's own cell the path stays dropped and the cursor keeps its value; otherwise a search runs towards it, the cursor resets, an impassable end gives no path and any path found is a grid path trimmed within 0.1 of a tile |
| EnemyAI.EnemyTankController.MoveAlongPath | Assets/Script/EnemyTankController.cs:593-602 | the fields become `Moved`'s |
| EnemyAI.EnemyTankController.HandleShooting | Assets/Script/EnemyTankController.cs:655-673 | fires exactly when attacking a sensed player within range, aligned and off cooldown, restarting the cooldown |
| EnemyAI.EnemyTankController.Update | Assets/Script/EnemyTankController.cs:174-190 | a dead tank does nothing; otherwise the registry becomes `Reclaimed` by the decision `Decide` of the sensed state, the path step is `Pathed` from the decided fields, the shot is `Fires` after `Moved`, and the fields end as `TimedPatrol(AfterShooting(Moved(...)))`; every tick keeps the claim invariant and leaves other tanks' claims alone |
| EnemyAI.EnemyTankController.Think | Assets/Script/EnemyTankController.cs:178-179 | the fields become `Decide` of the old ones with the sensed player and the registry `Reclaimed`, keeping the claim invariant and other tanks' claims |
| EnemyAI.EnemyTankController.Act | Assets/Script/EnemyTankController.cs:180-189 | the path step is `Pathed`, then the tank is `Moved`, fires exactly when `Fires`, and the timed patrol renewal follows; state, targets and claims unchanged |
| EnemyAI.EnemyTankController.OnDestroy | Assets/Script/EnemyTankController.cs:192-195 | the tank's claim is released, after which it claims nothing |
| AllyAI.FirstAcceptable | Assets/Script/AllyTankController.cs:256-267 | the earliest draw that is walkable, not the tank's cell and far enough from the last target, or none exactly when there is none |
| AllyAI.PatrolPickOutcome | Assets/Script/AllyTankController.cs:252-276 | the new target is the centre of an acceptable draw; the tank goes idle at its own position exactly when no draw is acceptable; the path is dropped |
| AllyAI.PatrolCheckThrottled | Assets/Script/AllyTankController.cs:237-249 | patrol points change no faster than the minimum interval, and the check keeps the controller invariant |
| AllyAI.DecideOutcome | Assets/Script/AllyTankController.cs:148-213 | the decision keeps the invariant; a sensed enemy is attacked with no capture point; a tank the decision changes and leaves seeking heads for a point its team does not control |
| AllyAI.SeekingKeepsValidPoint | Assets/Script/AllyTankController.cs:172-182 | a tank seeking a point its team still does not control keeps its state, target and last state change time, and ends with its navigation target at the point (within Unity's vector tolerance), changing nothing but the navigation target and the path |
| AllyAI.StateChangeIntervalOnlyGatesPatrol | Assets/Script/AllyTankController.cs:148-213 | attacking or switching to the nearest point does not depend on when the state last changed |
| AllyAI.PatrolEntryRespectsInterval | Assets/Script/AllyTankController.cs:198-209 | with nothing to attack or seek, the tank changes only by entering patrol, allowed once the interval passed or when idle |
| AllyAI.ApplyPathOffset | Assets/Script/AllyTankController.cs:436-457 | the length is kept, and paths shorter than two waypoints are unchanged |
| AllyAI.OffsetDisplacement | Assets/Script/AllyTankController.cs:436-457 | with unit perpendiculars every waypoint moves exactly the offset's magnitude |
| AllyAI.MovedCursor | Assets/Script/AllyTankController.cs:479-487 | moving keeps the invariant, the cursor advances by at most one, and a path survives only while waypoints remain |
| AllyAI.ShotsAreSpaced | Assets/Script/AllyTankController.cs:519-526 | two shots are at least `fireRate` apart |
| AllyAI.AllyTankController.constructor | Assets/Script/AllyTankController.cs:49-64 | the field initialisers; the invariant holds |
| AllyAI.AllyTankController.Start | Assets/Script/AllyTankController.cs:90-103 | patrolling from the current spot with the patrol interval over, towards a first patrol point; the invariant holds |
| AllyAI.AllyTankController.SelectNewPatrolPoint | Assets/Script/AllyTankController.cs:252-276 | the fields become `PatrolPick`'s |
| AllyAI.AllyTankController.ScanPatrolDraws | Assets/Script/AllyTankController.cs:256-267 | the draw loop finds a point exactly when an acceptable draw exists and returns `PatrolTarget` |
| AllyAI.AllyTankController.CheckPatrolPointReached | Assets/Script/AllyTankController.cs:237-249 | the fields become `PatrolCheck`'s |
| AllyAI.AllyTankController.DecideNextAction | Assets/Script/AllyTankController.cs:148-213 | the fields become `Decide`'s |
| AllyAI.AllyTankController.ReconsiderTarget | Assets/Script/AllyTankController.cs:184-209 | the nearest-point or patrol branch as `Reconsider` |
| AllyAI.AllyTankController.EngageEnemy | Assets/Script/AllyTankController.cs:157-169 | the attack branch as `Engage` |
| AllyAI.AllyTankController.FindPathAStar | Assets/Script/AllyTankController.cs:304-316 | no path from or to an impassable cell; a path found is a non-empty grid path, offset sideways and trimmed of a first waypoint within 0.15 of a tile; cursor reset |
| AllyAI.AllyTankController.HandlePathfinding | Assets/Script/AllyTankController.cs:282-301 | the new fields are `Pathed` from the old: no path while idle or at the destination cell unless patrolling; otherwise a new search exactly when the path is missing or empty, the period elapsed or the target moved beyond the threshold, and the destination is another cell, whose result is an offset, trimmed grid path |
| AllyAI.AllyTankController.MoveAlongPath | Assets/Script/AllyTankController.cs:479-487 | the fields become `Moved`'s |
| AllyAI.AllyTankController.HandleShooting | Assets/Script/AllyTankController.cs:519-526 | fires exactly when attacking a sensed enemy within range, in sight and off cooldown, restarting the cooldown |
| AllyAI.AllyTankController.Update | Assets/Script/AllyTankController.cs:106-118 | a dead tank does nothing; otherwise the decision is `Decide` of `PatrolCheck` with the sensed enemy, the path step is `Pathed` from it, the shot is `Fires` after `Moved`, and the fields end as `AfterShooting(Moved(...))`; the invariant is kept |
| AllyAI.AllyTankController.Think | Assets/Script/AllyTankController.cs:108-111 | the fields become `Decide` of `PatrolCheck` of the old ones with the sensed enemy, keeping the invariant |
| AllyAI.AllyTankController.Act | Assets/Script/AllyTankController.cs:112-117 | the path step is `Pathed`, then the tank is `Moved` and fires exactly when `Fires`, the fields ending as `AfterShooting`; state and targets unchanged and the invariant kept |

## Left out

- Floating point: positions, times and scores are exact reals, so single-precision rounding is not modelled. The diagonal step cost is the single-precision value of the square root of 2, and `Vector3 !=` uses Unity's approximate test.
- The z coordinate: the game lives in the plane z = 0, and positions are two-dimensional.
- A grid's tile size is assumed positive (`Grid.TiledGrid`). The source never guards against a zero tile size.
- Engine queries are inputs. These are `DetectPlayers`/`DetectEnemies` (the closest living target), `Physics2D.OverlapCircle` behind `IsWalkable`, the line-of-sight raycast `IsDirectPathClear`, and the cannon alignment angle test.
- Randomness is an input. The random draws are arbitrary cells and offsets: the model does not restrict them to the radius or grid ranges the source draws from.
- Motion is an input. `Vector2.MoveTowards`, the chassis and cannon rotations, and the clock (`Time.time`, `Time.deltaTime`) are supplied by the caller.
- AllyAI.ApplyPathOffset: the perpendicular direction at each waypoint is an input, so the normalisation and fallback rules that derive it are not modelled.
- PathFinding.Search: the loop is bounded by a fuel count of dequeues (running out answers no path), because the frontier loop has no bound the verifier can use.
- PathFinding.ReconstructPath: the path guarantee is proved only for grids of at most 10001 cells, the size at which the 10000-step safety limit can no longer stop the walk early.
- PathFinding.FirstSelfParent: the dictionary's enumeration order is not fixed, so any self-parented key may be returned. In a parent map built by the search only the start qualifies.
- PriorityQueues.PriorityQueue.Enqueue: `List.Sort` is not stable, so only sortedness and the multiset of entries are promised. The order among equal priorities is left open.
- CapturePointSelection.DistanceSqr: only non-negativity, symmetry and a zero distance from a point to itself are stated; the converse, that a zero distance means equal points, is not.
- Search optimality (that Dijkstra's path is a cheapest one) is not stated. The model proves only that a returned path is a valid chain of admissible steps.
- The ally's `ResetTargetCounts` and `OnDestroy` only log, and `GameManager.NotifyPointCaptured` only logs. None of the three has a member.
- UI, visuals and debugging are not modelled: `UpdateVisuals`, `DrawPath`, gizmos, health bars, the camera, menus, indicators and log messages.
- Object lifetime is not modelled: `Instantiate`, `Destroy`, `Shoot` (beyond the fact that it fires), the bullet lifetime timer and bullet movement. The same applies to the singleton lookup, the scene reload and `Invoke` delays such as the enemy's delayed first decision.
- Capture points are assumed not to be destroyed while a controller holds them as a target. A destroyed point in a controller's list appears as an empty slot.
- Player input other than the Escape key is not modelled, and neither is the player's own tank controller.
- Concurrency is not modelled: all objects update one after another on a single thread, and the order between agents within a frame is whatever the caller chooses.
