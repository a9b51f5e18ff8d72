/**
 * A capture point: the list of tanks standing in its zone, its capture
 * progress and team tags, and the state machine (Neutral, Capturing, Captured,
 * Contested) that the tanks in the zone drive.
 *
 * The transition rules are pure functions (`EnterEffect` for a state's `Enter`,
 * `Run` for one `Execute`); the classes `StateMachine` and `CapturePoint`
 * perform them in place and are proved to agree with them.
 */
module CapturePoints {
  import opened Wrappers

  /** `PointStatus`. */
  datatype PointStatus = Neutral | CapturingPlayer | CapturingEnemy | ControlledPlayer | ControlledEnemy | Contested

  /** A tank's collider: its object identity and its tag. */
  datatype Collider = Collider(id: nat, tag: string)

  /**
   * The game ships two classes named `ContestedState`, which differ only in
   * whether `Enter` writes the point's status; a build contains one of them.
   * `WritesStatus` is the one in ContestedState.cs, `KeepsStatus` the one in
   * ConetstedState.cs.
   */
  datatype ContestedVariant = WritesStatus | KeepsStatus

  /** A state object: its class and what its constructor captured from the
      point (the capturing team, or the controlling team). */
  datatype PointState =
    | NeutralState
    | CapturingState(teamCapturing: string)
    | CapturedState(teamControlling: Option<string>)
    | ContestedState

  /** The hooks a state machine invokes, in the order it invokes them. */
  datatype Hook = Exited(s: PointState) | Entered(s: PointState) | Executed(s: PointState)

  /** The point's fields that the states read and write. */
  datatype Fields = Fields(progress: real, controlling: Option<string>, capturing: Option<string>, status: PointStatus)

  /** The team opposing `team`: "Enemy" against "Player", "Player" against anything else. */
  function Opposing(team: Option<string>): (o: string)
    ensures team == Some("Player") ==> o == "Enemy"
    ensures team == Some("Enemy") ==> o == "Player"
  {
    if team == Some("Player") then "Enemy" else "Player"
  }

  // ---------------------------------------------------------------------------
  // The zone

  /** `RemoveAll(c => c == null)`: the entries whose object still exists, in
      order; `destroyed` names the colliders the engine has destroyed. */
  function Purged(zone: seq<Collider>, destroyed: set<nat>): (r: seq<Collider>)
    ensures forall c :: c in r <==> c in zone && c.id !in destroyed
    ensures |r| <= |zone|
  {
    if zone == [] then []
    else (if zone[0].id in destroyed then [] else [zone[0]]) + Purged(zone[1..], destroyed)
  }

  /** The number of colliders in `zone` carrying `tag`. */
  function CountTag(zone: seq<Collider>, tag: string): (n: nat)
    ensures n <= |zone|
    ensures n == 0 <==> forall c :: c in zone ==> c.tag != tag
  {
    if zone == [] then 0
    else (if zone[0].tag == tag then 1 else 0) + CountTag(zone[1..], tag)
  }

  predicate NoDuplicates(zone: seq<Collider>) {
    forall i, j :: 0 <= i < j < |zone| ==> zone[i] != zone[j]
  }

  /** `List.Remove`: drops the first occurrence of `c`, if any. */
  function RemoveFirst(zone: seq<Collider>, c: Collider): (r: seq<Collider>)
    ensures c !in zone ==> r == zone
    ensures c in zone ==> |r| == |zone| - 1 && multiset(r) == multiset(zone) - multiset{c}
  {
    if zone == [] then []
    else
      assert zone == [zone[0]] + zone[1..];
      if zone[0] == c then zone[1..]
      else [zone[0]] + RemoveFirst(zone[1..], c)
  }

  /** Purging a purged zone changes nothing. */
  lemma {:induction false} PurgedTwice(zone: seq<Collider>, destroyed: set<nat>)
    ensures Purged(Purged(zone, destroyed), destroyed) == Purged(zone, destroyed)
  {
    if zone != [] {
      PurgedTwice(zone[1..], destroyed);
      var rest := Purged(zone[1..], destroyed);
      if zone[0].id !in destroyed {
        var q := [zone[0]] + rest;
        assert Purged(zone, destroyed) == q;
        assert q[1..] == rest;
        assert Purged(q, destroyed) == [zone[0]] + Purged(rest, destroyed);
      } else {
        assert Purged(zone, destroyed) == rest;
      }
    }
  }

  lemma {:induction false} PurgedNoDuplicates(zone: seq<Collider>, destroyed: set<nat>)
    requires NoDuplicates(zone)
    ensures NoDuplicates(Purged(zone, destroyed))
  {
    if zone != [] {
      assert NoDuplicates(zone[1..]) by { TailNoDuplicates(zone); }
      PurgedNoDuplicates(zone[1..], destroyed);
      assert zone[0] !in zone[1..];
      var rest := Purged(zone[1..], destroyed);
      if zone[0].id !in destroyed {
        var q := [zone[0]] + rest;
        forall i, j | 0 <= i < j < |q| ensures q[i] != q[j] {
          if i == 0 {
            assert q[j] == rest[j - 1] && q[j] in rest;
          } else {
            assert q[i] == rest[i - 1] && q[j] == rest[j - 1];
          }
        }
      }
    }
  }

  lemma TailNoDuplicates(zone: seq<Collider>)
    requires NoDuplicates(zone) && zone != []
    ensures NoDuplicates(zone[1..])
  {
    forall a, b | 0 <= a < b < |zone[1..]| ensures zone[1..][a] != zone[1..][b] {
      assert zone[1..][a] == zone[a + 1] && zone[1..][b] == zone[b + 1];
    }
  }

  /** Removing `c` from a zone without duplicates keeps it without duplicates,
      leaves no `c` behind and keeps every other collider. */
  lemma {:induction false} RemoveFirstNoDuplicates(zone: seq<Collider>, c: Collider)
    requires NoDuplicates(zone)
    ensures NoDuplicates(RemoveFirst(zone, c))
    ensures c !in RemoveFirst(zone, c)
    ensures forall d :: d != c ==> (d in RemoveFirst(zone, c) <==> d in zone)
  {
    if zone != [] {
      TailNoDuplicates(zone);
      assert zone == [zone[0]] + zone[1..];
      if zone[0] != c {
        RemoveFirstNoDuplicates(zone[1..], c);
        var rest := RemoveFirst(zone[1..], c);
        var q := [zone[0]] + rest;
        assert zone[0] !in zone[1..];
        assert zone[0] !in rest;
        forall i, j | 0 <= i < j < |q| ensures q[i] != q[j] {
          if i == 0 {
            assert q[j] == rest[j - 1] && q[j] in rest;
          } else {
            assert q[i] == rest[i - 1] && q[j] == rest[j - 1];
          }
        }
      }
    }
  }

  // ---------------------------------------------------------------------------
  // The states

  /** The effect of a state's `Enter` on the point. */
  function EnterEffect(f: Fields, s: PointState, captureTime: real, variant: ContestedVariant): (g: Fields)
    ensures s.NeutralState? ==> g == Fields(0.0, None, None, f.status)
    ensures s.CapturingState? ==> g == f.(controlling := None)
    ensures s.CapturedState? ==> g == f.(progress := captureTime, capturing := None)
    ensures s.ContestedState? ==>
      g == Fields(0.0, None, None, if variant == WritesStatus then Contested else f.status)
    ensures g.status != f.status ==> g.status == Contested && s.ContestedState? && variant == WritesStatus
  {
    match s
    case NeutralState => f.(progress := 0.0, controlling := None, capturing := None)
    case CapturingState(_) => f.(controlling := None)
    case CapturedState(_) => f.(progress := captureTime, capturing := None)
    case ContestedState =>
      var g := f.(progress := 0.0, controlling := None, capturing := None);
      if variant == WritesStatus then g.(status := Contested) else g
  }

  /** The outcome of one `Execute`: the point's fields afterwards and the state
      it switched to, if it switched. */
  datatype Step = Step(fields: Fields, next: Option<PointState>)

  /** `SetState(next)` after the current state has written `f`. */
  function Switch(f: Fields, next: PointState, captureTime: real, variant: ContestedVariant): Step {
    Step(EnterEffect(f, next, captureTime, variant), Some(next))
  }

  /** The state the machine holds after a step. */
  function After(s: PointState, step: Step): PointState {
    if step.next.Some? then step.next.value else s
  }

  /** The Neutral and Contested rule for the teams in the zone: one team alone
      starts capturing. */
  function StartCapturing(f: Fields, team: string, captureTime: real, variant: ContestedVariant): Step {
    Switch(f.(capturing := Some(team)), CapturingState(team), captureTime, variant)
  }

  /** `NeutralState.Execute` once the teams in the zone are counted. */
  function NeutralStep(f: Fields, players: nat, enemies: nat, captureTime: real, variant: ContestedVariant): Step {
    if players > 0 && enemies == 0 then StartCapturing(f, "Player", captureTime, variant)
    else if enemies > 0 && players == 0 then StartCapturing(f, "Enemy", captureTime, variant)
    else if players > 0 && enemies > 0 then Switch(f, ContestedState, captureTime, variant)
    else Step(f, None)
  }

  /** `CapturingState.Execute` once the capturing and the opposing team are
      counted. */
  function CapturingStep(f: Fields, team: string, capturers: nat, opponents: nat, dt: real, captureTime: real,
                         variant: ContestedVariant): Step {
    if capturers > 0 && opponents == 0 then
      var g := f.(progress := f.progress + dt);
      if g.progress >= captureTime then
        Switch(g.(controlling := Some(team)), CapturedState(Some(team)), captureTime, variant)
      else Step(g, None)
    else if capturers == 0 && opponents == 0 then Switch(f, NeutralState, captureTime, variant)
    else Switch(f, ContestedState, captureTime, variant)
  }

  /** `CapturedState.Execute` once the opposing team is counted. */
  function CapturedStep(f: Fields, opponents: nat, captureTime: real, variant: ContestedVariant): Step {
    if opponents > 0 then Switch(f, ContestedState, captureTime, variant)
    else Step(f, None)
  }

  /** `ContestedState.Execute` once the teams in the zone are counted. */
  function ContestedStep(f: Fields, players: nat, enemies: nat, captureTime: real, variant: ContestedVariant): Step {
    if players > 0 && enemies == 0 then StartCapturing(f, "Player", captureTime, variant)
    else if enemies > 0 && players == 0 then StartCapturing(f, "Enemy", captureTime, variant)
    else if players == 0 && enemies == 0 then Switch(f, NeutralState, captureTime, variant)
    else Step(f, None)
  }

  /**
   * One `Execute` of state `s`, with `zone` the zone after its destroyed
   * entries have been purged and `dt` the frame's `Time.deltaTime`.
   */
  function Run(f: Fields, s: PointState, zone: seq<Collider>, dt: real, captureTime: real,
               variant: ContestedVariant): Step
  {
    match s
    case NeutralState =>
      NeutralStep(f, CountTag(zone, "Player"), CountTag(zone, "Enemy"), captureTime, variant)
    case CapturingState(team) =>
      CapturingStep(f, team, CountTag(zone, team), CountTag(zone, Opposing(Some(team))), dt, captureTime, variant)
    case CapturedState(team) =>
      CapturedStep(f, CountTag(zone, Opposing(team)), captureTime, variant)
    case ContestedState =>
      ContestedStep(f, CountTag(zone, "Player"), CountTag(zone, "Enemy"), captureTime, variant)
  }

  predicate IsTeam(tag: string) {
    tag == "Player" || tag == "Enemy"
  }

  /**
   * What holds between the point's fields and its state between frames: a
   * Neutral or Contested point has no team and no progress, a Capturing point
   * records its team and has not yet reached the capture time, a Captured
   * point is controlled by its team at full progress.
   */
  predicate Consistent(f: Fields, s: PointState, captureTime: real) {
    match s
    case NeutralState => f.progress == 0.0 && f.controlling == None && f.capturing == None
    case CapturingState(team) =>
      IsTeam(team) && f.controlling == None && f.capturing == Some(team) && 0.0 <= f.progress < captureTime
    case CapturedState(team) =>
      team.Some? && IsTeam(team.value) && f.controlling == team && f.capturing == None && f.progress == captureTime
    case ContestedState => f.progress == 0.0 && f.controlling == None && f.capturing == None
  }

  /** Every `Execute` keeps the point consistent, for a positive capture time
      and a frame time that does not run backwards. */
  lemma RunConsistent(f: Fields, s: PointState, zone: seq<Collider>, dt: real, captureTime: real,
                      variant: ContestedVariant)
    requires Consistent(f, s, captureTime) && captureTime > 0.0 && dt >= 0.0
    ensures var step := Run(f, s, zone, dt, captureTime, variant);
      Consistent(step.fields, After(s, step), captureTime)
  {
  }

  /** The status is Neutral until a Contested state of the status-writing kind
      is entered, and Contested from then on: no state ever sets a capturing or
      controlled status. */
  lemma StatusNeutralOrContested(f: Fields, s: PointState, zone: seq<Collider>, dt: real, captureTime: real,
                                 variant: ContestedVariant)
    requires f.status == Neutral || f.status == Contested
    ensures var g := Run(f, s, zone, dt, captureTime, variant).fields;
      g.status == Neutral || g.status == Contested
    ensures variant == KeepsStatus ==> Run(f, s, zone, dt, captureTime, variant).fields.status == f.status
  {
  }

  /** A captured point stays captured, with nothing changed, as long as no
      opponent is in the zone, even when the zone is empty. */
  lemma CapturedDoesNotDecay(f: Fields, team: Option<string>, zone: seq<Collider>, dt: real, captureTime: real,
                             variant: ContestedVariant)
    requires CountTag(zone, Opposing(team)) == 0
    ensures Run(f, CapturedState(team), zone, dt, captureTime, variant) == Step(f, None)
  {
  }

  /** A point being captured never passes straight to the other team's
      capture: it goes through Contested or Neutral first. */
  lemma NoDirectCaptureSwitch(f: Fields, team: string, zone: seq<Collider>, dt: real, captureTime: real,
                              variant: ContestedVariant)
    ensures var step := Run(f, CapturingState(team), zone, dt, captureTime, variant);
      step.next.Some? ==> !step.next.value.CapturingState?
  {
  }

  /** The hooks a step's state change invokes: Exit of the old state, then
      Enter of the new one. */
  function ChangeHooks(s: PointState, step: Step): seq<Hook> {
    if step.next.Some? then [Exited(s), Entered(step.next.value)] else []
  }

  /** `n` frames of length `dt` with the same zone. */
  function RunMany(f: Fields, s: PointState, zone: seq<Collider>, dt: real, captureTime: real,
                   variant: ContestedVariant, n: nat): (Fields, PointState)
    decreases n
  {
    if n == 0 then (f, s)
    else
      var step := Run(f, s, zone, dt, captureTime, variant);
      RunMany(step.fields, After(s, step), zone, dt, captureTime, variant, n - 1)
  }

  /**
   * A team alone in the zone of a point it is capturing completes the capture
   * in at most `n` frames once `n` frames of length `dt` cover the missing
   * progress, and the point then stays captured by that team.
   */
  lemma {:induction false} CaptureCompletes(f: Fields, team: string, zone: seq<Collider>, dt: real, captureTime: real,
                                            variant: ContestedVariant, n: nat)
    requires Consistent(f, CapturingState(team), captureTime)
    requires CountTag(zone, team) > 0 && CountTag(zone, Opposing(Some(team))) == 0
    requires dt > 0.0 && f.progress + n as real * dt >= captureTime
    decreases n
    ensures var (g, s) := RunMany(f, CapturingState(team), zone, dt, captureTime, variant, n);
      s == CapturedState(Some(team)) && g.controlling == Some(team) && g.progress == captureTime
  {
    var step := Run(f, CapturingState(team), zone, dt, captureTime, variant);
    assert n > 0;
    if f.progress + dt >= captureTime {
      assert After(CapturingState(team), step) == CapturedState(Some(team));
      StaysCaptured(step.fields, Some(team), zone, dt, captureTime, variant, n - 1);
    } else {
      assert step == Step(f.(progress := f.progress + dt), None);
      assert step.fields.progress + (n - 1) as real * dt >= captureTime;
      CaptureCompletes(step.fields, team, zone, dt, captureTime, variant, n - 1);
    }
  }

  lemma {:induction false} StaysCaptured(f: Fields, team: Option<string>, zone: seq<Collider>, dt: real,
                                         captureTime: real, variant: ContestedVariant, n: nat)
    requires CountTag(zone, Opposing(team)) == 0
    decreases n
    ensures RunMany(f, CapturedState(team), zone, dt, captureTime, variant, n) == (f, CapturedState(team))
  {
    if n > 0 {
      CapturedDoesNotDecay(f, team, zone, dt, captureTime, variant);
      StaysCaptured(f, team, zone, dt, captureTime, variant, n - 1);
    }
  }

  // ---------------------------------------------------------------------------
  // The objects

  /** `StateMachine`: holds the current state and invokes its hooks; `hooks`
      records every invocation in order. */
  class StateMachine {
    var currentState: Option<PointState>
    ghost var hooks: seq<Hook>

    constructor ()
      ensures currentState == None && hooks == []
    {
      currentState := None;
      hooks := [];
    }

    /**
     * Exits the current state, if there is one, installs `newState` and enters
     * it. `Enter` runs on the owner with `newState` already current.
     */
    method ChangeState(newState: PointState, owner: CapturePoint)
      requires owner.machine == this
      modifies this, owner
      ensures currentState == Some(newState)
      ensures hooks == old(hooks) + (if old(currentState).Some? then [Exited(old(currentState).value)] else []) +
        [Entered(newState)]
      ensures owner.Snapshot() == EnterEffect(old(owner.Snapshot()), newState, owner.captureTime, owner.variant)
      ensures owner.tanksInZone == old(owner.tanksInZone)
    {
      if currentState.Some? {
        hooks := hooks + [Exited(currentState.value)];
      }
      currentState := Some(newState);
      hooks := hooks + [Entered(newState)];
      owner.EnterState(newState);
    }
  }

  /** `CapturePoint`. */
  class CapturePoint {
    const captureTime: real
    const variant: ContestedVariant
    const machine: StateMachine
    var currentCaptureProgress: real
    var controllingTeamTag: Option<string>
    var capturingTeamTag: Option<string>
    var currentStatus: PointStatus
    var tanksInZone: seq<Collider>

    function Snapshot(): Fields
      reads this
    {
      Fields(currentCaptureProgress, controllingTeamTag, capturingTeamTag, currentStatus)
    }

    /** The field initialisers, and the state machine `Start` creates. */
    constructor (captureTime: real, variant: ContestedVariant)
      ensures this.captureTime == captureTime && this.variant == variant
      ensures Snapshot() == Fields(0.0, None, None, Neutral) && tanksInZone == []
      ensures fresh(machine) && machine.currentState == None && machine.hooks == []
    {
      this.captureTime := captureTime;
      this.variant := variant;
      currentCaptureProgress := 0.0;
      controllingTeamTag := None;
      capturingTeamTag := None;
      currentStatus := Neutral;
      tanksInZone := [];
      machine := new StateMachine();
    }

    /** `Start`: installs the Neutral state; the status stays Neutral. */
    method Start()
      requires machine.currentState == None
      modifies this, machine
      ensures machine.currentState == Some(NeutralState)
      ensures machine.hooks == old(machine.hooks) + [Entered(NeutralState)]
      ensures Snapshot() == Fields(0.0, None, None, old(currentStatus))
      ensures Consistent(Snapshot(), NeutralState, captureTime)
      ensures tanksInZone == old(tanksInZone)
    {
      SetState(NeutralState);
    }

    /** `Update`: executes the current state, if there is one. */
    method Update(dt: real, destroyed: set<nat>)
      modifies this, machine
      ensures old(machine.currentState).None? ==>
        machine.currentState == None && Snapshot() == old(Snapshot()) && tanksInZone == old(tanksInZone) &&
        machine.hooks == old(machine.hooks)
      ensures old(machine.currentState).Some? ==>
        var s := old(machine.currentState).value;
        var step := Run(old(Snapshot()), s, Purged(old(tanksInZone), destroyed), dt, captureTime, variant);
        tanksInZone == Purged(old(tanksInZone), destroyed) &&
        Snapshot() == step.fields && machine.currentState == Some(After(s, step)) &&
        machine.hooks == old(machine.hooks) + [Executed(s)] + ChangeHooks(s, step)
    {
      if machine.currentState.Some? {
        ExecuteState(dt, destroyed);
      }
    }

    /** `Enter` of state `s`, which the machine has already made current. */
    method EnterState(s: PointState)
      requires machine.currentState == Some(s)
      modifies this
      ensures Snapshot() == EnterEffect(old(Snapshot()), s, captureTime, variant)
      ensures tanksInZone == old(tanksInZone)
    {
      match s
      case NeutralState =>
        controllingTeamTag := None;
        capturingTeamTag := None;
        ResetCaptureProgress();
      case CapturingState(_) =>
        controllingTeamTag := None;
      case CapturedState(_) =>
        currentCaptureProgress := captureTime;
        capturingTeamTag := None;
      case ContestedState =>
        controllingTeamTag := None;
        capturingTeamTag := None;
        ResetCaptureProgress();
        if variant == WritesStatus {
          SetStatus(Contested);
        }
    }

    /** `Execute` of the current state, recorded as an `Execute` hook. */
    method ExecuteState(dt: real, destroyed: set<nat>)
      requires machine.currentState.Some?
      modifies this, machine
      ensures var s := old(machine.currentState).value;
        var step := Run(old(Snapshot()), s, Purged(old(tanksInZone), destroyed), dt, captureTime, variant);
        tanksInZone == Purged(old(tanksInZone), destroyed) &&
        Snapshot() == step.fields && machine.currentState == Some(After(s, step)) &&
        machine.hooks == old(machine.hooks) + [Executed(s)] + ChangeHooks(s, step)
    {
      var s := machine.currentState.value;
      machine.hooks := machine.hooks + [Executed(s)];
      match s
      case NeutralState => ExecuteNeutral(dt, destroyed);
      case CapturingState(team) => ExecuteCapturing(team, dt, destroyed);
      case CapturedState(team) => ExecuteCaptured(team, dt, destroyed);
      case ContestedState => ExecuteContested(dt, destroyed);
    }

    /** `NeutralState.Execute`: counts both teams, then applies the rule. */
    method ExecuteNeutral(dt: real, destroyed: set<nat>)
      requires machine.currentState == Some(NeutralState)
      modifies this, machine
      ensures var step := Run(old(Snapshot()), NeutralState, Purged(old(tanksInZone), destroyed), dt, captureTime, variant);
        tanksInZone == Purged(old(tanksInZone), destroyed) &&
        Snapshot() == step.fields && machine.currentState == Some(After(NeutralState, step)) &&
        machine.hooks == old(machine.hooks) + ChangeHooks(NeutralState, step)
    {
      ghost var f0 := Snapshot();
      PurgedTwice(tanksInZone, destroyed);
      var playersInZone := GetTeamCountInZone("Player", destroyed);
      var enemiesInZone := GetTeamCountInZone("Enemy", destroyed);
      ghost var step := NeutralStep(f0, playersInZone, enemiesInZone, captureTime, variant);
      assert Run(f0, NeutralState, tanksInZone, dt, captureTime, variant) == step;
      ghost var h0 := machine.hooks;
      NeutralRule(playersInZone, enemiesInZone);
      assert Snapshot() == step.fields;
      assert machine.hooks == h0 + ChangeHooks(NeutralState, step);
    }

    /** The branches of `NeutralState.Execute`. */
    method NeutralRule(playersInZone: nat, enemiesInZone: nat)
      requires machine.currentState == Some(NeutralState)
      modifies this, machine
      ensures var step := NeutralStep(old(Snapshot()), playersInZone, enemiesInZone, captureTime, variant);
        Snapshot() == step.fields && machine.currentState == Some(After(NeutralState, step)) &&
        machine.hooks == old(machine.hooks) + ChangeHooks(NeutralState, step) && tanksInZone == old(tanksInZone)
    {
      if playersInZone > 0 && enemiesInZone == 0 {
        capturingTeamTag := Some("Player");
        SetState(CapturingState("Player"));
      } else if enemiesInZone > 0 && playersInZone == 0 {
        capturingTeamTag := Some("Enemy");
        SetState(CapturingState("Enemy"));
      } else if playersInZone > 0 && enemiesInZone > 0 {
        SetState(ContestedState);
      }
    }

    /** `CapturingState.Execute` for the team the state was built with: counts
        that team and its opponent, then applies the rule. */
    method ExecuteCapturing(teamCapturing: string, dt: real, destroyed: set<nat>)
      requires machine.currentState == Some(CapturingState(teamCapturing))
      modifies this, machine
      ensures var step := Run(old(Snapshot()), CapturingState(teamCapturing), Purged(old(tanksInZone), destroyed), dt, captureTime, variant);
        tanksInZone == Purged(old(tanksInZone), destroyed) &&
        Snapshot() == step.fields && machine.currentState == Some(After(CapturingState(teamCapturing), step)) &&
        machine.hooks == old(machine.hooks) + ChangeHooks(CapturingState(teamCapturing), step)
    {
      ghost var f0 := Snapshot();
      PurgedTwice(tanksInZone, destroyed);
      var capturingTeamCount := GetTeamCountInZone(teamCapturing, destroyed);
      var opposingTeam := Opposing(Some(teamCapturing));
      var opposingTeamCount := GetTeamCountInZone(opposingTeam, destroyed);
      assert Run(f0, CapturingState(teamCapturing), tanksInZone, dt, captureTime, variant) ==
        CapturingStep(f0, teamCapturing, capturingTeamCount, opposingTeamCount, dt, captureTime, variant);
      CapturingRule(teamCapturing, capturingTeamCount, opposingTeamCount, dt);
    }

    /** The branches of `CapturingState.Execute`. */
    method CapturingRule(teamCapturing: string, capturingTeamCount: nat, opposingTeamCount: nat, dt: real)
      requires machine.currentState == Some(CapturingState(teamCapturing))
      modifies this, machine
      ensures var step := CapturingStep(old(Snapshot()), teamCapturing, capturingTeamCount, opposingTeamCount, dt,
                                     captureTime, variant);
        Snapshot() == step.fields && machine.currentState == Some(After(CapturingState(teamCapturing), step)) &&
        machine.hooks == old(machine.hooks) + ChangeHooks(CapturingState(teamCapturing), step) && tanksInZone == old(tanksInZone)
    {
      if capturingTeamCount > 0 && opposingTeamCount == 0 {
        currentCaptureProgress := currentCaptureProgress + dt;
        if currentCaptureProgress >= captureTime {
          controllingTeamTag := Some(teamCapturing);
          SetState(CapturedState(controllingTeamTag));
        }
      } else if capturingTeamCount == 0 && opposingTeamCount == 0 {
        SetState(NeutralState);
      } else {
        SetState(ContestedState);
      }
    }

    /** `CapturedState.Execute` for the team the state was built with. */
    method ExecuteCaptured(teamControlling: Option<string>, dt: real, destroyed: set<nat>)
      requires machine.currentState == Some(CapturedState(teamControlling))
      modifies this, machine
      ensures var step := Run(old(Snapshot()), CapturedState(teamControlling), Purged(old(tanksInZone), destroyed), dt, captureTime, variant);
        tanksInZone == Purged(old(tanksInZone), destroyed) &&
        Snapshot() == step.fields && machine.currentState == Some(After(CapturedState(teamControlling), step)) &&
        machine.hooks == old(machine.hooks) + ChangeHooks(CapturedState(teamControlling), step)
    {
      var opposingTeam := Opposing(teamControlling);
      var opposingTeamCount := GetTeamCountInZone(opposingTeam, destroyed);
      if opposingTeamCount > 0 {
        SetState(ContestedState);
      }
    }

    /** `ContestedState.Execute` (the same in both variants): counts both
        teams, then applies the rule. */
    method ExecuteContested(dt: real, destroyed: set<nat>)
      requires machine.currentState == Some(ContestedState)
      modifies this, machine
      ensures var step := Run(old(Snapshot()), ContestedState, Purged(old(tanksInZone), destroyed), dt, captureTime, variant);
        tanksInZone == Purged(old(tanksInZone), destroyed) &&
        Snapshot() == step.fields && machine.currentState == Some(After(ContestedState, step)) &&
        machine.hooks == old(machine.hooks) + ChangeHooks(ContestedState, step)
    {
      ghost var f0 := Snapshot();
      PurgedTwice(tanksInZone, destroyed);
      var playersInZone := GetTeamCountInZone("Player", destroyed);
      var enemiesInZone := GetTeamCountInZone("Enemy", destroyed);
      ghost var step := ContestedStep(f0, playersInZone, enemiesInZone, captureTime, variant);
      assert Run(f0, ContestedState, tanksInZone, dt, captureTime, variant) == step;
      ghost var h0 := machine.hooks;
      ContestedRule(playersInZone, enemiesInZone);
      assert Snapshot() == step.fields;
      assert machine.hooks == h0 + ChangeHooks(ContestedState, step);
    }

    /** The branches of `ContestedState.Execute`. */
    method ContestedRule(playersInZone: nat, enemiesInZone: nat)
      requires machine.currentState == Some(ContestedState)
      modifies this, machine
      ensures var step := ContestedStep(old(Snapshot()), playersInZone, enemiesInZone, captureTime, variant);
        Snapshot() == step.fields && machine.currentState == Some(After(ContestedState, step)) &&
        machine.hooks == old(machine.hooks) + ChangeHooks(ContestedState, step) && tanksInZone == old(tanksInZone)
    {
      if playersInZone > 0 && enemiesInZone == 0 {
        capturingTeamTag := Some("Player");
        SetState(CapturingState("Player"));
      } else if enemiesInZone > 0 && playersInZone == 0 {
        capturingTeamTag := Some("Enemy");
        SetState(CapturingState("Enemy"));
      } else if playersInZone == 0 && enemiesInZone == 0 {
        SetState(NeutralState);
      }
    }

    /** `OnTriggerEnter2D`: a Player or Enemy collider not yet in the zone is
        added and the current state, if any, is executed again. */
    method OnTriggerEnter2D(other: Collider, dt: real, destroyed: set<nat>)
      modifies this, machine
      ensures !IsTeam(other.tag) || other in old(tanksInZone) ==>
        tanksInZone == old(tanksInZone) && Snapshot() == old(Snapshot()) &&
        machine.currentState == old(machine.currentState) && machine.hooks == old(machine.hooks)
      ensures IsTeam(other.tag) && other !in old(tanksInZone) && old(machine.currentState).None? ==>
        tanksInZone == old(tanksInZone) + [other] && Snapshot() == old(Snapshot()) &&
        machine.currentState == None && machine.hooks == old(machine.hooks)
      ensures IsTeam(other.tag) && other !in old(tanksInZone) && old(machine.currentState).Some? ==>
        var s := old(machine.currentState).value;
        var zone := Purged(old(tanksInZone) + [other], destroyed);
        var step := Run(old(Snapshot()), s, zone, dt, captureTime, variant);
        tanksInZone == zone && Snapshot() == step.fields && machine.currentState == Some(After(s, step)) &&
        machine.hooks == old(machine.hooks) + [Executed(s)] + ChangeHooks(s, step)
      ensures NoDuplicates(old(tanksInZone)) ==> NoDuplicates(tanksInZone)
    {
      if other.tag == "Player" || other.tag == "Enemy" {
        if other !in tanksInZone {
          ghost var before := tanksInZone;
          tanksInZone := tanksInZone + [other];
          assert NoDuplicates(before) ==> NoDuplicates(tanksInZone);
          if machine.currentState.Some? {
            ghost var added := tanksInZone;
            ExecuteState(dt, destroyed);
            if NoDuplicates(added) {
              PurgedNoDuplicates(added, destroyed);
            }
          }
        }
      }
    }

    /** `OnTriggerExit2D`: a Player or Enemy collider found in the zone is
        removed and the current state, if any, is executed again; nothing else
        triggers a re-execution. */
    method OnTriggerExit2D(other: Collider, dt: real, destroyed: set<nat>)
      modifies this, machine
      ensures !IsTeam(other.tag) || other !in old(tanksInZone) ==>
        tanksInZone == old(tanksInZone) && Snapshot() == old(Snapshot()) &&
        machine.currentState == old(machine.currentState) && machine.hooks == old(machine.hooks)
      ensures IsTeam(other.tag) && other in old(tanksInZone) && old(machine.currentState).None? ==>
        tanksInZone == RemoveFirst(old(tanksInZone), other) && Snapshot() == old(Snapshot()) &&
        machine.currentState == None && machine.hooks == old(machine.hooks)
      ensures IsTeam(other.tag) && other in old(tanksInZone) && old(machine.currentState).Some? ==>
        var s := old(machine.currentState).value;
        var zone := Purged(RemoveFirst(old(tanksInZone), other), destroyed);
        var step := Run(old(Snapshot()), s, zone, dt, captureTime, variant);
        tanksInZone == zone && Snapshot() == step.fields && machine.currentState == Some(After(s, step)) &&
        machine.hooks == old(machine.hooks) + [Executed(s)] + ChangeHooks(s, step)
      ensures NoDuplicates(old(tanksInZone)) ==> NoDuplicates(tanksInZone)
    {
      if other.tag == "Player" || other.tag == "Enemy" {
        var removed := other in tanksInZone;
        if NoDuplicates(tanksInZone) {
          RemoveFirstNoDuplicates(tanksInZone, other);
        }
        tanksInZone := RemoveFirst(tanksInZone, other);
        if removed && machine.currentState.Some? {
          ghost var remaining := tanksInZone;
          ExecuteState(dt, destroyed);
          if NoDuplicates(remaining) {
            PurgedNoDuplicates(remaining, destroyed);
          }
        }
      }
    }

    /** `GetTeamCountInZone`: purges destroyed colliders, then counts the
        remaining ones carrying `teamTag`. */
    method GetTeamCountInZone(teamTag: string, destroyed: set<nat>) returns (count: nat)
      modifies this
      ensures tanksInZone == Purged(old(tanksInZone), destroyed)
      ensures count == CountTag(tanksInZone, teamTag)
      ensures Snapshot() == old(Snapshot())
    {
      tanksInZone := Purged(tanksInZone, destroyed);
      count := CountTag(tanksInZone, teamTag);
    }

    /** `ResetCaptureProgress`: only the progress changes, to 0. */
    method ResetCaptureProgress()
      modifies this
      ensures Snapshot() == old(Snapshot()).(progress := 0.0)
      ensures tanksInZone == old(tanksInZone)
    {
      currentCaptureProgress := 0.0;
    }

    /** `SetStatus`: only the status changes. */
    method SetStatus(newStatus: PointStatus)
      modifies this
      ensures Snapshot() == old(Snapshot()).(status := newStatus)
      ensures tanksInZone == old(tanksInZone)
    {
      currentStatus := newStatus;
    }

    /** `SetState`: hands the new state to the machine. */
    method SetState(newState: PointState)
      modifies this, machine
      ensures machine.currentState == Some(newState)
      ensures machine.hooks == old(machine.hooks) +
        (if old(machine.currentState).Some? then [Exited(old(machine.currentState).value)] else []) +
        [Entered(newState)]
      ensures Snapshot() == EnterEffect(old(Snapshot()), newState, captureTime, variant)
      ensures tanksInZone == old(tanksInZone)
    {
      machine.ChangeState(newState, this);
    }
  }
}
