/**
 * The claim registry the enemy tanks share: for every capture point, the set
 * of tank identifiers currently heading for it. The registry is one static
 * dictionary in the game; here it is one `TargetRegistry` object that every
 * enemy controller holds a reference to.
 */
module TargetCoordination {
  import opened Wrappers

  /** The identity of a capture point object (its reference). */
  type PointId = nat

  /** The registry's contents: capture point to the identifiers claiming it. */
  type Targeters = map<PointId, set<string>>

  /** `GetTargetCount`: the number of tanks claiming a point; a missing point
      or an unknown one counts 0. */
  function TargetCount(t: Targeters, point: Option<PointId>): (n: nat)
    ensures point.None? || point.value !in t ==> n == 0
  {
    if point.Some? && point.value in t then |t[point.value]| else 0
  }

  /** `IsTankTargetingPoint`: whether `tankId` claims `point`. */
  predicate Targeting(t: Targeters, point: Option<PointId>, tankId: string) {
    point.Some? && tankId != "" && point.value in t && tankId in t[point.value]
  }

  /** The points a tank claims. */
  function ClaimsOf(t: Targeters, tankId: string): set<PointId> {
    set p | p in t && tankId in t[p]
  }

  /** `AddTankToTargeters` on the registry's value. */
  function Added(t: Targeters, point: Option<PointId>, tankId: string): (r: Targeters)
    ensures point.None? || tankId == "" ==> r == t
    ensures point.Some? && tankId != "" ==>
      Targeting(r, point, tankId) &&
      r.Keys == t.Keys + {point.value} &&
      TargetCount(r, point) == TargetCount(t, point) + (if Targeting(t, point, tankId) then 0 else 1)
    ensures forall q :: Some(q) != point ==> (q in r <==> q in t) && (q in t ==> r[q] == t[q])
  {
    if point.None? || tankId == "" then t
    else
      var existing := if point.value in t then t[point.value] else {};
      assert tankId in existing ==> existing + {tankId} == existing;
      assert tankId !in existing ==> |existing + {tankId}| == |existing| + 1;
      t[point.value := existing + {tankId}]
  }

  /** `RemoveTankFromTargeters` on the registry's value: the point stays a key
      even when its set becomes empty. */
  function Removed(t: Targeters, point: Option<PointId>, tankId: string): (r: Targeters)
    ensures point.None? || tankId == "" || point.value !in t ==> r == t
    ensures r.Keys == t.Keys
    ensures !Targeting(r, point, tankId)
    ensures TargetCount(r, point) == TargetCount(t, point) - (if Targeting(t, point, tankId) then 1 else 0)
    ensures forall q :: Some(q) != point && q in t ==> r[q] == t[q]
  {
    if point.None? || tankId == "" || point.value !in t then t
    else t[point.value := t[point.value] - {tankId}]
  }

  /** Claiming a point a tank did not claim and then releasing it restores every
      point's count. */
  lemma AddThenRemoveRestoresCounts(t: Targeters, point: Option<PointId>, tankId: string, q: Option<PointId>)
    requires !Targeting(t, point, tankId)
    ensures TargetCount(Removed(Added(t, point, tankId), point, tankId), q) == TargetCount(t, q)
  {
  }

  /** Releasing a point a tank claims and claiming it again gives back the same
      registry: this is what the enemy's patrol branch does when it keeps its
      target point. */
  lemma RemoveThenAddIsIdentity(t: Targeters, point: Option<PointId>, tankId: string)
    requires Targeting(t, point, tankId)
    ensures Added(Removed(t, point, tankId), point, tankId) == t
  {
    var p := point.value;
    assert Added(Removed(t, point, tankId), point, tankId)[p] == t[p];
  }

  /** How a claim changes the claiming tank's set of points and leaves every
      other tank's untouched. */
  lemma ClaimsOfAdded(t: Targeters, point: Option<PointId>, tankId: string, other: string)
    ensures ClaimsOf(Added(t, point, tankId), tankId) ==
      ClaimsOf(t, tankId) + (if point.Some? && tankId != "" then {point.value} else {})
    ensures other != tankId ==> ClaimsOf(Added(t, point, tankId), other) == ClaimsOf(t, other)
  {
    var r := Added(t, point, tankId);
    if point.Some? && tankId != "" {
      assert forall q :: q in ClaimsOf(r, tankId) <==> q in ClaimsOf(t, tankId) || q == point.value;
      assert forall q :: other != tankId ==> (q in ClaimsOf(r, other) <==> q in ClaimsOf(t, other));
    }
  }

  /** How a release changes the releasing tank's set of points and leaves every
      other tank's untouched. */
  lemma ClaimsOfRemoved(t: Targeters, point: Option<PointId>, tankId: string, other: string)
    ensures ClaimsOf(Removed(t, point, tankId), tankId) ==
      ClaimsOf(t, tankId) - (if point.Some? && tankId != "" then {point.value} else {})
    ensures other != tankId ==> ClaimsOf(Removed(t, point, tankId), other) == ClaimsOf(t, other)
  {
    var r := Removed(t, point, tankId);
    if point.Some? && tankId != "" && point.value in t {
      assert forall q :: q in ClaimsOf(r, tankId) <==> q in ClaimsOf(t, tankId) && q != point.value;
      assert forall q :: other != tankId ==> (q in ClaimsOf(r, other) <==> q in ClaimsOf(t, other));
    } else if point.Some? && tankId != "" {
      assert point.value !in ClaimsOf(t, tankId);
    }
  }

  /** A point some tank claims has a count of at least one. */
  lemma TargetingCounts(t: Targeters, point: Option<PointId>, tankId: string)
    requires Targeting(t, point, tankId)
    ensures TargetCount(t, point) >= 1
  {
    assert tankId in t[point.value];
  }

  /** The shared registry object. */
  class TargetRegistry {
    var targeters: Targeters

    /** The static initialiser: an empty dictionary. */
    constructor ()
      ensures targeters == map[]
    {
      targeters := map[];
    }

    /** Records that `tankId` heads for `point`, creating the point's set on
        first use. A missing point or an empty identifier changes nothing. */
    method AddTankToTargeters(point: Option<PointId>, tankId: string)
      modifies this
      ensures targeters == Added(old(targeters), point, tankId)
    {
      if point.None? || tankId == "" {
        return;
      }
      if point.value !in targeters {
        targeters := targeters[point.value := {}];
      }
      targeters := targeters[point.value := targeters[point.value] + {tankId}];
    }

    /** Drops `tankId` from `point`'s set when the point is known. */
    method RemoveTankFromTargeters(point: Option<PointId>, tankId: string)
      modifies this
      ensures targeters == Removed(old(targeters), point, tankId)
    {
      if point.None? || tankId == "" {
        return;
      }
      if point.value in targeters {
        targeters := targeters[point.value := targeters[point.value] - {tankId}];
      }
    }

    function GetTargetCount(point: Option<PointId>): nat
      reads this
    {
      TargetCount(targeters, point)
    }

    predicate IsTankTargetingPoint(point: Option<PointId>, tankId: string)
      reads this
    {
      Targeting(targeters, point, tankId)
    }

    /** Empties the registry: afterwards no point has a claim. */
    method ResetTargetCounts()
      modifies this
      ensures targeters == map[]
      ensures forall p :: TargetCount(targeters, p) == 0
      ensures forall p, id :: !Targeting(targeters, p, id)
    {
      targeters := map[];
    }
  }
}
