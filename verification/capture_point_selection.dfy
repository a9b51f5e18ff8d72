/**
 * How the AI tanks choose a capture point to head for. The enemy prefers the
 * point it already claims, then the least-claimed point, then the nearest;
 * the ally simply takes the nearest point its team does not control.
 */
module CapturePointSelection {
  import opened Wrappers
  import opened Grid
  import opened TargetCoordination

  /** What a controller reads from a capture point: its identity, its position
      and the tag of the team controlling it (none while uncontrolled). */
  datatype PointView = PointView(id: PointId, position: Point, controllingTeamTag: Option<string>)

  /** An entry of a controller's list of capture points; a destroyed point
      reads as null and is `None`. */
  type Slot = Option<PointView>

  /** A point worth heading for: it exists and the tank's own team does not
      control it. */
  predicate Suitable(s: Slot, ownTag: string) {
    s.Some? && s.value.controllingTeamTag != Some(ownTag)
  }

  /** `(a - b).sqrMagnitude` in the plane. */
  function DistanceSqr(a: Point, b: Point): (d: real)
    ensures d >= 0.0
  {
    (a.x - b.x) * (a.x - b.x) + (a.y - b.y) * (a.y - b.y)
  }

  /** The squared distance does not depend on the order of the points, and
      a point is at distance zero from itself. */
  lemma DistanceSqrSymmetric(a: Point, b: Point)
    ensures DistanceSqr(a, b) == DistanceSqr(b, a)
    ensures DistanceSqr(a, a) == 0.0
  {
    assert (a.x - b.x) * (a.x - b.x) == (b.x - a.x) * (b.x - a.x);
    assert (a.y - b.y) * (a.y - b.y) == (b.y - a.y) * (b.y - a.y);
  }

  /** A suitable point this tank already claims. */
  predicate ClaimedByMe(s: Slot, ownTag: string, t: Targeters, tankId: string) {
    Suitable(s, ownTag) && Targeting(t, Some(s.value.id), tankId)
  }

  /** The first suitable point this tank claims (`FirstOrDefault`). */
  function FirstClaimed(points: seq<Slot>, ownTag: string, t: Targeters, tankId: string): (r: Option<nat>)
    ensures r.Some? ==> r.value < |points| && ClaimedByMe(points[r.value], ownTag, t, tankId)
    ensures r.Some? ==> forall j :: 0 <= j < r.value ==> !ClaimedByMe(points[j], ownTag, t, tankId)
    ensures r.None? ==> forall j :: 0 <= j < |points| ==> !ClaimedByMe(points[j], ownTag, t, tankId)
  {
    if points == [] then None
    else if ClaimedByMe(points[0], ownTag, t, tankId) then Some(0)
    else
      var rest := FirstClaimed(points[1..], ownTag, t, tankId);
      if rest.Some? then Some(rest.value + 1) else None
  }

  /** The sort key of a suitable point: its claim count, then its squared
      distance from the (perturbed) tank position. */
  function Key(s: Slot, t: Targeters, from: Point): (int, real)
    requires s.Some?
  {
    (TargetCount(t, Some(s.value.id)), DistanceSqr(s.value.position, from))
  }

  /** Lexicographic order on sort keys. */
  predicate KeyLess(a: (int, real), b: (int, real)) {
    a.0 < b.0 || (a.0 == b.0 && a.1 < b.1)
  }

  /** The first element after `OrderBy(count).ThenBy(distance)`: the suitable
      point with the least key, the earliest of equal keys (the sort is stable). */
  function LeastKey(points: seq<Slot>, ownTag: string, t: Targeters, from: Point): (r: Option<nat>)
    ensures r.None? <==> forall j :: 0 <= j < |points| ==> !Suitable(points[j], ownTag)
    ensures r.Some? ==> r.value < |points| && Suitable(points[r.value], ownTag)
    ensures r.Some? ==> forall j :: 0 <= j < |points| && Suitable(points[j], ownTag) ==>
      !KeyLess(Key(points[j], t, from), Key(points[r.value], t, from))
    ensures r.Some? ==> forall j :: 0 <= j < r.value && Suitable(points[j], ownTag) ==>
      KeyLess(Key(points[r.value], t, from), Key(points[j], t, from))
  {
    if points == [] then None
    else
      var last := |points| - 1;
      var rest := LeastKey(points[..last], ownTag, t, from);
      if !Suitable(points[last], ownTag) then rest
      else if rest.None? then Some(last)
      else if KeyLess(Key(points[last], t, from), Key(points[rest.value], t, from)) then Some(last)
      else rest
  }

  /**
   * `FindBestCapturePoint` of the enemy controller, as the index of the chosen
   * point in the list. `jitter` is the random offset (each axis drawn from
   * [-0.5, 0.5]) added to the tank's position before measuring distances.
   */
  function FindBestCapturePoint(points: seq<Slot>, ownTag: string, t: Targeters, tankId: string,
                                position: Point, jitter: Point): (r: Option<nat>)
    ensures r.None? <==> forall j :: 0 <= j < |points| ==> !Suitable(points[j], ownTag)
    ensures r.Some? ==> (r.value < |points| && points[r.value].Some? &&
                         points[r.value].value.controllingTeamTag != Some(ownTag))
    ensures (exists j :: 0 <= j < |points| && ClaimedByMe(points[j], ownTag, t, tankId)) ==>
      r.Some? && ClaimedByMe(points[r.value], ownTag, t, tankId) &&
      forall j :: 0 <= j < r.value ==> !ClaimedByMe(points[j], ownTag, t, tankId)
    ensures (forall j :: 0 <= j < |points| ==> !ClaimedByMe(points[j], ownTag, t, tankId)) ==>
      r == LeastKey(points, ownTag, t, Point(position.x + jitter.x, position.y + jitter.y))
  {
    if |points| == 0 then None
    else
      var claimed := FirstClaimed(points, ownTag, t, tankId);
      if claimed.Some? then claimed
      else LeastKey(points, ownTag, t, Point(position.x + jitter.x, position.y + jitter.y))
  }

  /** Among suitable points, a claim count of zero beats any claimed point, so
      a tank with no claim of its own never picks a point others claim while
      an unclaimed suitable point exists. */
  lemma BestPrefersUnclaimed(points: seq<Slot>, ownTag: string, t: Targeters, tankId: string,
                             position: Point, jitter: Point, j: nat)
    requires forall i :: 0 <= i < |points| ==> !ClaimedByMe(points[i], ownTag, t, tankId)
    requires j < |points| && Suitable(points[j], ownTag) && TargetCount(t, Some(points[j].value.id)) == 0
    ensures var r := FindBestCapturePoint(points, ownTag, t, tankId, position, jitter);
      r.Some? && TargetCount(t, Some(points[r.value].value.id)) == 0
  {
  }

  /** The largest finite single-precision float, `float.MaxValue`. */
  const FloatMax: real := 340282346638528859811704183484516925440.0

  /** The squared distance a nearest-point scan has to beat: `float.MaxValue`
      before any point is chosen, else that of the point chosen. */
  function Bound(points: seq<Slot>, chosen: Option<nat>, position: Point): real
    requires chosen.Some? ==> chosen.value < |points| && points[chosen.value].Some?
  {
    if chosen.None? then FloatMax else DistanceSqr(points[chosen.value].value.position, position)
  }

  /**
   * The point `FindClosestCapturePoint` of the ally controller returns: the
   * earliest suitable point of least squared distance; a point at
   * `float.MaxValue` or beyond is never chosen.
   */
  function Nearest(points: seq<Slot>, ownTag: string, position: Point): (r: Option<nat>)
    ensures r.None? <==> forall j :: 0 <= j < |points| && Suitable(points[j], ownTag) ==>
      DistanceSqr(points[j].value.position, position) >= FloatMax
    ensures r.Some? ==> r.value < |points| && Suitable(points[r.value], ownTag)
    ensures r.Some? ==> forall j :: 0 <= j < |points| && Suitable(points[j], ownTag) ==>
      DistanceSqr(points[r.value].value.position, position) <= DistanceSqr(points[j].value.position, position)
    ensures r.Some? ==> forall j :: 0 <= j < r.value && Suitable(points[j], ownTag) ==>
      DistanceSqr(points[r.value].value.position, position) < DistanceSqr(points[j].value.position, position)
  {
    if points == [] then None
    else
      var last := |points| - 1;
      var rest := Nearest(points[..last], ownTag, position);
      if Suitable(points[last], ownTag) &&
         DistanceSqr(points[last].value.position, position) < Bound(points, rest, position)
      then Some(last)
      else rest
  }

  /** `FindClosestCapturePoint` of the ally controller: a scan keeping the
      suitable point strictly closer than everything before it, starting
      from `float.MaxValue`. */
  method FindClosestCapturePoint(points: seq<Slot>, ownTag: string, position: Point)
    returns (closest: Option<nat>)
    ensures closest == Nearest(points, ownTag, position)
  {
    closest := None;
    var minDistanceSqr := FloatMax;
    var i := 0;
    while i < |points|
      invariant 0 <= i <= |points|
      invariant closest == Nearest(points[..i], ownTag, position)
      invariant closest.Some? ==> closest.value < i
      invariant minDistanceSqr == Bound(points, closest, position)
    {
      assert points[..i + 1][..i] == points[..i];
      var point := points[i];
      if point.Some? && point.value.controllingTeamTag != Some(ownTag) {
        var distSqr := DistanceSqr(point.value.position, position);
        if distSqr < minDistanceSqr {
          minDistanceSqr := distSqr;
          closest := Some(i);
        }
      }
      i := i + 1;
    }
    assert points[..i] == points;
  }
}
