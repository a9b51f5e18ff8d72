/**
 * The distance tests and path bookkeeping both AI controllers share. Distances
 * are compared through their squares, which is exact on reals: for a
 * threshold `d`, `Vector2.Distance(a, b) < d` holds exactly when `d > 0` and
 * the squared distance is below `d * d`.
 */
module Steering {
  import opened Grid
  import opened CapturePointSelection

  /** `Vector2.Distance(a, b) < d`. */
  predicate Closer(a: Point, b: Point, d: real) {
    d > 0.0 && DistanceSqr(a, b) < d * d
  }

  /** `Vector2.Distance(a, b) <= d`. */
  predicate NoFarther(a: Point, b: Point, d: real) {
    d >= 0.0 && DistanceSqr(a, b) <= d * d
  }

  /** `Vector3.Distance(a, b) > d` (the game lives in the plane z = 0). */
  predicate Farther(a: Point, b: Point, d: real) {
    d < 0.0 || DistanceSqr(a, b) > d * d
  }

  /** The first-waypoint adjustment after a search: a path whose first
      waypoint is within `bound` of the tank loses that waypoint. */
  function Trimmed(path: seq<Point>, position: Point, bound: real): (r: seq<Point>)
    ensures |path| > 0 && Closer(position, path[0], bound) ==> r == path[1..]
    ensures |path| == 0 || !Closer(position, path[0], bound) ==> r == path
  {
    if |path| > 0 && Closer(position, path[0], bound) then path[1..] else path
  }

  /** Trimming drops at most the first waypoint and keeps the destination. */
  lemma TrimmedKeepsDestination(path: seq<Point>, position: Point, bound: real)
    ensures var r := Trimmed(path, position, bound);
      |path| - 1 <= |r| <= |path| &&
      (|r| > 0 ==> r[|r| - 1] == path[|path| - 1]) &&
      forall i :: 0 <= i < |r| ==> r[i] == path[i + |path| - |r|]
  {
  }
}
