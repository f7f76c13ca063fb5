/** Antimeridian longitude correction (`adjust_coordinates`) and the sea route that uses it
    (`build_sea_route`). */
module Antimeridian {
  import opened Base
  import opened Geo

  /** The corrected form of `curr` when it follows the already corrected point `prev`:
      shifted by -360 or +360 when the longitude jump is strictly beyond 180 degrees. */
  function Corrected(prev: Point, curr: Point): Point
  {
    var delta := curr.lon - prev.lon;
    if delta > 180.0 then Point(curr.lat, curr.lon - 360.0)
    else if delta < -180.0 then Point(curr.lat, curr.lon + 360.0)
    else curr
  }

  /** Point i of the corrected path: the first point as it is, every later point corrected
      against the corrected point before it. */
  function AdjustedAt(path: seq<Point>, i: nat): Point
    requires i < |path|
  {
    if i == 0 then path[0] else Corrected(AdjustedAt(path, i - 1), path[i])
  }

  /** The corrected path. */
  function Adjusted(path: seq<Point>): (r: seq<Point>)
  {
    seq(|path|, i requires 0 <= i < |path| => AdjustedAt(path, i))
  }

  /** `adjust_coordinates`: a left-to-right scan that appends each corrected point;
      an empty path fails at `coordinate_path[0]`. */
  method AdjustCoordinates(path: seq<Point>) returns (r: Fallible<seq<Point>>)
    ensures |path| == 0 <==> r == Failure(IndexError)
    ensures |path| > 0 ==> r == Success(Adjusted(path))
  {
    if |path| == 0 {
      return Failure(IndexError);
    }
    var adjusted := [path[0]];
    for i := 1 to |path|
      invariant |adjusted| == i
      invariant forall k :: 0 <= k < i ==> adjusted[k] == AdjustedAt(path, k)
    {
      var prev := adjusted[|adjusted| - 1];
      var curr := path[i];
      var lon := curr.lon;
      var deltaLon := lon - prev.lon;
      if deltaLon > 180.0 {
        lon := lon - 360.0;
      } else if deltaLon < -180.0 {
        lon := lon + 360.0;
      }
      adjusted := adjusted + [Point(curr.lat, lon)];
    }
    assert forall k :: 0 <= k < |path| ==> adjusted[k] == Adjusted(path)[k];
    assert adjusted == Adjusted(path);
    return Success(adjusted);
  }

  /** `build_sea_route`: the routing graph's path between the two points, corrected.
      A path the graph returns empty fails inside the correction. */
  method BuildSeaRoute(start: Point, finish: Point, seaPath: (Point, Point) -> seq<Point>)
    returns (r: Fallible<seq<Point>>)
    ensures |seaPath(start, finish)| == 0 <==> r.Failure?
    ensures r.Failure? ==> r.error == IndexError
    ensures r.Success? ==> r.value == Adjusted(seaPath(start, finish))
  {
    r := AdjustCoordinates(seaPath(start, finish));
  }

  /** Correcting a prefix gives the prefix of the corrected path: the scan can be resumed. */
  lemma {:induction false} AdjustedAtPrefix(path: seq<Point>, k: nat, i: nat)
    requires i < k <= |path|
    ensures AdjustedAt(path[..k], i) == AdjustedAt(path, i)
  {
    if i > 0 {
      AdjustedAtPrefix(path, k, i - 1);
    }
  }

  lemma AdjustedPrefix(path: seq<Point>, k: nat)
    requires k <= |path|
    ensures Adjusted(path[..k]) == Adjusted(path)[..k]
  {
    forall i | 0 <= i < k ensures Adjusted(path[..k])[i] == Adjusted(path)[i] {
      AdjustedAtPrefix(path, k, i);
    }
  }

  /** Same length, first point unchanged, every latitude unchanged, and each longitude moved
      by exactly -360, 0 or +360. */
  lemma AdjustedShape(path: seq<Point>)
    ensures |Adjusted(path)| == |path|
    ensures |path| > 0 ==> Adjusted(path)[0] == path[0]
    ensures forall i :: 0 <= i < |path| ==> Adjusted(path)[i].lat == path[i].lat
    ensures forall i :: 0 <= i < |path| ==>
      var shift := Adjusted(path)[i].lon - path[i].lon;
      shift == -360.0 || shift == 0.0 || shift == 360.0
  {
  }

  /** Consecutive longitudes differ by at most 180 degrees either way. */
  ghost predicate StepsWithin180(q: seq<Point>)
  {
    forall i :: 1 <= i < |q| ==> -180.0 <= q[i].lon - q[i - 1].lon <= 180.0
  }

  /** Every raw longitude lies within 540 degrees of the corrected point before it. */
  ghost predicate RawStepsWithin540(path: seq<Point>)
  {
    forall i :: 1 <= i < |path| ==> -540.0 <= path[i].lon - AdjustedAt(path, i - 1).lon <= 540.0
  }

  /** A single shift of 360 brings every such step into [-180, 180]; exactly +-180 is left
      unshifted because the comparisons are strict. */
  lemma AdjustedWithin180(path: seq<Point>)
    requires RawStepsWithin540(path)
    ensures StepsWithin180(Adjusted(path))
  {
    var q := Adjusted(path);
    forall i | 1 <= i < |q| ensures -180.0 <= q[i].lon - q[i - 1].lon <= 180.0 {
      assert q[i] == Corrected(q[i - 1], path[i]);
    }
  }

  lemma {:induction false} AdjustedAtFixed(q: seq<Point>, i: nat)
    requires i < |q| && StepsWithin180(q)
    ensures AdjustedAt(q, i) == q[i]
  {
    if i > 0 {
      AdjustedAtFixed(q, i - 1);
    }
  }

  /** The paths the correction leaves alone are exactly those whose steps lie in [-180, 180]. */
  lemma AdjustedFixedPoint(q: seq<Point>)
    ensures Adjusted(q) == q <==> StepsWithin180(q)
  {
    if Adjusted(q) == q {
      forall i | 1 <= i < |q| ensures -180.0 <= q[i].lon - q[i - 1].lon <= 180.0 {
        assert AdjustedAt(q, i) == q[i] && AdjustedAt(q, i - 1) == q[i - 1];
      }
    }
    if StepsWithin180(q) {
      forall i | 0 <= i < |q| ensures Adjusted(q)[i] == q[i] {
        AdjustedAtFixed(q, i);
      }
    }
  }

  /** Correcting an already corrected path changes nothing, when the raw steps were within 540. */
  lemma AdjustedIdempotent(path: seq<Point>)
    requires RawStepsWithin540(path)
    ensures Adjusted(Adjusted(path)) == Adjusted(path)
  {
    AdjustedWithin180(path);
    AdjustedFixedPoint(Adjusted(path));
  }

  /** Without the 540 bound one pass is not enough: a jump of 600 degrees is only brought to 240. */
  lemma AdjustedFarJumpNotIdempotent()
    ensures Adjusted([Point(0.0, 0.0), Point(0.0, 600.0)]) == [Point(0.0, 0.0), Point(0.0, 240.0)]
    ensures Adjusted(Adjusted([Point(0.0, 0.0), Point(0.0, 600.0)])) != Adjusted([Point(0.0, 0.0), Point(0.0, 600.0)])
  {
    var p := [Point(0.0, 0.0), Point(0.0, 600.0)];
    assert AdjustedAt(p, 1) == Point(0.0, 240.0);
    var q := [Point(0.0, 0.0), Point(0.0, 240.0)];
    assert Adjusted(p) == q;
    assert AdjustedAt(q, 1) == Point(0.0, -120.0);
  }
}
