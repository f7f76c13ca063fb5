/** Path densification (`increase_precision`). The Euclidean length in degrees,
    `(dlat ** 2 + dlon ** 2) ** 0.5`, is abstract: `norm(dlat, dlon)`. */
module Densify {
  import opened Base
  import opened Geo

  /** Python's `int(x)` on a float: truncation toward zero. */
  function Trunc(x: real): (r: int)
    ensures x >= 0.0 ==> (r as real) <= x < (r as real) + 1.0
    ensures x < 0.0 ==> (r as real) - 1.0 < x <= (r as real)
  {
    if x >= 0.0 then x.Floor else -((-x).Floor)
  }

  /** `max(int(distance / n), 1)`: how many pieces the segment from a to b is cut into. */
  function Pieces(a: Point, b: Point, n: real, norm: (real, real) -> real): (r: nat)
    requires n != 0.0
    ensures r >= 1
  {
    var count := Trunc(norm(b.lat - a.lat, b.lon - a.lon) / n);
    if count > 1 then count else 1
  }

  /** The point a fraction of the way along the displacement (deltaLat, deltaLon) from a. */
  function Lerp(a: Point, deltaLat: real, deltaLon: real, fraction: real): Point
  {
    Point(a.lat + fraction * deltaLat, a.lon + fraction * deltaLon)
  }

  /** The first `count` of the `pieces` evenly spaced points of the segment, starting at a. */
  function SegmentPoints(a: Point, b: Point, pieces: nat, count: nat): seq<Point>
    requires count <= pieces
  {
    seq(count, j requires 0 <= j < count => Lerp(a, b.lat - a.lat, b.lon - a.lon, (j as real) / (pieces as real)))
  }

  lemma SegmentPointsAppend(a: Point, b: Point, pieces: nat, count: nat)
    requires count < pieces
    ensures SegmentPoints(a, b, pieces, count + 1)
         == SegmentPoints(a, b, pieces, count) + [Lerp(a, b.lat - a.lat, b.lon - a.lon, (count as real) / (pieces as real))]
  {
  }

  /** Fraction 0 leaves the segment's start point unchanged. */
  lemma SegmentPointsFirst(a: Point, b: Point, pieces: nat)
    requires pieces >= 1
    ensures SegmentPoints(a, b, pieces, pieces)[0] == a
  {
    assert (0 as real) / (pieces as real) == 0.0;
  }

  /** The inner loop of `increase_precision`: the `pieces` points of one segment, in order. */
  method SegmentLoop(start: Point, finish: Point, numSegments: nat) returns (points: seq<Point>)
    ensures points == SegmentPoints(start, finish, numSegments, numSegments)
  {
    var deltaLat := finish.lat - start.lat;
    var deltaLon := finish.lon - start.lon;
    points := [];
    var j := 0;
    while j < numSegments
      invariant 0 <= j <= numSegments
      invariant points == SegmentPoints(start, finish, numSegments, j)
    {
      var fraction := (j as real) / (numSegments as real);
      var newPoint := Lerp(start, deltaLat, deltaLon, fraction);
      SegmentPointsAppend(start, finish, numSegments, j);
      points := points + [newPoint];
      j := j + 1;
    }
  }

  /** The points emitted for the first k segments of the path. */
  function Interior(path: seq<Point>, k: nat, n: real, norm: (real, real) -> real): seq<Point>
    requires k < |path|
    requires k > 0 ==> n != 0.0
  {
    if k == 0 then []
    else
      var m := Pieces(path[k - 1], path[k], n, norm);
      Interior(path, k - 1, n, norm) + SegmentPoints(path[k - 1], path[k], m, m)
  }

  /** The number of points emitted for the first k segments. */
  function TotalPieces(path: seq<Point>, k: nat, n: real, norm: (real, real) -> real): nat
    requires k < |path|
    requires k > 0 ==> n != 0.0
  {
    if k == 0 then 0 else TotalPieces(path, k - 1, n, norm) + Pieces(path[k - 1], path[k], n, norm)
  }

  /** The densified path: the points of every segment, then the last vertex. */
  function Densified(path: seq<Point>, n: real, norm: (real, real) -> real): seq<Point>
    requires |path| > 0
    requires |path| >= 2 ==> n != 0.0
  {
    Interior(path, |path| - 1, n, norm) + [path[|path| - 1]]
  }

  /** `increase_precision`. An empty path fails at `coordinate_path[-1]`; with two or more
      vertices, n == 0 fails in the first `distance / n`. */
  method IncreasePrecision(path: seq<Point>, n: real, norm: (real, real) -> real)
    returns (r: Fallible<seq<Point>>)
    ensures |path| >= 2 && n == 0.0 <==> r == Failure(ZeroDivisionError)
    ensures |path| == 0 <==> r == Failure(IndexError)
    ensures r.Success? ==> r.value == Densified(path, n, norm)
  {
    if |path| == 0 {
      // the loop below runs no iteration, and `coordinate_path[-1]` then raises
      return Failure(IndexError);
    }
    var newPath: seq<Point> := [];
    for i := 0 to |path| - 1
      invariant i > 0 ==> n != 0.0
      invariant newPath == Interior(path, i, n, norm)
    {
      var start, finish := path[i], path[i + 1];
      var deltaLat := finish.lat - start.lat;
      var deltaLon := finish.lon - start.lon;
      var distance := norm(deltaLat, deltaLon);
      if n == 0.0 {
        return Failure(ZeroDivisionError);
      }
      var numSegments := Trunc(distance / n);
      if numSegments < 1 {
        numSegments := 1;
      }
      assert numSegments == Pieces(start, finish, n, norm);
      var segment := SegmentLoop(start, finish, numSegments);
      newPath := newPath + segment;
    }
    return Success(newPath + [path[|path| - 1]]);
  }

  lemma {:induction false} InteriorLength(path: seq<Point>, k: nat, n: real, norm: (real, real) -> real)
    requires k < |path|
    requires k > 0 ==> n != 0.0
    ensures |Interior(path, k, n, norm)| == TotalPieces(path, k, n, norm)
    ensures TotalPieces(path, k, n, norm) >= k
  {
    if k > 0 {
      InteriorLength(path, k - 1, n, norm);
    }
  }

  /** Vertex i (for i < k) starts its segment's points inside the first k segments:
      fraction 0 leaves the vertex unchanged. */
  lemma {:induction false} InteriorKeepsVertex(path: seq<Point>, k: nat, i: nat, n: real, norm: (real, real) -> real)
    requires i < k < |path|
    requires n != 0.0
    ensures TotalPieces(path, i, n, norm) < |Interior(path, k, n, norm)|
    ensures Interior(path, k, n, norm)[TotalPieces(path, i, n, norm)] == path[i]
  {
    InteriorLength(path, k - 1, n, norm);
    if i < k - 1 {
      InteriorKeepsVertex(path, k - 1, i, n, norm);
    } else {
      SegmentPointsFirst(path[k - 1], path[k], Pieces(path[k - 1], path[k], n, norm));
    }
  }

  /** Length = 1 + the sum of the per-segment piece counts, hence at least the input length;
      every vertex appears at the start of its segment's points, and the last vertex last. */
  lemma DensifiedShape(path: seq<Point>, n: real, norm: (real, real) -> real)
    requires |path| > 0
    requires |path| >= 2 ==> n != 0.0
    ensures |Densified(path, n, norm)| == 1 + TotalPieces(path, |path| - 1, n, norm)
    ensures |Densified(path, n, norm)| >= |path|
    ensures forall i :: 0 <= i < |path| ==>
      TotalPieces(path, i, n, norm) < |Densified(path, n, norm)| &&
      Densified(path, n, norm)[TotalPieces(path, i, n, norm)] == path[i]
  {
    var last := |path| - 1;
    InteriorLength(path, last, n, norm);
    forall i | 0 <= i < |path|
      ensures TotalPieces(path, i, n, norm) < |Densified(path, n, norm)|
      ensures Densified(path, n, norm)[TotalPieces(path, i, n, norm)] == path[i]
    {
      if i < last {
        InteriorKeepsVertex(path, last, i, n, norm);
      }
    }
  }
}
