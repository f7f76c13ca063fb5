/** The enclosing circle of a cluster of observations (`get_circle`). */
module CircleFit {
  import opened Base
  import opened Geo

  datatype Circle = Circle(center: Point, radius: real)

  /** `max(dist(center, p) for p in points)`: an upper bound of every distance that is
      attained by one of the points. */
  function MaxDistance(center: Point, points: seq<Point>, dist: (Point, Point) -> real): (r: real)
    requires |points| > 0
    ensures forall p :: p in points ==> dist(center, p) <= r
    ensures exists i :: 0 <= i < |points| && r == dist(center, points[i])
  {
    if |points| == 1 then dist(center, points[0])
    else
      var rest := MaxDistance(center, points[1..], dist);
      var here := dist(center, points[0]);
      if rest > here then rest else here
  }

  /** `get_circle`: centre = (mean latitude, mean longitude), radius = the largest geodesic
      distance from the centre to a point. An empty list divides by zero. */
  function GetCircle(points: seq<Point>, dist: (Point, Point) -> real): (r: Fallible<Circle>)
    ensures r.Failure? <==> |points| == 0
    ensures r.Failure? ==> r.error == ZeroDivisionError
    ensures r.Success? ==>
      && r.value.center.lat * (|points| as real) == SumOf(points, LatOf)
      && r.value.center.lon * (|points| as real) == SumOf(points, LonOf)
    ensures r.Success? ==> forall p :: p in points ==> dist(r.value.center, p) <= r.value.radius
    ensures r.Success? ==> exists p :: p in points && dist(r.value.center, p) == r.value.radius
  {
    if |points| == 0 then Failure(ZeroDivisionError)
    else
      var n := |points| as real;
      var center := Point(SumOf(points, LatOf) / n, SumOf(points, LonOf) / n);
      Success(Circle(center, MaxDistance(center, points, dist)))
  }

  /** Two point lists holding the same points, however ordered or repeated, have the same
      maximum distance. */
  lemma MaxDistanceSameElements(center: Point, p: seq<Point>, q: seq<Point>, dist: (Point, Point) -> real)
    requires |p| > 0 && |q| > 0
    requires forall x :: x in p <==> x in q
    ensures MaxDistance(center, p, dist) == MaxDistance(center, q, dist)
  {
    var a := MaxDistance(center, p, dist);
    var b := MaxDistance(center, q, dist);
    var i :| 0 <= i < |p| && a == dist(center, p[i]);
    var j :| 0 <= j < |q| && b == dist(center, q[j]);
    assert p[i] in q;
    assert q[j] in p;
  }

  /** Permuting the points changes neither the centre nor the radius. */
  lemma GetCirclePermutation(p: seq<Point>, q: seq<Point>, dist: (Point, Point) -> real)
    requires multiset(p) == multiset(q)
    ensures GetCircle(p, dist) == GetCircle(q, dist)
  {
    assert |p| == |multiset(p)| == |multiset(q)| == |q|;
    if |p| > 0 {
      SumOfPermutation(p, q, LatOf);
      SumOfPermutation(p, q, LonOf);
      var n := |p| as real;
      var center := Point(SumOf(p, LatOf) / n, SumOf(p, LonOf) / n);
      forall x ensures x in p <==> x in q {
        assert x in p <==> x in multiset(p);
        assert x in q <==> x in multiset(q);
      }
      MaxDistanceSameElements(center, p, q, dist);
    }
  }

  /** The square (0,0), (0,2), (2,0), (2,2) has centre (1,1), and its radius is the distance
      from (1,1) to one of the corners. */
  lemma SquareCircle(dist: (Point, Point) -> real)
    ensures var square := [Point(0.0, 0.0), Point(0.0, 2.0), Point(2.0, 0.0), Point(2.0, 2.0)];
      && GetCircle(square, dist).Success?
      && GetCircle(square, dist).value.center == Point(1.0, 1.0)
      && exists p :: p in square && GetCircle(square, dist).value.radius == dist(Point(1.0, 1.0), p)
  {
    var square := [Point(0.0, 0.0), Point(0.0, 2.0), Point(2.0, 0.0), Point(2.0, 2.0)];
    assert SumOf(square, LatOf) == 4.0 by {
      assert square[1..][1..][1..][1..] == [];
    }
    assert SumOf(square, LonOf) == 4.0 by {
      assert square[1..][1..][1..][1..] == [];
    }
  }
}
