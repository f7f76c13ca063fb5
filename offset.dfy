/** Perpendicular polyline offset (`shift_polyline` and its nested `calculate_bearing`).
    The trigonometry is abstract: `azimuth(lat1, lon1, lat2, lon2)` stands for
    `degrees(atan2(x, y))` of the initial-bearing formula, and `destination(p, meters, bearing)`
    for geopy's `geodesic(meters=...).destination(p, bearing)`. */
module Offset {
  import opened Geo

  /** `calculate_bearing`: the azimuth normalised by `(azimuth + 360) % 360`. */
  function Bearing(a: Point, b: Point, azimuth: (real, real, real, real) -> real): (r: real)
    ensures 0.0 <= r < 360.0
  {
    Mod360(azimuth(a.lat, a.lon, b.lat, b.lon) + 360.0)
  }

  /** `(bearing + 90) % 360` when side is exactly "right", `(bearing - 90) % 360` for any
      other value of side. */
  function OffsetBearing(bearing: real, side: string): (r: real)
    ensures 0.0 <= r < 360.0
  {
    if side == "right" then Mod360(bearing + 90.0) else Mod360(bearing - 90.0)
  }

  /** "right" turns the bearing clockwise by a quarter turn; every other side, counter-clockwise. */
  lemma OffsetBearingTurn(bearing: real, side: string)
    ensures side == "right" ==> Mod360(OffsetBearing(bearing, side) - bearing) == 90.0
    ensures side != "right" ==> Mod360(OffsetBearing(bearing, side) - bearing) == 270.0
    ensures side != "right" ==> OffsetBearing(bearing, side) == OffsetBearing(bearing, "left")
  {
    if side == "right" {
      var f := ((bearing + 90.0) / 360.0).Floor;
      Mod360Unique(90.0 - 360.0 * (f as real), -f);
    } else {
      var f := ((bearing - 90.0) / 360.0).Floor;
      Mod360Unique(-90.0 - 360.0 * (f as real), -f - 1);
    }
  }

  /** The two sides of a normalised bearing point in opposite directions. */
  lemma OffsetSidesOpposite(bearing: real)
    requires 0.0 <= bearing < 360.0
    ensures var gap := OffsetBearing(bearing, "right") - OffsetBearing(bearing, "left");
      gap == 180.0 || gap == -180.0
  {
    if bearing < 90.0 {
      Mod360Unique(bearing + 90.0, 0);
      Mod360Unique(bearing - 90.0, -1);
    } else if bearing < 270.0 {
      Mod360Unique(bearing + 90.0, 0);
      Mod360Unique(bearing - 90.0, 0);
    } else {
      Mod360Unique(bearing + 90.0, 1);
      Mod360Unique(bearing - 90.0, 0);
    }
  }

  /** The segment whose offset bearing output point k uses: segment 0 for point 0, and
      segment k - 1 (the one ending at vertex k) for every later point. */
  function SegmentOf(k: nat): nat
  {
    if k == 0 then 0 else k - 1
  }

  /** Vertex k moved `distance` along its segment's offset bearing; no output for fewer than
      two vertices. */
  function Shifted(polyline: seq<Point>, distance: real, side: string,
                   azimuth: (real, real, real, real) -> real,
                   destination: (Point, real, real) -> Point): seq<Point>
  {
    if |polyline| < 2 then []
    else
      seq(|polyline|, k requires 0 <= k < |polyline| =>
        var s := SegmentOf(k);
        destination(polyline[k], distance,
                    OffsetBearing(Bearing(polyline[s], polyline[s + 1], azimuth), side)))
  }

  /** `shift_polyline`: both ends of every segment are projected; the start of segment 0 and
      the end of every segment are kept, so the output has one point per input vertex. */
  method ShiftPolyline(polyline: seq<Point>, distance: real, side: string,
                       azimuth: (real, real, real, real) -> real,
                       destination: (Point, real, real) -> Point)
    returns (shifted: seq<Point>)
    ensures |shifted| == if |polyline| >= 2 then |polyline| else 0
    ensures |polyline| >= 2 ==>
      shifted[0] == destination(polyline[0], distance,
                                OffsetBearing(Bearing(polyline[0], polyline[1], azimuth), side))
    ensures forall k :: 1 <= k < |shifted| ==>
      shifted[k] == destination(polyline[k], distance,
                                OffsetBearing(Bearing(polyline[k - 1], polyline[k], azimuth), side))
    ensures shifted == Shifted(polyline, distance, side, azimuth, destination)
  {
    shifted := [];
    var i := 0;
    while i < |polyline| - 1
      invariant 0 <= i <= if |polyline| >= 2 then |polyline| - 1 else 0
      invariant |shifted| == if i == 0 then 0 else i + 1
      invariant forall k :: 0 <= k < |shifted| ==>
        var s := SegmentOf(k);
        shifted[k] == destination(polyline[k], distance,
                                  OffsetBearing(Bearing(polyline[s], polyline[s + 1], azimuth), side))
    {
      var start, finish := polyline[i], polyline[i + 1];
      var bearing := Bearing(start, finish, azimuth);
      var offsetBearing := OffsetBearing(bearing, side);
      var point1Shifted := destination(start, distance, offsetBearing);
      var point2Shifted := destination(finish, distance, offsetBearing);
      if i == 0 {
        shifted := shifted + [point1Shifted];
      }
      shifted := shifted + [point2Shifted];
      i := i + 1;
    }
  }
}
