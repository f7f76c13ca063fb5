/** The application driver (`App` in app/app.py): per family of whales it fits one circle to
    the start observations and one to the finish observations, routes between their centres
    by sea, smooths the route, offsets it to both sides by the larger radius and draws the
    resulting zone and the two circles; `build_corridor` then matches the stored routes
    pairwise. The database, the sea router, the spline smoother and the geodesic routines
    are inputs (`Oracles`); the map is the list of shapes drawn on it. */
module Application {
  import opened Base
  import opened Geo
  import opened CircleFit
  import opened Antimeridian
  import opened Offset
  import opened Overlap

  /** `color_change`: the marker colour of an observation type. */
  function ColorChange(status: string): (r: string)
    ensures r == "blue" <==> status == "start"
    ensures r == "purple" <==> status == "finish"
    ensures r == "red" <==> status != "start" && status != "finish"
  {
    if status == "start" then "blue"
    else if status == "finish" then "purple"
    else "red"
  }

  /** A row of the `records` table: `(whales_id, type, latitude, longitude)`. */
  datatype Record = Record(whalesId: int, recordType: string, latitude: real, longitude: real)

  function PointOf(rec: Record): Point
  {
    Point(rec.latitude, rec.longitude)
  }

  /** The positions of the records whose type is role, in record order. */
  function Selected(records: seq<Record>, role: string): seq<Point>
  {
    if records == [] then []
    else
      var last := records[|records| - 1];
      Selected(records[..|records| - 1], role) + (if last.recordType == role then [PointOf(last)] else [])
  }

  /** The positions of role over all whales of a family, whale by whale. */
  function FamilyCoords(whales: seq<seq<Record>>, role: string): seq<Point>
  {
    if whales == [] then []
    else FamilyCoords(whales[..|whales| - 1], role) + Selected(whales[|whales| - 1], role)
  }

  /** The record loop of one whale, appending to the family's running lists: "start" records
      go to the first, "finish" records to the second, every other type is dropped. */
  method CollectRecords(records: seq<Record>, starts0: seq<Point>, finishes0: seq<Point>)
    returns (starts: seq<Point>, finishes: seq<Point>)
    ensures starts == starts0 + Selected(records, "start")
    ensures finishes == finishes0 + Selected(records, "finish")
  {
    starts, finishes := starts0, finishes0;
    for k := 0 to |records|
      invariant starts == starts0 + Selected(records[..k], "start")
      invariant finishes == finishes0 + Selected(records[..k], "finish")
    {
      var rec := records[k];
      assert records[..k + 1][..k] == records[..k];
      if rec.recordType == "start" {
        starts := starts + [PointOf(rec)];
      } else if rec.recordType == "finish" {
        finishes := finishes + [PointOf(rec)];
      }
    }
    assert records[..|records|] == records;
  }

  /** The whale loop of `build_routes`: `start_coords` and `finish_coords` of a family. */
  method CollectCoords(whales: seq<seq<Record>>) returns (starts: seq<Point>, finishes: seq<Point>)
    ensures starts == FamilyCoords(whales, "start")
    ensures finishes == FamilyCoords(whales, "finish")
  {
    starts, finishes := [], [];
    for w := 0 to |whales|
      invariant starts == FamilyCoords(whales[..w], "start")
      invariant finishes == FamilyCoords(whales[..w], "finish")
    {
      assert whales[..w + 1][..w] == whales[..w];
      starts, finishes := CollectRecords(whales[w], starts, finishes);
    }
    assert whales[..|whales|] == whales;
  }

  /** Selection distributes over concatenation, so record order is kept. */
  lemma {:induction false} SelectedConcat(a: seq<Record>, b: seq<Record>, role: string)
    ensures Selected(a + b, role) == Selected(a, role) + Selected(b, role)
    decreases |b|
  {
    if b == [] {
      assert a + b == a;
    } else {
      var b' := b[..|b| - 1];
      assert (a + b)[..|a + b| - 1] == a + b';
      SelectedConcat(a, b', role);
    }
  }

  /** A position is selected exactly when some record of that type carries it. */
  lemma {:induction false} SelectedExact(records: seq<Record>, role: string, p: Point)
    ensures p in Selected(records, role) <==>
      exists i :: 0 <= i < |records| && records[i].recordType == role && PointOf(records[i]) == p
  {
    if records != [] {
      var init := records[..|records| - 1];
      SelectedExact(init, role, p);
      if exists i :: 0 <= i < |init| && init[i].recordType == role && PointOf(init[i]) == p {
        var i :| 0 <= i < |init| && init[i].recordType == role && PointOf(init[i]) == p;
        assert records[i] == init[i];
      }
      if exists i :: 0 <= i < |records| && records[i].recordType == role && PointOf(records[i]) == p {
        var i :| 0 <= i < |records| && records[i].recordType == role && PointOf(records[i]) == p;
        if i < |init| {
          assert init[i] == records[i];
        }
      }
    }
  }

  /** The routines `build_routes` calls out to. */
  datatype Oracles = Oracles(
    dist: (Point, Point) -> real,                 // `geodesic(a, b).meters`
    seaPath: (Point, Point) -> seq<Point>,        // the sea router's `coordinate_path`
    smooth: seq<Point> -> seq<Point>,             // `smooth`
    azimuth: (real, real, real, real) -> real,    // the bearing formula of `shift_polyline`
    destination: (Point, real, real) -> Point)    // `geodesic(meters=...).destination`

  /** `self.colors`: one colour per family, nine in all. */
  const Colors: seq<string> :=
    ["darkred", "darkblue", "purple", "maroon", "navy", "teal", "indigo", "chocolate", "crimson"]

  const MapPath: string := "../output/map.html"

  /** What is drawn on the map: a filled polygon or a circle of a radius in meters. */
  datatype Shape =
    | Polygon(points: seq<Point>, color: string)
    | CircleShape(center: Point, radius: real, color: string)

  /** Python's `max([a, b])`. */
  function Max2(a: real, b: real): (r: real)
    ensures r >= a && r >= b && (r == a || r == b)
  {
    if b > a then b else a
  }

  /** `shifted_left + shifted_right[::-1]`, each side already antimeridian-corrected. */
  function Zone(route: seq<Point>, radius: real, o: Oracles): seq<Point>
  {
    Adjusted(Shifted(route, radius, "left", o.azimuth, o.destination))
      + Reverse(Adjusted(Shifted(route, radius, "right", o.azimuth, o.destination)))
  }

  /** The fields of `App` that `build_routes` and `build_corridor` change. */
  datatype Canvas = Canvas(routes: seq<seq<Point>>, colorKey: nat, drawn: seq<Shape>)

  /** The state after a step, and the exception that ended it, if any. */
  datatype Outcome = Outcome(canvas: Canvas, error: Option<PyError>)

  /** The circles fitted to a family's start and to its finish observations. */
  datatype Fit = Fit(start: Circle, finish: Circle)

  /** The two `get_circle` calls of a family, start first. */
  function FitCircles(whales: seq<seq<Record>>, dist: (Point, Point) -> real): (r: Fallible<Fit>)
    ensures r.Success? <==> FamilyCoords(whales, "start") != [] && FamilyCoords(whales, "finish") != []
    ensures r.Failure? ==> r.error == ZeroDivisionError
    ensures r.Success? ==> r.value.start == GetCircle(FamilyCoords(whales, "start"), dist).value
    ensures r.Success? ==> r.value.finish == GetCircle(FamilyCoords(whales, "finish"), dist).value
  {
    var startCircle := GetCircle(FamilyCoords(whales, "start"), dist);
    var finishCircle := GetCircle(FamilyCoords(whales, "finish"), dist);
    if startCircle.Failure? then Failure(startCircle.error)
    else if finishCircle.Failure? then Failure(finishCircle.error)
    else Success(Fit(startCircle.value, finishCircle.value))
  }

  /** `max(radiuses)`: the one radius used for both offsets and both drawn circles. */
  function Radius(fit: Fit): (r: real)
    ensures r >= fit.start.radius && r >= fit.finish.radius
    ensures r == fit.start.radius || r == fit.finish.radius
  {
    Max2(fit.start.radius, fit.finish.radius)
  }

  /** The rest of the loop body once the smoothed route is stored: the offsets fail on a
      route of fewer than two points (`adjust_coordinates([])`), the colour lookup fails
      past the ninth family; otherwise the zone and the two circles are drawn in the
      family's colour and the colour key advances. */
  function DrawStep(stored: Canvas, smoothed: seq<Point>, fit: Fit, o: Oracles): Outcome
  {
    if |smoothed| < 2 then Outcome(stored, Some(IndexError))
    else if stored.colorKey >= |Colors| then Outcome(stored, Some(IndexError))
    else
      var color := Colors[stored.colorKey];
      var radius := Radius(fit);
      var shapes := [Polygon(Zone(smoothed, radius, o), color),
                     CircleShape(fit.start.center, radius, color),
                     CircleShape(fit.finish.center, radius, color)];
      Outcome(stored.(colorKey := stored.colorKey + 1, drawn := stored.drawn + shapes), None)
  }

  /** The sea route between the two centres, smoothed and stored before anything else can
      fail; an empty sea path fails inside `adjust_coordinates`. */
  function RouteStep(c: Canvas, fit: Fit, o: Oracles): Outcome
  {
    var path := o.seaPath(fit.start.center, fit.finish.center);
    if |path| == 0 then Outcome(c, Some(IndexError))
    else
      var smoothed := o.smooth(Adjusted(path));
      DrawStep(c.(routes := c.routes + [smoothed]), smoothed, fit, o)
  }

  /** One iteration of the family loop of `build_routes`. */
  function FamilyStep(c: Canvas, whales: seq<seq<Record>>, o: Oracles): Outcome
  {
    match FitCircles(whales, o.dist)
    case Failure(e) => Outcome(c, Some(e))
    case Success(fit) => RouteStep(c, fit, o)
  }

  /** The family loop: families in order, stopping at the first exception. */
  function Run(c: Canvas, families: seq<seq<seq<Record>>>, o: Oracles): Outcome
    decreases |families|
  {
    if families == [] then Outcome(c, None)
    else
      var step := FamilyStep(c, families[0], o);
      if step.error.Some? then step else Run(step.canvas, families[1..], o)
  }

  /** The overlap polygons of `compare_lines`, drawn in yellow. */
  function Highlighted(overlaps: seq<Overlap>): seq<Shape>
  {
    seq(|overlaps|, k requires 0 <= k < |overlaps| => Polygon(overlaps[k].polygon, "yellow"))
  }

  class App {
    var routes: seq<seq<Point>>
    var colorKey: nat
    var drawn: seq<Shape>
    var mapFile: Option<string>

    constructor ()
      ensures routes == [] && colorKey == 0 && drawn == [] && mapFile == None
    {
      routes := [];
      colorKey := 0;
      drawn := [];
      mapFile := None;
    }

    function State(): Canvas
      reads this
    {
      Canvas(routes, colorKey, drawn)
    }

    /** The body of the family loop of `build_routes`: the observations and the circles. */
    method BuildFamily(whales: seq<seq<Record>>, o: Oracles) returns (error: Option<PyError>)
      modifies this
      ensures State() == FamilyStep(old(State()), whales, o).canvas
      ensures error == FamilyStep(old(State()), whales, o).error
      ensures mapFile == old(mapFile)
    {
      var starts, finishes := CollectCoords(whales);
      var startCircle := GetCircle(starts, o.dist);
      if startCircle.Failure? {
        return Some(startCircle.error);
      }
      var finishCircle := GetCircle(finishes, o.dist);
      if finishCircle.Failure? {
        return Some(finishCircle.error);
      }
      error := PlaceRoute(Fit(startCircle.value, finishCircle.value), o);
    }

    /** The loop body from `build_sea_route` to storing the smoothed route. */
    method PlaceRoute(fit: Fit, o: Oracles) returns (error: Option<PyError>)
      modifies this
      ensures State() == RouteStep(old(State()), fit, o).canvas
      ensures error == RouteStep(old(State()), fit, o).error
      ensures mapFile == old(mapFile)
    {
      var coordinatePath := BuildSeaRoute(fit.start.center, fit.finish.center, o.seaPath);
      if coordinatePath.Failure? {
        return Some(coordinatePath.error);
      }
      var smoothedPath := o.smooth(coordinatePath.value);
      routes := routes + [smoothedPath];
      error := DrawRoute(smoothedPath, fit, o);
    }

    /** The loop body from the offsets to the colour key increment. */
    method DrawRoute(smoothedPath: seq<Point>, fit: Fit, o: Oracles) returns (error: Option<PyError>)
      modifies this
      ensures State() == DrawStep(old(State()), smoothedPath, fit, o).canvas
      ensures error == DrawStep(old(State()), smoothedPath, fit, o).error
      ensures mapFile == old(mapFile)
    {
      var centers := [fit.start.center, fit.finish.center];
      var radius := Radius(fit);
      var left := ShiftPolyline(smoothedPath, radius, "left", o.azimuth, o.destination);
      var shiftedLeft := AdjustCoordinates(left);
      if shiftedLeft.Failure? {
        return Some(shiftedLeft.error);
      }
      var right := ShiftPolyline(smoothedPath, radius, "right", o.azimuth, o.destination);
      // right has as many points as left, so its correction succeeds as well
      var shiftedRight := AdjustCoordinates(right);
      var zone := shiftedLeft.value + Reverse(shiftedRight.value);
      if colorKey >= |Colors| {
        return Some(IndexError);
      }
      var color := Colors[colorKey];
      drawn := drawn + [Polygon(zone, color)];
      for k := 0 to |centers|
        invariant drawn == old(drawn) + [Polygon(zone, color)]
          + seq(k, j requires 0 <= j < k => CircleShape(centers[j], radius, color))
        invariant routes == old(routes) && colorKey == old(colorKey) && mapFile == old(mapFile)
      {
        drawn := drawn + [CircleShape(centers[k], radius, color)];
      }
      colorKey := colorKey + 1;
      return None;
    }

    /** `build_routes`: the families in order; the first exception propagates and leaves the
        effects of the families before it (and of its own stored route) in place. Only a
        complete run sets the map file. */
    method BuildRoutes(families: seq<seq<seq<Record>>>, o: Oracles) returns (error: Option<PyError>)
      modifies this
      ensures State() == Run(old(State()), families, o).canvas
      ensures error == Run(old(State()), families, o).error
      ensures error.None? ==> mapFile == Some(MapPath)
      ensures error.Some? ==> mapFile == old(mapFile)
    {
      error := None;
      for i := 0 to |families|
        invariant Run(State(), families[i..], o) == Run(old(State()), families, o)
        invariant mapFile == old(mapFile)
        invariant error == None
      {
        ghost var before := State();
        assert families[i..][0] == families[i] && families[i..][1..] == families[i + 1..];
        error := BuildFamily(families[i], o);
        if error.Some? {
          return;
        }
        assert Run(before, families[i..], o) == Run(State(), families[i + 1..], o);
      }
      mapFile := Some(MapPath);
    }

    /** `build_corridor`: the overlap polygons of the stored centre routes, with threshold
        `width * 1000`, are drawn; the routes themselves are left as they are. */
    method BuildCorridor(width: real, haversine: (Point, Point) -> real)
      modifies this
      ensures routes == old(routes) && colorKey == old(colorKey)
      ensures drawn == old(drawn) + Highlighted(Overlaps(old(routes), width * 1000.0, haversine))
      ensures mapFile == Some(MapPath)
    {
      var overlaps := CompareLines(routes, width * 1000.0, haversine);
      drawn := drawn + Highlighted(overlaps);
      mapFile := Some(MapPath);
    }
  }

  /** A successful family step stores the smoothed sea route between the two centres, uses
      the next colour, and draws the zone and two circles with the one radius, the larger of
      the two fitted radii. */
  lemma FamilyStepDraws(c: Canvas, whales: seq<seq<Record>>, o: Oracles)
    requires FamilyStep(c, whales, o).error.None?
    ensures FitCircles(whales, o.dist).Success?
    ensures c.colorKey < |Colors|
    ensures var fit := FitCircles(whales, o.dist).value;
      var out := FamilyStep(c, whales, o).canvas;
      var route := o.smooth(Adjusted(o.seaPath(fit.start.center, fit.finish.center)));
      var n := |c.drawn|;
      && |route| >= 2
      && out.routes == c.routes + [route]
      && out.colorKey == c.colorKey + 1
      && out.drawn == c.drawn + [Polygon(Zone(route, Radius(fit), o), Colors[c.colorKey]),
                                 CircleShape(fit.start.center, Radius(fit), Colors[c.colorKey]),
                                 CircleShape(fit.finish.center, Radius(fit), Colors[c.colorKey])]
  {
  }

  /** `a + b[::-1]` is a followed by b read backwards. */
  lemma ConcatReverse<T>(a: seq<T>, b: seq<T>)
    ensures |a + Reverse(b)| == |a| + |b|
    ensures (a + Reverse(b))[..|a|] == a
    ensures forall i :: |a| <= i < |a| + |b| ==> (a + Reverse(b))[i] == b[|a| + |b| - 1 - i]
  {
    assert (a + Reverse(b))[..|a|] == a;
  }

  /** The zone of a route of at least two points is the corrected left offset followed by
      the corrected right offset read backwards, twice as long as the route. */
  lemma ZoneShape(route: seq<Point>, radius: real, o: Oracles)
    requires |route| >= 2
    ensures |Zone(route, radius, o)| == 2 * |route|
    ensures Zone(route, radius, o)[..|route|] == Adjusted(Shifted(route, radius, "left", o.azimuth, o.destination))
    ensures forall i :: |route| <= i < 2 * |route| ==>
      Zone(route, radius, o)[i]
        == Adjusted(Shifted(route, radius, "right", o.azimuth, o.destination))[2 * |route| - 1 - i]
  {
    var left := Adjusted(Shifted(route, radius, "left", o.azimuth, o.destination));
    var right := Adjusted(Shifted(route, radius, "right", o.azimuth, o.destination));
    assert |left| == |right| == |route|;
    ConcatReverse(left, right);
  }

  /** A complete run stores one route, three shapes and one colour per family, so it never
      handles more families than there are colours left. */
  lemma {:induction false} RunCounts(c: Canvas, families: seq<seq<seq<Record>>>, o: Oracles)
    requires Run(c, families, o).error.None?
    ensures |Run(c, families, o).canvas.routes| == |c.routes| + |families|
    ensures |Run(c, families, o).canvas.drawn| == |c.drawn| + 3 * |families|
    ensures Run(c, families, o).canvas.colorKey == c.colorKey + |families|
    ensures families != [] ==> c.colorKey + |families| <= |Colors|
    decreases |families|
  {
    if families != [] {
      FamilyStepDraws(c, families[0], o);
      RunCounts(FamilyStep(c, families[0], o).canvas, families[1..], o);
    }
  }

  /** A fresh application cannot complete ten families: at the latest the tenth one fails
      at `self.colors[9]`. */
  lemma TenthFamilyFails(families: seq<seq<seq<Record>>>, o: Oracles)
    requires |families| >= 10
    ensures Run(Canvas([], 0, []), families, o).error.Some?
  {
    if Run(Canvas([], 0, []), families, o).error.None? {
      RunCounts(Canvas([], 0, []), families, o);
    }
  }

  /** Why a family step fails: a division by zero exactly when the family lacks start or
      finish records; an index error exactly when both circles fit but the corrected sea path
      is empty, the smoothed route has fewer than two points, or the nine colours are used up. */
  lemma FamilyStepErrors(c: Canvas, whales: seq<seq<Record>>, o: Oracles)
    ensures FamilyStep(c, whales, o).error == Some(ZeroDivisionError)
      <==> FamilyCoords(whales, "start") == [] || FamilyCoords(whales, "finish") == []
    ensures FamilyStep(c, whales, o).error == Some(IndexError)
      <==> && FitCircles(whales, o.dist).Success?
           && var fit := FitCircles(whales, o.dist).value;
              var path := o.seaPath(fit.start.center, fit.finish.center);
              || |path| == 0
              || |o.smooth(Adjusted(path))| < 2
              || c.colorKey >= |Colors|
  {
  }

  /** A run that ends in an exception was stopped by family k: the families before it all
      succeeded, and the run's outcome is that family's step from the state they left. */
  lemma {:induction false} RunStopsAtFailingFamily(c: Canvas, families: seq<seq<seq<Record>>>, o: Oracles)
    returns (k: nat)
    requires Run(c, families, o).error.Some?
    ensures k < |families|
    ensures Run(c, families[..k], o).error.None?
    ensures Run(c, families, o) == FamilyStep(Run(c, families[..k], o).canvas, families[k], o)
    decreases |families|
  {
    var step := FamilyStep(c, families[0], o);
    if step.error.Some? {
      k := 0;
      assert families[..0] == [];
    } else {
      var k' := RunStopsAtFailingFamily(step.canvas, families[1..], o);
      k := k' + 1;
      var prefix := families[..k];
      assert prefix[0] == families[0] && prefix[1..] == families[1..][..k'];
      assert families[1..][k'] == families[k];
    }
  }

  /** A family with no start or no finish records aborts the whole run: nothing catches the
      division by zero of `get_circle`. */
  lemma {:induction false} RunAbortsOnMissingRole(c: Canvas, families: seq<seq<seq<Record>>>, o: Oracles, k: nat)
    requires k < |families|
    requires FamilyCoords(families[k], "start") == [] || FamilyCoords(families[k], "finish") == []
    ensures Run(c, families, o).error.Some?
    decreases k
  {
    if k > 0 && FamilyStep(c, families[0], o).error.None? {
      assert families[1..][k - 1] == families[k];
      RunAbortsOnMissingRole(FamilyStep(c, families[0], o).canvas, families[1..], o, k - 1);
    }
  }
}
