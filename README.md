# Whale migration routes — a Dafny model

The modelled system is a desktop tool that records whale observations in a SQLite database. It draws each whale family's migration corridor on a map. For every family, `App.build_routes`:

- gathers the "start" and "finish" observations of all the family's whales;
- fits an enclosing circle to each group (`get_circle`);
- routes by sea between the two centres (`build_sea_route`), with the antimeridian correction `adjust_coordinates`;
- smooths the route and offsets it to both sides by the larger radius (`shift_polyline`);
- draws the zone and the two circles in the family's colour.

`App.build_corridor` then matches the stored routes pairwise (`compare_lines`) and draws a yellow polygon wherever two routes run close to each other. The project also models:

- the densification helper `increase_precision`;
- the marker colour `color_change`;
- how `Database.update_whale` builds its statement.

The modules follow the source:

- `Geo` holds points, Python's float `% 360` and list helpers.
- `Antimeridian` holds `adjust_coordinates` and `build_sea_route`.
- `CircleFit` holds `get_circle`.
- `Offset` holds `shift_polyline`.
- `Densify` holds `increase_precision`.
- `Sorting` holds the stable sort by index.
- `Overlap` holds `compare_lines`.
- `Application` holds `color_change` and the class `App`.
- `Db` holds `update_whale` and `execute_query`.

Loops are `method`s, and each is proved equal to a specification function. The properties are then proved as lemmas about those functions. `App` is a class; its fields are the stored routes, the colour key, the shapes drawn on the map and the saved map file. The foreign numeric routines are parameters of function type:

- geodesic distance and destination;
- the azimuth inside `calculate_bearing`;
- the Euclidean norm;
- the haversine distance;
- the sea-routing graph;
- the spline smoother.

Database reads are inputs: a family is given as the list of its whales' record lists. Python exceptions become `Failure(IndexError)` or `Failure(ZeroDivisionError)`; in the class they are the returned `Option<PyError>`. Coordinates are unbounded reals.

Behaviour of the code worth noting:

- When every raw step against the corrected predecessor lies within 540 degrees, consecutive corrected longitudes end up in the closed range [-180, 180]. A step of exactly 180 degrees is left as it is, because the comparisons at app/handlers.py:20-23 are strict.
- The correction is idempotent only when every raw step against its corrected predecessor is within 540 degrees. `AdjustedFarJumpNotIdempotent` shows a counterexample.
- Nothing in `build_routes` catches an exception. A failing family ends the whole run (app/app.py:109-164); see `RunAbortsOnMissingRole` and `RunStopsAtFailingFamily`.
- An empty route from the routing graph fails with an index error in `adjust_coordinates`.
- The overlap search depends on the order of the routes. It compares only pairs i < j, with line i's points as the polygon's first half.

## Model

| member | source | states |
|---|---|---|
| Antimeridian.AdjustCoordinates | app/handlers.py:12-26 | An empty path fails with IndexError and only then. Otherwise the result is the corrected path: each point is shifted by 360 degrees against the corrected point before it when the jump is strictly beyond 180. |
| Antimeridian.AdjustedShape | app/handlers.py:13-25 | Same length as the input, first point unchanged, every latitude unchanged, every longitude moved by exactly -360, 0 or +360. |
| Antimeridian.AdjustedPrefix | app/handlers.py:15-25 | Correcting a prefix of a path gives that prefix of the corrected path. |
| Antimeridian.AdjustedWithin180 | app/handlers.py:18-23 | If every raw step against the corrected predecessor lies within [-540, 540], every corrected step lies within [-180, 180]. |
| Antimeridian.AdjustedFixedPoint | app/handlers.py:15-25 | A path is left unchanged by the correction if and only if all its steps lie within [-180, 180]. |
| Antimeridian.AdjustedIdempotent | app/handlers.py:12-26 | Under the 540-degree bound, correcting twice equals correcting once. |
| Antimeridian.AdjustedFarJumpNotIdempotent | app/handlers.py:20-23 | A 600-degree jump is only brought to 240 degrees, so without the bound a second pass changes the path. |
| Antimeridian.BuildSeaRoute | app/handlers.py:29-37 | The routing graph's path between the two points, corrected; an empty path fails with IndexError, exactly then. |
| CircleFit.MaxDistance | app/handlers.py:44 | The radius bounds the distance from the centre to every point and is attained at one of them. |
| CircleFit.GetCircle | app/handlers.py:40-46 | An empty list fails with ZeroDivisionError, only then. Otherwise the centre is the mean latitude and mean longitude, and the radius bounds every point's distance from the centre and equals it for some point. |
| CircleFit.MaxDistanceSameElements | app/handlers.py:44 | The maximum distance depends only on which points occur, not on their order or repetition. |
| CircleFit.GetCirclePermutation | app/handlers.py:40-46 | Permuting the points changes neither the centre nor the radius. |
| CircleFit.SquareCircle | app/handlers.py:40-46 | The four corners of a 2-by-2 square give centre (1, 1) and a radius equal to the distance to one corner. |
| Geo.Mod360 | app/handlers.py:57 | Python's float modulo 360 lies in [0, 360). |
| Geo.Mod360Unique | app/handlers.py:57 | It is the unique representative of its argument modulo 360 in that range. |
| Geo.SumOfPermutation | app/handlers.py:43 | A sum does not depend on the order of its terms. This is the basis of the permutation invariance of the centre. |
| Offset.Bearing | app/handlers.py:50-57 | The segment bearing, normalised by `(azimuth + 360) % 360`, lies in [0, 360). |
| Offset.OffsetBearing | app/handlers.py:69 | The offset bearing lies in [0, 360). |
| Offset.OffsetBearingTurn | app/handlers.py:69 | Exactly the side "right" turns the bearing by +90 degrees. Every other side value turns it by -90 (270 modulo 360) and behaves as "left". |
| Offset.OffsetSidesOpposite | app/handlers.py:69 | For a normalised bearing the two sides' offset bearings are 180 degrees apart. |
| Offset.ShiftPolyline | app/handlers.py:49-81 | Exactly one output point per vertex when there are at least two, none otherwise. Point 0 is vertex 0 moved along segment 0's offset bearing. Point k > 0 is vertex k moved along the offset bearing of segment k-1. The projected start of every later segment is dropped. |
| Densify.Trunc | app/handlers.py:96 | Python's `int()` on a float truncates toward zero. |
| Densify.Pieces | app/handlers.py:96 | Every segment is cut into at least one piece. |
| Densify.SegmentLoop | app/handlers.py:98-102 | The inner loop emits the segment's evenly spaced points at fractions j / pieces for j = 0 … pieces-1. |
| Densify.SegmentPointsFirst | app/handlers.py:99-101 | Fraction 0 leaves the segment's start vertex unchanged. |
| Densify.IncreasePrecision | app/handlers.py:84-106 | An empty path fails with IndexError, and n = 0 with two or more vertices fails with ZeroDivisionError, each exactly then. Otherwise the result is every segment's points followed by the last vertex. |
| Densify.InteriorLength | app/handlers.py:86-102 | The points emitted for the first k segments number the sum of their piece counts, at least k. |
| Densify.InteriorKeepsVertex | app/handlers.py:98-102 | Vertex i starts its segment's points, at offset equal to the pieces of the segments before it. |
| Densify.DensifiedShape | app/handlers.py:84-106 | The output length is 1 plus the sum of the piece counts, hence at least the input length. Every input vertex appears at the start of its segment's points, and the last one last. |
| Sorting.SortByIndexProperties | app/handlers.py:159-160 | The sort by index yields an index-ordered permutation of its input. |
| Sorting.SortByIndexStable | app/handlers.py:159-160 | Entries with equal index keep their relative order (Python's sort is stable). |
| Sorting.SortByIndexOfSorted | app/handlers.py:159-160 | A list already in index order is left as it is. |
| Overlap.ClosePairsExact | app/handlers.py:150-156 | A pair of entries is collected if and only if it is a point of line 1 and a point of line 2 within distance d, inclusive. |
| Overlap.BordersPaired | app/handlers.py:150-156 | The two border lists have equal length, and their k-th entries are within d of each other. |
| Overlap.ClosePairsDistinct | app/handlers.py:150-156 | The close pairs are collected in scan order, by index in line 1 and then in line 2. So no index pair is collected twice, and the borders hold one entry each per close point pair. |
| Overlap.CollectBorders | app/handlers.py:147-156 | The nested point loops produce equal-length borders whose k-th entries are within d, namely the first and second entries of the close pairs in scan order. |
| Overlap.MatchesUpToFirstsSorted | app/handlers.py:150-156 | The first border is collected in index order. |
| Overlap.BorderOneSorted | app/handlers.py:159 | Hence its sort leaves it unchanged. |
| Overlap.ComparePair | app/handlers.py:147-187 | The loop body for a pair of lines returns exactly the polygon the pair's close points define: sorted borders, the second reversed when the direction dot product is non-negative, kept only above two vertices. |
| Overlap.MatchPolygonSize | app/handlers.py:158-179 | A polygon is drawn if and only if there are at least two close pairs, and it then has two vertices per pair. |
| Overlap.MatchPolygonStartsWithBorderOne | app/handlers.py:159-177 | A drawn polygon begins with the first line's close points in their collection order. |
| Overlap.MatchPolygonFar | app/handlers.py:150-158 | Lines with no two points within d produce no polygon. |
| Overlap.MatchPolygonVertices | app/handlers.py:162-177 | Every vertex of a drawn polygon is a point of one of the two lines. |
| Overlap.RowOverlapsSkip | app/handlers.py:144-145 | A pair (i, j) with i >= j adds nothing. |
| Overlap.CompareRow | app/handlers.py:143-187 | The inner loop over j collects, in order, the polygons of line i with every later line. |
| Overlap.CompareLines | app/handlers.py:141-187 | `compare_lines` returns the polygons it would draw, in drawing order. |
| Overlap.OverlapsExact | app/handlers.py:141-187 | An overlap is reported if and only if its pair is (i, j) with i < j and the pair's matching yields exactly its polygon. |
| Application.ColorChange | app/app.py:13-19 | "start" maps to blue and "finish" to purple, each if and only if, and every other status to red. |
| Application.CollectRecords | app/app.py:117-123 | After one whale's records, the start list has gained its "start" positions and the finish list its "finish" positions, in record order, and other types are dropped. |
| Application.CollectCoords | app/app.py:110-123 | The family's start and finish lists are the selected positions of all its whales, whale by whale. |
| Application.SelectedConcat | app/app.py:117-123 | Selecting from concatenated record lists concatenates the selections. |
| Application.SelectedExact | app/app.py:117-123 | A point is selected for a role if and only if some record of that role has that position. |
| Application.Max2 | app/app.py:134 | Python's `max` of two radii is one of them and at least both. |
| Application.FitCircles | app/app.py:129-132 | Both circles are fitted exactly when the family has start and finish records; otherwise the error is a division by zero. The circles are those of `get_circle` on each group. |
| Application.Radius | app/app.py:134 | The one radius used is the larger of the two fitted radii. |
| Application.App.constructor | app/app.py:23-31 | A new application has no routes, colour key 0, nothing drawn, no map file. |
| Application.App.BuildFamily | app/app.py:110-161 | One family's pass makes exactly the state change and raises exactly the exception of the family step, and leaves the map file alone. |
| Application.App.PlaceRoute | app/app.py:137-142 | The corrected sea route, smoothed, is stored before anything after it can fail; an empty sea path fails with IndexError first. |
| Application.App.DrawRoute | app/app.py:144-161 | A route of fewer than two points or a tenth colour fails with IndexError and draws nothing. Otherwise it draws the zone polygon and the two circles in the current colour and advances the colour key by one. |
| Application.App.BuildRoutes | app/app.py:105-164 | The families are processed in order. The first exception stops the loop, keeps the earlier effects and leaves the map file alone. Only a complete run sets the map file. |
| Application.App.BuildCorridor | app/app.py:166-171 | The overlap polygons of the stored centre routes with threshold width * 1000 are drawn in yellow; routes and colour key are unchanged; the map file is set. |
| Application.FamilyStepDraws | app/app.py:129-161 | After a successful family step the family had both roles and the colour key was below 9. One smoothed route of at least two points was stored, the colour key advanced by one, and the zone and both circles were drawn with the larger radius in that colour. |
| Application.ZoneShape | app/app.py:144-149 | The zone is the corrected left offset followed by the corrected right offset reversed, twice as long as the route. |
| Application.RunCounts | app/app.py:109-161 | A complete run adds one route, three shapes and one colour step per family, so it never handles more families than colours remain. |
| Application.TenthFamilyFails | app/app.py:26-27 | A fresh application cannot complete ten families, because there are nine colours. |
| Application.FamilyStepErrors | app/app.py:129-161 | Raised by the loop body itself, since the oracles' own exceptions are not modelled. A family step fails with ZeroDivisionError exactly when the family lacks start or finish records. It fails with IndexError exactly when both circles fit but the corrected sea path is empty, the smoothed route has fewer than two points, or the colour key has reached 9. |
| Application.RunStopsAtFailingFamily | app/app.py:109-161 | A run that ends in an exception was stopped by some family k. Every family before k succeeded, and the run's outcome is family k's step from the state those families left. |
| Application.RunAbortsOnMissingRole | app/app.py:125-132 | A family with no start or no finish records makes the whole run end in an exception. |
| Db.JoinCount | app/db.py:123 | Joining parts of one placeholder each with a separator free of placeholders gives one placeholder per part. |
| Db.UpdateQueryPlaceholders | app/db.py:123 | The statement has one placeholder per SET field plus the one of the WHERE clause. |
| Db.SetFieldsPlaceholders | app/db.py:114-123 | For every combination of present arguments the statement has one more placeholder than SET fields. |
| Db.UpdateWhale | app/db.py:112-124 | The parameters are `type` if given, then `family_id` if given, then the whale id. The SET clause lists the same fields in the same order, one fewer than the parameters. The statement has exactly one `?` per parameter. |
| Db.UpdateQueryNoFields | app/db.py:123 | With neither argument the statement is "UPDATE whales SET  WHERE whale_id = ?", with an empty SET clause. |
| Db.UpdateQueryOneField | app/db.py:116-123 | A single given argument's assignment stands alone between SET and WHERE. |
| Db.UpdateQueryBothFields | app/db.py:116-123 | With both arguments the SET clause is "type = ?, family_id = ?". |
| Db.ExecuteQuery | app/db.py:10-20 | Missing parameters default to none. A failing statement yields None instead of raising, and only a failing one does; otherwise the cursor is returned. |

## Left out

- Floating point: coordinates, distances and fractions are exact reals, so rounding and NaN are not modelled.
- Geodesic distance and destination (geopy), the trigonometry of `calculate_bearing` and `haversine_distance`, and the Euclidean norm of `increase_precision` are function parameters. Only the normalisation of the bearing is modelled, and nothing is assumed of the others.
- `smooth` (scipy spline fitting, app/handlers.py:109-119) is a function parameter, including its own failures on short input. The model does not claim that it returns 100 points.
- The routing graph behind `build_sea_route` is a function parameter.
- Database reads (`get_families`, `get_family`, `get_records_by_whale`) are not modelled: a family is given to `BuildRoutes` as the record lists of its whales.
- The sqlite connection, cursor, commit and the other CRUD methods of app/db.py are not modelled. `ExecuteQuery` takes the statement's execution as a parameter, and its error message print is not modelled.
- Db.SqlValue: the parameter values are text or integers; other Python values bound by sqlite are not modelled.
- folium rendering, `map.save`, `webbrowser` and `show_map` are not modelled. Drawing is modelled as appending shapes to `App.drawn`, and saving as setting `App.mapFile` to "../output/map.html".
- `App.__init__`'s database connection, ocean dataset and folium map are not modelled, nor are `generate_coordinates`, `mark_points`, `create_window` and app/main.py.
- Application.App: the nine colour names are a module constant rather than a field, because `build_routes` only reads them.
- Sorting.SortByIndex: Python's in-place `list.sort` is modelled by value, as a stable insertion sort on the border list. Only the result is modelled, not the in-place update.
- Application.App.BuildFamily, Application.App.PlaceRoute, Application.App.DrawRoute: these split the body of the family loop into three methods. The state changes are exactly those of the single loop body.
- Overlap.CompareRow, Overlap.ComparePair, Overlap.CollectBorders, Densify.SegmentLoop, Application.CollectRecords: these are the inner loops and loop bodies, lifted into methods of their own.
- Offset.ShiftPolyline: the default `side="right"` of the Python signature is not modelled, because both callers (app/app.py:145, 147) pass `side` explicitly.
- Offset.ShiftPolyline: the symmetry of offsetting right and then left is not claimed. It depends on the geodesic destination, which is a parameter here.
- Overlap.OverlapsExact: the result depends on the order of the routes, so invariance under permuting the routes is not claimed.
- Antimeridian.AdjustedIdempotent: idempotence holds only under the 540-degree bound on raw steps. The counterexample is `AdjustedFarJumpNotIdempotent`.
