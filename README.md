# trackmarks core, modelled in Dafny

This project models three parts of the trackmarks Python package.

- **The reprojection policy and uncertainty ellipses** (`py/trackmarks/core/spatial.py`).
  - A point is sent to its "optimal" local frame: a UTM zone inside the latitude band -80 < lat < 84, and the World Azimuthal Equidistant frame outside it.
  - The pair of transformers is built, a geometry operation is applied in that frame, and the result is mapped back.
  - The same pipeline is applied row by row to a geo data frame.
  - An ellipse with semi-axes in nautical miles or metres is built in metres around a WGS84 centroid, in the centroid's optimal frame (a UTM zone, or the polar fallback outside the UTM band), and its polygon is cached lazily.
- **The shortest-path post-processing** (`py/trackmarks/mock/osm2graph.py`).
  - The choice of download source.
  - The metrics of a found route: edges, coordinates, length in metres and kilometres, counts.
  - The per-segment details.
- **The mock trajectory generator** (`py/trackmarks/mock/mockTrackGenerator.py`).
  - The choice of road network.
  - The cumulative-distance table of a route.
  - The sampling loop of one vehicle: rest check, searchsorted lookup, linear interpolation, noise, speed factor, advance, then a closing record at the destination.
  - The loop over vehicles.

Files:

- `wrappers.dfy`: `Option` and `Result`.
- `spatial.dfy`: module `Spatial`.
- `roadgraph.dfy`: module `RoadGraph`. This is the road multigraph both mock files read. `G[u][v][0]` is the key-0 edge.
- `osm2graph.dfy`: module `Osm2Graph`.
- `mocktrackgenerator.dfy`: module `MockTrackGenerator`.

The projection library and the planar geometry library are foreign code. They are the function fields of `Spatial.GeoOps`, and the spatial properties are stated relative to them.

Randomness becomes input draws:

- a per-sample `SampleDraw` (GPS noise on both coordinates and the speed factor);
- a per-vehicle `VehicleDraw` (velocity, departure stagger).

Other modelling choices:

- Times are whole seconds.
- Floating-point numbers are reals.
- Downloads, nearest-node lookups and the shortest-path search are library calls. Their results (a graph, a route or no route) are inputs.

The sampling loop is a method proved against a specification. `CursorAt(p, draws, k)` is the loop state at the top of step k. `IsTrajectory` says the records are:

- one sample per step, taken while the distance is below the table's last entry;
- then the closing record, at the first state that reached it.

The lemmas about `IsTrajectory` state what the source promises: the timestamps and the rests, the velocities, the samples lying on the route, and that the draws determine the trajectory.

## Model

| member | source | states |
|---|---|---|
| Spatial.MetersPerUnit | py/trackmarks/core/spatial.py:64-65 | the metre length of a unit used for the semi-axes is positive: 1 for metres, 1852 for nautical miles |
| Spatial.ConvertTo | py/trackmarks/core/spatial.py:64-65 | `.to(unit)` keeps the physical length: the new magnitude times the new unit's metres equals the old magnitude times the old unit's metres |
| Spatial.ConvertRoundTrip | py/trackmarks/core/spatial.py:64-65 | converting to another unit and back gives the original quantity |
| Spatial.TruncateToInt | py/trackmarks/core/spatial.py:100 | Python's `int()` truncates toward zero: the result is within one below a non-negative input and within one above a negative one |
| Spatial.UtmZone | py/trackmarks/core/spatial.py:100 | the zone number of `int((lon + 180) / 6) + 1`: from -180 on, the longitude lies in the zone's strip [-180 + 6(z-1), -180 + 6z) |
| Spatial.UtmZoneStrip | py/trackmarks/core/spatial.py:100 | for longitudes from -180 on, the zone number is z exactly when the longitude lies in the 6-degree strip [-180 + 6(z-1), -180 + 6z) |
| Spatial.UtmZoneRange | py/trackmarks/core/spatial.py:100 | longitudes in [-180, 180) get zones 1 to 60 |
| Spatial.UtmZoneEdges | py/trackmarks/core/spatial.py:100 | edge cases of the zone formula: -180 gives 1, 179.9 gives 60, 180 gives 61 (no clamping), -183 gives 1 (truncation, not floor) |
| Spatial.OptimalCrs | py/trackmarks/core/spatial.py:79-106 | the resolver never returns EPSG:4326; it returns a UTM zone exactly when -80 < lat < 84 (strict), that zone being the formula's, and the 54032 fallback otherwise |
| Spatial.OptimalCrsPolarIgnoresLongitude | py/trackmarks/core/spatial.py:98-106 | outside the band the longitude plays no part: every polar point gets the fallback |
| Spatial.OptimalCrsIsZoneOfStrip | py/trackmarks/core/spatial.py:98-101 | inside the band a point east of -180 resolves to UTM zone z exactly when its longitude lies in z's strip |
| Spatial.OptimalCrsAtlanta | py_tests/trackmarks/core/spatial.py:10-13 | the test fixture's centroid (-84.39, 33.75) resolves to UTM zone 16 |
| Spatial.IsWithinCrsBounds | py/trackmarks/core/spatial.py:108-119 | the inclusive bounds test on x against west..east and y against south..north; a point can only be within an area whose west bound is at most its east bound and south at most north |
| Spatial.CornersWithinCrsBounds | py/trackmarks/core/spatial.py:108-119 | all four bounds are inclusive: each corner of a well-formed area of use is within it |
| Spatial.AntimeridianAreaContainsNothing | py/trackmarks/core/spatial.py:112-119 | an area whose west bound exceeds its east bound (one crossing the antimeridian) contains no point under this test |
| Spatial.TransformGeometry | py/trackmarks/core/spatial.py:150-152 | transforming a geometry keeps its kind and vertex count and maps every vertex through the transformer's source-to-target projection |
| Spatial.TransformGeometryRoundTrip | py/trackmarks/core/spatial.py:131-143 | when the two projections undo each other on coordinates, transforming there and back gives the original geometry |
| Spatial.GetOptimalTransformers | py/trackmarks/core/spatial.py:122-143 | no pair exactly when the optimal frame of the point (or of a non-point's centroid) equals the input frame; otherwise input-to-optimal and optimal-to-input, both always-xy |
| Spatial.PointAnchorSkipsCentroid | py/trackmarks/core/spatial.py:126 | a point is resolved from its own coordinates: the centroid operation is consulted only for other geometries |
| Spatial.TransformerPairIsReversed | py/trackmarks/core/spatial.py:128-143 | a returned pair leaves the input frame for a different frame and comes straight back |
| Spatial.TransformersFromWgs84 | py/trackmarks/core/spatial.py:76-77 | with the default input EPSG:4326 there is always a pair, since the resolver never picks 4326 |
| Spatial.PolarInputShortCircuits | py/trackmarks/core/spatial.py:128-129 | a reprojector whose input frame is the polar fallback gets no pair for a polar point |
| Spatial.ApplyGeometry | py/trackmarks/core/spatial.py:145-152 | fails (unpacking None) exactly when there is no pair; otherwise the result is inverse(func(forward(g))) |
| Spatial.ApplyGeometryFromWgs84Succeeds | py/trackmarks/core/spatial.py:145-152 | from EPSG:4326 the pipeline never fails |
| Spatial.ApplyGeometryIdentity | py/trackmarks/core/spatial.py:145-152 | with an operation that changes nothing and exact inverse projections, the geometry comes back unchanged |
| Spatial.GeoDataFrame.constructor | py/trackmarks/core/spatial.py:154-160 | a frame holds the geometry column and the other columns, each column one entry per row |
| Spatial.ApplyGeoDataFrame | py/trackmarks/core/spatial.py:154-160 | every row's geometry is replaced in place by its pipeline result and the same frame is returned; other columns are untouched; when a row fails the frame is left as it was |
| Spatial.UtmEllipse | py/trackmarks/core/spatial.py:57-70 | the ellipse is the unit buffer scaled by the semi-axes' lengths in metres (x by the major, y by the minor), rotated exactly when the orientation is non-zero |
| Spatial.UtmEllipseZeroRotationShortcut | py/trackmarks/core/spatial.py:69-70 | skipping the rotation at orientation 0.0 is sound when rotating by 0 changes nothing |
| Spatial.UtmEllipseFixture | py_tests/trackmarks/core/spatial.py:14-17 | the test ellipse (2 nm by 1 nm, orientation 10) scales by 3704 m and 1852 m and rotates by 10 |
| Spatial.EllipsePolygon | py/trackmarks/core/spatial.py:43-51 | the polygon is built around the centroid projected into the centroid's optimal frame and mapped back to EPSG:4326 |
| Spatial.Ellipse.constructor | py/trackmarks/core/spatial.py:24-35 | a new ellipse stores its fields and has no cached polygon |
| Spatial.Ellipse.GenerateEllipse | py/trackmarks/core/spatial.py:43-54 | always returns a freshly generated polygon and stores it only when `cache` is set |
| Spatial.Ellipse.GetEllipse | py/trackmarks/core/spatial.py:36-41 | returns the cached polygon when there is one, otherwise generates it at the default resolution 8 and caches it |
| Spatial.LazyCacheLifecycle | py/trackmarks/core/spatial.py:36-54 | on a new ellipse two reads agree, a regeneration without caching leaves the cached polygon, and one with caching replaces it |
| RoadGraph.PathLength | py/trackmarks/mock/osm2graph.py:69-72 | the summed key-0 edge length of a route; with non-negative edge lengths it is non-negative |
| Osm2Graph.SelectSource | py/trackmarks/mock/osm2graph.py:21-31 | a place name wins, then a bounding box, then distance with centre point, each tested for truthiness; a ValueError exactly when none is usable |
| Osm2Graph.EmptyPlaceNameFallsThrough | py/trackmarks/mock/osm2graph.py:21-26 | an empty place name is falsy, so a non-empty bounding box is used |
| Osm2Graph.ZeroDistanceIsMissing | py/trackmarks/mock/osm2graph.py:27-31 | a distance of 0 is falsy, so a centre point alone raises |
| Osm2Graph.ShortestPathGenerator.constructor | py/trackmarks/mock/osm2graph.py:11-31 | the generator holds the given road graph |
| Osm2Graph.ShortestPathGenerator.FromSource | py/trackmarks/mock/osm2graph.py:11-31 | no generator exactly when no source is usable; otherwise the graph is the one downloaded from the selected source |
| Osm2Graph.ShortestPathGenerator.LatLon | py/trackmarks/mock/osm2graph.py:78 | a node's (lat, lon) is its stored (x, y) position with the axes swapped |
| Osm2Graph.ShortestPathGenerator.CalculateShortestPath | py/trackmarks/mock/osm2graph.py:61-99 | none exactly when no path was found; otherwise the consecutive node pairs, one (lat, lon) per node, the route length in metres, that length over 1000 in km, and the node and edge counts |
| Osm2Graph.ShortestPathGenerator.SegmentOf | py/trackmarks/mock/osm2graph.py:210-222 | a segment carries its number, end nodes and their (lat, lon), the key-0 edge length in m and km, and the street name and highway type, with 'Unnamed' and 'Unknown' when missing |
| Osm2Graph.ShortestPathGenerator.GetRouteDetails | py/trackmarks/mock/osm2graph.py:193-225 | none exactly for no path results; otherwise one segment per consecutive pair, segment i + 1 running from route[i] to route[i + 1] |
| Osm2Graph.ShortestPathGenerator.SegmentLengthsSumToDistance | py/trackmarks/mock/osm2graph.py:69-72 | the details' segment lengths add up to the route's reported distance in metres |
| MockTrackGenerator.SelectNetwork | py/trackmarks/mock/mockTrackGenerator.py:22-28 | a given graph wins over a place name, both tested against None only; a ValueError exactly when both are missing |
| MockTrackGenerator.CumulativeDistances | py/trackmarks/mock/mockTrackGenerator.py:128-134 | the table has one entry per node, and a single entry for an empty path |
| MockTrackGenerator.CumulativeDistancesStep | py/trackmarks/mock/mockTrackGenerator.py:130-133 | the table starts at 0 and each entry is the previous one plus the key-0 edge length to the next node |
| MockTrackGenerator.CumulativeDistancesLast | py/trackmarks/mock/mockTrackGenerator.py:84-85 | the table's last entry, the loop's total distance, is the route's length |
| MockTrackGenerator.CumulativeDistancesSorted | py/trackmarks/mock/mockTrackGenerator.py:128-134 | with non-negative edge lengths the table is sorted, as searchsorted needs |
| MockTrackGenerator.RestCheck | py/trackmarks/mock/mockTrackGenerator.py:150-154 | once the travel time reaches the maximum the vehicle rests: the clock gains the rest duration in seconds and the travel time is reset to 0, the distance unchanged; below the maximum nothing changes. So the vehicle is never moved, the clock never turns back for a non-negative rest, and afterwards the travel time is below the maximum unless it was just reset |
| MockTrackGenerator.Advance | py/trackmarks/mock/mockTrackGenerator.py:200-204 | one step moves the clock by one sampling interval and the travel time by the same interval in minutes; with non-negative velocity, speed factor and interval the distance does not shrink |
| MockTrackGenerator.CursorAt | py/trackmarks/mock/mockTrackGenerator.py:141-204 | the loop state at the top of step k: with a non-negative interval and rest the clock has run at least k intervals since departure, and the travel time is never negative |
| MockTrackGenerator.SearchSortedLeft | py/trackmarks/mock/mockTrackGenerator.py:158 | the left-side search result: every entry before it is below the distance, and the entry at it, if any, is at least the distance |
| MockTrackGenerator.NodeIndex | py/trackmarks/mock/mockTrackGenerator.py:158-160 | the clamped node index is a valid index into the path |
| MockTrackGenerator.Ratio | py/trackmarks/mock/mockTrackGenerator.py:166 | 0 on an edge of zero or negative length; otherwise the fraction that interpolates back to the distance, lying in (0, 1] when the distance is past the edge's start and up to its end |
| MockTrackGenerator.Position | py/trackmarks/mock/mockTrackGenerator.py:157-182 | up to the table's first entry the position is the first node; past it, on an edge of positive length, each coordinate's offset from the earlier node times the edge length is the distance along the edge times the coordinate's change across it (linear interpolation), and when the entries bracket the distance it lies between the two nodes on both axes |
| MockTrackGenerator.LerpProportional | py/trackmarks/mock/mockTrackGenerator.py:166-177 | interpolating a coordinate by the guarded distance ratio moves it in proportion to the distance travelled along the edge |
| MockTrackGenerator.PositionInterpolates | py/trackmarks/mock/mockTrackGenerator.py:157-182 | below the total, the index is 0 exactly when the distance has not passed the first entry, giving the first node; otherwise the two bracketing entries enclose the distance, the ratio is in (0, 1], and the position lies between the two nodes on both axes |
| MockTrackGenerator.SampleRecord | py/trackmarks/mock/mockTrackGenerator.py:184-198 | a sample is the vehicle's, stamped with the clock after the rest check, at the interpolated position plus the noise, with the vehicle's km/h velocity times the speed factor |
| MockTrackGenerator.FinalRecord | py/trackmarks/mock/mockTrackGenerator.py:206-214 | the closing record is the vehicle stopped (velocity 0) at the route's last node, stamped with the clock as the loop left it |
| MockTrackGenerator.IsTrajectory | py/trackmarks/mock/mockTrackGenerator.py:141-214 | the loop's output: one sample per step below the total, then the closing record; every trajectory ends with the vehicle stopped at the route's last node |
| MockTrackGenerator.TrajectorySample | py/trackmarks/mock/mockTrackGenerator.py:149-198 | every record but the last is the sample of its step, taken while the distance was below the total |
| MockTrackGenerator.ExtendSamples | py/trackmarks/mock/mockTrackGenerator.py:149-204 | a step taken below the total appends its sample to the samples so far |
| MockTrackGenerator.CloseTrajectory | py/trackmarks/mock/mockTrackGenerator.py:206-214 | once the total is reached, the samples followed by the destination record form the trajectory |
| MockTrackGenerator.TrajectoryIsDetermined | py/trackmarks/mock/mockTrackGenerator.py:136-216 | the draws fix the trajectory: two record lists that both fit are equal |
| MockTrackGenerator.TrajectoryClock | py/trackmarks/mock/mockTrackGenerator.py:149-212 | consecutive samples are one interval apart plus the rest duration (in seconds) when the travel time had reached the maximum; the closing record comes one interval after the last sample |
| MockTrackGenerator.RecordTime | py/trackmarks/mock/mockTrackGenerator.py:151-212 | a sample is stamped with the clock after the rest check, the closing record with the clock as the loop left it |
| MockTrackGenerator.TimestampsIncrease | py/trackmarks/mock/mockTrackGenerator.py:149-212 | with a positive interval and a non-negative rest, timestamps strictly increase |
| MockTrackGenerator.TrajectoryVelocities | py/trackmarks/mock/mockTrackGenerator.py:189-213 | every record carries the vehicle's id; a sample's km/h velocity is the vehicle's velocity times its speed factor; the closing record's velocity is 0 |
| MockTrackGenerator.SampleOnRoute | py/trackmarks/mock/mockTrackGenerator.py:157-196 | each sample minus its noise is the first node or lies between the two nodes whose table entries bracket the step's distance |
| MockTrackGenerator.KilometresPerHourRoundTrip | py/trackmarks/mock/mockTrackGenerator.py:143-197 | converting km/h to m/s, scaling by the speed factor and converting back only scales the velocity |
| MockTrackGenerator.VehicleTrip | py/trackmarks/mock/mockTrackGenerator.py:92-99 | vehicle i's parameters carry its id and drawn velocity; its departure is a whole number of minutes after the base time, and at most 30 minutes after it for a stagger drawn by `randint(0, 30)` |
| MockTrackGenerator.VehicleTrajectoryGenerator.constructor | py/trackmarks/mock/mockTrackGenerator.py:14-28 | the generator holds the given road graph |
| MockTrackGenerator.VehicleTrajectoryGenerator.FromSource | py/trackmarks/mock/mockTrackGenerator.py:14-28 | no generator exactly when both arguments are None; otherwise the given graph, or else the graph downloaded for the place |
| MockTrackGenerator.VehicleTrajectoryGenerator.CalculatePathDistances | py/trackmarks/mock/mockTrackGenerator.py:128-134 | the appending loop builds exactly the cumulative distance table |
| MockTrackGenerator.VehicleTrajectoryGenerator.InterpolatePosition | py/trackmarks/mock/mockTrackGenerator.py:157-182 | the searched, clamped and interpolated position is the route position at that distance |
| MockTrackGenerator.VehicleTrajectoryGenerator.SampleStep | py/trackmarks/mock/mockTrackGenerator.py:150-204 | one loop body: the record is the sample at the state after the rest check, and the new state is that state advanced by one interval |
| MockTrackGenerator.VehicleTrajectoryGenerator.GenerateSingleTrajectory | py/trackmarks/mock/mockTrackGenerator.py:136-216 | the loop terminates and its records are the trajectory of the draws: samples while below the total, then the destination record |
| MockTrackGenerator.VehicleTrajectoryGenerator.GenerateTrajectories | py/trackmarks/mock/mockTrackGenerator.py:76-115 | no path gives none; no vehicle makes the concatenation fail; otherwise vehicle i + 1's track is the trajectory of its own velocity, staggered departure and draws along the cumulative table |

## Left out

- Downloads (`graph_from_place`, `graph_from_bbox`, `graph_from_point`), nearest-node lookups and `nx.shortest_path` are library calls. The graph, the end nodes and the route (or no route) are inputs.
- `plot_shortest_path`, every `print`, the example `__main__` blocks and the CSV export are output only.
- The projected graph `G_proj` is built by a library call and never read afterwards.
- The `TrajDataFrame` built from `pd.concat` is left out. The model returns the list of per-vehicle record lists in vehicle order. Concatenating an empty list raises, which is `NothingToConcatenate`.
- `datetime.strptime` parsing is left out. Departure times are seconds, and `timedelta` arithmetic is integer arithmetic on seconds.
- Randomness is left out. `random.uniform`, `random.randint` and `random.gauss` become input draws. Only the ranges that `uniform` and `randint` guarantee are assumed.
- Floating-point rounding is left out. Every `float` is a real.
- The projection library and the planar geometry library (transforms, centroid, buffer, scale, rotate) are opaque function parameters. Their numerics and the orientation convention of the rotation (degrees, counter-clockwise) are not modelled.
- The unit registry is reduced to metres and nautical miles, the units the core uses.
- Polygons are exterior rings. Holes and multi-part geometries are not used by the core.
- `Spatial.Crs` names only the three frames the core can produce.
  - The fallback is requested as EPSG code 54032. That frame is catalogued as ESRI:54032, not as an EPSG code. Whether the projection library accepts the request is not modelled.
  - The UTM proj string names no hemisphere, so a zone number alone identifies the frame.
- `Spatial.IsWithinCrsBounds` models `_is_geometry_within_crs_bounds` on a point. In the source it lacks `self`, so calling it through an instance would fail. It is never called.
- `Spatial.UtmEllipse` takes the semi-axes as quantities with units. The source annotates them as floats but calls `.to(meter)` on them.
- The ellipse's `resolution` is a natural number. The source annotates it as a float, but buffer resolutions are whole segment counts.
- `Spatial.Ellipse.GetEllipse` compares the cache with `None` by value. The source uses `is None`, which is the same test for an optional polygon.
- `trackable.py`, `store.py`, `track.py` and `lazy.py` are not part of this model.
- `MockTrackGenerator.VehicleTrajectoryGenerator.GenerateSingleTrajectory` requires a positive velocity and a positive sampling interval.
  - The source demands neither. With a velocity of 0 its loop never ends, and a Dafny method must terminate.
  - Speed factors are required to lie in [0.7, 1.3], the range `random.uniform(0.7, 1.3)` draws from.
- `MockTrackGenerator.VehicleTrajectoryGenerator.GenerateTrajectories` requires a positive sampling interval. It also requires each vehicle's velocity to be positive and to lie between the minimum and the maximum, which holds for the default 20 to 60 km/h.
- `MockTrackGenerator.VehicleTrajectoryGenerator.GenerateTrajectories` takes a route with at least one node. `nx.shortest_path` always returns one, since a path includes its source.
- `MockTrackGenerator.VehicleTrajectoryGenerator.SampleStep` and `InterpolatePosition` are the body of the one sampling loop of `_generate_single_trajectory`, split into two methods. The source has no such methods.
- The total-distance and rest messages are printed output and are not modelled.
- The UTM zone formula truncates toward zero, as Python's `int()` does. Truncation and floor differ for longitudes below -180; the model follows `int()`. For longitude 180 the formula gives zone 61, which is outside the UTM range; the model keeps that value (see `Spatial.UtmZoneEdges`).
- `RoadGraph.IsRoute` requires an edge with key 0 between each pair of consecutive route nodes. Both mock files read `G[u][v][0]`, which raises KeyError when a pair is joined only by edges with other keys, as a graph passed as `graph=` may be. That KeyError is not modelled.
- Rest durations are whole minutes (`TripParams.restDuration` is an `int`). `timedelta(minutes=rest_duration)` also accepts fractional minutes, which are not modelled.
- `MockTrackGenerator.SearchSortedLeft` returns the first index whose entry is at least the distance. `np.searchsorted` is a binary search, and the two agree only on sorted tables. The table is sorted when edge lengths are non-negative (`CumulativeDistancesSorted`); for a route with a negative edge length numpy's index is not modelled.
