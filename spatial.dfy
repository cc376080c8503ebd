/**
 * The optimal local reprojection policy and the ellipse construction built on it
 * (trackmarks/core/spatial.py).
 *
 * Coordinates are reals. The projection library (coordinate transforms) and the
 * planar geometry library (centroid, buffer, scale, rotate) are foreign code: they
 * are the function fields of a `GeoOps` value, and every property below is stated
 * relative to them.
 */
module Spatial {
  import opened Wrappers

  const DEFAULT_ELLIPSE_RESOLUTION: nat := 8
  const DEFAULT_ELLIPSE_ORIENTATION: real := 0.0
  /** The frame a reprojector takes its input in unless told otherwise: EPSG:4326. */
  const DEFAULT_EPSG_CRS: Crs := Geographic4326

  // ---------------------------------------------------------------------------
  // Distances with a unit of length
  // ---------------------------------------------------------------------------

  datatype LengthUnit = Meter | NauticalMile

  /** Length of one unit in metres; one nautical mile is exactly 1852 m. */
  function MetersPerUnit(u: LengthUnit): (m: real)
    ensures m > 0.0
    ensures u == Meter ==> m == 1.0
    ensures u == NauticalMile ==> m == 1852.0
  {
    match u
    case Meter => 1.0
    case NauticalMile => 1852.0
  }

  /** A magnitude tagged with its unit (a unit-registry quantity). */
  datatype Distance = Distance(magnitude: real, unit: LengthUnit)

  /** `d.to(u)`: the same physical length expressed in unit `u`. */
  function ConvertTo(d: Distance, u: LengthUnit): (r: Distance)
    ensures r.unit == u
    ensures r.magnitude * MetersPerUnit(u) == d.magnitude * MetersPerUnit(d.unit)
  {
    Distance(d.magnitude * MetersPerUnit(d.unit) / MetersPerUnit(u), u)
  }

  /** `d.to(meter).magnitude`. */
  function Meters(d: Distance): real {
    ConvertTo(d, Meter).magnitude
  }

  /** Converting to another unit and back gives the original quantity. */
  lemma ConvertRoundTrip(d: Distance, u: LengthUnit)
    ensures ConvertTo(ConvertTo(d, u), d.unit) == d
  {
    var m := ConvertTo(d, u);
    var back := ConvertTo(m, d.unit);
    assert back.magnitude * MetersPerUnit(d.unit) == d.magnitude * MetersPerUnit(d.unit);
  }

  // ---------------------------------------------------------------------------
  // Reference frames and geometry
  // ---------------------------------------------------------------------------

  /**
   * The frames the policy can name: WGS84 geographic (EPSG:4326), a WGS84 UTM zone
   * (built from a proj string that names the zone and no hemisphere), and the
   * World Azimuthal Equidistant fallback requested as code 54032.
   */
  datatype Crs = Geographic4326 | Utm(zone: int) | Epsg54032

  /** A coordinate pair in (x, y) order: (longitude, latitude) in a geographic frame. */
  datatype Coord = Coord(x: real, y: real)

  /** The geometry variants used by the core: a point, or a polygon's exterior ring. */
  datatype Geometry = Point(at: Coord) | Polygon(shell: seq<Coord>)

  /**
   * The foreign operations: a coordinate transform between two frames (in
   * always-xy order), a geometry's centroid, `buffer(distance, resolution)`,
   * `affinity.scale(g, xfact, yfact)` and `affinity.rotate(g, degrees)`.
   */
  datatype GeoOps = GeoOps(
    project: (Crs, Crs, Coord) -> Coord,
    centroid: Geometry -> Coord,
    buffer: (Geometry, real, nat) -> Geometry,
    scale: (Geometry, real, real) -> Geometry,
    rotate: (Geometry, real) -> Geometry)

  // ---------------------------------------------------------------------------
  // CRS resolver
  // ---------------------------------------------------------------------------

  /** Python's `int(r)` on a float: truncation toward zero. */
  function TruncateToInt(r: real): (i: int)
    ensures 0.0 <= r ==> i as real <= r < i as real + 1.0
    ensures r < 0.0 ==> i as real - 1.0 < r <= i as real
  {
    if r >= 0.0 then r.Floor else -((-r).Floor)
  }

  /**
   * The zone number written into the UTM proj string, `int((lon + 180) / 6) + 1`,
   * unclamped: from -180 on, the longitude lies in the zone's 6-degree strip.
   */
  function UtmZone(lon: real): (z: int)
    ensures -180.0 <= lon ==> -180.0 + 6.0 * (z - 1) as real <= lon < -180.0 + 6.0 * z as real
  {
    var q := (lon + 180.0) / 6.0;
    assert lon == 6.0 * q - 180.0;
    TruncateToInt(q) + 1
  }

  /** East of the antimeridian at -180, zone z covers exactly the 6-degree strip [-180 + 6(z-1), -180 + 6z). */
  lemma UtmZoneStrip(lon: real, z: int)
    requires -180.0 <= lon
    ensures UtmZone(lon) == z <==> -180.0 + 6.0 * (z - 1) as real <= lon < -180.0 + 6.0 * z as real
  {
    var q := (lon + 180.0) / 6.0;
    var t := TruncateToInt(q);
    assert 0.0 <= q;
    assert t as real <= q < t as real + 1.0;
    assert lon == 6.0 * q - 180.0;
    if -180.0 + 6.0 * (z - 1) as real <= lon < -180.0 + 6.0 * z as real {
      assert (z - 1) as real <= q < z as real;
    }
  }

  /** Longitudes in [-180, 180) get zones 1..60. */
  lemma UtmZoneRange(lon: real)
    requires -180.0 <= lon < 180.0
    ensures 1 <= UtmZone(lon) <= 60
  {
    UtmZoneStrip(lon, UtmZone(lon));
  }

  /**
   * Zone numbers at the edges: -180 gives 1, 179.9 gives 60, 180 gives 61 (no
   * clamping), and just west of -180 truncation toward zero still gives 1.
   */
  lemma UtmZoneEdges()
    ensures UtmZone(-180.0) == 1
    ensures UtmZone(179.9) == 60
    ensures UtmZone(180.0) == 61
    ensures UtmZone(-183.0) == 1
  {
    UtmZoneStrip(179.9, 60);
    assert TruncateToInt(-0.5) == 0;
  }

  /**
   * `_determine_optimal_crs`: a UTM zone inside the band -80 < lat < 84 (both
   * bounds strict), the azimuthal equidistant fallback outside it.
   */
  function OptimalCrs(p: Coord): (c: Crs)
    ensures c != Geographic4326
    ensures c.Utm? <==> -80.0 < p.y < 84.0
    ensures c.Utm? ==> c.zone == UtmZone(p.x)
    ensures !c.Utm? ==> c == Epsg54032
  {
    if -80.0 < p.y < 84.0 then Utm(UtmZone(p.x)) else Epsg54032
  }

  /** Outside the band the longitude plays no part in the choice. */
  lemma OptimalCrsPolarIgnoresLongitude(p: Coord, lon: real)
    requires p.y <= -80.0 || 84.0 <= p.y
    ensures OptimalCrs(p) == OptimalCrs(Coord(lon, p.y)) == Epsg54032
  {
  }

  /** Inside the band, a point east of -180 resolves to UTM zone z exactly when it lies in z's strip. */
  lemma OptimalCrsIsZoneOfStrip(p: Coord, z: int)
    requires -80.0 < p.y < 84.0 && -180.0 <= p.x
    ensures OptimalCrs(p) == Utm(z) <==> -180.0 + 6.0 * (z - 1) as real <= p.x < -180.0 + 6.0 * z as real
  {
    UtmZoneStrip(p.x, z);
  }

  /** The test fixture's centroid (-84.39, 33.75), near Atlanta, resolves to UTM zone 16. */
  lemma OptimalCrsAtlanta()
    ensures OptimalCrs(Coord(-84.39, 33.75)) == Utm(16)
  {
    UtmZoneStrip(-84.39, 16);
  }

  /** The area of use of a frame: (west, south, east, north), i.e. (min lon, min lat, max lon, max lat). */
  datatype AreaOfUse = AreaOfUse(west: real, south: real, east: real, north: real)

  /** `_is_geometry_within_crs_bounds` on a point: every bound inclusive. */
  function IsWithinCrsBounds(p: Coord, area: AreaOfUse): (within: bool)
    ensures within ==> area.west <= area.east && area.south <= area.north
  {
    area.west <= p.x <= area.east && area.south <= p.y <= area.north
  }

  /** The bounds are inclusive: all four corners of the area are within it. */
  lemma CornersWithinCrsBounds(area: AreaOfUse)
    requires area.west <= area.east && area.south <= area.north
    ensures IsWithinCrsBounds(Coord(area.west, area.south), area)
    ensures IsWithinCrsBounds(Coord(area.east, area.north), area)
    ensures IsWithinCrsBounds(Coord(area.west, area.north), area)
    ensures IsWithinCrsBounds(Coord(area.east, area.south), area)
  {
  }

  /** An area whose west bound lies east of its east bound (one crossing the antimeridian) contains no point. */
  lemma AntimeridianAreaContainsNothing(area: AreaOfUse, p: Coord)
    requires area.west > area.east
    ensures !IsWithinCrsBounds(p, area)
  {
  }

  // ---------------------------------------------------------------------------
  // Transformer pair builder and reprojection pipeline
  // ---------------------------------------------------------------------------

  /** A coordinate transformer from `source` to `target`; `alwaysXy` fixes the (x, y) axis order. */
  datatype Transformer = Transformer(source: Crs, target: Crs, alwaysXy: bool)

  datatype TransformerPair = TransformerPair(forward: Transformer, inverse: Transformer)

  /** Unpacking an absent transformer pair raises a TypeError. */
  datatype ReprojectionError = NoTransformerPair

  /** `shapely.ops.transform(t.transform, g)`: every vertex mapped, the shape kept. */
  function TransformGeometry(ops: GeoOps, t: Transformer, g: Geometry): (r: Geometry)
    ensures r.Point? <==> g.Point?
    ensures g.Point? ==> r.at == ops.project(t.source, t.target, g.at)
    ensures g.Polygon? ==> |r.shell| == |g.shell|
    ensures g.Polygon? ==> forall i :: 0 <= i < |g.shell| ==> r.shell[i] == ops.project(t.source, t.target, g.shell[i])
  {
    match g
    case Point(c) => Point(ops.project(t.source, t.target, c))
    case Polygon(s) => Polygon(seq(|s|, i requires 0 <= i < |s| => ops.project(t.source, t.target, s[i])))
  }

  /** When the two transforms undo each other on every coordinate, so do the geometry transforms. */
  lemma TransformGeometryRoundTrip(ops: GeoOps, a: Crs, b: Crs, g: Geometry)
    requires forall c :: ops.project(b, a, ops.project(a, b, c)) == c
    ensures TransformGeometry(ops, Transformer(b, a, true), TransformGeometry(ops, Transformer(a, b, true), g)) == g
  {
    var there := TransformGeometry(ops, Transformer(a, b, true), g);
    var back := TransformGeometry(ops, Transformer(b, a, true), there);
    match g
    case Point(c) =>
    case Polygon(s) =>
      assert back.shell == s;
  }

  /** The anchor used to pick a frame: a point itself, any other geometry's centroid. */
  function Anchor(ops: GeoOps, g: Geometry): Coord {
    if g.Point? then g.at else ops.centroid(g)
  }

  /**
   * A point anchors at itself: the centroid operation is consulted only for other
   * geometries, so a point's frame does not depend on it.
   */
  lemma PointAnchorSkipsCentroid(ops: GeoOps, p: Coord, centroid: Geometry -> Coord)
    ensures Anchor(ops, Point(p)) == Anchor(ops.(centroid := centroid), Point(p)) == p
  {
  }

  /**
   * `get_optimal_transformers`: none when the anchor's optimal frame equals the
   * input frame, otherwise the input-to-optimal and optimal-to-input transformers,
   * both in always-xy order.
   */
  function GetOptimalTransformers(inputCrs: Crs, g: Geometry, ops: GeoOps): (r: Option<TransformerPair>)
    ensures r.None? <==> OptimalCrs(Anchor(ops, g)) == inputCrs
    ensures r.Some? ==> r.value.forward == Transformer(inputCrs, OptimalCrs(Anchor(ops, g)), true)
    ensures r.Some? ==> r.value.inverse == Transformer(OptimalCrs(Anchor(ops, g)), inputCrs, true)
  {
    var optimal := OptimalCrs(Anchor(ops, g));
    if optimal == inputCrs then None
    else Some(TransformerPair(Transformer(inputCrs, optimal, true), Transformer(optimal, inputCrs, true)))
  }

  /**
   * A pair, when there is one, leads away from the input frame to a different frame and
   * straight back, with the axis order fixed both ways.
   */
  lemma TransformerPairIsReversed(inputCrs: Crs, g: Geometry, ops: GeoOps)
    requires GetOptimalTransformers(inputCrs, g, ops).Some?
    ensures var pair := GetOptimalTransformers(inputCrs, g, ops).value;
      && pair.forward.source == pair.inverse.target == inputCrs
      && pair.forward.target == pair.inverse.source != inputCrs
      && pair.forward.alwaysXy && pair.inverse.alwaysXy
  {
  }

  /** From the default input frame EPSG:4326 there is always a pair, since the resolver never picks 4326. */
  lemma TransformersFromWgs84(g: Geometry, ops: GeoOps)
    ensures GetOptimalTransformers(Geographic4326, g, ops).Some?
  {
  }

  /** A reprojector whose input frame is the polar fallback gets no pair for a polar point. */
  lemma PolarInputShortCircuits(p: Coord, ops: GeoOps)
    requires p.y >= 84.0 || p.y <= -80.0
    ensures GetOptimalTransformers(Epsg54032, Point(p), ops).None?
  {
  }

  /**
   * `apply_geometry`: inverse(func(forward(g))). The pair is unpacked unconditionally,
   * so an absent pair is an error.
   */
  function ApplyGeometry(inputCrs: Crs, g: Geometry, func: Geometry -> Geometry, ops: GeoOps): (r: Result<Geometry, ReprojectionError>)
    ensures r.Failure? <==> OptimalCrs(Anchor(ops, g)) == inputCrs
    ensures r.Success? ==>
      var optimal := OptimalCrs(Anchor(ops, g));
      r.value == TransformGeometry(ops, Transformer(optimal, inputCrs, true), func(TransformGeometry(ops, Transformer(inputCrs, optimal, true), g)))
  {
    match GetOptimalTransformers(inputCrs, g, ops)
    case None => Failure(NoTransformerPair)
    case Some(pair) => Success(TransformGeometry(ops, pair.inverse, func(TransformGeometry(ops, pair.forward, g))))
  }

  /** With input frame EPSG:4326 the pipeline never fails. */
  lemma ApplyGeometryFromWgs84Succeeds(g: Geometry, func: Geometry -> Geometry, ops: GeoOps)
    ensures ApplyGeometry(Geographic4326, g, func, ops).Success?
  {
  }

  /**
   * Applying an operation that changes nothing gives back the input geometry,
   * whenever the inverse transform exactly undoes the forward one.
   */
  lemma ApplyGeometryIdentity(inputCrs: Crs, g: Geometry, ops: GeoOps)
    requires OptimalCrs(Anchor(ops, g)) != inputCrs
    requires forall c :: ops.project(OptimalCrs(Anchor(ops, g)), inputCrs, ops.project(inputCrs, OptimalCrs(Anchor(ops, g)), c)) == c
    ensures ApplyGeometry(inputCrs, g, x => x, ops) == Success(g)
  {
    TransformGeometryRoundTrip(ops, inputCrs, OptimalCrs(Anchor(ops, g)), g);
  }

  /** A table whose `geometry` column is a sequence and whose other columns are kept by name. */
  class GeoDataFrame<V> {
    var geometry: seq<Geometry>
    var columns: map<string, seq<V>>

    /** Every column has one entry per row. */
    ghost predicate Valid()
      reads this
    {
      forall name :: name in columns ==> |columns[name]| == |geometry|
    }

    constructor (geometry: seq<Geometry>, columns: map<string, seq<V>>)
      requires forall name :: name in columns ==> |columns[name]| == |geometry|
      ensures Valid()
      ensures this.geometry == geometry && this.columns == columns
    {
      this.geometry := geometry;
      this.columns := columns;
    }
  }

  /**
   * `apply_geodataframe`: builds the new geometry column row by row and assigns it in
   * place, returning the same frame. A failing row raises before the assignment, so
   * the frame is then left as it was.
   */
  method ApplyGeoDataFrame<V>(inputCrs: Crs, gdf: GeoDataFrame<V>, func: Geometry -> Geometry, ops: GeoOps)
    returns (r: Result<GeoDataFrame<V>, ReprojectionError>)
    requires gdf.Valid()
    modifies gdf
    ensures gdf.Valid()
    ensures gdf.columns == old(gdf.columns)
    ensures r.Success? <==> forall i :: 0 <= i < |old(gdf.geometry)| ==> ApplyGeometry(inputCrs, old(gdf.geometry)[i], func, ops).Success?
    ensures r.Success? ==> r.value == gdf && |gdf.geometry| == |old(gdf.geometry)|
    ensures r.Success? ==> forall i :: 0 <= i < |gdf.geometry| ==> Success(gdf.geometry[i]) == ApplyGeometry(inputCrs, old(gdf.geometry)[i], func, ops)
    ensures r.Failure? ==> gdf.geometry == old(gdf.geometry)
  {
    var column: seq<Geometry> := [];
    var i := 0;
    while i < |gdf.geometry|
      invariant 0 <= i <= |gdf.geometry|
      invariant gdf.geometry == old(gdf.geometry) && gdf.columns == old(gdf.columns)
      invariant |column| == i
      invariant forall j :: 0 <= j < i ==> Success(column[j]) == ApplyGeometry(inputCrs, gdf.geometry[j], func, ops)
    {
      var row := ApplyGeometry(inputCrs, gdf.geometry[i], func, ops);
      if row.Failure? {
        return Failure(row.error);
      }
      column := column + [row.value];
      i := i + 1;
    }
    gdf.geometry := column;
    r := Success(gdf);
  }

  // ---------------------------------------------------------------------------
  // Ellipse construction
  // ---------------------------------------------------------------------------

  /**
   * `_generate_utm_ellipse`: a unit-radius buffer around the projected centroid,
   * scaled by the semi-axes in metres (x by the major, y by the minor), rotated
   * only when the orientation is not 0.0.
   */
  function UtmEllipse(ops: GeoOps, centroid: Geometry, semiMajor: Distance, semiMinor: Distance,
                      orientation: real, resolution: nat): (e: Geometry)
    ensures var scaled := ops.scale(ops.buffer(centroid, 1.0, resolution),
                                    semiMajor.magnitude * MetersPerUnit(semiMajor.unit),
                                    semiMinor.magnitude * MetersPerUnit(semiMinor.unit));
      e == if orientation != 0.0 then ops.rotate(scaled, orientation) else scaled
  {
    var majorMeters := Meters(semiMajor);
    var minorMeters := Meters(semiMinor);
    var ellipse := ops.scale(ops.buffer(centroid, 1.0, resolution), majorMeters, minorMeters);
    if orientation == DEFAULT_ELLIPSE_ORIENTATION then ellipse else ops.rotate(ellipse, orientation)
  }

  /** Skipping the rotation at orientation 0.0 is sound whenever rotating by 0 changes nothing. */
  lemma UtmEllipseZeroRotationShortcut(ops: GeoOps, c: Geometry, semiMajor: Distance, semiMinor: Distance,
                                       orientation: real, resolution: nat)
    requires forall g :: ops.rotate(g, 0.0) == g
    ensures UtmEllipse(ops, c, semiMajor, semiMinor, orientation, resolution)
      == ops.rotate(ops.scale(ops.buffer(c, 1.0, resolution), Meters(semiMajor), Meters(semiMinor)), orientation)
  {
  }

  /** The test fixture (2 nm by 1 nm, orientation 10, resolution 8) scales by 3704 m and 1852 m and rotates by 10. */
  lemma UtmEllipseFixture(ops: GeoOps, c: Geometry)
    ensures UtmEllipse(ops, c, Distance(2.0, NauticalMile), Distance(1.0, NauticalMile), 10.0, 8)
      == ops.rotate(ops.scale(ops.buffer(c, 1.0, 8), 3704.0, 1852.0), 10.0)
  {
  }

  /**
   * The polygon `generate_ellipse` computes: the ellipse is built around the centroid
   * projected into the centroid's optimal frame, and mapped back to EPSG:4326.
   */
  function EllipsePolygon(ops: GeoOps, centroid: Coord, semiMajor: Distance, semiMinor: Distance,
                          orientation: real, resolution: nat): (e: Geometry)
    ensures var local := OptimalCrs(centroid);
      e == TransformGeometry(ops, Transformer(local, Geographic4326, true),
                             UtmEllipse(ops, Point(ops.project(Geographic4326, local, centroid)),
                                        semiMajor, semiMinor, orientation, resolution))
  {
    ApplyGeometryFromWgs84Succeeds(Point(centroid), g => UtmEllipse(ops, g, semiMajor, semiMinor, orientation, resolution), ops);
    ApplyGeometry(DEFAULT_EPSG_CRS, Point(centroid),
                  g => UtmEllipse(ops, g, semiMajor, semiMinor, orientation, resolution), ops).value
  }

  /** An uncertainty ellipse with its lazily computed polygon (`_ellipse`). */
  class Ellipse {
    var centroid: Coord
    var semiMajor: Distance
    var semiMinor: Distance
    var orientation: real
    var cached: Option<Geometry>

    constructor (centroid: Coord, semiMajor: Distance, semiMinor: Distance, orientation: real)
      ensures this.centroid == centroid && this.semiMajor == semiMajor
      ensures this.semiMinor == semiMinor && this.orientation == orientation
      ensures cached == None
    {
      this.centroid := centroid;
      this.semiMajor := semiMajor;
      this.semiMinor := semiMinor;
      this.orientation := orientation;
      cached := None;
    }

    /** `generate_ellipse`: always a fresh polygon; stored only when `cache` is set. */
    method GenerateEllipse(ops: GeoOps, resolution: nat, cache: bool) returns (e: Geometry)
      modifies this`cached
      ensures e == EllipsePolygon(ops, centroid, semiMajor, semiMinor, orientation, resolution)
      ensures cached == if cache then Some(e) else old(cached)
    {
      e := EllipsePolygon(ops, centroid, semiMajor, semiMinor, orientation, resolution);
      if cache {
        cached := Some(e);
      }
    }

    /** The `ellipse` property: fills an empty cache at the default resolution, then returns the cached polygon. */
    method GetEllipse(ops: GeoOps) returns (e: Geometry)
      modifies this`cached
      ensures old(cached).Some? ==> e == old(cached).value
      ensures old(cached).None? ==> e == EllipsePolygon(ops, centroid, semiMajor, semiMinor, orientation, DEFAULT_ELLIPSE_RESOLUTION)
      ensures cached == Some(e)
    {
      if cached.None? {
        var _ := GenerateEllipse(ops, DEFAULT_ELLIPSE_RESOLUTION, true);
      }
      e := cached.value;
    }
  }

  /**
   * The cache's life cycle on a new ellipse: two reads agree, a regeneration with
   * `cache` unset leaves the cached polygon in place, and one with `cache` set
   * replaces it with the regenerated polygon.
   */
  method LazyCacheLifecycle(ops: GeoOps, centroid: Coord, semiMajor: Distance, semiMinor: Distance,
                            orientation: real, resolution: nat)
    returns (first: Geometry, second: Geometry, transient: Geometry, third: Geometry,
             persisted: Geometry, fourth: Geometry)
    ensures first == EllipsePolygon(ops, centroid, semiMajor, semiMinor, orientation, DEFAULT_ELLIPSE_RESOLUTION)
    ensures second == first && third == first
    ensures transient == EllipsePolygon(ops, centroid, semiMajor, semiMinor, orientation, resolution)
    ensures persisted == transient && fourth == persisted
  {
    var ellipse := new Ellipse(centroid, semiMajor, semiMinor, orientation);
    first := ellipse.GetEllipse(ops);
    second := ellipse.GetEllipse(ops);
    transient := ellipse.GenerateEllipse(ops, resolution, false);
    third := ellipse.GetEllipse(ops);
    persisted := ellipse.GenerateEllipse(ops, resolution, true);
    fourth := ellipse.GetEllipse(ops);
  }
}
