/**
 * Mock vehicle trajectories along a road route (trackmarks/mock/mockTrackGenerator.py):
 * the cumulative-distance table of a route, the per-vehicle sampling loop and the
 * loop over vehicles. Random draws are inputs, times are whole seconds, and the
 * route (found by a library shortest-path search) is an input.
 */
module MockTrackGenerator {
  import opened Wrappers
  import opened RoadGraph

  // ---------------------------------------------------------------------------
  // Choice of road network
  // ---------------------------------------------------------------------------

  datatype NetworkSource = GivenGraph(graph: Graph) | PlaceDownload(name: string)

  /** The ValueError raised when neither a graph nor a place name is given. */
  datatype GeneratorError = MissingNetwork

  /**
   * The constructor's choice: a given graph first, then a place name to download;
   * both are tested against None only, so an empty place name still counts.
   */
  function SelectNetwork(placeName: Option<string>, graph: Option<Graph>): (r: Result<NetworkSource, GeneratorError>)
    ensures r.Failure? <==> placeName.None? && graph.None?
    ensures graph.Some? ==> r == Success(GivenGraph(graph.value))
    ensures graph.None? && placeName.Some? ==> r == Success(PlaceDownload(placeName.value))
  {
    if graph.Some? then Success(GivenGraph(graph.value))
    else if placeName.Some? then Success(PlaceDownload(placeName.value))
    else Failure(MissingNetwork)
  }

  // ---------------------------------------------------------------------------
  // Cumulative distances
  // ---------------------------------------------------------------------------

  /**
   * The cumulative distance table of a path: 0 at the first node, then each entry the
   * previous one plus the key-0 edge length to the next node. An empty path still
   * yields the single entry 0.
   */
  function CumulativeDistances(g: Graph, path: seq<NodeId>): (d: seq<real>)
    requires IsRoute(g, path)
    ensures |d| == if |path| == 0 then 1 else |path|
    decreases |path|
  {
    if |path| <= 1 then [0.0]
    else
      RoutePrefix(g, path, |path| - 1);
      var front := CumulativeDistances(g, path[..|path| - 1]);
      front + [front[|front| - 1] + EdgeLength(g, path[|path| - 2], path[|path| - 1])]
  }

  /** The table starts at 0 and each entry adds the next edge's length to the one before. */
  lemma {:induction false} CumulativeDistancesStep(g: Graph, path: seq<NodeId>)
    requires IsRoute(g, path)
    ensures CumulativeDistances(g, path)[0] == 0.0
    ensures forall i :: 0 <= i < |path| - 1 ==>
      CumulativeDistances(g, path)[i + 1] == CumulativeDistances(g, path)[i] + EdgeLength(g, path[i], path[i + 1])
  {
    if |path| > 1 {
      var n := |path|;
      var shorter := path[..n - 1];
      RoutePrefix(g, path, n - 1);
      CumulativeDistancesStep(g, shorter);
      var d := CumulativeDistances(g, path);
      var front := CumulativeDistances(g, shorter);
      assert d == front + [front[n - 2] + EdgeLength(g, path[n - 2], path[n - 1])];
      forall i | 0 <= i < n - 1
        ensures d[i + 1] == d[i] + EdgeLength(g, path[i], path[i + 1])
      {
        if i < n - 2 {
          assert shorter[i] == path[i] && shorter[i + 1] == path[i + 1];
        }
      }
    }
  }

  /** The last entry is the route's total length. */
  lemma {:induction false} CumulativeDistancesLast(g: Graph, path: seq<NodeId>)
    requires IsRoute(g, path)
    ensures var d := CumulativeDistances(g, path); d[|d| - 1] == PathLength(g, path)
  {
    if |path| > 1 {
      RoutePrefix(g, path, |path| - 1);
      CumulativeDistancesLast(g, path[..|path| - 1]);
    }
  }

  /** With non-negative edge lengths the table is sorted. */
  lemma CumulativeDistancesSorted(g: Graph, path: seq<NodeId>)
    requires IsRoute(g, path) && NonNegativeLengths(g)
    ensures var d := CumulativeDistances(g, path);
      forall i, j :: 0 <= i <= j < |d| ==> d[i] <= d[j]
  {
    var d := CumulativeDistances(g, path);
    CumulativeDistancesStep(g, path);
    forall i | 0 <= i < |d| - 1
      ensures d[i] <= d[i + 1]
    {
      var e := (path[i], path[i + 1]);
      assert g.edges[e][0].length >= 0.0;
    }
    forall i, j | 0 <= i <= j < |d|
      ensures d[i] <= d[j]
    {
      var k := i;
      while k < j
        invariant i <= k <= j
        invariant d[i] <= d[k]
      {
        k := k + 1;
      }
    }
  }

  // ---------------------------------------------------------------------------
  // One vehicle's trajectory
  // ---------------------------------------------------------------------------

  /** The random draws of one sample: GPS noise on both coordinates and the speed factor. */
  datatype SampleDraw = SampleDraw(latNoise: real, lonNoise: real, velocityVariation: real)

  /** One GPS record; `datetime` is in seconds. */
  datatype Record = Record(vehicleId: int, lat: real, lng: real, datetime: int, velocityKmh: real)

  /** The loop's state: distance covered (m), clock (s), and minutes travelled since the last rest. */
  datatype Cursor = Cursor(distance: real, time: int, travelMinutes: real)

  /**
   * A vehicle's parameters: velocity in km/h, departure in seconds, the travel and rest
   * durations in minutes, the sampling interval in seconds.
   */
  datatype TripParams = TripParams(
    vehicleId: int, velocity: real, departure: int,
    maxTravelDuration: real, restDuration: int, sampleInterval: int)

  /**
   * The rest check at the top of each step: once the travel time reaches the maximum,
   * rest and reset. It never moves the vehicle or turns the clock back, and afterwards
   * the travel time is below the maximum unless it was just reset.
   */
  function RestCheck(p: TripParams, c: Cursor): (r: Cursor)
    ensures r.distance == c.distance
    ensures p.restDuration >= 0 ==> c.time <= r.time
    ensures r.travelMinutes < p.maxTravelDuration || r.travelMinutes == 0.0
    ensures c.travelMinutes >= p.maxTravelDuration ==> r == Cursor(c.distance, c.time + p.restDuration * 60, 0.0)
    ensures c.travelMinutes < p.maxTravelDuration ==> r == c
  {
    if c.travelMinutes >= p.maxTravelDuration then Cursor(c.distance, c.time + p.restDuration * 60, 0.0)
    else c
  }

  /** The vehicle's km/h velocity converted to m/s and scaled by a speed factor. */
  function Speed(p: TripParams, variation: real): real {
    p.velocity / 3.6 * variation
  }

  /**
   * The end of a step: the clock moves one sampling interval, the travel time the same
   * interval in minutes, and with a non-negative speed the distance does not shrink.
   */
  function Advance(p: TripParams, c: Cursor, draw: SampleDraw): (r: Cursor)
    ensures r.time - c.time == p.sampleInterval
    ensures (r.travelMinutes - c.travelMinutes) * 60.0 == p.sampleInterval as real
    ensures p.velocity >= 0.0 && draw.velocityVariation >= 0.0 && p.sampleInterval >= 0 ==> c.distance <= r.distance
  {
    var step := Speed(p, draw.velocityVariation) * p.sampleInterval as real;
    assert p.velocity >= 0.0 && draw.velocityVariation >= 0.0 && p.sampleInterval >= 0 ==> step >= 0.0 by {
      if p.velocity >= 0.0 && draw.velocityVariation >= 0.0 && p.sampleInterval >= 0 {
        MulNonNegative(p.velocity / 3.6, draw.velocityVariation);
        MulNonNegative(Speed(p, draw.velocityVariation), p.sampleInterval as real);
      }
    }
    Cursor(c.distance + step,
           c.time + p.sampleInterval,
           c.travelMinutes + p.sampleInterval as real / 60.0)
  }

  /**
   * The state at the top of step k. With a non-negative interval and rest, the clock
   * has run at least k intervals since departure and the travel time is not negative.
   */
  function CursorAt(p: TripParams, draws: nat -> SampleDraw, k: nat): (c: Cursor)
    ensures p.sampleInterval >= 0 && p.restDuration >= 0 ==> p.departure + k * p.sampleInterval <= c.time
    ensures p.sampleInterval >= 0 ==> c.travelMinutes >= 0.0
  {
    if k == 0 then Cursor(0.0, p.departure, 0.0)
    else
      assert (k - 1) * p.sampleInterval + p.sampleInterval == k * p.sampleInterval;
      Advance(p, RestCheck(p, CursorAt(p, draws, k - 1)), draws(k - 1))
  }

  /** `np.searchsorted(a, x)` (left side): the first index whose entry is at least x, or |a|. */
  function SearchSortedLeft(a: seq<real>, x: real): (i: nat)
    ensures i <= |a|
    ensures forall j :: 0 <= j < i ==> a[j] < x
    ensures i < |a| ==> x <= a[i]
  {
    if a == [] || x <= a[0] then 0 else 1 + SearchSortedLeft(a[1..], x)
  }

  /**
   * The interpolation ratio, 0 on a zero-length edge. On an edge of positive length it
   * is the fraction that interpolates back to the distance, and it lies in (0, 1] for a
   * distance past the edge's start and up to its end.
   */
  function Ratio(prev: real, next: real, current: real): (ratio: real)
    ensures next <= prev ==> ratio == 0.0
    ensures next > prev ==> Lerp(prev, next, ratio) == current
    ensures prev < current <= next ==> 0.0 < ratio <= 1.0
  {
    if next > prev then
      var q := (current - prev) / (next - prev);
      assert q * (next - prev) == current - prev;
      assert prev < current <= next ==> 0.0 < q <= 1.0 by {
        if prev < current <= next {
          FractionInUnitInterval(current - prev, next - prev);
        }
      }
      q
    else 0.0
  }

  /** The node index of a distance: the search result clamped to the last node. */
  function NodeIndex(pathDistances: seq<real>, pathLength: nat, current: real): (i: nat)
    requires pathLength >= 1
    ensures i < pathLength
  {
    var i := SearchSortedLeft(pathDistances, current);
    if i >= pathLength then pathLength - 1 else i
  }

  /**
   * The (latitude, longitude) sampled at a distance, before noise: the first node up to
   * the table's first entry, and a point between the two nodes whose entries bracket
   * the distance when they do.
   */
  function Position(g: Graph, path: seq<NodeId>, pathDistances: seq<real>, current: real): (pos: (real, real))
    requires |path| >= 1 && |pathDistances| == |path| && NodesKnown(g, path)
    ensures current <= pathDistances[0] ==> pos == (g.nodes[path[0]].y, g.nodes[path[0]].x)
    ensures var idx := NodeIndex(pathDistances, |path|, current);
      idx > 0 && pathDistances[idx - 1] < current <= pathDistances[idx] ==>
        && Between(g.nodes[path[idx - 1]].y, g.nodes[path[idx]].y, pos.0)
        && Between(g.nodes[path[idx - 1]].x, g.nodes[path[idx]].x, pos.1)
    ensures var idx := NodeIndex(pathDistances, |path|, current);
      idx > 0 && pathDistances[idx - 1] < pathDistances[idx] ==>
        var span := pathDistances[idx] - pathDistances[idx - 1];
        var a, b := g.nodes[path[idx - 1]], g.nodes[path[idx]];
        && (pos.0 - a.y) * span == (current - pathDistances[idx - 1]) * (b.y - a.y)
        && (pos.1 - a.x) * span == (current - pathDistances[idx - 1]) * (b.x - a.x)
  {
    var idx := NodeIndex(pathDistances, |path|, current);
    if idx > 0 && idx < |path| then
      var ratio := Ratio(pathDistances[idx - 1], pathDistances[idx], current);
      var prev := g.nodes[path[idx - 1]];
      var next := g.nodes[path[idx]];
      assert pathDistances[idx - 1] < current <= pathDistances[idx] ==>
        Between(prev.y, next.y, Lerp(prev.y, next.y, ratio)) && Between(prev.x, next.x, Lerp(prev.x, next.x, ratio)) by {
        if pathDistances[idx - 1] < current <= pathDistances[idx] {
          ConvexCombination(prev.y, next.y, ratio);
          ConvexCombination(prev.x, next.x, ratio);
        }
      }
      assert pathDistances[idx - 1] < pathDistances[idx] ==>
        && (Lerp(prev.y, next.y, ratio) - prev.y) * (pathDistances[idx] - pathDistances[idx - 1])
             == (current - pathDistances[idx - 1]) * (next.y - prev.y)
        && (Lerp(prev.x, next.x, ratio) - prev.x) * (pathDistances[idx] - pathDistances[idx - 1])
             == (current - pathDistances[idx - 1]) * (next.x - prev.x) by {
        if pathDistances[idx - 1] < pathDistances[idx] {
          LerpProportional(prev.y, next.y, pathDistances[idx - 1], pathDistances[idx], current);
          LerpProportional(prev.x, next.x, pathDistances[idx - 1], pathDistances[idx], current);
        }
      }
      (Lerp(prev.y, next.y, ratio), Lerp(prev.x, next.x, ratio))
    else
      var node := g.nodes[path[idx]];
      (node.y, node.x)
  }

  /** The point a fraction t of the way from a to b. */
  function Lerp(a: real, b: real, t: real): real {
    a + t * (b - a)
  }

  predicate Between(a: real, b: real, x: real) {
    (a <= x <= b) || (b <= x <= a)
  }

  lemma MulNonNegative(x: real, y: real)
    requires x >= 0.0 && y >= 0.0
    ensures x * y >= 0.0
  {
  }

  /** A fraction whose numerator is positive and at most its denominator lies in (0, 1]. */
  lemma FractionInUnitInterval(x: real, y: real)
    requires 0.0 < x <= y
    ensures 0.0 < x / y <= 1.0
  {
    var q := x / y;
    assert q * y == x;
    if q > 1.0 {
      assert (q - 1.0) * y == q * y - y;
      MulNonNegative(q - 1.0, y);
    }
  }

  /**
   * Interpolating a coordinate by the distance ratio moves it in proportion: its offset
   * from the first node, times the edge length, is the distance travelled along the
   * edge times the coordinate's change across it.
   */
  lemma LerpProportional(a: real, b: real, prev: real, next: real, current: real)
    requires prev < next
    ensures (Lerp(a, b, Ratio(prev, next, current)) - a) * (next - prev) == (current - prev) * (b - a)
  {
    var t := Ratio(prev, next, current);
    assert t * (next - prev) == current - prev;
    calc {
      (Lerp(a, b, t) - a) * (next - prev);
      (t * (b - a)) * (next - prev);
      (t * (next - prev)) * (b - a);
      (current - prev) * (b - a);
    }
  }

  lemma ConvexCombination(a: real, b: real, t: real)
    requires 0.0 <= t <= 1.0
    ensures Between(a, b, Lerp(a, b, t))
  {
    var d := b - a;
    assert d - t * d == (1.0 - t) * d;
    if a <= b {
      MulNonNegative(t, d);
      MulNonNegative(1.0 - t, d);
    } else {
      MulNonNegative(t, -d);
      MulNonNegative(1.0 - t, -d);
    }
  }

  /**
   * Before the route's end the search needs no clamping. At index 0 the sample sits
   * exactly on the first node; past it the distance lies in (prev, next], the ratio
   * in (0, 1], and the sample between the two nodes in both coordinates.
   */
  lemma PositionInterpolates(g: Graph, path: seq<NodeId>, pathDistances: seq<real>, current: real)
    requires |path| >= 1 && |pathDistances| == |path| && NodesKnown(g, path)
    requires current < pathDistances[|pathDistances| - 1]
    ensures var idx := SearchSortedLeft(pathDistances, current);
      && idx < |path|
      && (idx == 0 <==> current <= pathDistances[0])
      && (idx == 0 ==> Position(g, path, pathDistances, current) == (g.nodes[path[0]].y, g.nodes[path[0]].x))
      && (idx > 0 ==>
            var ratio := Ratio(pathDistances[idx - 1], pathDistances[idx], current);
            var pos := Position(g, path, pathDistances, current);
            && pathDistances[idx - 1] < current <= pathDistances[idx]
            && 0.0 < ratio <= 1.0
            && Between(g.nodes[path[idx - 1]].y, g.nodes[path[idx]].y, pos.0)
            && Between(g.nodes[path[idx - 1]].x, g.nodes[path[idx]].x, pos.1))
  {
    var idx := SearchSortedLeft(pathDistances, current);
    if idx > 0 {
      var prevDist := pathDistances[idx - 1];
      var nextDist := pathDistances[idx];
      var ratio := Ratio(prevDist, nextDist, current);
      assert 0.0 < current - prevDist <= nextDist - prevDist;
      FractionInUnitInterval(current - prevDist, nextDist - prevDist);
      var prev := g.nodes[path[idx - 1]];
      var next := g.nodes[path[idx]];
      var pos := Position(g, path, pathDistances, current);
      assert NodeIndex(pathDistances, |path|, current) == idx;
      assert pos.0 == Lerp(prev.y, next.y, ratio);
      assert pos.1 == Lerp(prev.x, next.x, ratio);
      ConvexCombination(prev.y, next.y, ratio);
      ConvexCombination(prev.x, next.x, ratio);
    }
  }

  /**
   * The record of one sample, taken at the state after the rest check: the vehicle's,
   * stamped with the clock, at the interpolated position plus the noise, with the
   * vehicle's km/h velocity scaled by the speed factor.
   */
  function SampleRecord(g: Graph, p: TripParams, path: seq<NodeId>, pathDistances: seq<real>,
                        c: Cursor, draw: SampleDraw): (r: Record)
    requires |path| >= 1 && |pathDistances| == |path| && NodesKnown(g, path)
    ensures r.vehicleId == p.vehicleId && r.datetime == c.time
    ensures (r.lat - draw.latNoise, r.lng - draw.lonNoise) == Position(g, path, pathDistances, c.distance)
    ensures r.velocityKmh == p.velocity * draw.velocityVariation
  {
    var pos := Position(g, path, pathDistances, c.distance);
    KilometresPerHourRoundTrip(p, draw.velocityVariation);
    Record(p.vehicleId, pos.0 + draw.latNoise, pos.1 + draw.lonNoise, c.time, Speed(p, draw.velocityVariation) * 3.6)
  }

  /** The closing record: the vehicle stopped at the route's last node, stamped with the clock. */
  function FinalRecord(g: Graph, p: TripParams, path: seq<NodeId>, c: Cursor): (r: Record)
    requires |path| >= 1 && NodesKnown(g, path)
    ensures r.vehicleId == p.vehicleId && r.datetime == c.time && r.velocityKmh == 0.0
    ensures NodeData(r.lng, r.lat) == g.nodes[path[|path| - 1]]
  {
    var dest := g.nodes[path[|path| - 1]];
    Record(p.vehicleId, dest.y, dest.x, c.time, 0.0)
  }

  /** The samples taken so far: one per step, each while the distance was below the route's total. */
  ghost predicate SamplesFit(g: Graph, p: TripParams, path: seq<NodeId>, pathDistances: seq<real>,
                             draws: nat -> SampleDraw, samples: seq<Record>)
    requires |path| >= 1 && |pathDistances| == |path| && NodesKnown(g, path)
  {
    forall k {:trigger samples[k]} :: 0 <= k < |samples| ==>
      && CursorAt(p, draws, k).distance < pathDistances[|pathDistances| - 1]
      && samples[k] == SampleRecord(g, p, path, pathDistances, RestCheck(p, CursorAt(p, draws, k)), draws(k))
  }

  /**
   * What the sampling loop produces: one sample per step while the distance is below
   * the table's last entry, then the closing record at the first state that reached it,
   * so a trajectory always ends with the vehicle stopped at the route's last node.
   */
  ghost function IsTrajectory(g: Graph, p: TripParams, path: seq<NodeId>, pathDistances: seq<real>,
                              draws: nat -> SampleDraw, records: seq<Record>): (fits: bool)
    requires |path| >= 1 && |pathDistances| == |path| && NodesKnown(g, path)
    ensures fits ==> |records| >= 1 && records[|records| - 1].velocityKmh == 0.0
    ensures fits ==> NodeData(records[|records| - 1].lng, records[|records| - 1].lat) == g.nodes[path[|path| - 1]]
  {
    && |records| >= 1
    && SamplesFit(g, p, path, pathDistances, draws, records[..|records| - 1])
    && CursorAt(p, draws, |records| - 1).distance >= pathDistances[|pathDistances| - 1]
    && records[|records| - 1] == FinalRecord(g, p, path, CursorAt(p, draws, |records| - 1))
  }

  /** Record k of a trajectory, other than the last, is the sample of step k. */
  lemma TrajectorySample(g: Graph, p: TripParams, path: seq<NodeId>, pathDistances: seq<real>,
                         draws: nat -> SampleDraw, records: seq<Record>, k: nat)
    requires |path| >= 1 && |pathDistances| == |path| && NodesKnown(g, path)
    requires IsTrajectory(g, p, path, pathDistances, draws, records)
    requires k < |records| - 1
    ensures CursorAt(p, draws, k).distance < pathDistances[|pathDistances| - 1]
    ensures records[k] == SampleRecord(g, p, path, pathDistances, RestCheck(p, CursorAt(p, draws, k)), draws(k))
  {
    assert records[..|records| - 1][k] == records[k];
  }

  /** A step taken below the total adds its sample. */
  lemma ExtendSamples(g: Graph, p: TripParams, path: seq<NodeId>, pathDistances: seq<real>,
                      draws: nat -> SampleDraw, samples: seq<Record>)
    requires |path| >= 1 && |pathDistances| == |path| && NodesKnown(g, path)
    requires SamplesFit(g, p, path, pathDistances, draws, samples)
    requires CursorAt(p, draws, |samples|).distance < pathDistances[|pathDistances| - 1]
    ensures SamplesFit(g, p, path, pathDistances, draws,
      samples + [SampleRecord(g, p, path, pathDistances, RestCheck(p, CursorAt(p, draws, |samples|)), draws(|samples|))])
  {
    var extended := samples + [SampleRecord(g, p, path, pathDistances, RestCheck(p, CursorAt(p, draws, |samples|)), draws(|samples|))];
    forall k | 0 <= k < |extended|
      ensures CursorAt(p, draws, k).distance < pathDistances[|pathDistances| - 1]
      ensures extended[k] == SampleRecord(g, p, path, pathDistances, RestCheck(p, CursorAt(p, draws, k)), draws(k))
    {
      if k < |samples| {
        assert extended[k] == samples[k];
      }
    }
  }

  /** Once the total is reached, the samples followed by the closing record form the trajectory. */
  lemma CloseTrajectory(g: Graph, p: TripParams, path: seq<NodeId>, pathDistances: seq<real>,
                        draws: nat -> SampleDraw, samples: seq<Record>)
    requires |path| >= 1 && |pathDistances| == |path| && NodesKnown(g, path)
    requires SamplesFit(g, p, path, pathDistances, draws, samples)
    requires CursorAt(p, draws, |samples|).distance >= pathDistances[|pathDistances| - 1]
    ensures IsTrajectory(g, p, path, pathDistances, draws, samples + [FinalRecord(g, p, path, CursorAt(p, draws, |samples|))])
  {
    var records := samples + [FinalRecord(g, p, path, CursorAt(p, draws, |samples|))];
    assert records[..|records| - 1] == samples;
  }

  /** The draws fix the trajectory: two record lists that both fit are equal. */
  lemma TrajectoryIsDetermined(g: Graph, p: TripParams, path: seq<NodeId>, pathDistances: seq<real>,
                               draws: nat -> SampleDraw, records: seq<Record>, others: seq<Record>)
    requires |path| >= 1 && |pathDistances| == |path| && NodesKnown(g, path)
    requires IsTrajectory(g, p, path, pathDistances, draws, records)
    requires IsTrajectory(g, p, path, pathDistances, draws, others)
    ensures records == others
  {
    var total := pathDistances[|pathDistances| - 1];
    var n, m := |records| - 1, |others| - 1;
    forall j | 0 <= j < n
      ensures CursorAt(p, draws, j).distance < total
    {
      TrajectorySample(g, p, path, pathDistances, draws, records, j);
    }
    forall j | 0 <= j < m
      ensures CursorAt(p, draws, j).distance < total
    {
      TrajectorySample(g, p, path, pathDistances, draws, others, j);
    }
    assert CursorAt(p, draws, n).distance >= total;
    assert CursorAt(p, draws, m).distance >= total;
    assert n == m;
    forall k | 0 <= k < |records|
      ensures records[k] == others[k]
    {
      if k < n {
        TrajectorySample(g, p, path, pathDistances, draws, records, k);
        TrajectorySample(g, p, path, pathDistances, draws, others, k);
      } else {
        assert records[k] == FinalRecord(g, p, path, CursorAt(p, draws, n));
        assert others[k] == FinalRecord(g, p, path, CursorAt(p, draws, n));
      }
    }
  }

  /**
   * The clock: consecutive samples are one sampling interval apart, plus the rest
   * duration when the travel time had reached the maximum; the closing record comes
   * one interval after the last sample.
   */
  lemma TrajectoryClock(g: Graph, p: TripParams, path: seq<NodeId>, pathDistances: seq<real>,
                        draws: nat -> SampleDraw, records: seq<Record>)
    requires |path| >= 1 && |pathDistances| == |path| && NodesKnown(g, path)
    requires IsTrajectory(g, p, path, pathDistances, draws, records)
    ensures forall k :: 0 <= k < |records| - 2 ==>
      records[k + 1].datetime == records[k].datetime + p.sampleInterval
        + (if CursorAt(p, draws, k + 1).travelMinutes >= p.maxTravelDuration then p.restDuration * 60 else 0)
    ensures |records| >= 2 ==> records[|records| - 1].datetime == records[|records| - 2].datetime + p.sampleInterval
  {
    var n := |records| - 1;
    forall k | 1 <= k < n
      ensures records[k].datetime == records[k - 1].datetime + p.sampleInterval
        + (if CursorAt(p, draws, k).travelMinutes >= p.maxTravelDuration then p.restDuration * 60 else 0)
    {
      RecordTime(g, p, path, pathDistances, draws, records, k - 1);
      RecordTime(g, p, path, pathDistances, draws, records, k);
    }
    if n >= 1 {
      RecordTime(g, p, path, pathDistances, draws, records, n - 1);
      RecordTime(g, p, path, pathDistances, draws, records, n);
    }
  }

  /** With a positive interval and a non-negative rest the timestamps strictly increase. */
  lemma TimestampsIncrease(g: Graph, p: TripParams, path: seq<NodeId>, pathDistances: seq<real>,
                           draws: nat -> SampleDraw, records: seq<Record>)
    requires |path| >= 1 && |pathDistances| == |path| && NodesKnown(g, path)
    requires IsTrajectory(g, p, path, pathDistances, draws, records)
    requires p.sampleInterval > 0 && p.restDuration >= 0
    ensures forall k :: 0 <= k < |records| - 1 ==> records[k].datetime < records[k + 1].datetime
  {
    TrajectoryClock(g, p, path, pathDistances, draws, records);
  }

  /** A sample is stamped with the clock after the rest check; the closing record with the clock as it stands. */
  lemma RecordTime(g: Graph, p: TripParams, path: seq<NodeId>, pathDistances: seq<real>,
                   draws: nat -> SampleDraw, records: seq<Record>, k: nat)
    requires |path| >= 1 && |pathDistances| == |path| && NodesKnown(g, path)
    requires IsTrajectory(g, p, path, pathDistances, draws, records)
    requires k < |records|
    ensures records[k].datetime ==
      if k < |records| - 1 then RestCheck(p, CursorAt(p, draws, k)).time else CursorAt(p, draws, k).time
  {
    if k < |records| - 1 {
      TrajectorySample(g, p, path, pathDistances, draws, records, k);
    }
  }

  /** Every record belongs to the vehicle; each sample's km/h velocity is the vehicle's velocity times the speed factor. */
  lemma TrajectoryVelocities(g: Graph, p: TripParams, path: seq<NodeId>, pathDistances: seq<real>,
                             draws: nat -> SampleDraw, records: seq<Record>)
    requires |path| >= 1 && |pathDistances| == |path| && NodesKnown(g, path)
    requires IsTrajectory(g, p, path, pathDistances, draws, records)
    ensures forall k :: 0 <= k < |records| ==> records[k].vehicleId == p.vehicleId
    ensures forall k :: 0 <= k < |records| - 1 ==> records[k].velocityKmh == p.velocity * draws(k).velocityVariation
    ensures records[|records| - 1].velocityKmh == 0.0
  {
    var n := |records| - 1;
    assert records[n] == FinalRecord(g, p, path, CursorAt(p, draws, n));
    forall k | 0 <= k < |records|
      ensures records[k].vehicleId == p.vehicleId
      ensures k < n ==> records[k].velocityKmh == p.velocity * draws(k).velocityVariation
    {
      if k < n {
        TrajectorySample(g, p, path, pathDistances, draws, records, k);
      }
    }
  }

  /**
   * Sample k lies on the route: with its noise removed it is the first node when the
   * distance has not passed the first table entry, and otherwise lies between the two
   * nodes whose table entries bracket the distance.
   */
  lemma SampleOnRoute(g: Graph, p: TripParams, path: seq<NodeId>, pathDistances: seq<real>,
                      draws: nat -> SampleDraw, records: seq<Record>, k: nat)
    requires |path| >= 1 && |pathDistances| == |path| && NodesKnown(g, path)
    requires IsTrajectory(g, p, path, pathDistances, draws, records)
    requires k < |records| - 1
    ensures var current := CursorAt(p, draws, k).distance;
      var idx := SearchSortedLeft(pathDistances, current);
      && idx < |path|
      && (idx == 0 ==>
            && records[k].lat == g.nodes[path[0]].y + draws(k).latNoise
            && records[k].lng == g.nodes[path[0]].x + draws(k).lonNoise)
      && (idx > 0 ==>
            && pathDistances[idx - 1] < current <= pathDistances[idx]
            && Between(g.nodes[path[idx - 1]].y, g.nodes[path[idx]].y, records[k].lat - draws(k).latNoise)
            && Between(g.nodes[path[idx - 1]].x, g.nodes[path[idx]].x, records[k].lng - draws(k).lonNoise))
  {
    var c := CursorAt(p, draws, k);
    TrajectorySample(g, p, path, pathDistances, draws, records, k);
    assert RestCheck(p, c).distance == c.distance;
    PositionInterpolates(g, path, pathDistances, c.distance);
    var pos := Position(g, path, pathDistances, c.distance);
    assert records[k].lat == pos.0 + draws(k).latNoise && records[k].lng == pos.1 + draws(k).lonNoise;
  }

  /** Converting km/h to m/s, scaling, and converting back only scales. */
  lemma KilometresPerHourRoundTrip(p: TripParams, variation: real)
    ensures Speed(p, variation) * 3.6 == p.velocity * variation
  {
  }

  /** The shortest distance one step can cover: the slowest speed factor, 0.7, for one interval. */
  function MinStep(p: TripParams): real {
    Speed(p, 0.7) * p.sampleInterval as real
  }

  lemma MulPositive(x: real, y: real)
    requires x > 0.0 && y > 0.0
    ensures x * y > 0.0
  {
  }

  /** A step covers at least MinStep, which is positive. */
  lemma StepCoversMinStep(p: TripParams, draw: SampleDraw)
    requires p.velocity > 0.0 && p.sampleInterval > 0 && draw.velocityVariation >= 0.7
    ensures Speed(p, draw.velocityVariation) * p.sampleInterval as real >= MinStep(p) > 0.0
  {
    var t := p.sampleInterval as real;
    var slow, fast := Speed(p, 0.7), Speed(p, draw.velocityVariation);
    assert 0.0 < slow <= fast;
    MulPositive(slow, t);
    MulNonNegative(fast - slow, t);
    assert fast * t - slow * t == (fast - slow) * t;
  }

  /** The distance still to go, counted in steps of at least m, drops by one per step. */
  lemma MeasureDrops(total: real, before: real, after: real, step: real, m: real)
    requires m > 0.0 && step >= m && after == before + step
    ensures (total - after) / m <= (total - before) / m - 1.0
  {
    var a := (total - after) / m;
    var b := (total - before) / m;
    assert a * m == total - after;
    assert b * m == total - before;
    assert (b - a) * m == step;
    if b - a < 1.0 {
      MulPositive(1.0 - (b - a), m);
    }
  }

  // ---------------------------------------------------------------------------
  // Vehicles
  // ---------------------------------------------------------------------------

  /** The per-vehicle random draws: velocity (km/h), departure stagger (minutes) and the per-sample draws. */
  datatype VehicleDraw = VehicleDraw(velocity: real, staggerMinutes: int, samples: nat -> SampleDraw)

  /** The draws `random.uniform` and `random.randint` can return, with a velocity above 0. */
  ghost predicate IsVehicleDraw(d: VehicleDraw, minVelocity: real, maxVelocity: real) {
    && d.velocity > 0.0
    && Between(minVelocity, maxVelocity, d.velocity)
    && 0 <= d.staggerMinutes <= 30
    && forall k: nat :: 0.7 <= d.samples(k).velocityVariation <= 1.3
  }

  /**
   * Vehicle `vehicleId`'s parameters: its drawn velocity, and a departure a whole number
   * of minutes after the base time, at most 30 minutes later for a stagger in range.
   */
  function VehicleTrip(vehicleId: int, d: VehicleDraw, baseTime: int, maxTravelDuration: real,
                       restDuration: int, sampleInterval: int): (p: TripParams)
    ensures p.vehicleId == vehicleId && p.velocity == d.velocity
    ensures (p.departure - baseTime) % 60 == 0
    ensures 0 <= d.staggerMinutes <= 30 ==> baseTime <= p.departure <= baseTime + 1800
    ensures p.maxTravelDuration == maxTravelDuration && p.restDuration == restDuration
    ensures p.sampleInterval == sampleInterval
  {
    TripParams(vehicleId, d.velocity, baseTime + d.staggerMinutes * 60, maxTravelDuration, restDuration, sampleInterval)
  }

  /**
   * The outcome of `generate_trajectories`: no path, no vehicle at all (concatenating
   * an empty list raises), or one trajectory per vehicle.
   */
  datatype TrajectoryBatch = NoPath | NothingToConcatenate | Trajectories(tracks: seq<seq<Record>>)

  class VehicleTrajectoryGenerator {
    const G: Graph

    constructor (G: Graph)
      ensures this.G == G
    {
      this.G := G;
    }

    /** The constructor with its source check: a given graph, else the network downloaded for the place. */
    static method FromSource(placeName: Option<string>, graph: Option<Graph>, download: string -> Graph)
      returns (r: Result<VehicleTrajectoryGenerator, GeneratorError>)
      ensures r.Failure? <==> placeName.None? && graph.None?
      ensures r.Success? ==> fresh(r.value)
      ensures r.Success? && graph.Some? ==> r.value.G == graph.value
      ensures r.Success? && graph.None? ==> r.value.G == download(placeName.value)
    {
      var source := SelectNetwork(placeName, graph);
      match source
      case Failure(e) =>
        return Failure(e);
      case Success(GivenGraph(given)) =>
        var generator := new VehicleTrajectoryGenerator(given);
        r := Success(generator);
      case Success(PlaceDownload(name)) =>
        var generator := new VehicleTrajectoryGenerator(download(name));
        r := Success(generator);
    }

    /** `_calculate_path_distances`: the cumulative distance table, built by appending. */
    method CalculatePathDistances(path: seq<NodeId>) returns (distances: seq<real>)
      requires IsRoute(G, path)
      ensures distances == CumulativeDistances(G, path)
    {
      distances := [0.0];
      var i := 0;
      while i < |path| - 1
        invariant 0 <= i && (|path| >= 1 ==> i <= |path| - 1)
        invariant |path| == 0 ==> distances == [0.0]
        invariant |path| >= 1 ==> distances == CumulativeDistances(G, path[..i + 1])
      {
        RoutePrefix(G, path, i + 2);
        assert path[..i + 2][..i + 1] == path[..i + 1];
        var edgeLength := EdgeLength(G, path[i], path[i + 1]);
        distances := distances + [distances[|distances| - 1] + edgeLength];
        i := i + 1;
      }
      assert |path| >= 1 ==> path[..|path|] == path;
    }

    /**
     * The position step of the sampling loop: the node index found by search and
     * clamped, then linear interpolation from the previous node by the distance ratio,
     * or the node itself at index 0.
     */
    method InterpolatePosition(path: seq<NodeId>, pathDistances: seq<real>, currentDistance: real)
      returns (lat: real, lon: real)
      requires |path| >= 1 && |pathDistances| == |path| && NodesKnown(G, path)
      ensures (lat, lon) == Position(G, path, pathDistances, currentDistance)
    {
      var nodeIdx := SearchSortedLeft(pathDistances, currentDistance);
      if nodeIdx >= |path| {
        nodeIdx := |path| - 1;
      }
      assert nodeIdx == NodeIndex(pathDistances, |path|, currentDistance);

      if nodeIdx > 0 && nodeIdx < |path| {
        var prevDist := pathDistances[nodeIdx - 1];
        var nextDist := pathDistances[nodeIdx];
        var ratio := if nextDist > prevDist then (currentDistance - prevDist) / (nextDist - prevDist) else 0.0;
        assert ratio == Ratio(prevDist, nextDist, currentDistance);
        var prevNode := G.nodes[path[nodeIdx - 1]];
        var nextNode := G.nodes[path[nodeIdx]];
        lat := prevNode.y + ratio * (nextNode.y - prevNode.y);
        lon := prevNode.x + ratio * (nextNode.x - prevNode.x);
        assert lat == Lerp(prevNode.y, nextNode.y, ratio) && lon == Lerp(prevNode.x, nextNode.x, ratio);
        var pos := Position(G, path, pathDistances, currentDistance);
        assert lat == pos.0 && lon == pos.1;
      } else {
        var node := G.nodes[path[nodeIdx]];
        lat := node.y;
        lon := node.x;
      }
    }

    /**
     * One pass of the sampling loop's body: rest if due, sample the interpolated
     * position with noise at the current time, then advance distance, clock and
     * travel time by one interval at the sample's velocity.
     */
    method SampleStep(p: TripParams, path: seq<NodeId>, pathDistances: seq<real>, draw: SampleDraw,
                      distance: real, time: int, travelMinutes: real)
      returns (record: Record, nextDistance: real, nextTime: int, nextTravelMinutes: real)
      requires |path| >= 1 && |pathDistances| == |path| && NodesKnown(G, path)
      ensures var rested := RestCheck(p, Cursor(distance, time, travelMinutes));
        && record == SampleRecord(G, p, path, pathDistances, rested, draw)
        && Cursor(nextDistance, nextTime, nextTravelMinutes) == Advance(p, rested, draw)
      ensures nextDistance == distance + Speed(p, draw.velocityVariation) * p.sampleInterval as real
    {
      var currentDistance, currentTime, travelTimeMinutes := distance, time, travelMinutes;
      if travelTimeMinutes >= p.maxTravelDuration {
        currentTime := currentTime + p.restDuration * 60;
        travelTimeMinutes := 0.0;
      }

      var lat, lon := InterpolatePosition(path, pathDistances, currentDistance);
      lat := lat + draw.latNoise;
      lon := lon + draw.lonNoise;
      var actualVelocity := Speed(p, draw.velocityVariation);
      record := Record(p.vehicleId, lat, lon, currentTime, actualVelocity * 3.6);

      var distanceIncrement := Speed(p, draw.velocityVariation) * p.sampleInterval as real;
      nextDistance := currentDistance + distanceIncrement;
      nextTime := currentTime + p.sampleInterval;
      nextTravelMinutes := travelTimeMinutes + p.sampleInterval as real / 60.0;
    }

    /**
     * `_generate_single_trajectory`: while the distance is below the route's total,
     * take one sample step; then close with a record at the last node.
     */
    method GenerateSingleTrajectory(p: TripParams, path: seq<NodeId>, pathDistances: seq<real>,
                                    draws: nat -> SampleDraw) returns (records: seq<Record>)
      requires |path| >= 1 && |pathDistances| == |path| && NodesKnown(G, path)
      requires p.velocity > 0.0 && p.sampleInterval > 0
      requires forall k: nat :: 0.7 <= draws(k).velocityVariation <= 1.3
      ensures IsTrajectory(G, p, path, pathDistances, draws, records)
    {
      records := [];
      var currentTime := p.departure;
      var currentDistance := 0.0;
      var totalDistance := pathDistances[|pathDistances| - 1];
      var travelTimeMinutes := 0.0;

      while currentDistance < totalDistance
        invariant Cursor(currentDistance, currentTime, travelTimeMinutes) == CursorAt(p, draws, |records|)
        invariant SamplesFit(G, p, path, pathDistances, draws, records)
        decreases (totalDistance - currentDistance) / MinStep(p)
      {
        var draw := draws(|records|);
        ghost var before, previousDistance := records, currentDistance;
        var record;
        record, currentDistance, currentTime, travelTimeMinutes :=
          SampleStep(p, path, pathDistances, draw, currentDistance, currentTime, travelTimeMinutes);
        records := records + [record];
        ExtendSamples(G, p, path, pathDistances, draws, before);
        StepCoversMinStep(p, draw);
        MeasureDrops(totalDistance, previousDistance, currentDistance, Speed(p, draw.velocityVariation) * p.sampleInterval as real, MinStep(p));
      }

      CloseTrajectory(G, p, path, pathDistances, draws, records);
      var dest := G.nodes[path[|path| - 1]];
      records := records + [Record(p.vehicleId, dest.y, dest.x, currentTime, 0.0)];
    }

    /**
     * The vehicle loop of `generate_trajectories`: no path gives none; otherwise the
     * cumulative table is built once and vehicles 1..numVehicles each get the
     * trajectory of their own draws, in order.
     */
    method GenerateTrajectories(route: Option<seq<NodeId>>, numVehicles: int,
                                minVelocity: real, maxVelocity: real, baseTime: int,
                                maxTravelDuration: real, restDuration: int, sampleInterval: int,
                                vehicleDraws: int -> VehicleDraw) returns (r: TrajectoryBatch)
      requires route.Some? ==> IsRoute(G, route.value) && |route.value| >= 1
      requires sampleInterval > 0
      requires forall v :: 1 <= v <= numVehicles ==> IsVehicleDraw(vehicleDraws(v), minVelocity, maxVelocity)
      ensures r.NoPath? <==> route.None?
      ensures r.NothingToConcatenate? <==> route.Some? && numVehicles < 1
      ensures r.Trajectories? ==> |r.tracks| == numVehicles
      ensures route.Some? && r.Trajectories? ==>
        forall i :: 0 <= i < |r.tracks| ==>
          IsTrajectory(G, VehicleTrip(i + 1, vehicleDraws(i + 1), baseTime, maxTravelDuration, restDuration, sampleInterval),
                       route.value, CumulativeDistances(G, route.value), vehicleDraws(i + 1).samples, r.tracks[i])
    {
      if route.None? {
        return NoPath;
      }
      var path := route.value;
      var pathDistances := CalculatePathDistances(path);

      var allTrajectories: seq<seq<Record>> := [];
      var vehicleId := 1;
      while vehicleId <= numVehicles
        invariant 1 <= vehicleId && (numVehicles >= 1 ==> vehicleId <= numVehicles + 1)
        invariant numVehicles < 1 ==> vehicleId == 1
        invariant |allTrajectories| == vehicleId - 1
        invariant forall i :: 0 <= i < |allTrajectories| ==>
          IsTrajectory(G, VehicleTrip(i + 1, vehicleDraws(i + 1), baseTime, maxTravelDuration, restDuration, sampleInterval),
                       path, pathDistances, vehicleDraws(i + 1).samples, allTrajectories[i])
      {
        var draw := vehicleDraws(vehicleId);
        var trip := VehicleTrip(vehicleId, draw, baseTime, maxTravelDuration, restDuration, sampleInterval);
        var trajectory := GenerateSingleTrajectory(trip, path, pathDistances, draw.samples);
        allTrajectories := allTrajectories + [trajectory];
        vehicleId := vehicleId + 1;
      }

      if allTrajectories == [] {
        return NothingToConcatenate;
      }
      r := Trajectories(allTrajectories);
    }
  }
}
