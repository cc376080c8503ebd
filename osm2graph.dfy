/**
 * Shortest-path post-processing over a road network (trackmarks/mock/osm2graph.py):
 * the choice of download source, the metrics of a found route and its per-segment
 * details. Downloading, nearest-node lookup and the shortest-path search are
 * library calls: the graph, the end nodes and the route are inputs.
 */
module Osm2Graph {
  import opened Wrappers
  import opened RoadGraph

  /** Where the road network is downloaded from. */
  datatype GraphSource =
    | Place(name: string)
    | BoundingBox(bbox: seq<real>)
    | AroundPoint(centerPoint: seq<real>, distance: real)

  /** The ValueError raised when no usable source is given. */
  datatype SourceError = MissingSource

  /** Python truthiness of an optional argument: None, "" , an empty tuple and 0 are false. */
  predicate TruthyText(s: Option<string>) { s.Some? && s.value != "" }
  predicate TruthyTuple(s: Option<seq<real>>) { s.Some? && s.value != [] }
  predicate TruthyNumber(d: Option<real>) { d.Some? && d.value != 0.0 }

  /**
   * The constructor's source selection: place name first, then bounding box, then
   * distance together with centre point; a ValueError when none is usable.
   */
  function SelectSource(placeName: Option<string>, bbox: Option<seq<real>>,
                        distance: Option<real>, centerPoint: Option<seq<real>>): (r: Result<GraphSource, SourceError>)
    ensures r.Failure? <==> !TruthyText(placeName) && !TruthyTuple(bbox) && !(TruthyNumber(distance) && TruthyTuple(centerPoint))
    ensures (r.Success? && r.value.Place?) <==> TruthyText(placeName)
    ensures (r.Success? && r.value.BoundingBox?) <==> !TruthyText(placeName) && TruthyTuple(bbox)
    ensures (r.Success? && r.value.AroundPoint?) <==>
      !TruthyText(placeName) && !TruthyTuple(bbox) && TruthyNumber(distance) && TruthyTuple(centerPoint)
    ensures r.Success? && r.value.Place? ==> Some(r.value.name) == placeName
    ensures r.Success? && r.value.BoundingBox? ==> Some(r.value.bbox) == bbox
    ensures r.Success? && r.value.AroundPoint? ==> Some(r.value.centerPoint) == centerPoint && Some(r.value.distance) == distance
  {
    if TruthyText(placeName) then Success(Place(placeName.value))
    else if TruthyTuple(bbox) then Success(BoundingBox(bbox.value))
    else if TruthyNumber(distance) && TruthyTuple(centerPoint) then Success(AroundPoint(centerPoint.value, distance.value))
    else Failure(MissingSource)
  }

  /** A place name given but empty is skipped: a usable bounding box then wins. */
  lemma EmptyPlaceNameFallsThrough(bbox: seq<real>, distance: Option<real>, centerPoint: Option<seq<real>>)
    requires bbox != []
    ensures SelectSource(Some(""), Some(bbox), distance, centerPoint) == Success(BoundingBox(bbox))
  {
  }

  /** A distance of 0 counts as missing, so a centre point alone is not enough. */
  lemma ZeroDistanceIsMissing(centerPoint: seq<real>)
    ensures SelectSource(None, None, Some(0.0), Some(centerPoint)) == Failure(MissingSource)
  {
  }

  /** The metrics of a found route. Coordinates are (latitude, longitude) pairs. */
  datatype PathResults = PathResults(
    originNode: NodeId, destNode: NodeId,
    originCoords: (real, real), destCoords: (real, real),
    routeNodes: seq<NodeId>, routeEdges: seq<(NodeId, NodeId)>, routeCoords: seq<(real, real)>,
    distanceMeters: real, distanceKm: real, numNodes: int, numEdges: int)

  /** The details of one route segment. Coordinates are (latitude, longitude) pairs. */
  datatype Segment = Segment(
    segment: int, fromNode: NodeId, toNode: NodeId,
    fromCoords: (real, real), toCoords: (real, real),
    lengthM: real, lengthKm: real, streetName: string, highwayType: string)

  /** How many consecutive pairs a route has: `len(range(len(route) - 1))`. */
  function PairCount(route: seq<NodeId>): (n: nat)
    ensures |route| >= 1 ==> n == |route| - 1
    ensures |route| == 0 ==> n == 0
  {
    if |route| == 0 then 0 else |route| - 1
  }

  /** The summed `lengthM` of a list of segments, first to last. */
  function TotalLength(segments: seq<Segment>): real {
    if segments == [] then 0.0
    else TotalLength(segments[..|segments| - 1]) + segments[|segments| - 1].lengthM
  }

  class ShortestPathGenerator {
    const G: Graph

    constructor (G: Graph)
      ensures this.G == G
    {
      this.G := G;
    }

    /**
     * The constructor with its source check: the graph is the one downloaded from
     * the selected source, and no generator is built when there is none.
     */
    static method FromSource(placeName: Option<string>, bbox: Option<seq<real>>,
                             distance: Option<real>, centerPoint: Option<seq<real>>,
                             download: GraphSource -> Graph)
      returns (r: Result<ShortestPathGenerator, SourceError>)
      ensures r.Failure? <==> SelectSource(placeName, bbox, distance, centerPoint).Failure?
      ensures r.Success? ==> fresh(r.value)
      ensures r.Success? ==> r.value.G == download(SelectSource(placeName, bbox, distance, centerPoint).value)
    {
      var source := SelectSource(placeName, bbox, distance, centerPoint);
      if source.Failure? {
        return Failure(source.error);
      }
      var generator := new ShortestPathGenerator(download(source.value));
      r := Success(generator);
    }

    /**
     * A node's (latitude, longitude): the graph stores x as longitude and y as
     * latitude, so the pair is the node's position with its axes swapped.
     */
    function LatLon(node: NodeId): (latLon: (real, real))
      requires node in G.nodes
      ensures NodeData(latLon.1, latLon.0) == G.nodes[node]
    {
      (G.nodes[node].y, G.nodes[node].x)
    }

    /**
     * The metrics part of `calculate_shortest_path`: none when no path was found;
     * otherwise the consecutive node pairs, one (lat, lon) pair per node, the summed
     * key-0 edge lengths in metres and kilometres, and the node and edge counts.
     */
    function CalculateShortestPath(originNode: NodeId, destNode: NodeId,
                                   originCoords: (real, real), destCoords: (real, real),
                                   route: Option<seq<NodeId>>): (r: Option<PathResults>)
      requires route.Some? ==> IsRoute(G, route.value)
      ensures r.None? <==> route.None?
      ensures r.Some? ==> r.value.originNode == originNode && r.value.destNode == destNode
      ensures r.Some? ==> r.value.originCoords == originCoords && r.value.destCoords == destCoords
      ensures r.Some? ==> r.value.routeNodes == route.value && r.value.numNodes == |route.value|
      ensures r.Some? ==> r.value.numEdges == |r.value.routeEdges| == PairCount(route.value)
      ensures r.Some? ==> forall i :: 0 <= i < |r.value.routeEdges| ==> r.value.routeEdges[i] == (route.value[i], route.value[i + 1])
      ensures r.Some? ==> |r.value.routeCoords| == |route.value|
      ensures r.Some? ==> forall i :: 0 <= i < |r.value.routeCoords| ==> r.value.routeCoords[i] == LatLon(route.value[i])
      ensures r.Some? ==> r.value.distanceMeters == PathLength(G, route.value)
      ensures r.Some? ==> r.value.distanceKm * 1000.0 == r.value.distanceMeters
    {
      match route
      case None => None
      case Some(nodes) =>
        var pathLength := PathLength(G, nodes);
        var routeEdges := seq(PairCount(nodes), i requires 0 <= i < PairCount(nodes) => (nodes[i], nodes[i + 1]));
        var pathCoords := seq(|nodes|, i requires 0 <= i < |nodes| => LatLon(nodes[i]));
        Some(PathResults(originNode, destNode, originCoords, destCoords, nodes, routeEdges, pathCoords,
                         pathLength, pathLength / 1000.0, |nodes|, |routeEdges|))
    }

    /**
     * Segment k (counted from 1) of a route, running from u to v: the key-0 edge's
     * length in metres and kilometres, its street name defaulting to 'Unnamed' and its
     * highway type defaulting to 'Unknown'.
     */
    function SegmentOf(k: int, u: NodeId, v: NodeId): (s: Segment)
      requires u in G.nodes && v in G.nodes && HasFirstEdge(G, u, v)
      ensures s.segment == k && s.fromNode == u && s.toNode == v
      ensures s.fromCoords == LatLon(u) && s.toCoords == LatLon(v)
      ensures s.lengthM == EdgeLength(G, u, v) && s.lengthKm * 1000.0 == s.lengthM
      ensures s.streetName == if FirstEdge(G, u, v).name.Some? then FirstEdge(G, u, v).name.value else "Unnamed"
      ensures s.highwayType == if FirstEdge(G, u, v).highway.Some? then FirstEdge(G, u, v).highway.value else "Unknown"
    {
      var edge := FirstEdge(G, u, v);
      Segment(k, u, v, LatLon(u), LatLon(v), edge.length, edge.length / 1000.0,
              edge.name.GetOr("Unnamed"), edge.highway.GetOr("Unknown"))
    }

    /**
     * `get_route_details`: none for no path; otherwise one segment per consecutive
     * node pair, segment i + 1 running from route[i] to route[i + 1].
     */
    method GetRouteDetails(pathResults: Option<PathResults>) returns (segments: Option<seq<Segment>>)
      requires pathResults.Some? ==> IsRoute(G, pathResults.value.routeNodes)
      ensures segments.None? <==> pathResults.None?
      ensures segments.Some? ==>
        var route := pathResults.value.routeNodes;
        && |segments.value| == PairCount(route)
        && forall i :: 0 <= i < |segments.value| ==> segments.value[i] == SegmentOf(i + 1, route[i], route[i + 1])
    {
      if pathResults.None? {
        return None;
      }
      var result: seq<Segment> := [];
      var route := pathResults.value.routeNodes;
      var i := 0;
      while i < PairCount(route)
        invariant 0 <= i <= PairCount(route)
        invariant |result| == i
        invariant forall j :: 0 <= j < i ==> result[j] == SegmentOf(j + 1, route[j], route[j + 1])
      {
        var segment := SegmentOf(i + 1, route[i], route[i + 1]);
        result := result + [segment];
        i := i + 1;
      }
      segments := Some(result);
    }

    /**
     * The segment lengths of a route add up to its distance in metres, the figure
     * `calculate_shortest_path` reports.
     */
    lemma {:induction false} SegmentLengthsSumToDistance(route: seq<NodeId>, segments: seq<Segment>)
      requires IsRoute(G, route)
      requires |segments| == PairCount(route)
      requires forall i :: 0 <= i < |segments| ==> segments[i] == SegmentOf(i + 1, route[i], route[i + 1])
      ensures TotalLength(segments) == PathLength(G, route)
    {
      if |route| >= 2 {
        var n := |route|;
        var shorter := route[..n - 1];
        RoutePrefix(G, route, n - 1);
        var front := segments[..n - 2];
        forall i | 0 <= i < |front|
          ensures front[i] == SegmentOf(i + 1, shorter[i], shorter[i + 1])
        {
          assert shorter[i] == route[i] && shorter[i + 1] == route[i + 1];
        }
        SegmentLengthsSumToDistance(shorter, front);
        assert segments[n - 2].lengthM == EdgeLength(G, route[n - 2], route[n - 1]);
      }
    }
  }
}
