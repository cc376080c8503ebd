/**
 * The road network both mock generators read: a directed multigraph whose nodes
 * carry coordinates and whose parallel edges are keyed by integers. `G[u][v][0]`
 * is the edge from u to v with key 0, the one both generators read.
 */
module RoadGraph {
  import opened Wrappers

  type NodeId = int

  /** A node's position: x is the longitude, y the latitude. */
  datatype NodeData = NodeData(x: real, y: real)

  /** An edge's attributes; `name` and `highway` may be missing. */
  datatype EdgeData = EdgeData(length: real, name: Option<string>, highway: Option<string>)

  datatype Graph = Graph(nodes: map<NodeId, NodeData>, edges: map<(NodeId, NodeId), map<int, EdgeData>>)

  /** `G[u][v][0]` exists. */
  predicate HasFirstEdge(g: Graph, u: NodeId, v: NodeId) {
    (u, v) in g.edges && 0 in g.edges[(u, v)]
  }

  function FirstEdge(g: Graph, u: NodeId, v: NodeId): EdgeData
    requires HasFirstEdge(g, u, v)
  {
    g.edges[(u, v)][0]
  }

  function EdgeLength(g: Graph, u: NodeId, v: NodeId): real
    requires HasFirstEdge(g, u, v)
  {
    FirstEdge(g, u, v).length
  }

  /** Every node of the path has a position in the graph. */
  ghost predicate NodesKnown(g: Graph, path: seq<NodeId>) {
    forall i :: 0 <= i < |path| ==> path[i] in g.nodes
  }

  /**
   * What the generators assume of a route: its nodes are in the graph and every
   * consecutive pair is joined by an edge with key 0, the one both generators read.
   */
  ghost predicate IsRoute(g: Graph, route: seq<NodeId>) {
    && NodesKnown(g, route)
    && (forall i :: 0 <= i < |route| - 1 ==> HasFirstEdge(g, route[i], route[i + 1]))
  }

  /** Every edge of the graph has a non-negative length. */
  ghost predicate NonNegativeLengths(g: Graph) {
    forall e, k :: e in g.edges && k in g.edges[e] ==> g.edges[e][k].length >= 0.0
  }

  lemma RoutePrefix(g: Graph, route: seq<NodeId>, n: nat)
    requires IsRoute(g, route) && n <= |route|
    ensures IsRoute(g, route[..n])
  {
    assert forall i :: 0 <= i < n ==> route[..n][i] == route[i];
  }

  /**
   * The summed length of the key-0 edges along consecutive route pairs, added up
   * from the first pair to the last. With non-negative edge lengths it is
   * non-negative.
   */
  function PathLength(g: Graph, route: seq<NodeId>): (length: real)
    requires IsRoute(g, route)
    ensures NonNegativeLengths(g) ==> length >= 0.0
    decreases |route|
  {
    if |route| < 2 then 0.0
    else
      RoutePrefix(g, route, |route| - 1);
      var last := (route[|route| - 2], route[|route| - 1]);
      assert NonNegativeLengths(g) ==> g.edges[last][0].length >= 0.0;
      PathLength(g, route[..|route| - 1]) + EdgeLength(g, last.0, last.1)
  }
}
