/**
  The part of the task graph that the solver dispatcher reads.

  Of the graph, the dispatcher reads only its two adjacency maps: the outward
  map sends a vertex to the edges leaving it, with their communication costs;
  the inward map sends a vertex to the reverse edges entering it, which carry
  no cost. The vertex set and everything else the graph holds is not modelled. The dispatcher only asks whether each map is empty, in the sense
  of `java.util.Map.isEmpty()`: the map has no keys. A key bound to an empty
  list still makes the map non-empty.
 */
module Graphs {

  /** A task: a unique name and a processing cost. */
  datatype Vertex = Vertex(name: string, cost: int)

  /** A forward precedence edge with its communication cost. */
  datatype EdgeWithCost = EdgeWithCost(source: Vertex, target: Vertex, cost: int)

  /** A reverse edge, from a task back to a predecessor; it stores no cost. */
  datatype Edge = Edge(source: Vertex, target: Vertex)

  datatype Graph = Graph(
    inwardEdgeMap: map<Vertex, seq<Edge>>,
    outwardEdgeMap: map<Vertex, seq<EdgeWithCost>>)

  /** `Map.isEmpty()`: the map has no keys at all. */
  predicate IsEmptyMap<E>(m: map<Vertex, seq<E>>)
  {
    |m| == 0
  }

  /** Some key of the map is bound to at least one edge. */
  predicate ListsSomeEdge<E>(m: map<Vertex, seq<E>>)
  {
    exists v :: v in m && |m[v]| > 0
  }

  /** The graph records at least one actual edge, in either direction. */
  predicate HasEdge(g: Graph)
  {
    ListsSomeEdge(g.inwardEdgeMap) || ListsSomeEdge(g.outwardEdgeMap)
  }

  /** A map that lists an edge is not empty in the `isEmpty()` sense. */
  lemma ListedEdgeMakesMapNonEmpty<E>(m: map<Vertex, seq<E>>)
    requires ListsSomeEdge(m)
    ensures !IsEmptyMap(m)
  {
    var v :| v in m && |m[v]| > 0;
    assert v in m.Keys;
    assert m.Keys != {};
  }

  /**
    The converse fails: a map whose only key is bound to an empty list is
    non-empty although it lists no edge.
   */
  lemma EmptyListKeepsMapNonEmpty<E>(v: Vertex)
    ensures var m: map<Vertex, seq<E>> := map[v := []]; !IsEmptyMap(m) && !ListsSomeEdge(m)
  {
    var m: map<Vertex, seq<E>> := map[v := []];
    assert v in m.Keys;
  }
}
