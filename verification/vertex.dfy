/** One half of a double vertex: its name, its ordered edge list, its optional
    partner, the element it belongs to and its layout position.
    Other vertices are referred to by name. */
module Vertices {
  import opened Wrappers
  import opened Elements

  datatype Vertex = Vertex(
    name: string,
    edges: seq<string>,
    partner: Option<string>,
    element: Element,
    x: int,
    y: int)

  /** `Vertex(name, element, pos_x, pos_y)`: a freshly constructed vertex
      with the given name, element and position, no neighbours and no
      partner yet; so it is not an end vertex until it is paired. */
  function NewVertex(name: string, element: Element, x: int, y: int): (r: Vertex)
    ensures r.name == name && r.element == element && r.x == x && r.y == y
    ensures |ConnectedVertices(r)| == 0 && r.partner.None?
    ensures !IsEndVertex(r) && forall p :: IsEndVertex(r.(partner := Some(p)))
  {
    Vertex(name, [], None, element, x, y)
  }

  /** No element occurs twice in `s`. */
  predicate NoDup<T(==)>(s: seq<T>)
  {
    forall i, j :: 0 <= i < j < |s| ==> s[i] != s[j]
  }

  /** `Vertex.addEdge`: record `w` as a neighbour of `v`, appending it at the
      end of the edge list unless it is already there. */
  function AddEdge(v: Vertex, w: string): (r: Vertex)
    ensures w in r.edges
    ensures forall u :: u in r.edges <==> u in v.edges || u == w
    ensures |v.edges| <= |r.edges| && r.edges[..|v.edges|] == v.edges
    ensures NoDup(v.edges) ==> NoDup(r.edges)
    ensures r.(edges := v.edges) == v
  {
    if w in v.edges then v else v.(edges := v.edges + [w])
  }

  /** Adding the same neighbour twice is the same as adding it once. */
  lemma AddEdgeIdempotent(v: Vertex, w: string)
    ensures AddEdge(AddEdge(v, w), w) == AddEdge(v, w)
  {
  }

  /** `Vertex.connectedVertices`: the neighbours, in the order `addEdge`
      recorded them (see `ConnectedInOrder`). */
  function ConnectedVertices(v: Vertex): seq<string>
  {
    v.edges
  }

  /** `Vertex.isEndVertex`: a boundary of the network, i.e. a vertex with a
      partner but no neighbours. */
  predicate IsEndVertex(v: Vertex): (r: bool)
    ensures r ==> v.partner.Some? && forall w :: w !in v.edges
    ensures v.partner.Some? && v.edges == [] ==> r
  {
    |ConnectedVertices(v)| == 0 && v.partner.Some?
  }

  /** Recording a neighbour makes a vertex an inner vertex for good. */
  lemma AddEdgeNotEnd(v: Vertex, w: string)
    ensures !IsEndVertex(AddEdge(v, w))
  {
  }

  /** Recording a new neighbour puts it last among the connected vertices;
      recording a listed one changes nothing. */
  lemma ConnectedInOrder(v: Vertex, w: string)
    ensures w !in ConnectedVertices(v) ==> ConnectedVertices(AddEdge(v, w)) == ConnectedVertices(v) + [w]
    ensures w in ConnectedVertices(v) ==> ConnectedVertices(AddEdge(v, w)) == ConnectedVertices(v)
  {
  }
}
