/** The composite railway graph: vertices keyed by name and the registry of
    the track elements they belong to, with the construction operations of
    `Graph` in railwaygraph/graph.py. */
module Graphs {
  import opened Wrappers
  import opened Elements
  import opened Vertices

  datatype Graph = Graph(vertices: map<string, Vertex>, elements: map<string, Element>)

  /** Why a lookup or a pairing was refused. The source raises `IndexError`
      for `NotFound` and `VertexError` for the other two. */
  datatype GraphError =
    | NotFound(key: string)
    | UnknownVertex(a: string, b: string)
    | AlreadyPaired(a: string, b: string)

  /** `Graph()`: no vertices, no elements. */
  const Empty := Graph(map[], map[])

  /** Every vertex is stored under its own name; `addVertex` keeps this. */
  predicate KeysAreNames(g: Graph)
  {
    forall n :: n in g.vertices ==> g.vertices[n].name == n
  }

  /** Every neighbour is a vertex of the graph. */
  predicate EdgesClosed(g: Graph)
  {
    forall a, b :: a in g.vertices && b in g.vertices[a].edges ==> b in g.vertices
  }

  /** Adjacency is symmetric: `b` lists `a` whenever `a` lists `b`. */
  predicate EdgesSymmetric(g: Graph)
  {
    forall a, b :: a in g.vertices && b in g.vertices[a].edges ==>
      b in g.vertices && a in g.vertices[b].edges
  }

  /** No edge list holds a neighbour twice. */
  predicate EdgesDistinct(g: Graph)
  {
    forall a :: a in g.vertices ==> NoDup(g.vertices[a].edges)
  }

  /** Pairing is symmetric and stays inside the graph. */
  predicate PairingSymmetric(g: Graph)
  {
    forall a :: a in g.vertices && g.vertices[a].partner.Some? ==>
      g.vertices[a].partner.value in g.vertices &&
      g.vertices[g.vertices[a].partner.value].partner == Some(a)
  }

  /** Every vertex has a partner. */
  predicate AllPaired(g: Graph)
  {
    forall a :: a in g.vertices ==> g.vertices[a].partner.Some?
  }

  /** Every vertex's element is the one registered under its id. */
  predicate ElementsRegistered(g: Graph)
  {
    forall n :: n in g.vertices ==>
      g.vertices[n].element.id in g.elements &&
      g.elements[g.vertices[n].element.id] == g.vertices[n].element
  }

  /** `addVertex`: register `v` under its name and its element under the
      element's id. The source's duplicate guard compares the vertex object
      with the name keys and so never fires: an existing entry of the same
      name is replaced. */
  function AddVertex(g: Graph, v: Vertex): (r: Graph)
    ensures r.vertices.Keys == g.vertices.Keys + {v.name}
    ensures r.vertices[v.name] == v
    ensures r.elements.Keys == g.elements.Keys + {v.element.id}
    ensures r.elements[v.element.id] == v.element
    ensures PairingSymmetric(g) && v.partner.None? && (v.name !in g.vertices || g.vertices[v.name].partner.None?)
      ==> PairingSymmetric(r)
  {
    Graph(g.vertices[v.name := v], g.elements[v.element.id := v.element])
  }

  /** `addVertex` changes no other entry and keeps names as keys. */
  lemma AddVertexFrame(g: Graph, v: Vertex)
    ensures forall n :: n in g.vertices && n != v.name ==> AddVertex(g, v).vertices[n] == g.vertices[n]
    ensures forall i :: i in g.elements && i != v.element.id ==> AddVertex(g, v).elements[i] == g.elements[i]
    ensures KeysAreNames(g) ==> KeysAreNames(AddVertex(g, v))
  {
  }

  /** `vertexByName`: the vertex registered under `name`. */
  function VertexByName(g: Graph, name: string): (r: Result<Vertex, GraphError>)
    ensures r.Success? <==> name in g.vertices
    ensures r.Success? ==> r.value == g.vertices[name]
    ensures r.Failure? ==> r.error == NotFound(name)
  {
    if name in g.vertices then Success(g.vertices[name]) else Failure(NotFound(name))
  }

  /** `elementById`: the element registered under `id`. */
  function ElementById(g: Graph, id: string): (r: Result<Element, GraphError>)
    ensures r.Success? <==> id in g.elements
    ensures r.Success? ==> r.value == g.elements[id]
    ensures r.Failure? ==> r.error == NotFound(id)
  {
    if id in g.elements then Success(g.elements[id]) else Failure(NotFound(id))
  }

  /** A vertex just added is found by its name and its element by its id;
      every other name finds what it found before. */
  lemma AddVertexThenLookup(g: Graph, v: Vertex, n: string)
    ensures VertexByName(AddVertex(g, v), v.name) == Success(v)
    ensures ElementById(AddVertex(g, v), v.element.id) == Success(v.element)
    ensures n != v.name ==> VertexByName(AddVertex(g, v), n) == VertexByName(g, n)
  {
  }

  /** Re-adding a name is not refused: the newer vertex replaces the older. */
  lemma AddVertexReplaces(g: Graph, v: Vertex, w: Vertex)
    requires v.name == w.name && v != w
    ensures VertexByName(AddVertex(AddVertex(g, v), w), v.name) == Success(w)
  {
  }

  /** Record `nb` as a neighbour of the vertex named `n`; a name without a
      vertex has no record to change. */
  function Attach(g: Graph, n: string, nb: string): (r: Graph)
    ensures r.vertices.Keys == g.vertices.Keys && r.elements == g.elements
    ensures forall m :: m in g.vertices ==>
      r.vertices[m] == if m == n then Vertices.AddEdge(g.vertices[m], nb) else g.vertices[m]
  {
    if n in g.vertices then g.(vertices := g.vertices[n := Vertices.AddEdge(g.vertices[n], nb)]) else g
  }

  /** `Graph.addEdge`: `a.addEdge(b)` followed by `b.addEdge(a)`; each end
      then lists the other. */
  function AddEdge(g: Graph, a: string, b: string): (r: Graph)
    ensures r.vertices.Keys == g.vertices.Keys && r.elements == g.elements
    ensures a in g.vertices ==> b in r.vertices[a].edges
    ensures b in g.vertices ==> a in r.vertices[b].edges
  {
    Attach(Attach(g, a, b), b, a)
  }

  /** Only the edge lists of `a` and `b` change, and only by gaining each
      other. */
  lemma AddEdgeFrame(g: Graph, a: string, b: string)
    ensures forall n :: n in g.vertices && n != a && n != b ==> AddEdge(g, a, b).vertices[n] == g.vertices[n]
    ensures forall n :: n in g.vertices ==>
      AddEdge(g, a, b).vertices[n].(edges := g.vertices[n].edges) == g.vertices[n]
    ensures forall n, u :: n in g.vertices ==>
      (u in AddEdge(g, a, b).vertices[n].edges <==>
        u in g.vertices[n].edges || (n == a && u == b) || (n == b && u == a))
  {
  }

  /** `addEdge` keeps names as keys and edge lists free of repeats, and keeps
      adjacency symmetric when both ends are in the graph. */
  lemma AddEdgePreserves(g: Graph, a: string, b: string)
    ensures KeysAreNames(g) ==> KeysAreNames(AddEdge(g, a, b))
    ensures EdgesDistinct(g) ==> EdgesDistinct(AddEdge(g, a, b))
    ensures EdgesClosed(g) && a in g.vertices && b in g.vertices ==> EdgesClosed(AddEdge(g, a, b))
    ensures EdgesSymmetric(g) && a in g.vertices && b in g.vertices ==> EdgesSymmetric(AddEdge(g, a, b))
  {
    AttachPreserves(g, a, b);
    AttachPreserves(Attach(g, a, b), b, a);
    if EdgesSymmetric(g) && a in g.vertices && b in g.vertices {
      AddEdgeSymmetric(g, a, b);
    }
  }

  /** Recording one neighbour keeps names as keys and edge lists free of
      repeats, and keeps every neighbour inside the graph if the new one is. */
  lemma AttachPreserves(g: Graph, n: string, nb: string)
    ensures KeysAreNames(g) ==> KeysAreNames(Attach(g, n, nb))
    ensures EdgesDistinct(g) ==> EdgesDistinct(Attach(g, n, nb))
    ensures EdgesClosed(g) && nb in g.vertices ==> EdgesClosed(Attach(g, n, nb))
  {
  }

  /** An edge between two vertices of the graph keeps adjacency symmetric. */
  lemma AddEdgeSymmetric(g: Graph, a: string, b: string)
    requires EdgesSymmetric(g) && a in g.vertices && b in g.vertices
    ensures EdgesSymmetric(AddEdge(g, a, b))
  {
    AddEdgeFrame(g, a, b);
  }

  /** A new edge between two distinct vertices appends each to the other's
      edge list. */
  lemma AddEdgeNew(g: Graph, a: string, b: string)
    requires a in g.vertices && b in g.vertices && a != b
    requires b !in g.vertices[a].edges && a !in g.vertices[b].edges
    ensures AddEdge(g, a, b) == g.(vertices := g.vertices
      [a := g.vertices[a].(edges := g.vertices[a].edges + [b])]
      [b := g.vertices[b].(edges := g.vertices[b].edges + [a])])
  {
  }

  /** Adding an edge that is already there changes nothing. */
  lemma AddEdgeIdempotent(g: Graph, a: string, b: string)
    ensures AddEdge(AddEdge(g, a, b), a, b) == AddEdge(g, a, b)
  {
  }

  /** `connectVertices`: pair `a` and `b` as a double vertex. Refused, with
      the graph left as it was, when either name is not in the graph or
      either vertex already has a partner. */
  function ConnectVertices(g: Graph, a: string, b: string): (r: Result<Graph, GraphError>)
    ensures (a !in g.vertices || b !in g.vertices) ==> r == Failure(UnknownVertex(a, b))
    ensures a in g.vertices && b in g.vertices && (g.vertices[a].partner.Some? || g.vertices[b].partner.Some?)
      ==> r == Failure(AlreadyPaired(a, b))
    ensures r.Success? <==>
      a in g.vertices && b in g.vertices && g.vertices[a].partner.None? && g.vertices[b].partner.None?
    ensures r.Success? ==>
      && r.value.vertices.Keys == g.vertices.Keys
      && r.value.elements == g.elements
      && r.value.vertices[a].partner == Some(b)
      && r.value.vertices[b].partner == Some(a)
      && (forall n :: n in g.vertices ==> r.value.vertices[n].(partner := g.vertices[n].partner) == g.vertices[n])
      && (forall n :: n in g.vertices && n != a && n != b ==> r.value.vertices[n] == g.vertices[n])
    ensures r.Success? && KeysAreNames(g) ==> KeysAreNames(r.value)
    ensures r.Success? && PairingSymmetric(g) ==> PairingSymmetric(r.value)
  {
    if a !in g.vertices || b !in g.vertices then
      Failure(UnknownVertex(a, b))
    else if g.vertices[a].partner.Some? || g.vertices[b].partner.Some? then
      Failure(AlreadyPaired(a, b))
    else
      var g1 := g.vertices[a := g.vertices[a].(partner := Some(b))];
      Success(g.(vertices := g1[b := g1[b].(partner := Some(a))]))
  }

  /** The vertex names listed in `order`. */
  function Listed(order: seq<string>): set<string>
  {
    set i | 0 <= i < |order| :: order[i]
  }

  /** `order` is a possible iteration order of a dictionary with keys `ks`:
      it lists keys only, and every one of them. */
  predicate IsListing(order: seq<string>, ks: set<string>)
  {
    && (forall i :: 0 <= i < |order| ==> order[i] in ks)
    && (forall n :: n in ks ==> n in order)
  }

  lemma ListingListed(order: seq<string>, ks: set<string>)
    requires IsListing(order, ks)
    ensures Listed(order) == ks
  {
    forall n | n in ks ensures n in Listed(order) {
      var i :| 0 <= i < |order| && order[i] == n;
    }
  }

  /** The part of `m` whose keys are in `ks`. */
  function Restrict(m: map<string, Vertex>, ks: set<string>): (r: map<string, Vertex>)
    ensures r.Keys == m.Keys * ks
    ensures forall k :: k in r ==> r[k] == m[k]
  {
    map k | k in m && k in ks :: m[k]
  }

  /** `addVerticesFrom`: add the vertices of `sub` one by one, visiting the
      names in `order` (the order in which the source's dictionary happens
      to yield them). */
  function AddVerticesFrom(g: Graph, sub: Graph, order: seq<string>): (r: Graph)
    requires forall i :: 0 <= i < |order| ==> order[i] in sub.vertices
    ensures g.vertices.Keys <= r.vertices.Keys && g.elements.Keys <= r.elements.Keys
    ensures forall i :: 0 <= i < |order| ==> sub.vertices[order[i]].name in r.vertices
    ensures forall i :: 0 <= i < |order| ==> sub.vertices[order[i]].element.id in r.elements
    decreases |order|
  {
    if |order| == 0 then g
    else AddVerticesFrom(AddVertex(g, sub.vertices[order[0]]), sub, order[1..])
  }

  lemma ListedCons(order: seq<string>)
    requires |order| > 0
    ensures Listed(order) == {order[0]} + Listed(order[1..])
  {
    forall k | k in Listed(order) ensures k in {order[0]} + Listed(order[1..]) {
      var i :| 0 <= i < |order| && order[i] == k;
      if i > 0 { assert order[1..][i - 1] == k; }
    }
  }

  lemma MergeStep(m: map<string, Vertex>, sub: map<string, Vertex>, n: string, rest: set<string>)
    requires n in sub
    ensures m[n := sub[n]] + Restrict(sub, rest) == m + Restrict(sub, {n} + rest)
  {
    var lhs := m[n := sub[n]] + Restrict(sub, rest);
    var rhs := m + Restrict(sub, {n} + rest);
    assert lhs.Keys == rhs.Keys;
    forall k | k in lhs ensures lhs[k] == rhs[k] {
    }
  }

  /** Merging the vertices named in `order` yields the original vertices
      overridden by those of `sub`, whatever the order of the visit. */
  lemma {:induction false} AddVerticesFromMerges(g: Graph, sub: Graph, order: seq<string>)
    requires forall i :: 0 <= i < |order| ==> order[i] in sub.vertices
    requires KeysAreNames(sub)
    ensures AddVerticesFrom(g, sub, order).vertices == g.vertices + Restrict(sub.vertices, Listed(order))
    decreases |order|
  {
    if |order| > 0 {
      var v := sub.vertices[order[0]];
      var g1 := AddVertex(g, v);
      AddVerticesFromMerges(g1, sub, order[1..]);
      ListedCons(order);
      assert v.name == order[0];
      assert g1.vertices == g.vertices[order[0] := sub.vertices[order[0]]];
      MergeStep(g.vertices, sub.vertices, order[0], Listed(order[1..]));
    }
  }

  /** With `order` listing every name of `sub`, the merge is the map union
      (vertices of `sub` win) and every vertex of `sub` is then found by name. */
  lemma AddVerticesFromAll(g: Graph, sub: Graph, order: seq<string>)
    requires IsListing(order, sub.vertices.Keys)
    requires KeysAreNames(sub)
    ensures AddVerticesFrom(g, sub, order).vertices == g.vertices + sub.vertices
    ensures forall n :: n in sub.vertices ==> VertexByName(AddVerticesFrom(g, sub, order), n) == Success(sub.vertices[n])
  {
    AddVerticesFromMerges(g, sub, order);
    ListingListed(order, sub.vertices.Keys);
    assert Restrict(sub.vertices, Listed(order)) == sub.vertices;
  }

  /** Merging the vertices of one element registers that element once. */
  lemma {:induction false} AddVerticesFromElements(g: Graph, sub: Graph, order: seq<string>, e: Element)
    requires forall i :: 0 <= i < |order| ==> order[i] in sub.vertices
    requires forall n :: n in sub.vertices ==> sub.vertices[n].element == e
    ensures AddVerticesFrom(g, sub, order).elements == if |order| == 0 then g.elements else g.elements[e.id := e]
    decreases |order|
  {
    if |order| > 0 {
      var g1 := AddVertex(g, sub.vertices[order[0]]);
      AddVerticesFromElements(g1, sub, order[1..], e);
      assert g1.elements == g.elements[e.id := e];
      if |order| > 1 {
        assert g1.elements[e.id := e] == g.elements[e.id := e];
      }
    }
  }

  /** The union of two graphs' vertex maps keeps the invariants both have. */
  lemma UnionPreserves(g: Graph, sub: Graph, r: Graph)
    requires r.vertices == g.vertices + sub.vertices
    ensures KeysAreNames(g) && KeysAreNames(sub) ==> KeysAreNames(r)
    ensures EdgesClosed(g) && EdgesClosed(sub) ==> EdgesClosed(r)
    ensures EdgesDistinct(g) && EdgesDistinct(sub) ==> EdgesDistinct(r)
    ensures EdgesSymmetric(g) && EdgesSymmetric(sub) && g.vertices.Keys !! sub.vertices.Keys ==> EdgesSymmetric(r)
    ensures PairingSymmetric(g) && PairingSymmetric(sub) && g.vertices.Keys !! sub.vertices.Keys ==> PairingSymmetric(r)
  {
    if EdgesSymmetric(g) && EdgesSymmetric(sub) && g.vertices.Keys !! sub.vertices.Keys {
      forall a, b | a in r.vertices && b in r.vertices[a].edges ensures b in r.vertices && a in r.vertices[b].edges {
        if a in sub.vertices {
          assert b in sub.vertices;
        } else {
          assert b in g.vertices && a in g.vertices[b].edges;
          assert b !in sub.vertices;
        }
      }
    }
  }
}
