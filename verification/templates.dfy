/** The track element templates of railwaygraph/graph.py: `TrackElement`
    and its two variants `Track` and `Switch`, each a fixed little subgraph,
    and `Graph.addElementGraph`, which merges such a subgraph into a
    composite graph. */
module Templates {
  import opened Wrappers
  import opened Elements
  import opened Vertices
  import opened Graphs

  /** A track element: its identity and its private construction subgraph. */
  datatype TrackElement = TrackElement(element: Element, graph: Graph)

  /** Name of the vertex `suffix` ("A", "B" or "C") of element `id`. */
  function Port(id: string, suffix: string): string
  {
    id + "_" + suffix
  }

  lemma PortsDistinct(id: string)
    ensures Port(id, "A") != Port(id, "B") && Port(id, "A") != Port(id, "C") && Port(id, "B") != Port(id, "C")
  {
    assert Port(id, "A")[|id| + 1] == 'A';
    assert Port(id, "B")[|id| + 1] == 'B';
    assert Port(id, "C")[|id| + 1] == 'C';
  }

  /** `TrackElement(id)`: the base element, of generic kind, with an empty
      subgraph. */
  function BaseElement(id: string): (t: TrackElement)
    ensures t.element.id == id && t.element.kind == Generic
    ensures t.graph.vertices == map[] && t.graph.elements == map[]
  {
    TrackElement(Element(id, Generic), Empty)
  }

  /** The construction steps of `Track.__init__`: vertex A at (0,0) and
      vertex B at (1,0) added, then the edge A-B. */
  function TrackGraph(id: string): (r: Graph)
    ensures r.vertices.Keys == {Port(id, "A"), Port(id, "B")}
    ensures r.elements == map[id := Element(id, Plain)]
  {
    var e := Element(id, Plain);
    var a := NewVertex(Port(id, "A"), e, 0, 0);
    var b := NewVertex(Port(id, "B"), e, 1, 0);
    Graphs.AddEdge(AddVertex(AddVertex(Empty, a), b), a.name, b.name)
  }

  /** `Track(id)`: vertices `id_A` at (0,0) and `id_B` at (1,0), each the
      other's only neighbour, neither paired. */
  function Track(id: string): (t: TrackElement)
    ensures t.element == Element(id, Plain)
    ensures t.graph.vertices.Keys == {Port(id, "A"), Port(id, "B")}
    ensures t.graph.vertices[Port(id, "A")] == Vertex(Port(id, "A"), [Port(id, "B")], None, t.element, 0, 0)
    ensures t.graph.vertices[Port(id, "B")] == Vertex(Port(id, "B"), [Port(id, "A")], None, t.element, 1, 0)
    ensures t.graph.elements.Keys == {id} && t.graph.elements[id] == t.element
  {
    PortsDistinct(id);
    var e := Element(id, Plain);
    var (a, b) := (Port(id, "A"), Port(id, "B"));
    TrackElement(e, Graph(map[a := Vertex(a, [b], None, e, 0, 0), b := Vertex(b, [a], None, e, 1, 0)], map[id := e]))
  }

  /** `Track` holds exactly the graph the source's construction steps build. */
  lemma TrackBuiltAsInSource(id: string)
    ensures Track(id).graph == TrackGraph(id)
  {
    PortsDistinct(id);
    var e := Element(id, Plain);
    var a := NewVertex(Port(id, "A"), e, 0, 0);
    var b := NewVertex(Port(id, "B"), e, 1, 0);
    var g := AddVertex(AddVertex(Empty, a), b);
    AddEdgeNew(g, a.name, b.name);
    assert Track(id).graph.vertices == TrackGraph(id).vertices;
    assert Track(id).graph.elements == TrackGraph(id).elements;
  }

  /** The switch orientation table: relative positions (x, y) of legs B and C. */
  function LegPositions(o: Orientation): (int, int, int, int)
  {
    match o
    case UpperLeft => (1, 0, 1, 1)
    case UpperRight => (-1, 0, -1, 1)
    case LowerLeft => (1, 0, 1, -1)
    case LowerRight => (-1, 0, -1, -1)
  }

  /** The vertices `Switch.__init__` creates, before any edge. */
  function SwitchVertices(id: string, o: Orientation): (Vertex, Vertex, Vertex)
  {
    var e := Element(id, Turnout(o));
    var legs := LegPositions(o);
    (NewVertex(Port(id, "A"), e, 0, 0), NewVertex(Port(id, "B"), e, legs.0, legs.1), NewVertex(Port(id, "C"), e, legs.2, legs.3))
  }

  /** The construction steps of `Switch.__init__`: the three vertices added,
      then the edges A-B and A-C. */
  function SwitchGraph(id: string, o: Orientation): (r: Graph)
    ensures r.vertices.Keys == {Port(id, "A"), Port(id, "B"), Port(id, "C")}
    ensures r.elements == map[id := Element(id, Turnout(o))]
  {
    var (a, b, c) := SwitchVertices(id, o);
    var g := AddVertex(AddVertex(AddVertex(Empty, a), b), c);
    ElementsOfThree(a, b, c);
    assert g.vertices.Keys == {a.name, b.name, c.name};
    Graphs.AddEdge(Graphs.AddEdge(g, a.name, b.name), a.name, c.name)
  }

  /** Three fresh vertices of distinct names, the first joined to the other
      two in turn. */
  lemma ThreeJoined(a: Vertex, b: Vertex, c: Vertex)
    requires a.name != b.name && a.name != c.name && b.name != c.name
    requires a.edges == [] && b.edges == [] && c.edges == []
    ensures var g := AddVertex(AddVertex(AddVertex(Empty, a), b), c);
      var m := Graphs.AddEdge(Graphs.AddEdge(g, a.name, b.name), a.name, c.name).vertices;
      && m.Keys == {a.name, b.name, c.name}
      && m[a.name] == a.(edges := [b.name, c.name])
      && m[b.name] == b.(edges := [a.name])
      && m[c.name] == c.(edges := [a.name])
  {
    JoinedUpdates(a, b, c);
    ThreeUpdates(a, b, c);
    TwoAppended(a.edges, b.name, c.name);
  }

  lemma TwoAppended(s: seq<string>, x: string, y: string)
    requires s == []
    ensures s + [x] + [y] == [x, y] && s + [x] == [x]
  {
  }

  /** The same, as one map. */
  lemma ThreeJoinedMap(a: Vertex, b: Vertex, c: Vertex)
    requires a.name != b.name && a.name != c.name && b.name != c.name
    requires a.edges == [] && b.edges == [] && c.edges == []
    ensures var g := AddVertex(AddVertex(AddVertex(Empty, a), b), c);
      Graphs.AddEdge(Graphs.AddEdge(g, a.name, b.name), a.name, c.name).vertices
        == map[a.name := a.(edges := [b.name, c.name]), b.name := b.(edges := [a.name]), c.name := c.(edges := [a.name])]
  {
    ThreeJoined(a, b, c);
    var g := AddVertex(AddVertex(AddVertex(Empty, a), b), c);
    ThreeEntries(Graphs.AddEdge(Graphs.AddEdge(g, a.name, b.name), a.name, c.name).vertices, a.name, b.name, c.name);
  }

  lemma JoinedUpdates(a: Vertex, b: Vertex, c: Vertex)
    requires a.name != b.name && a.name != c.name && b.name != c.name
    requires a.edges == [] && b.edges == [] && c.edges == []
    ensures var g := AddVertex(AddVertex(AddVertex(Empty, a), b), c);
      var a1 := a.(edges := a.edges + [b.name]);
      Graphs.AddEdge(Graphs.AddEdge(g, a.name, b.name), a.name, c.name).vertices
        == map[a.name := a, b.name := b, c.name := c]
          [a.name := a1][b.name := b.(edges := b.edges + [a.name])]
          [a.name := a1.(edges := a1.edges + [c.name])][c.name := c.(edges := c.edges + [a.name])]
  {
    var g := AddVertex(AddVertex(AddVertex(Empty, a), b), c);
    AddEdgeNew(g, a.name, b.name);
    var g1 := Graphs.AddEdge(g, a.name, b.name);
    AddEdgeNew(g1, a.name, c.name);
  }

  /** The edge updates of `SwitchGraph` on three vertices of distinct names. */
  lemma ThreeUpdates(a: Vertex, b: Vertex, c: Vertex)
    requires a.name != b.name && a.name != c.name && b.name != c.name
    ensures var a1 := a.(edges := a.edges + [b.name]);
      var m := map[a.name := a, b.name := b, c.name := c]
        [a.name := a1][b.name := b.(edges := b.edges + [a.name])]
        [a.name := a1.(edges := a1.edges + [c.name])][c.name := c.(edges := c.edges + [a.name])];
      && m.Keys == {a.name, b.name, c.name}
      && m[a.name] == a.(edges := a.edges + [b.name] + [c.name])
      && m[b.name] == b.(edges := b.edges + [a.name])
      && m[c.name] == c.(edges := c.edges + [a.name])
  {
  }

  /** `Switch(id, o)`: throat `id_A` at (0,0) joined to legs `id_B` and
      `id_C`, which are not joined to each other. B lies one step to the
      right for left orientations and to the left otherwise; C shares B's x
      and lies one step up for upper orientations and down otherwise. */
  function Switch(id: string, o: Orientation): (t: TrackElement)
    ensures t.element == Element(id, Turnout(o))
    ensures t.graph.vertices.Keys == {Port(id, "A"), Port(id, "B"), Port(id, "C")}
    ensures t.graph.vertices[Port(id, "A")] == Vertex(Port(id, "A"), [Port(id, "B"), Port(id, "C")], None, t.element, 0, 0)
    ensures t.graph.vertices[Port(id, "B")].(x := 0) == Vertex(Port(id, "B"), [Port(id, "A")], None, t.element, 0, 0)
    ensures t.graph.vertices[Port(id, "C")].(x := 0, y := 0) == Vertex(Port(id, "C"), [Port(id, "A")], None, t.element, 0, 0)
    ensures t.graph.vertices[Port(id, "B")].x == (if o.UpperLeft? || o.LowerLeft? then 1 else -1)
    ensures t.graph.vertices[Port(id, "C")].x == t.graph.vertices[Port(id, "B")].x
    ensures t.graph.vertices[Port(id, "C")].y == (if o.UpperLeft? || o.UpperRight? then 1 else -1)
    ensures t.graph.elements.Keys == {id} && t.graph.elements[id] == t.element
  {
    PortsDistinct(id);
    var e := Element(id, Turnout(o));
    var legs := LegPositions(o);
    var (a, b, c) := (Port(id, "A"), Port(id, "B"), Port(id, "C"));
    TrackElement(e, Graph(
      map[a := Vertex(a, [b, c], None, e, 0, 0), b := Vertex(b, [a], None, e, legs.0, legs.1), c := Vertex(c, [a], None, e, legs.2, legs.3)],
      map[id := e]))
  }

  /** `Switch` holds exactly the graph the source's construction steps build. */
  lemma SwitchBuiltAsInSource(id: string, o: Orientation)
    ensures Switch(id, o).graph == SwitchGraph(id, o)
  {
    PortsDistinct(id);
    var (va, vb, vc) := SwitchVertices(id, o);
    ThreeJoinedMap(va, vb, vc);
    ElementsOfThree(va, vb, vc);
    assert Switch(id, o).graph.vertices == SwitchGraph(id, o).vertices;
    assert Switch(id, o).graph.elements == SwitchGraph(id, o).elements;
  }

  /** Three vertices of one element register that element once. */
  lemma ElementsOfThree(a: Vertex, b: Vertex, c: Vertex)
    requires a.element == b.element == c.element
    ensures AddVertex(AddVertex(AddVertex(Empty, a), b), c).elements == map[a.element.id := a.element]
  {
  }

  lemma ThreeEntries<V>(m: map<string, V>, a: string, b: string, c: string)
    requires m.Keys == {a, b, c}
    ensures m == map[a := m[a], b := m[b], c := m[c]]
  {
  }

  /** The neighbours and partners of the switch vertices, whatever the orientation. */
  lemma SwitchLinks(id: string, o: Orientation)
    ensures var m := Switch(id, o).graph.vertices;
      && m.Keys == {Port(id, "A"), Port(id, "B"), Port(id, "C")}
      && (forall n :: n in m ==> m[n].name == n && m[n].partner.None? && m[n].element == Element(id, Turnout(o)))
      && m[Port(id, "A")].edges == [Port(id, "B"), Port(id, "C")]
      && m[Port(id, "B")].edges == [Port(id, "A")]
      && m[Port(id, "C")].edges == [Port(id, "A")]
  {
    PortsDistinct(id);
    var t := Switch(id, o);
    var m := t.graph.vertices;
    var (b, c) := (m[Port(id, "B")].(x := 0), m[Port(id, "C")].(x := 0, y := 0));
    assert b.edges == [Port(id, "A")] && b.partner.None? && b.element == t.element;
    assert c.edges == [Port(id, "A")] && c.partner.None? && c.element == t.element;
    assert b.name == Port(id, "B") && c.name == Port(id, "C");
    forall n | n in m ensures m[n].name == n && m[n].partner.None? && m[n].element == Element(id, Turnout(o)) {
      assert n == Port(id, "A") || n == Port(id, "B") || n == Port(id, "C");
    }
  }

  /** Two vertex maps with the same names, neighbours and partners. */
  predicate SameLinks(m1: map<string, Vertex>, m2: map<string, Vertex>)
  {
    && m1.Keys == m2.Keys
    && forall n :: n in m1 ==> m1[n].edges == m2[n].edges && m1[n].partner == m2[n].partner
  }

  lemma SameLinksOfThree(a: string, b: string, c: string, m1: map<string, Vertex>, m2: map<string, Vertex>)
    requires m1.Keys == {a, b, c} && m2.Keys == m1.Keys
    requires forall n :: n in m1 ==> m1[n].partner.None? && m2[n].partner.None?
    requires m1[a].edges == m2[a].edges && m1[b].edges == m2[b].edges && m1[c].edges == m2[c].edges
    ensures SameLinks(m1, m2)
  {
  }

  /** The orientation of a switch changes its layout only, never its
      vertices or their neighbours. */
  lemma SwitchOrientationIrrelevant(id: string, o1: Orientation, o2: Orientation)
    ensures SameLinks(Switch(id, o1).graph.vertices, Switch(id, o2).graph.vertices)
  {
    SwitchLinks(id, o1);
    SwitchLinks(id, o2);
    SameLinksOfThree(Port(id, "A"), Port(id, "B"), Port(id, "C"), Switch(id, o1).graph.vertices, Switch(id, o2).graph.vertices);
  }

  /** The subgraph of an element is well formed: names are keys, adjacency
      is symmetric, closed and without repeats, every vertex belongs to the
      element, and nothing is paired yet. */
  predicate WellFormedTemplate(t: TrackElement)
  {
    && KeysAreNames(t.graph)
    && EdgesClosed(t.graph)
    && EdgesSymmetric(t.graph)
    && EdgesDistinct(t.graph)
    && ElementsRegistered(t.graph)
    && (forall n :: n in t.graph.vertices ==> t.graph.vertices[n].element == t.element)
    && (forall n :: n in t.graph.vertices ==> t.graph.vertices[n].partner.None?)
  }

  lemma TrackWellFormed(id: string)
    ensures WellFormedTemplate(Track(id))
  {
    PortsDistinct(id);
    var t := Track(id);
    assert forall n :: n in t.graph.vertices ==> n == Port(id, "A") || n == Port(id, "B");
  }

  /** A three-vertex subgraph shaped like a switch is well formed. */
  lemma ForkWellFormed(t: TrackElement, a: string, b: string, c: string)
    requires a != b && a != c && b != c
    requires t.graph.vertices.Keys == {a, b, c}
    requires forall n :: n in t.graph.vertices ==>
      t.graph.vertices[n].name == n && t.graph.vertices[n].partner.None? && t.graph.vertices[n].element == t.element
    requires t.graph.vertices[a].edges == [b, c]
    requires t.graph.vertices[b].edges == [a] && t.graph.vertices[c].edges == [a]
    requires t.graph.elements.Keys == {t.element.id} && t.graph.elements[t.element.id] == t.element
    ensures WellFormedTemplate(t)
  {
  }

  lemma SwitchWellFormed(id: string, o: Orientation)
    ensures WellFormedTemplate(Switch(id, o))
  {
    PortsDistinct(id);
    SwitchLinks(id, o);
    ForkWellFormed(Switch(id, o), Port(id, "A"), Port(id, "B"), Port(id, "C"));
  }

  /** `addElementGraph`: merge the element's vertices into `g`, visiting them
      in `order` (the source's dictionary order). For the well-formed
      subgraphs `Track` and `Switch` build, the result is the union of the
      vertex maps with the element registered, and the invariants of `g`
      carry over. */
  function AddElementGraph(g: Graph, t: TrackElement, order: seq<string>): (r: Graph)
    requires IsListing(order, t.graph.vertices.Keys)
    ensures WellFormedTemplate(t) ==> r.vertices == g.vertices + t.graph.vertices
    ensures WellFormedTemplate(t) ==>
      r.elements == if |t.graph.vertices| == 0 then g.elements else g.elements[t.element.id := t.element]
    ensures WellFormedTemplate(t) && KeysAreNames(g) ==> KeysAreNames(r)
    ensures WellFormedTemplate(t) && EdgesClosed(g) ==> EdgesClosed(r)
    ensures WellFormedTemplate(t) && EdgesDistinct(g) ==> EdgesDistinct(r)
    ensures WellFormedTemplate(t) && EdgesSymmetric(g) && g.vertices.Keys !! t.graph.vertices.Keys ==> EdgesSymmetric(r)
    ensures WellFormedTemplate(t) && PairingSymmetric(g) && g.vertices.Keys !! t.graph.vertices.Keys ==> PairingSymmetric(r)
  {
    AddElementGraphUnion(g, t, order);
    AddVerticesFrom(g, t.graph, order)
  }

  /** What merging a well-formed element does: the union of the vertex maps,
      the element registered once, and the invariants of `g` kept. */
  lemma AddElementGraphUnion(g: Graph, t: TrackElement, order: seq<string>)
    requires IsListing(order, t.graph.vertices.Keys)
    ensures var r := AddVerticesFrom(g, t.graph, order);
      && (WellFormedTemplate(t) ==> r.vertices == g.vertices + t.graph.vertices)
      && (WellFormedTemplate(t) ==>
            r.elements == if |t.graph.vertices| == 0 then g.elements else g.elements[t.element.id := t.element])
      && (WellFormedTemplate(t) && KeysAreNames(g) ==> KeysAreNames(r))
      && (WellFormedTemplate(t) && EdgesClosed(g) ==> EdgesClosed(r))
      && (WellFormedTemplate(t) && EdgesDistinct(g) ==> EdgesDistinct(r))
      && (WellFormedTemplate(t) && EdgesSymmetric(g) && g.vertices.Keys !! t.graph.vertices.Keys ==> EdgesSymmetric(r))
      && (WellFormedTemplate(t) && PairingSymmetric(g) && g.vertices.Keys !! t.graph.vertices.Keys ==> PairingSymmetric(r))
  {
    if WellFormedTemplate(t) {
      AddVerticesFromAll(g, t.graph, order);
      AddVerticesFromElements(g, t.graph, order, t.element);
      assert |order| == 0 ==> t.graph.vertices == map[];
      assert PairingSymmetric(t.graph);
      UnionPreserves(g, t.graph, AddVerticesFrom(g, t.graph, order));
    }
  }

  /** The base element has no vertices, so merging it changes nothing: in
      particular it registers no element. */
  lemma BaseElementAddsNothing(g: Graph, id: string)
    ensures IsListing([], BaseElement(id).graph.vertices.Keys)
    ensures AddElementGraph(g, BaseElement(id), []) == g
  {
  }
}
