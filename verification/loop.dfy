/** A graph on which the source's `findPath` never completes its search,
    and what the corrected search answers on it.

    Eight vertices form four double vertices: s/sp, a/ap, v/vp and e/ep
    (`sp` is the partner of `s`, and so on). Through sp one reaches v and a;
    through ap one reaches v; through vp one reaches e and v itself.
    Searching from s to e, the source first explores v (finding e, so v is
    marked OK), then a, whose route re-enters v. Because v is OK and its
    partner vp was never marked, the OK branch explores vp's neighbours
    again, among them v, and so on without end: the routes s a v e,
    s a v v e, s a v v v e, ... are found one after another, until the
    interpreter's recursion limit aborts the call with a `RuntimeError`. */
module LoopExample {
  import opened Wrappers
  import opened Elements
  import Vertices
  import opened Graphs
  import opened Search
  import opened Scenarios

  /** One value per vertex of the example, by role. */
  datatype Eight<T> = Eight(s: T, sp: T, a: T, ap: T, v: T, vp: T, e: T, ep: T)

  /** Neighbours and partner of one vertex. */
  type Entry = (seq<string>, Option<string>)

  predicate Distinct(n: Eight<string>)
  {
    && n.s != n.sp && n.s != n.a && n.s != n.ap && n.s != n.v && n.s != n.vp && n.s != n.e && n.s != n.ep
    && n.sp != n.a && n.sp != n.ap && n.sp != n.v && n.sp != n.vp && n.sp != n.e && n.sp != n.ep
    && n.a != n.ap && n.a != n.v && n.a != n.vp && n.a != n.e && n.a != n.ep
    && n.ap != n.v && n.ap != n.vp && n.ap != n.e && n.ap != n.ep
    && n.v != n.vp && n.v != n.e && n.v != n.ep
    && n.vp != n.e && n.vp != n.ep
    && n.e != n.ep
  }

  function Names(n: Eight<string>): seq<string>
  {
    [n.s, n.sp, n.a, n.ap, n.v, n.vp, n.e, n.ep]
  }

  /** Each of the eight vertices is present with the entry `t` gives it. */
  predicate Shaped(g: Graph, n: Eight<string>, t: Eight<Entry>)
  {
    && Has(g, n.s, t.s.0, t.s.1) && Has(g, n.sp, t.sp.0, t.sp.1)
    && Has(g, n.a, t.a.0, t.a.1) && Has(g, n.ap, t.ap.0, t.ap.1)
    && Has(g, n.v, t.v.0, t.v.1) && Has(g, n.vp, t.vp.0, t.vp.1)
    && Has(g, n.e, t.e.0, t.e.1) && Has(g, n.ep, t.ep.0, t.ep.1)
  }

  /** Adds a vertex of element `el` for each name, in order. */
  function AddAll(g: Graph, names: seq<string>, el: Element): (r: Graph)
    ensures r.vertices.Keys == g.vertices.Keys + set k | k in names
    decreases |names|
  {
    if |names| == 0 then g
    else
      var r := AddAll(AddVertex(g, Vertices.NewVertex(names[0], el, 0, 0)), names[1..], el);
      assert (set k | k in names) == {names[0]} + set k | k in names[1..];
      r
  }

  lemma {:induction false} AddAllKeeps(g: Graph, names: seq<string>, el: Element, n: string)
    requires n in g.vertices && n !in names
    ensures AddAll(g, names, el).vertices[n] == g.vertices[n]
    decreases |names|
  {
    if |names| > 0 {
      AddAllKeeps(AddVertex(g, Vertices.NewVertex(names[0], el, 0, 0)), names[1..], el, n);
    }
  }

  /** Every name listed once ends up as a fresh vertex. */
  lemma {:induction false} AddAllFresh(g: Graph, names: seq<string>, el: Element)
    requires Vertices.NoDup(names)
    ensures forall i :: 0 <= i < |names| ==> Has(AddAll(g, names, el), names[i], [], None)
    decreases |names|
  {
    if |names| > 0 {
      var g1 := AddVertex(g, Vertices.NewVertex(names[0], el, 0, 0));
      AddAllFresh(g1, names[1..], el);
      forall i | 0 <= i < |names| ensures Has(AddAll(g, names, el), names[i], [], None) {
        if i > 0 {
          assert names[1..][i - 1] == names[i];
        } else {
          AddAllKeeps(g1, names[1..], el, names[0]);
        }
      }
    }
  }

  /** The next connection, unless an earlier one failed. */
  function Then(r: Result<Graph, GraphError>, a: string, b: string): Result<Graph, GraphError>
  {
    if r.Failure? then r else ConnectVertices(r.value, a, b)
  }

  /** The graph the calls build: the eight vertices, then the edges
      sp-v, sp-a, ap-v, vp-e and vp-v in this order, then the four
      connections. */
  function Built(n: Eight<string>, el: Element): Result<Graph, GraphError>
  {
    Then(Then(Then(ConnectVertices(Edged(n, el), n.s, n.sp), n.a, n.ap), n.v, n.vp), n.e, n.ep)
  }

  /** The eight vertices with their edges, before any connection. */
  function Edged(n: Eight<string>, el: Element): Graph
  {
    var g0 := AddAll(Empty, Names(n), el);
    Graphs.AddEdge(Graphs.AddEdge(Graphs.AddEdge(Graphs.AddEdge(Graphs.AddEdge(g0,
      n.sp, n.v), n.sp, n.a), n.ap, n.v), n.vp, n.e), n.vp, n.v)
  }

  const Fresh: Entry := ([], None)

  /** The finished example. */
  function Final(n: Eight<string>): Eight<Entry>
  {
    Eight(([], Some(n.sp)), ([n.v, n.a], Some(n.s)),
          ([n.sp], Some(n.ap)), ([n.v], Some(n.a)),
          ([n.sp, n.ap, n.vp], Some(n.vp)), ([n.e, n.v], Some(n.v)),
          ([n.vp], Some(n.ep)), ([], Some(n.e)))
  }

  lemma EdgeAdded(g: Graph, a: string, b: string, ea: seq<string>, eb: seq<string>, pa: Option<string>, pb: Option<string>)
    requires Has(g, a, ea, pa) && Has(g, b, eb, pb) && a != b && b !in ea && a !in eb
    ensures Has(Graphs.AddEdge(g, a, b), a, ea + [b], pa)
    ensures Has(Graphs.AddEdge(g, a, b), b, eb + [a], pb)
  {
    AddEdgeNew(g, a, b);
  }

  lemma EdgeKept(g: Graph, a: string, b: string, k: string, ek: seq<string>, pk: Option<string>)
    requires Has(g, k, ek, pk) && k != a && k != b
    ensures Has(Graphs.AddEdge(g, a, b), k, ek, pk)
  {
    AddEdgeFrame(g, a, b);
  }

  lemma NamesDistinct(n: Eight<string>)
    requires Distinct(n)
    ensures Vertices.NoDup(Names(n))
  {
    var ns := Names(n);
    forall i, j | 0 <= i < j < 8 ensures ns[i] != ns[j] {
    }
  }

  lemma Vertices8(n: Eight<string>, el: Element)
    requires Distinct(n)
    ensures Shaped(AddAll(Empty, Names(n), el), n, Eight(Fresh, Fresh, Fresh, Fresh, Fresh, Fresh, Fresh, Fresh))
  {
    NamesDistinct(n);
    AddAllFresh(Empty, Names(n), el);
    var r := AddAll(Empty, Names(n), el);
    assert Has(r, Names(n)[0], [], None) && Has(r, Names(n)[1], [], None);
    assert Has(r, Names(n)[2], [], None) && Has(r, Names(n)[3], [], None);
    assert Has(r, Names(n)[4], [], None) && Has(r, Names(n)[5], [], None);
    assert Has(r, Names(n)[6], [], None) && Has(r, Names(n)[7], [], None);
  }

  lemma EdgeSpV(g: Graph, n: Eight<string>, t: Eight<Entry>, u: Eight<Entry>)
    requires Distinct(n) && Shaped(g, n, t) && n.v !in t.sp.0 && n.sp !in t.v.0
    requires u == t.(sp := (t.sp.0 + [n.v], t.sp.1), v := (t.v.0 + [n.sp], t.v.1))
    ensures Shaped(Graphs.AddEdge(g, n.sp, n.v), n, u)
  {
    EdgeAdded(g, n.sp, n.v, t.sp.0, t.v.0, t.sp.1, t.v.1);
    EdgeKept(g, n.sp, n.v, n.s, t.s.0, t.s.1);
    EdgeKept(g, n.sp, n.v, n.a, t.a.0, t.a.1);
    EdgeKept(g, n.sp, n.v, n.ap, t.ap.0, t.ap.1);
    EdgeKept(g, n.sp, n.v, n.vp, t.vp.0, t.vp.1);
    EdgeKept(g, n.sp, n.v, n.e, t.e.0, t.e.1);
    EdgeKept(g, n.sp, n.v, n.ep, t.ep.0, t.ep.1);
  }

  lemma EdgeSpA(g: Graph, n: Eight<string>, t: Eight<Entry>, u: Eight<Entry>)
    requires Distinct(n) && Shaped(g, n, t) && n.a !in t.sp.0 && n.sp !in t.a.0
    requires u == t.(sp := (t.sp.0 + [n.a], t.sp.1), a := (t.a.0 + [n.sp], t.a.1))
    ensures Shaped(Graphs.AddEdge(g, n.sp, n.a), n, u)
  {
    EdgeAdded(g, n.sp, n.a, t.sp.0, t.a.0, t.sp.1, t.a.1);
    EdgeKept(g, n.sp, n.a, n.s, t.s.0, t.s.1);
    EdgeKept(g, n.sp, n.a, n.ap, t.ap.0, t.ap.1);
    EdgeKept(g, n.sp, n.a, n.v, t.v.0, t.v.1);
    EdgeKept(g, n.sp, n.a, n.vp, t.vp.0, t.vp.1);
    EdgeKept(g, n.sp, n.a, n.e, t.e.0, t.e.1);
    EdgeKept(g, n.sp, n.a, n.ep, t.ep.0, t.ep.1);
  }

  lemma EdgeApV(g: Graph, n: Eight<string>, t: Eight<Entry>, u: Eight<Entry>)
    requires Distinct(n) && Shaped(g, n, t) && n.v !in t.ap.0 && n.ap !in t.v.0
    requires u == t.(ap := (t.ap.0 + [n.v], t.ap.1), v := (t.v.0 + [n.ap], t.v.1))
    ensures Shaped(Graphs.AddEdge(g, n.ap, n.v), n, u)
  {
    EdgeAdded(g, n.ap, n.v, t.ap.0, t.v.0, t.ap.1, t.v.1);
    EdgeKept(g, n.ap, n.v, n.s, t.s.0, t.s.1);
    EdgeKept(g, n.ap, n.v, n.sp, t.sp.0, t.sp.1);
    EdgeKept(g, n.ap, n.v, n.a, t.a.0, t.a.1);
    EdgeKept(g, n.ap, n.v, n.vp, t.vp.0, t.vp.1);
    EdgeKept(g, n.ap, n.v, n.e, t.e.0, t.e.1);
    EdgeKept(g, n.ap, n.v, n.ep, t.ep.0, t.ep.1);
  }

  lemma EdgeVpE(g: Graph, n: Eight<string>, t: Eight<Entry>, u: Eight<Entry>)
    requires Distinct(n) && Shaped(g, n, t) && n.e !in t.vp.0 && n.vp !in t.e.0
    requires u == t.(vp := (t.vp.0 + [n.e], t.vp.1), e := (t.e.0 + [n.vp], t.e.1))
    ensures Shaped(Graphs.AddEdge(g, n.vp, n.e), n, u)
  {
    EdgeAdded(g, n.vp, n.e, t.vp.0, t.e.0, t.vp.1, t.e.1);
    EdgeKept(g, n.vp, n.e, n.s, t.s.0, t.s.1);
    EdgeKept(g, n.vp, n.e, n.sp, t.sp.0, t.sp.1);
    EdgeKept(g, n.vp, n.e, n.a, t.a.0, t.a.1);
    EdgeKept(g, n.vp, n.e, n.ap, t.ap.0, t.ap.1);
    EdgeKept(g, n.vp, n.e, n.v, t.v.0, t.v.1);
    EdgeKept(g, n.vp, n.e, n.ep, t.ep.0, t.ep.1);
  }

  lemma EdgeVpV(g: Graph, n: Eight<string>, t: Eight<Entry>, u: Eight<Entry>)
    requires Distinct(n) && Shaped(g, n, t) && n.v !in t.vp.0 && n.vp !in t.v.0
    requires u == t.(vp := (t.vp.0 + [n.v], t.vp.1), v := (t.v.0 + [n.vp], t.v.1))
    ensures Shaped(Graphs.AddEdge(g, n.vp, n.v), n, u)
  {
    EdgeAdded(g, n.vp, n.v, t.vp.0, t.v.0, t.vp.1, t.v.1);
    EdgeKept(g, n.vp, n.v, n.s, t.s.0, t.s.1);
    EdgeKept(g, n.vp, n.v, n.sp, t.sp.0, t.sp.1);
    EdgeKept(g, n.vp, n.v, n.a, t.a.0, t.a.1);
    EdgeKept(g, n.vp, n.v, n.ap, t.ap.0, t.ap.1);
    EdgeKept(g, n.vp, n.v, n.e, t.e.0, t.e.1);
    EdgeKept(g, n.vp, n.v, n.ep, t.ep.0, t.ep.1);
  }

  lemma PairS(g: Graph, n: Eight<string>, t: Eight<Entry>)
    requires Distinct(n) && Shaped(g, n, t) && t.s.1 == None && t.sp.1 == None
    ensures ConnectVertices(g, n.s, n.sp).Success?
    ensures ConnectVertices(g, n.s, n.sp).value.vertices.Keys == g.vertices.Keys
    ensures Shaped(ConnectVertices(g, n.s, n.sp).value, n, t.(s := (t.s.0, Some(n.sp)), sp := (t.sp.0, Some(n.s))))
  {
    ConnectPairs(g, n.s, n.sp, t.s.0, t.sp.0);
    ConnectKeeps(g, n.s, n.sp, n.a, t.a.0, t.a.1);
    ConnectKeeps(g, n.s, n.sp, n.ap, t.ap.0, t.ap.1);
    ConnectKeeps(g, n.s, n.sp, n.v, t.v.0, t.v.1);
    ConnectKeeps(g, n.s, n.sp, n.vp, t.vp.0, t.vp.1);
    ConnectKeeps(g, n.s, n.sp, n.e, t.e.0, t.e.1);
    ConnectKeeps(g, n.s, n.sp, n.ep, t.ep.0, t.ep.1);
  }

  lemma PairA(g: Graph, n: Eight<string>, t: Eight<Entry>)
    requires Distinct(n) && Shaped(g, n, t) && t.a.1 == None && t.ap.1 == None
    ensures ConnectVertices(g, n.a, n.ap).Success?
    ensures ConnectVertices(g, n.a, n.ap).value.vertices.Keys == g.vertices.Keys
    ensures Shaped(ConnectVertices(g, n.a, n.ap).value, n, t.(a := (t.a.0, Some(n.ap)), ap := (t.ap.0, Some(n.a))))
  {
    ConnectPairs(g, n.a, n.ap, t.a.0, t.ap.0);
    ConnectKeeps(g, n.a, n.ap, n.s, t.s.0, t.s.1);
    ConnectKeeps(g, n.a, n.ap, n.sp, t.sp.0, t.sp.1);
    ConnectKeeps(g, n.a, n.ap, n.v, t.v.0, t.v.1);
    ConnectKeeps(g, n.a, n.ap, n.vp, t.vp.0, t.vp.1);
    ConnectKeeps(g, n.a, n.ap, n.e, t.e.0, t.e.1);
    ConnectKeeps(g, n.a, n.ap, n.ep, t.ep.0, t.ep.1);
  }

  lemma PairV(g: Graph, n: Eight<string>, t: Eight<Entry>)
    requires Distinct(n) && Shaped(g, n, t) && t.v.1 == None && t.vp.1 == None
    ensures ConnectVertices(g, n.v, n.vp).Success?
    ensures ConnectVertices(g, n.v, n.vp).value.vertices.Keys == g.vertices.Keys
    ensures Shaped(ConnectVertices(g, n.v, n.vp).value, n, t.(v := (t.v.0, Some(n.vp)), vp := (t.vp.0, Some(n.v))))
  {
    ConnectPairs(g, n.v, n.vp, t.v.0, t.vp.0);
    ConnectKeeps(g, n.v, n.vp, n.s, t.s.0, t.s.1);
    ConnectKeeps(g, n.v, n.vp, n.sp, t.sp.0, t.sp.1);
    ConnectKeeps(g, n.v, n.vp, n.a, t.a.0, t.a.1);
    ConnectKeeps(g, n.v, n.vp, n.ap, t.ap.0, t.ap.1);
    ConnectKeeps(g, n.v, n.vp, n.e, t.e.0, t.e.1);
    ConnectKeeps(g, n.v, n.vp, n.ep, t.ep.0, t.ep.1);
  }

  lemma PairE(g: Graph, n: Eight<string>, t: Eight<Entry>)
    requires Distinct(n) && Shaped(g, n, t) && t.e.1 == None && t.ep.1 == None
    ensures ConnectVertices(g, n.e, n.ep).Success?
    ensures ConnectVertices(g, n.e, n.ep).value.vertices.Keys == g.vertices.Keys
    ensures Shaped(ConnectVertices(g, n.e, n.ep).value, n, t.(e := (t.e.0, Some(n.ep)), ep := (t.ep.0, Some(n.e))))
  {
    ConnectPairs(g, n.e, n.ep, t.e.0, t.ep.0);
    ConnectKeeps(g, n.e, n.ep, n.s, t.s.0, t.s.1);
    ConnectKeeps(g, n.e, n.ep, n.sp, t.sp.0, t.sp.1);
    ConnectKeeps(g, n.e, n.ep, n.a, t.a.0, t.a.1);
    ConnectKeeps(g, n.e, n.ep, n.ap, t.ap.0, t.ap.1);
    ConnectKeeps(g, n.e, n.ep, n.v, t.v.0, t.v.1);
    ConnectKeeps(g, n.e, n.ep, n.vp, t.vp.0, t.vp.1);
  }

  /** Before the connections, every vertex has its final neighbours and no
      partner. */
  function Unpaired(n: Eight<string>): Eight<Entry>
  {
    Eight(([], None), ([n.v, n.a], None), ([n.sp], None), ([n.v], None),
          ([n.sp, n.ap, n.vp], None), ([n.e, n.v], None), ([n.vp], None), ([], None))
  }

  lemma Pairs(x: string, y: string, z: string)
    ensures [] + [x] == [x] && [x] + [y] == [x, y] && [x, y] + [z] == [x, y, z]
  {
  }

  /** After the edges sp-v and sp-a. */
  function FromSp(n: Eight<string>): Eight<Entry>
  {
    Eight(Fresh, ([n.v, n.a], None), ([n.sp], None), Fresh, ([n.sp], None), Fresh, Fresh, Fresh)
  }

  lemma EdgesFromSp(g: Graph, n: Eight<string>)
    requires Distinct(n) && Shaped(g, n, Eight(Fresh, Fresh, Fresh, Fresh, Fresh, Fresh, Fresh, Fresh))
    ensures Shaped(Graphs.AddEdge(Graphs.AddEdge(g, n.sp, n.v), n.sp, n.a), n, FromSp(n))
  {
    Pairs(n.v, n.a, n.a);
    Pairs(n.sp, n.sp, n.sp);
    var t0 := Eight(Fresh, Fresh, Fresh, Fresh, Fresh, Fresh, Fresh, Fresh);
    var t1 := Eight(Fresh, ([n.v], None), Fresh, Fresh, ([n.sp], None), Fresh, Fresh, Fresh);
    EdgeSpV(g, n, t0, t1);
    EdgeSpA(Graphs.AddEdge(g, n.sp, n.v), n, t1, FromSp(n));
  }

  lemma EdgesFromApVp(g: Graph, n: Eight<string>)
    requires Distinct(n) && Shaped(g, n, FromSp(n))
    ensures Shaped(Graphs.AddEdge(Graphs.AddEdge(Graphs.AddEdge(g, n.ap, n.v), n.vp, n.e), n.vp, n.v), n, Unpaired(n))
  {
    Pairs(n.sp, n.ap, n.vp);
    Pairs(n.v, n.v, n.v);
    Pairs(n.e, n.v, n.v);
    Pairs(n.vp, n.vp, n.vp);
    var t3 := Eight(Fresh, ([n.v, n.a], None), ([n.sp], None), ([n.v], None), ([n.sp, n.ap], None), Fresh, Fresh, Fresh);
    EdgeApV(g, n, FromSp(n), t3);
    var g3 := Graphs.AddEdge(g, n.ap, n.v);
    var t4 := Eight(Fresh, ([n.v, n.a], None), ([n.sp], None), ([n.v], None), ([n.sp, n.ap], None), ([n.e], None), ([n.vp], None), Fresh);
    EdgeVpE(g3, n, t3, t4);
    EdgeVpV(Graphs.AddEdge(g3, n.vp, n.e), n, t4, Unpaired(n));
  }

  lemma EdgedKeys(n: Eight<string>, el: Element)
    ensures Edged(n, el).vertices.Keys == set k | k in Names(n)
  {
  }

  lemma EdgedShape(n: Eight<string>, el: Element)
    requires Distinct(n)
    ensures Shaped(Edged(n, el), n, Unpaired(n))
  {
    Vertices8(n, el);
    var g0 := AddAll(Empty, Names(n), el);
    EdgesFromSp(g0, n);
    EdgesFromApVp(Graphs.AddEdge(Graphs.AddEdge(g0, n.sp, n.v), n.sp, n.a), n);
  }

  /** The calls succeed and build the example: eight vertices, all paired,
      with the neighbours `Final` lists. */
  lemma BuiltShape(n: Eight<string>, el: Element)
    requires Distinct(n)
    ensures Built(n, el).Success?
    ensures Built(n, el).value.vertices.Keys == set k | k in Names(n)
    ensures Shaped(Built(n, el).value, n, Final(n))
  {
    EdgedKeys(n, el);
    EdgedShape(n, el);
    var g5 := Edged(n, el);
    var t5 := Unpaired(n);
    PairS(g5, n, t5);
    var g6 := ConnectVertices(g5, n.s, n.sp).value;
    var t6 := t5.(s := (t5.s.0, Some(n.sp)), sp := (t5.sp.0, Some(n.s)));
    PairA(g6, n, t6);
    var g7 := ConnectVertices(g6, n.a, n.ap).value;
    var t7 := t6.(a := (t6.a.0, Some(n.ap)), ap := (t6.ap.0, Some(n.a)));
    PairV(g7, n, t7);
    var g8 := ConnectVertices(g7, n.v, n.vp).value;
    var t8 := t7.(v := (t7.v.0, Some(n.vp)), vp := (t7.vp.0, Some(n.v)));
    PairE(g8, n, t8);
    assert Then(ConnectVertices(g5, n.s, n.sp), n.a, n.ap) == ConnectVertices(g6, n.a, n.ap);
    assert Then(ConnectVertices(g6, n.a, n.ap), n.v, n.vp) == ConnectVertices(g7, n.v, n.vp);
    assert Then(ConnectVertices(g7, n.v, n.vp), n.e, n.ep) == ConnectVertices(g8, n.e, n.ep);
    assert Built(n, el) == ConnectVertices(g8, n.e, n.ep);
    assert t8.(e := (t8.e.0, Some(n.ep)), ep := (t8.ep.0, Some(n.e))) == Final(n);
  }

  /** The example graph, built by the calls `Built` makes. */
  function LoopGraph(n: Eight<string>, el: Element): (g: Graph)
    requires Distinct(n)
    ensures g.vertices.Keys == set k | k in Names(n)
    ensures Shaped(g, n, Final(n))
  {
    BuiltShape(n, el);
    Built(n, el).value
  }

  /** The eight vertices of a graph shaped like the example. */
  predicate Example(g: Graph, n: Eight<string>)
  {
    Distinct(n) && Shaped(g, n, Final(n))
  }

  /* The searches from s to e, one call of the recursion at a time, for
     any marks that agree with what the search has done so far. */

  /** Entering e, the end vertex: the route is recorded and e marked OK,
      also when e is OK already. */
  lemma EnterEnd(g: Graph, n: Eight<string>, p: seq<string>, m: map<string, Mark>, sol: seq<seq<string>>, fuel: nat, policy: Policy)
    requires Example(g, n) && m.Keys == g.vertices.Keys
    requires |p| > 0 && Last(p) == n.e
    requires m[n.e] != NotOK && m[n.ep] == Unknown
    ensures Explore(g, n.e, p, State(m, sol), fuel, policy) == Success(State(m[n.e := OK], sol + [p]))
  {
  }

  /** The first visit of v, from s: through vp it finds e, so v ends up OK
      with the route s v e recorded. Re-entering v itself ends at once, v
      being NOT OK at that moment. */
  lemma FirstVisit(g: Graph, n: Eight<string>, m: map<string, Mark>, sol: seq<seq<string>>, fuel: nat, policy: Policy)
    requires Example(g, n) && m.Keys == g.vertices.Keys
    requires m[n.v] == Unknown && m[n.vp] == Unknown && m[n.e] == Unknown && m[n.ep] == Unknown
    ensures fuel == 0 ==> Explore(g, n.e, [n.s, n.v], State(m, sol), fuel, policy) == Failure(OutOfFuel)
    ensures fuel > 0 ==>
      Explore(g, n.e, [n.s, n.v], State(m, sol), fuel, policy)
        == Success(State(m[n.v := NotOK][n.e := OK][n.v := OK], sol + [[n.s, n.v, n.e]]))
  {
    var p := [n.s, n.v];
    assert Last(p) == n.v && n.e !in p && n.v in p;
    var m1 := m[n.v := NotOK];
    if fuel > 0 {
      EnterEnd(g, n, p + [n.e], m1, sol, fuel - 1, policy);
      assert p + [n.e] == [n.s, n.v, n.e];
      var s2 := State(m1[n.e := OK], sol + [[n.s, n.v, n.e]]);
      assert Last(p + [n.v]) == n.v;
      assert ExploreAll(g, n.e, p, [], s2, true, fuel, policy) == Success((s2, true));
      assert ExploreAll(g, n.e, p, [n.v], s2, true, fuel, policy) == Success((s2, true));
      assert ExploreAll(g, n.e, p, [n.e, n.v], State(m1, sol), false, fuel, policy) == Success((s2, true));
    }
  }

  /** Once v and e are OK and vp is not marked, a route entering v
      explores vp's neighbours again: it records a route through e and
      then enters v once more, and so on until the fuel is gone. */
  lemma {:induction false} Revisit(g: Graph, n: Eight<string>, p: seq<string>, m: map<string, Mark>, sol: seq<seq<string>>, fuel: nat)
    requires Example(g, n) && m.Keys == g.vertices.Keys
    requires |p| > 0 && Last(p) == n.v
    requires m[n.v] == OK && m[n.vp] == Unknown && m[n.e] == OK && m[n.ep] == Unknown
    ensures Explore(g, n.e, p, State(m, sol), fuel, AsWritten) == Failure(OutOfFuel)
    decreases fuel
  {
    if fuel > 0 {
      EnterEnd(g, n, p + [n.e], m, sol, fuel - 1, AsWritten);
      var s1 := State(m[n.e := OK], sol + [p + [n.e]]);
      Revisit(g, n, p + [n.v], s1.marks, s1.solutions, fuel - 1);
      assert ExploreAll(g, n.e, p, [n.v], s1, true, fuel, AsWritten) == Failure(OutOfFuel);
    }
    assert ExploreAll(g, n.e, p, [n.e, n.v], State(m, sol), false, fuel, AsWritten) == Failure(OutOfFuel);
  }

  /** The visit of a, from s: its route re-enters v, which is OK, and
      `Revisit` takes over. */
  lemma SecondVisit(g: Graph, n: Eight<string>, m: map<string, Mark>, sol: seq<seq<string>>, fuel: nat)
    requires Example(g, n) && m.Keys == g.vertices.Keys
    requires m[n.a] == Unknown && m[n.ap] == Unknown
    requires m[n.v] == OK && m[n.vp] == Unknown && m[n.e] == OK && m[n.ep] == Unknown
    ensures Explore(g, n.e, [n.s, n.a], State(m, sol), fuel, AsWritten) == Failure(OutOfFuel)
  {
    var p := [n.s, n.a];
    assert Last(p) == n.a;
    var m1 := m[n.a := NotOK];
    if fuel > 0 {
      Revisit(g, n, p + [n.v], m1, sol, fuel - 1);
    }
    assert ExploreAll(g, n.e, p, [n.v], State(m1, sol), false, fuel, AsWritten) == Failure(OutOfFuel);
  }

  /** The source's search from s to e never completes: whatever bound is
      put on the recursion, it runs out. */
  lemma {:induction false} FindPathNeverAnswers(g: Graph, n: Eight<string>, fuel: nat)
    requires Example(g, n)
    ensures FindPath(g, n.s, n.e, fuel) == Failure(OutOfFuel)
  {
    var p := [n.s];
    var m1 := InitialMarks(g)[n.s := NotOK];
    assert Last(p) == n.s && n.v !in p && n.a !in p;
    if fuel > 0 {
      FirstVisit(g, n, m1, [], fuel - 1, AsWritten);
      assert p + [n.v] == [n.s, n.v] && p + [n.a] == [n.s, n.a];
      if fuel > 1 {
        var s2 := State(m1[n.v := NotOK][n.e := OK][n.v := OK], [] + [[n.s, n.v, n.e]]);
        SecondVisit(g, n, s2.marks, s2.solutions, fuel - 1);
        assert ExploreAll(g, n.e, p, [n.a], s2, true, fuel, AsWritten) == Failure(OutOfFuel);
      }
    }
    assert ExploreAll(g, n.e, p, [n.v, n.a], State(m1, []), false, fuel, AsWritten) == Failure(OutOfFuel);
  }

  /** Under `SimpleRoutes`, entering v when it is OK already explores vp's
      neighbours once: e completes the route s a v e, and v, being on the
      route, is not entered again. */
  lemma RevisitOnce(g: Graph, n: Eight<string>, m: map<string, Mark>, sol: seq<seq<string>>, fuel: nat)
    requires Example(g, n) && m.Keys == g.vertices.Keys && fuel > 0
    requires m[n.v] == OK && m[n.vp] == Unknown && m[n.e] == OK && m[n.ep] == Unknown
    ensures Explore(g, n.e, [n.s, n.a, n.v], State(m, sol), fuel, SimpleRoutes)
      == Success(State(m[n.e := OK], sol + [[n.s, n.a, n.v, n.e]]))
  {
    var p := [n.s, n.a, n.v];
    assert Last(p) == n.v && n.e !in p && n.v in p;
    EnterEnd(g, n, p + [n.e], m, sol, fuel - 1, SimpleRoutes);
    assert p + [n.e] == [n.s, n.a, n.v, n.e];
    var s1 := State(m[n.e := OK], sol + [[n.s, n.a, n.v, n.e]]);
    assert ExploreAll(g, n.e, p, [n.v], s1, true, fuel, SimpleRoutes) == Success((s1, true));
    assert ExploreAll(g, n.e, p, [n.e, n.v], State(m, sol), false, fuel, SimpleRoutes) == Success((s1, true));
  }

  /** Under `SimpleRoutes` the visit of a records s a v e and ends. */
  lemma SecondVisitSimple(g: Graph, n: Eight<string>, m: map<string, Mark>, sol: seq<seq<string>>, fuel: nat)
    requires Example(g, n) && m.Keys == g.vertices.Keys && fuel > 1
    requires m[n.a] == Unknown && m[n.ap] == Unknown
    requires m[n.v] == OK && m[n.vp] == Unknown && m[n.e] == OK && m[n.ep] == Unknown
    ensures Explore(g, n.e, [n.s, n.a], State(m, sol), fuel, SimpleRoutes)
      == Success(State(m[n.a := NotOK][n.e := OK][n.a := OK], sol + [[n.s, n.a, n.v, n.e]]))
  {
    var p := [n.s, n.a];
    assert Last(p) == n.a && n.v !in p;
    var m1 := m[n.a := NotOK];
    RevisitOnce(g, n, m1, sol, fuel - 1);
    assert p + [n.v] == [n.s, n.a, n.v];
    var s1 := State(m1[n.e := OK], sol + [[n.s, n.a, n.v, n.e]]);
    assert Reached(false, s1, n.v);
    assert ExploreAll(g, n.e, p, [], s1, true, fuel, SimpleRoutes) == Success((s1, true));
    assert ExploreAll(g, n.e, p, [n.v], State(m1, sol), false, fuel, SimpleRoutes) == Success((s1, true));
  }

  /** The corrected search from s to e finds the two simple routes s v e
      and s a v e, in this order, once the fuel covers three levels. */
  lemma SimpleRoutesFromS(g: Graph, n: Eight<string>, fuel: nat)
    requires Example(g, n) && fuel >= 3
    ensures Search.Search(g, n.s, n.e, fuel, SimpleRoutes) == Success([[n.s, n.v, n.e], [n.s, n.a, n.v, n.e]])
  {
    var p := [n.s];
    var m1 := InitialMarks(g)[n.s := NotOK];
    assert Last(p) == n.s && n.v !in p && n.a !in p;
    FirstVisit(g, n, m1, [], fuel - 1, SimpleRoutes);
    assert p + [n.v] == [n.s, n.v] && p + [n.a] == [n.s, n.a];
    var s2 := State(m1[n.v := NotOK][n.e := OK][n.v := OK], [] + [[n.s, n.v, n.e]]);
    SecondVisitSimple(g, n, s2.marks, s2.solutions, fuel - 1);
    var s3 := State(s2.marks[n.a := NotOK][n.e := OK][n.a := OK], s2.solutions + [[n.s, n.a, n.v, n.e]]);
    assert s3.solutions == [[n.s, n.v, n.e], [n.s, n.a, n.v, n.e]];
    assert Reached(false, s2, n.v);
    assert ExploreAll(g, n.e, p, [], s3, true, fuel, SimpleRoutes) == Success((s3, true));
    assert ExploreAll(g, n.e, p, [n.a], s2, true, fuel, SimpleRoutes) == Success((s3, true));
    assert ExploreAll(g, n.e, p, [n.v, n.a], State(m1, []), false, fuel, SimpleRoutes) == Success((s3, true));
  }

  /** On the example, `findPath` as written never completes, while the
      corrected search answers with both simple routes. */
  lemma LoopFound(n: Eight<string>, el: Element, fuel: nat)
    requires Distinct(n)
    ensures FindPath(LoopGraph(n, el), n.s, n.e, fuel) == Failure(OutOfFuel)
    ensures FindSimpleRoutes(LoopGraph(n, el), n.s, n.e) == Success([[n.s, n.v, n.e], [n.s, n.a, n.v, n.e]])
  {
    var g := LoopGraph(n, el);
    FindPathNeverAnswers(g, n, fuel);
    AtLeastThree(g.vertices.Keys, n.s, n.sp, n.a);
    SimpleRoutesFromS(g, n, |g.vertices|);
  }

  /** The example with concrete names: a track-like pair S/S*, and so on. */
  const Named: Eight<string> := Eight("S", "S*", "A", "A*", "V", "V*", "E", "E*")

  function NamedGraph(): (g: Graph)
    ensures Example(g, Named)
  {
    assert Distinct(Named);
    LoopGraph(Named, Element("loop", Plain))
  }

  /** From S to E the source's search never completes; the corrected one
      answers S V E and S A V E. */
  lemma NamedLoop(fuel: nat)
    ensures FindPath(NamedGraph(), "S", "E", fuel) == Failure(OutOfFuel)
    ensures FindSimpleRoutes(NamedGraph(), "S", "E") == Success([["S", "V", "E"], ["S", "A", "V", "E"]])
  {
    LoopFound(Named, Element("loop", Plain), fuel);
  }
}
