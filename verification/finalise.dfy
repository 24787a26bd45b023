/** `Graph.doubleAllSingleVertices`: the step that ends the build phase by
    giving every vertex still without a partner a synthetic partner named
    `"{name}_*"`. */
module Finalise {
  import opened Wrappers
  import opened Elements
  import opened Vertices
  import opened Graphs

  /** Name of the synthetic partner made for an unpaired vertex. */
  function Synthetic(n: string): string
  {
    n + "_*"
  }

  lemma SyntheticInjective(a: string, b: string)
    requires Synthetic(a) == Synthetic(b)
    ensures a == b
  {
    assert a == Synthetic(a)[..|a|];
  }

  lemma SyntheticNotSelf(n: string)
    ensures Synthetic(n) != n
  {
    assert |Synthetic(n)| == |n| + 2;
  }

  /** The vertex named `n` exists and has no partner yet. */
  predicate Unpaired(g: Graph, n: string)
  {
    n in g.vertices && g.vertices[n].partner.None?
  }

  /** No unpaired vertex's synthetic name is already taken. When one is, the
      source replaces the registered vertex of that name and pairs an object
      the graph no longer holds, which a name-keyed model cannot express. */
  predicate NoSyntheticClash(g: Graph)
  {
    forall n :: n in g.vertices && g.vertices[n].partner.None? ==> Synthetic(n) !in g.vertices
  }

  /** The synthetic partner of the unpaired vertex `v`, already paired back:
      same element and position, no edges. */
  function SyntheticPartner(v: Vertex): Vertex
  {
    Vertex(Synthetic(v.name), [], Some(v.name), v.element, v.x, v.y)
  }

  /** The name a synthetic name was made from. */
  function Base(k: string): string
    requires |k| >= 2
  {
    k[..|k| - 2]
  }

  lemma SyntheticShape(n: string)
    ensures |Synthetic(n)| >= 2 && Base(Synthetic(n)) == n
  {
    assert Synthetic(n)[..|n|] == n;
  }

  /** What an original vertex becomes once the names in `done` are visited. */
  function Visited(g: Graph, done: set<string>, k: string): Vertex
    requires k in g.vertices
  {
    if k in done && g.vertices[k].partner.None? then g.vertices[k].(partner := Some(Synthetic(k)))
    else g.vertices[k]
  }

  /** `cur` is what the finalising loop holds once it has visited the names
      in `done` of `g`: visited unpaired vertices are paired with their
      synthetic partners, and nothing else is there or changed. */
  predicate PairedUpTo(g: Graph, done: set<string>, cur: map<string, Vertex>)
  {
    && (forall k :: k in g.vertices ==> k in cur && cur[k] == Visited(g, done, k))
    && (forall n :: n in g.vertices && n in done && g.vertices[n].partner.None? ==>
          Synthetic(n) in cur && cur[Synthetic(n)] == SyntheticPartner(g.vertices[n]))
    && (forall k :: k in cur && k !in g.vertices ==>
          |k| >= 2 && Synthetic(Base(k)) == k && Base(k) in g.vertices && Base(k) in done && g.vertices[Base(k)].partner.None?)
  }

  /** `PairedUpTo` pins the map down completely. */
  lemma PairedUpToUnique(g: Graph, done: set<string>, a: map<string, Vertex>, b: map<string, Vertex>)
    requires PairedUpTo(g, done, a) && PairedUpTo(g, done, b)
    ensures a == b
  {
    forall k | k in a ensures k in b && a[k] == b[k] {
    }
    forall k | k in b ensures k in a {
    }
  }

  /** One iteration of the source's loop: pair the vertex named `n` with a
      new synthetic vertex if it has no partner yet. */
  function DoubleOne(g: Graph, n: string): (r: Graph)
    requires n in g.vertices && KeysAreNames(g)
    ensures g.vertices.Keys <= r.vertices.Keys && KeysAreNames(r)
  {
    var v := g.vertices[n];
    if v.partner.Some? then g
    else
      SyntheticNotSelf(v.name);
      var g1 := AddVertex(g, NewVertex(Synthetic(v.name), v.element, v.x, v.y));
      ConnectVertices(g1, v.name, Synthetic(v.name)).value
  }

  /** The source's loop over a snapshot of the vertices, visited in `order`. */
  function DoubleAllOver(g: Graph, order: seq<string>): (r: Graph)
    requires forall i :: 0 <= i < |order| ==> order[i] in g.vertices
    requires KeysAreNames(g)
    ensures g.vertices.Keys <= r.vertices.Keys && KeysAreNames(r)
    decreases |order|
  {
    if |order| == 0 then g else DoubleAllOver(DoubleOne(g, order[0]), order[1..])
  }

  /** The effect of one iteration on an unpaired vertex: it is paired with a
      new synthetic vertex and nothing else changes. */
  lemma DoubleOneEffect(g: Graph, n: string)
    requires n in g.vertices && KeysAreNames(g)
    ensures g.vertices[n].partner.Some? ==> DoubleOne(g, n) == g
    ensures g.vertices[n].partner.None? ==>
      DoubleOne(g, n).vertices ==
        g.vertices[n := g.vertices[n].(partner := Some(Synthetic(n)))][Synthetic(n) := SyntheticPartner(g.vertices[n])]
    ensures g.vertices[n].partner.None? ==>
      DoubleOne(g, n).elements == g.elements[g.vertices[n].element.id := g.vertices[n].element]
  {
    var v := g.vertices[n];
    if v.partner.None? {
      SyntheticNotSelf(n);
      var r := DoubleOne(g, n);
      var e := g.vertices[n := v.(partner := Some(Synthetic(n)))][Synthetic(n) := SyntheticPartner(v)];
      assert r.vertices.Keys == e.Keys;
      forall k | k in e ensures r.vertices[k] == e[k] {
      }
    }
  }

  /** Visiting an unpaired, not yet visited vertex adds exactly its
      synthetic partner to the loop's state. */
  lemma DoubleOneFresh(g0: Graph, done: set<string>, cur: map<string, Vertex>, n: string)
    requires NoSyntheticClash(g0)
    requires PairedUpTo(g0, done, cur)
    requires n in g0.vertices && n !in done && g0.vertices[n].partner.None?
    ensures PairedUpTo(g0, done + {n},
      cur[n := cur[n].(partner := Some(Synthetic(n)))][Synthetic(n) := SyntheticPartner(cur[n])])
  {
    var m := g0.vertices;
    var r := cur[n := cur[n].(partner := Some(Synthetic(n)))][Synthetic(n) := SyntheticPartner(cur[n])];
    var d := done + {n};
    SyntheticNotSelf(n);
    SyntheticShape(n);
    assert Synthetic(n) !in m;
    forall k | k in m ensures k in r && r[k] == Visited(g0, d, k) {
      if k == n { assert r[k] == cur[n].(partner := Some(Synthetic(n))); } else { assert r[k] == cur[k]; }
    }
    forall j | j in m && j in d && m[j].partner.None?
      ensures Synthetic(j) in r && r[Synthetic(j)] == SyntheticPartner(m[j])
    {
      if j != n {
        if Synthetic(j) == Synthetic(n) { SyntheticInjective(j, n); }
        assert cur[Synthetic(j)] == SyntheticPartner(m[j]);
      }
    }
    forall k | k in r && k !in m
      ensures |k| >= 2 && Synthetic(Base(k)) == k && Base(k) in m && Base(k) in d && m[Base(k)].partner.None?
    {
    }
  }

  /** Visiting a paired or already visited vertex leaves the loop's state
      as it was. */
  lemma DoubleOneAgain(g0: Graph, done: set<string>, cur: map<string, Vertex>, n: string)
    requires PairedUpTo(g0, done, cur)
    requires n in g0.vertices && (n in done || g0.vertices[n].partner.Some?)
    ensures PairedUpTo(g0, done + {n}, cur)
  {
    forall k | k in g0.vertices ensures Visited(g0, done + {n}, k) == Visited(g0, done, k) {
    }
  }

  /** One iteration moves the loop's state on by one visited name. */
  lemma DoubleOneStep(g0: Graph, done: set<string>, cur: Graph, n: string)
    requires KeysAreNames(g0) && NoSyntheticClash(g0)
    requires PairedUpTo(g0, done, cur.vertices) && KeysAreNames(cur)
    requires n in g0.vertices
    ensures n in cur.vertices
    ensures PairedUpTo(g0, done + {n}, DoubleOne(cur, n).vertices)
    ensures ElementsRegistered(g0) && cur.elements == g0.elements ==> DoubleOne(cur, n).elements == g0.elements
  {
    DoubleOneEffect(cur, n);
    if n !in done && g0.vertices[n].partner.None? {
      DoubleOneFresh(g0, done, cur.vertices, n);
      if ElementsRegistered(g0) && cur.elements == g0.elements {
        var e := g0.vertices[n].element;
        assert cur.vertices[n].element == e;
        assert e.id in g0.elements && g0.elements[e.id] == e;
        assert g0.elements[e.id := e] == g0.elements;
      }
    } else {
      DoubleOneAgain(g0, done, cur.vertices, n);
    }
  }

  /** The loop, started from the state after `done`, reaches the state after
      `done` plus every name it visits. */
  lemma {:induction false} DoubleAllOverReaches(g0: Graph, done: set<string>, cur: Graph, order: seq<string>)
    requires KeysAreNames(g0) && NoSyntheticClash(g0)
    requires PairedUpTo(g0, done, cur.vertices) && KeysAreNames(cur)
    requires forall i :: 0 <= i < |order| ==> order[i] in g0.vertices
    requires forall i :: 0 <= i < |order| ==> order[i] in cur.vertices
    ensures PairedUpTo(g0, done + Listed(order), DoubleAllOver(cur, order).vertices)
    ensures ElementsRegistered(g0) && cur.elements == g0.elements ==> DoubleAllOver(cur, order).elements == g0.elements
    decreases |order|
  {
    if |order| == 0 {
      assert done + Listed(order) == done;
    } else {
      DoubleOneStep(g0, done, cur, order[0]);
      var next := DoubleOne(cur, order[0]);
      ListedCons(order);
      assert done + Listed(order) == (done + {order[0]}) + Listed(order[1..]);
      DoubleAllOverReaches(g0, done + {order[0]}, next, order[1..]);
    }
  }

  /** Before the loop nothing is visited. */
  lemma PairedUpToStart(g: Graph)
    ensures PairedUpTo(g, {}, g.vertices)
  {
  }

  /** `doubleAllSingleVertices`: the loop over every vertex name of `g`,
      visited in `order` (any listing of the names, standing for the
      source's dictionary order). Its result holds, for every unpaired
      vertex, that vertex paired with a new synthetic vertex, and nothing
      else new or changed. */
  function DoubleAllSingleVertices(g: Graph, order: seq<string>): (r: Graph)
    requires KeysAreNames(g) && NoSyntheticClash(g)
    requires IsListing(order, g.vertices.Keys)
    ensures PairedUpTo(g, g.vertices.Keys, r.vertices)
    ensures ElementsRegistered(g) ==> r.elements == g.elements
    ensures KeysAreNames(r)
  {
    PairedUpToStart(g);
    DoubleAllOverReaches(g, {}, g, order);
    ListingListed(order, g.vertices.Keys);
    assert {} + Listed(order) == g.vertices.Keys;
    DoubleAllOver(g, order)
  }

  /** The order in which the vertices are visited does not matter. */
  lemma DoubleAllOrderIrrelevant(g: Graph, order1: seq<string>, order2: seq<string>)
    requires KeysAreNames(g) && NoSyntheticClash(g)
    requires IsListing(order1, g.vertices.Keys) && IsListing(order2, g.vertices.Keys)
    ensures DoubleAllSingleVertices(g, order1).vertices == DoubleAllSingleVertices(g, order2).vertices
    ensures ElementsRegistered(g) ==> DoubleAllSingleVertices(g, order1) == DoubleAllSingleVertices(g, order2)
  {
    PairedUpToUnique(g, g.vertices.Keys,
      DoubleAllSingleVertices(g, order1).vertices, DoubleAllSingleVertices(g, order2).vertices);
  }

  /** Every vertex of a finalised graph has a partner. */
  lemma FinalAllPaired(g: Graph, r: Graph)
    requires PairedUpTo(g, g.vertices.Keys, r.vertices)
    ensures AllPaired(r)
  {
  }

  /** The finalised graph's names: the old ones and one synthetic name per
      formerly unpaired vertex. */
  lemma FinalKeys(g: Graph, r: Graph)
    requires PairedUpTo(g, g.vertices.Keys, r.vertices)
    ensures r.vertices.Keys == g.vertices.Keys + set n | n in g.vertices && g.vertices[n].partner.None? :: Synthetic(n)
  {
    var made := set n | n in g.vertices && g.vertices[n].partner.None? :: Synthetic(n);
    forall k | k in r.vertices ensures k in g.vertices.Keys + made {
    }
    forall k | k in made ensures k in r.vertices {
    }
  }

  /** A formerly unpaired vertex is paired with a synthetic end vertex that
      has its element and position; formerly paired vertices are untouched. */
  lemma FinalVertices(g: Graph, r: Graph)
    requires NoSyntheticClash(g) && KeysAreNames(g)
    requires PairedUpTo(g, g.vertices.Keys, r.vertices)
    ensures forall n :: n in g.vertices && g.vertices[n].partner.Some? ==> r.vertices[n] == g.vertices[n]
    ensures forall n :: n in g.vertices && g.vertices[n].partner.None? ==>
      && r.vertices[n] == g.vertices[n].(partner := Some(Synthetic(n)))
      && Synthetic(n) !in g.vertices
      && Synthetic(n) in r.vertices
      && r.vertices[Synthetic(n)].partner == Some(n)
      && r.vertices[Synthetic(n)].element == g.vertices[n].element
      && r.vertices[Synthetic(n)].x == g.vertices[n].x && r.vertices[Synthetic(n)].y == g.vertices[n].y
      && IsEndVertex(r.vertices[Synthetic(n)])
  {
  }

  /** Finalisation keeps pairing symmetric. */
  lemma FinalPairingSymmetric(g: Graph, r: Graph)
    requires KeysAreNames(g) && PairingSymmetric(g)
    requires PairedUpTo(g, g.vertices.Keys, r.vertices)
    ensures PairingSymmetric(r)
  {
    forall a | a in r.vertices && r.vertices[a].partner.Some?
      ensures r.vertices[a].partner.value in r.vertices && r.vertices[r.vertices[a].partner.value].partner == Some(a)
    {
      if a in g.vertices && g.vertices[a].partner.None? {
        SyntheticShape(a);
      }
    }
  }

  /** Finalisation adds no edges: old vertices keep theirs, new ones have none. */
  lemma FinalEdgeLists(g: Graph, r: Graph)
    requires PairedUpTo(g, g.vertices.Keys, r.vertices)
    ensures forall k :: k in r.vertices ==> r.vertices[k].edges == if k in g.vertices then g.vertices[k].edges else []
  {
  }

  /** So finalisation keeps the edge invariants. */
  lemma FinalEdges(g: Graph, r: Graph)
    requires PairedUpTo(g, g.vertices.Keys, r.vertices)
    ensures EdgesClosed(g) ==> EdgesClosed(r)
    ensures EdgesClosed(g) && EdgesSymmetric(g) ==> EdgesSymmetric(r)
    ensures EdgesDistinct(g) ==> EdgesDistinct(r)
  {
    FinalEdgeLists(g, r);
    assert g.vertices.Keys <= r.vertices.Keys;
    if EdgesClosed(g) {
      forall a, b | a in r.vertices && b in r.vertices[a].edges ensures b in r.vertices {
        assert a in g.vertices;
      }
      if EdgesSymmetric(g) {
        forall a, b | a in r.vertices && b in r.vertices[a].edges ensures b in r.vertices && a in r.vertices[b].edges {
          assert a in g.vertices;
        }
      }
    }
    if EdgesDistinct(g) {
      forall a | a in r.vertices ensures NoDup(r.vertices[a].edges) {
        if a in g.vertices { assert NoDup(g.vertices[a].edges); }
      }
    }
  }

  /** After finalisation every vertex has a partner; the new vertices are
      exactly one synthetic partner per formerly unpaired vertex, an end
      vertex with that vertex's element and position; formerly paired
      vertices are untouched. Pairing stays symmetric and adjacency keeps
      its invariants. */
  lemma FinalisedShape(g: Graph, order: seq<string>)
    requires KeysAreNames(g) && NoSyntheticClash(g)
    requires IsListing(order, g.vertices.Keys)
    ensures AllPaired(DoubleAllSingleVertices(g, order))
    ensures DoubleAllSingleVertices(g, order).vertices.Keys ==
      g.vertices.Keys + set n | n in g.vertices && g.vertices[n].partner.None? :: Synthetic(n)
    ensures forall n :: n in g.vertices && g.vertices[n].partner.Some? ==>
      DoubleAllSingleVertices(g, order).vertices[n] == g.vertices[n]
    ensures forall n :: n in g.vertices && g.vertices[n].partner.None? ==>
      var r := DoubleAllSingleVertices(g, order).vertices;
      && r[n] == g.vertices[n].(partner := Some(Synthetic(n)))
      && Synthetic(n) !in g.vertices
      && Synthetic(n) in r
      && r[Synthetic(n)].partner == Some(n)
      && r[Synthetic(n)].element == g.vertices[n].element
      && r[Synthetic(n)].x == g.vertices[n].x && r[Synthetic(n)].y == g.vertices[n].y
      && IsEndVertex(r[Synthetic(n)])
    ensures PairingSymmetric(g) ==> PairingSymmetric(DoubleAllSingleVertices(g, order))
    ensures EdgesClosed(g) ==> EdgesClosed(DoubleAllSingleVertices(g, order))
    ensures EdgesClosed(g) && EdgesSymmetric(g) ==> EdgesSymmetric(DoubleAllSingleVertices(g, order))
    ensures EdgesDistinct(g) ==> EdgesDistinct(DoubleAllSingleVertices(g, order))
  {
    var r := DoubleAllSingleVertices(g, order);
    FinalAllPaired(g, r);
    FinalKeys(g, r);
    FinalVertices(g, r);
    if PairingSymmetric(g) { FinalPairingSymmetric(g, r); }
    FinalEdges(g, r);
  }

  /** On a graph where every vertex has a partner the loop changes nothing. */
  lemma {:induction false} DoubleAllOverPaired(g: Graph, order: seq<string>)
    requires KeysAreNames(g) && AllPaired(g)
    requires forall i :: 0 <= i < |order| ==> order[i] in g.vertices
    ensures DoubleAllOver(g, order) == g
    decreases |order|
  {
    if |order| > 0 {
      DoubleOneEffect(g, order[0]);
      DoubleAllOverPaired(g, order[1..]);
    }
  }

  /** Finalising twice is finalising once, and once finalised no further
      pairing is accepted. */
  lemma FinalisationIsTerminal(g: Graph, order: seq<string>, order2: seq<string>, a: string, b: string)
    requires KeysAreNames(g) && NoSyntheticClash(g)
    requires IsListing(order, g.vertices.Keys)
    requires IsListing(order2, DoubleAllSingleVertices(g, order).vertices.Keys)
    ensures NoSyntheticClash(DoubleAllSingleVertices(g, order))
    ensures DoubleAllSingleVertices(DoubleAllSingleVertices(g, order), order2) == DoubleAllSingleVertices(g, order)
    ensures ConnectVertices(DoubleAllSingleVertices(g, order), a, b).Failure?
  {
    var r := DoubleAllSingleVertices(g, order);
    FinalisedShape(g, order);
    DoubleAllOverPaired(r, order2);
  }
}
