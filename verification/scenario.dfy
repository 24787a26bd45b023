/** The small network of railwaygraph/examples.py (`simpleGraph`), built with
    the model's operations, and what the search finds on it:

      1_A --- 1_B/3_A --- 3_B
                     \
                      3_C/2_A --- 2_B

    Each construction stage is described by a shape predicate that lists
    every vertex with its neighbours and partner; the stage lemmas carry the
    shape from one stage to the next. */
module Scenarios {
  import opened Wrappers
  import opened Elements
  import opened Vertices
  import opened Graphs
  import opened Finalise
  import opened Templates
  import opened Search

  /** Vertex `n` is present under its own name with these neighbours and
      this partner. */
  predicate Has(g: Graph, n: string, edges: seq<string>, partner: Option<string>)
  {
    n in g.vertices && g.vertices[n].name == n && g.vertices[n].edges == edges && g.vertices[n].partner == partner
  }

  lemma Ports()
    ensures Port("1", "A") == "1_A" && Port("1", "B") == "1_B"
    ensures Port("2", "A") == "2_A" && Port("2", "B") == "2_B"
    ensures Port("3", "A") == "3_A" && Port("3", "B") == "3_B" && Port("3", "C") == "3_C"
  {
  }

  lemma ListingOfTwo(a: string, b: string)
    ensures IsListing([a, b], {a, b})
  {
    forall n | n in {a, b} ensures n in [a, b] {
      if n == a { assert [a, b][0] == n; } else { assert [a, b][1] == n; }
    }
  }

  lemma ListingOfThree(a: string, b: string, c: string)
    ensures IsListing([a, b, c], {a, b, c})
  {
    forall n | n in {a, b, c} ensures n in [a, b, c] {
      if n == a { assert [a, b, c][0] == n; }
      else if n == b { assert [a, b, c][1] == n; }
      else { assert [a, b, c][2] == n; }
    }
  }

  /** The string literals naming the network's ports are pairwise distinct. */
  lemma PortNamesDistinct()
    ensures "1_A" != "1_B" && "1_A" != "2_A" && "1_A" != "2_B" && "1_A" != "3_A" && "1_A" != "3_B" && "1_A" != "3_C"
    ensures "1_B" != "2_A" && "1_B" != "2_B" && "1_B" != "3_A" && "1_B" != "3_B" && "1_B" != "3_C"
    ensures "2_A" != "2_B" && "2_A" != "3_A" && "2_A" != "3_B" && "2_A" != "3_C"
    ensures "2_B" != "3_A" && "2_B" != "3_B" && "2_B" != "3_C"
    ensures "3_A" != "3_B" && "3_A" != "3_C" && "3_B" != "3_C"
  {
  }

  /** examples.py adds track 1, track 2 and switch 3 in this order. */
  function WithTrack1(g: Graph): Graph
  {
    Ports();
    ListingOfTwo("1_A", "1_B");
    TrackWellFormed("1");
    AddElementGraph(g, Track("1"), ["1_A", "1_B"])
  }

  function WithTrack2(g: Graph): Graph
  {
    Ports();
    ListingOfTwo("2_A", "2_B");
    TrackWellFormed("2");
    AddElementGraph(g, Track("2"), ["2_A", "2_B"])
  }

  function WithSwitch3(g: Graph): Graph
  {
    Ports();
    ListingOfThree("3_A", "3_B", "3_C");
    SwitchWellFormed("3", UpperLeft);
    AddElementGraph(g, Switch("3", UpperLeft), ["3_A", "3_B", "3_C"])
  }

  /** Merging `m` into a graph keeps the vertices `m` does not name. */
  lemma Kept(g: Graph, r: Graph, m: map<string, Vertex>, n: string, edges: seq<string>, partner: Option<string>)
    requires r.vertices == g.vertices + m && Has(g, n, edges, partner) && n !in m
    ensures Has(r, n, edges, partner)
  {
  }

  /** Merging `m` into a graph installs the vertices `m` names. */
  lemma Gained(g: Graph, r: Graph, m: map<string, Vertex>, n: string, edges: seq<string>, partner: Option<string>)
    requires r.vertices == g.vertices + m && n in m
    requires m[n].name == n && m[n].edges == edges && m[n].partner == partner
    ensures Has(r, n, edges, partner)
  {
  }

  /** After track 1. */
  predicate Stage1(g: Graph)
  {
    && g.vertices.Keys == {"1_A", "1_B"}
    && Has(g, "1_A", ["1_B"], None)
    && Has(g, "1_B", ["1_A"], None)
  }

  /** After track 2. */
  predicate Stage2(g: Graph)
  {
    && g.vertices.Keys == {"1_A", "1_B"} + {"2_A", "2_B"}
    && Has(g, "1_A", ["1_B"], None)
    && Has(g, "1_B", ["1_A"], None)
    && Has(g, "2_A", ["2_B"], None)
    && Has(g, "2_B", ["2_A"], None)
  }

  /** After switch 3: all seven vertices, none paired. */
  predicate Stage3(g: Graph)
  {
    && g.vertices.Keys == {"1_A", "1_B"} + {"2_A", "2_B"} + {"3_A", "3_B", "3_C"}
    && Has(g, "1_A", ["1_B"], None)
    && Has(g, "1_B", ["1_A"], None)
    && Has(g, "2_A", ["2_B"], None)
    && Has(g, "2_B", ["2_A"], None)
    && Has(g, "3_A", ["3_B", "3_C"], None)
    && Has(g, "3_B", ["3_A"], None)
    && Has(g, "3_C", ["3_A"], None)
  }

  lemma AddTrack1()
    ensures Stage1(WithTrack1(Empty))
  {
    Ports();
  }

  /** Merging track 2's two vertices into a stage-1 graph gives stage 2. */
  lemma MergeTrack2(g: Graph, r: Graph, m: map<string, Vertex>)
    requires Stage1(g) && r.vertices == g.vertices + m
    requires m.Keys == {"2_A", "2_B"}
    requires m["2_A"].name == "2_A" && m["2_A"].edges == ["2_B"] && m["2_A"].partner == None
    requires m["2_B"].name == "2_B" && m["2_B"].edges == ["2_A"] && m["2_B"].partner == None
    ensures Stage2(r)
  {
    PortNamesDistinct();
    Kept(g, r, m, "1_A", ["1_B"], None);
    Kept(g, r, m, "1_B", ["1_A"], None);
    Gained(g, r, m, "2_A", ["2_B"], None);
    Gained(g, r, m, "2_B", ["2_A"], None);
  }

  lemma AddTrack2(g: Graph)
    requires Stage1(g)
    ensures Stage2(WithTrack2(g))
  {
    Ports();
    MergeTrack2(g, WithTrack2(g), Track("2").graph.vertices);
  }

  /** Merging switch 3's three vertices into a stage-2 graph gives stage 3. */
  lemma MergeSwitch3(g: Graph, r: Graph, m: map<string, Vertex>)
    requires Stage2(g) && r.vertices == g.vertices + m
    requires m.Keys == {"3_A", "3_B", "3_C"}
    requires forall n :: n in m ==> m[n].name == n && m[n].partner.None?
    requires m["3_A"].edges == ["3_B", "3_C"] && m["3_B"].edges == ["3_A"] && m["3_C"].edges == ["3_A"]
    ensures Stage3(r)
  {
    PortNamesDistinct();
    Kept(g, r, m, "1_A", ["1_B"], None);
    Kept(g, r, m, "1_B", ["1_A"], None);
    Kept(g, r, m, "2_A", ["2_B"], None);
    Kept(g, r, m, "2_B", ["2_A"], None);
    Gained(g, r, m, "3_A", ["3_B", "3_C"], None);
    Gained(g, r, m, "3_B", ["3_A"], None);
    Gained(g, r, m, "3_C", ["3_A"], None);
  }

  lemma AddSwitch3(g: Graph)
    requires Stage2(g)
    ensures Stage3(WithSwitch3(g))
  {
    Ports();
    SwitchLinks("3", UpperLeft);
    Switch3Union(g);
    MergeSwitch3(g, WithSwitch3(g), Switch("3", UpperLeft).graph.vertices);
  }

  lemma Switch3Union(g: Graph)
    ensures WithSwitch3(g).vertices == g.vertices + Switch("3", UpperLeft).graph.vertices
  {
    SwitchWellFormed("3", UpperLeft);
  }

  /** After connecting 1_B with 3_A. */
  predicate Stage4(g: Graph)
  {
    && g.vertices.Keys == {"1_A", "1_B"} + {"2_A", "2_B"} + {"3_A", "3_B", "3_C"}
    && Has(g, "1_A", ["1_B"], None)
    && Has(g, "1_B", ["1_A"], Some("3_A"))
    && Has(g, "2_A", ["2_B"], None)
    && Has(g, "2_B", ["2_A"], None)
    && Has(g, "3_A", ["3_B", "3_C"], Some("1_B"))
    && Has(g, "3_B", ["3_A"], None)
    && Has(g, "3_C", ["3_A"], None)
  }

  /** After also connecting 3_C with 2_A: 1_A, 2_B and 3_B are the ends of
      the network. */
  predicate Stage5(g: Graph)
  {
    && g.vertices.Keys == {"1_A", "1_B"} + {"2_A", "2_B"} + {"3_A", "3_B", "3_C"}
    && Has(g, "1_A", ["1_B"], None)
    && Has(g, "1_B", ["1_A"], Some("3_A"))
    && Has(g, "2_A", ["2_B"], Some("3_C"))
    && Has(g, "2_B", ["2_A"], None)
    && Has(g, "3_A", ["3_B", "3_C"], Some("1_B"))
    && Has(g, "3_B", ["3_A"], None)
    && Has(g, "3_C", ["3_A"], Some("2_A"))
  }

  /** Connecting two unpaired vertices pairs them and keeps their names and
      neighbours. */
  lemma ConnectPairs(g: Graph, a: string, b: string, ea: seq<string>, eb: seq<string>)
    requires Has(g, a, ea, None) && Has(g, b, eb, None) && a != b
    ensures ConnectVertices(g, a, b).Success?
    ensures ConnectVertices(g, a, b).value.vertices.Keys == g.vertices.Keys
    ensures Has(ConnectVertices(g, a, b).value, a, ea, Some(b))
    ensures Has(ConnectVertices(g, a, b).value, b, eb, Some(a))
  {
  }

  /** Connecting two vertices leaves every other vertex as it was. */
  lemma ConnectKeeps(g: Graph, a: string, b: string, n: string, edges: seq<string>, partner: Option<string>)
    requires ConnectVertices(g, a, b).Success?
    requires Has(g, n, edges, partner) && n != a && n != b
    ensures Has(ConnectVertices(g, a, b).value, n, edges, partner)
  {
  }

  lemma Connect1B3A(g: Graph)
    requires Stage3(g)
    ensures ConnectVertices(g, "1_B", "3_A").Success?
    ensures Stage4(ConnectVertices(g, "1_B", "3_A").value)
  {
    PortNamesDistinct();
    ConnectPairs(g, "1_B", "3_A", ["1_A"], ["3_B", "3_C"]);
    ConnectKeeps(g, "1_B", "3_A", "1_A", ["1_B"], None);
    ConnectKeeps(g, "1_B", "3_A", "2_A", ["2_B"], None);
    ConnectKeeps(g, "1_B", "3_A", "2_B", ["2_A"], None);
    ConnectKeeps(g, "1_B", "3_A", "3_B", ["3_A"], None);
    ConnectKeeps(g, "1_B", "3_A", "3_C", ["3_A"], None);
  }

  lemma Connect3C2A(g: Graph)
    requires Stage4(g)
    ensures ConnectVertices(g, "3_C", "2_A").Success?
    ensures Stage5(ConnectVertices(g, "3_C", "2_A").value)
  {
    PortNamesDistinct();
    ConnectPairs(g, "3_C", "2_A", ["3_A"], ["2_B"]);
    ConnectKeeps(g, "3_C", "2_A", "1_A", ["1_B"], None);
    ConnectKeeps(g, "3_C", "2_A", "1_B", ["1_A"], Some("3_A"));
    ConnectKeeps(g, "3_C", "2_A", "2_B", ["2_A"], None);
    ConnectKeeps(g, "3_C", "2_A", "3_A", ["3_B", "3_C"], Some("1_B"));
    ConnectKeeps(g, "3_C", "2_A", "3_B", ["3_A"], None);
  }

  lemma ListingConcat(o1: seq<string>, k1: set<string>, o2: seq<string>, k2: set<string>)
    requires IsListing(o1, k1) && IsListing(o2, k2)
    ensures IsListing(o1 + o2, k1 + k2)
  {
    forall n | n in k1 + k2 ensures n in o1 + o2 {
      if n in k1 {
        var i :| 0 <= i < |o1| && o1[i] == n;
        assert (o1 + o2)[i] == n;
      } else {
        var i :| 0 <= i < |o2| && o2[i] == n;
        assert (o1 + o2)[|o1| + i] == n;
      }
    }
  }

  /** One order in which the source's dictionary may yield the vertices.
      Which one it is depends on the dictionary's hashing, and by
      `DoubleAllOrderIrrelevant` the choice does not affect the result. */
  const Order: seq<string> := ["1_A", "1_B"] + ["2_A", "2_B"] + ["3_A", "3_B", "3_C"]

  lemma OrderLists()
    ensures IsListing(Order, {"1_A", "1_B"} + {"2_A", "2_B"} + {"3_A", "3_B", "3_C"})
  {
    ListingOfTwo("1_A", "1_B");
    ListingOfTwo("2_A", "2_B");
    ListingOfThree("3_A", "3_B", "3_C");
    ListingConcat(["1_A", "1_B"], {"1_A", "1_B"}, ["2_A", "2_B"], {"2_A", "2_B"});
    ListingConcat(["1_A", "1_B"] + ["2_A", "2_B"], {"1_A", "1_B"} + {"2_A", "2_B"}, ["3_A", "3_B", "3_C"], {"3_A", "3_B", "3_C"});
  }

  /** No name of three characters is the synthetic name of another. */
  lemma ShortNamesNoClash(g: Graph)
    requires forall n :: n in g.vertices ==> |n| == 3
    ensures NoSyntheticClash(g)
  {
  }

  lemma SyntheticNames()
    ensures Synthetic("1_A") == "1_A_*" && Synthetic("2_B") == "2_B_*" && Synthetic("3_B") == "3_B_*"
  {
  }

  /** The finished network: every vertex paired, the three ends with their
      synthetic partners. */
  predicate Stage6(g: Graph)
  {
    && g.vertices.Keys == Ports7 + {"1_A_*", "2_B_*", "3_B_*"}
    && EndsDoubled(g)
  }

  /** The ten vertices of the finished network with their neighbours and
      partners; the search traces below need no more than this. */
  predicate EndsDoubled(g: Graph)
  {
    && Has(g, "1_A", ["1_B"], Some("1_A_*"))
    && Has(g, "1_B", ["1_A"], Some("3_A"))
    && Has(g, "2_A", ["2_B"], Some("3_C"))
    && Has(g, "2_B", ["2_A"], Some("2_B_*"))
    && Has(g, "3_A", ["3_B", "3_C"], Some("1_B"))
    && Has(g, "3_B", ["3_A"], Some("3_B_*"))
    && Has(g, "3_C", ["3_A"], Some("2_A"))
    && Has(g, "1_A_*", [], Some("1_A"))
    && Has(g, "2_B_*", [], Some("2_B"))
    && Has(g, "3_B_*", [], Some("3_B"))
  }

  /** Finalising pairs an unpaired vertex with its synthetic end vertex. */
  lemma Doubled(g: Graph, r: Graph, n: string, edges: seq<string>)
    requires PairedUpTo(g, g.vertices.Keys, r.vertices) && Has(g, n, edges, None)
    ensures Has(r, n, edges, Some(Synthetic(n)))
    ensures Has(r, Synthetic(n), [], Some(n))
  {
  }

  /** Finalising leaves a paired vertex alone. */
  lemma Undoubled(g: Graph, r: Graph, n: string, edges: seq<string>, partner: string)
    requires PairedUpTo(g, g.vertices.Keys, r.vertices) && Has(g, n, edges, Some(partner))
    ensures Has(r, n, edges, Some(partner))
  {
  }

  /** The seven names of the network before finishing. */
  const Ports7: set<string> := {"1_A", "1_B"} + {"2_A", "2_B"} + {"3_A", "3_B", "3_C"}

  lemma Ports7Short()
    ensures forall n :: n in Ports7 ==> |n| == 3
  {
  }

  lemma Ports7Named(g: Graph)
    requires Stage5(g)
    ensures KeysAreNames(g)
  {
    assert forall n :: n in Ports7 ==> n == "1_A" || n == "1_B" || n == "2_A" || n == "2_B" || n == "3_A" || n == "3_B" || n == "3_C";
  }

  /** The finishing step may run on the connected network. */
  lemma Finishable(g: Graph)
    requires Stage5(g)
    ensures KeysAreNames(g) && NoSyntheticClash(g) && IsListing(Order, g.vertices.Keys)
  {
    OrderLists();
    Ports7Short();
    ShortNamesNoClash(g);
    Ports7Named(g);
  }

  /** Finalising the connected network adds exactly the three synthetic
      ends. */
  lemma DoubledKeys(g: Graph, r: Graph)
    requires Stage5(g) && PairedUpTo(g, g.vertices.Keys, r.vertices)
    ensures r.vertices.Keys == Ports7 + {"1_A_*", "2_B_*", "3_B_*"}
  {
    SyntheticNames();
    var ends := {"1_A_*", "2_B_*", "3_B_*"};
    forall k | k in r.vertices ensures k in Ports7 + ends {
      if k !in g.vertices {
        var b := Base(k);
        assert b in g.vertices && g.vertices[b].partner.None? && Synthetic(b) == k;
        UnpairedEnds(g, b);
      }
    }
    assert Has(g, "1_A", ["1_B"], None) && Has(g, "2_B", ["2_A"], None) && Has(g, "3_B", ["3_A"], None);
    assert Synthetic("1_A") in r.vertices && Synthetic("2_B") in r.vertices && Synthetic("3_B") in r.vertices;
    forall k | k in Ports7 + ends ensures k in r.vertices {
      if k in Ports7 { assert k in g.vertices; }
    }
    SameSet(r.vertices.Keys, Ports7 + ends);
  }

  /** The unpaired vertices of the connected network are its three ends. */
  lemma UnpairedEnds(g: Graph, b: string)
    requires Stage5(g) && b in g.vertices && g.vertices[b].partner.None?
    ensures b == "1_A" || b == "2_B" || b == "3_B"
  {
    assert b in {"1_A", "1_B"} || b in {"2_A", "2_B"} || b in {"3_A", "3_B", "3_C"};
  }

  lemma SameSet(a: set<string>, b: set<string>)
    requires forall k :: k in a ==> k in b
    requires forall k :: k in b ==> k in a
    ensures a == b
  {
  }

  lemma DoubledStage(g: Graph, r: Graph)
    requires Stage5(g) && PairedUpTo(g, g.vertices.Keys, r.vertices)
    ensures Stage6(r)
  {
    DoubledKeys(g, r);
    SyntheticNames();
    Doubled(g, r, "1_A", ["1_B"]);
    Undoubled(g, r, "1_B", ["1_A"], "3_A");
    Undoubled(g, r, "2_A", ["2_B"], "3_C");
    Doubled(g, r, "2_B", ["2_A"]);
    Undoubled(g, r, "3_A", ["3_B", "3_C"], "1_B");
    Doubled(g, r, "3_B", ["3_A"]);
    Undoubled(g, r, "3_C", ["3_A"], "2_A");
  }

  lemma Finalised(g: Graph)
    requires Stage5(g)
    ensures KeysAreNames(g) && NoSyntheticClash(g) && IsListing(Order, g.vertices.Keys)
    ensures Stage6(DoubleAllSingleVertices(g, Order))
  {
    Finishable(g);
    DoubledStage(g, DoubleAllSingleVertices(g, Order));
  }

  /* The search for examples.py's `simpleExample`, from 1_A_* to 3_B, one
     call of the recursion at a time. Each lemma states what exploring one
     route does to the marks and solutions, whatever the fuel left beyond
     what the route needs and under either policy. */

  lemma TraceNames()
    ensures "1_B" != "3_B" && "2_B" != "3_B" && "3_C" != "3_B" && "1_A_*" != "3_B"
    ensures "1_B" != "1_A_*" && "3_B" != "1_A_*" && "3_C" != "1_A_*" && "2_B" != "1_A_*"
    ensures "3_C" != "1_B" && "2_B" != "1_B" && "2_B" != "3_C" && "3_B" != "1_B"
  {
  }

  /** 2_B leads only to the end vertex 2_B_*: it is marked NOT OK. */
  lemma Trace2B(g: Graph, m: map<string, Mark>, sol: seq<seq<string>>, fuel: nat, policy: Policy)
    requires EndsDoubled(g) && m.Keys == g.vertices.Keys
    requires m["2_B"] == Unknown && m["2_B_*"] == Unknown
    ensures Explore(g, "3_B", ["1_A_*", "1_B", "3_C", "2_B"], State(m, sol), fuel, policy)
      == Success(State(m["2_B" := NotOK], sol))
  {
    TraceNames();
    var p := ["1_A_*", "1_B", "3_C", "2_B"];
    assert Last(p) == "2_B";
    assert ExploreAll(g, "3_B", p, [], State(m["2_B" := NotOK], sol), false, fuel, policy) == Success((State(m["2_B" := NotOK], sol), false));
  }

  /** Through 3_C the search reaches only 2_B: 3_C is marked NOT OK too. */
  lemma Trace3C(g: Graph, m: map<string, Mark>, sol: seq<seq<string>>, fuel: nat, policy: Policy)
    requires EndsDoubled(g) && m.Keys == g.vertices.Keys && fuel >= 1
    requires m["3_C"] == Unknown && m["2_A"] == Unknown && m["2_B"] == Unknown && m["2_B_*"] == Unknown
    ensures Explore(g, "3_B", ["1_A_*", "1_B", "3_C"], State(m, sol), fuel, policy)
      == Success(State(m["3_C" := NotOK]["2_B" := NotOK], sol))
  {
    TraceNames();
    var p := ["1_A_*", "1_B", "3_C"];
    assert Last(p) == "3_C";
    var m1 := m["3_C" := NotOK];
    assert "2_B" !in p;
    Trace2B(g, m1, sol, fuel - 1, policy);
    assert p + ["2_B"] == ["1_A_*", "1_B", "3_C", "2_B"];
    var s2 := State(m1["2_B" := NotOK], sol);
    assert !Reached(false, s2, "2_B");
    assert ExploreAll(g, "3_B", p, [], s2, false, fuel, policy) == Success((s2, false));
    assert ExploreAll(g, "3_B", p, ["2_B"], State(m1, sol), false, fuel, policy) == Success((s2, false));
  }

  /** 3_B is the destination: the route is recorded and 3_B marked OK. */
  lemma Trace3B(g: Graph, m: map<string, Mark>, sol: seq<seq<string>>, fuel: nat, policy: Policy)
    requires EndsDoubled(g) && m.Keys == g.vertices.Keys
    requires m["3_B"] == Unknown && m["3_B_*"] == Unknown
    ensures Explore(g, "3_B", ["1_A_*", "1_B", "3_B"], State(m, sol), fuel, policy)
      == Success(State(m["3_B" := OK], sol + [["1_A_*", "1_B", "3_B"]]))
  {
    assert Last(["1_A_*", "1_B", "3_B"]) == "3_B";
  }

  /** The second leg, 3_C, after the first one reached 3_B. */
  lemma TraceLeg3C(g: Graph, m: map<string, Mark>, sol: seq<seq<string>>, fuel: nat, policy: Policy)
    requires EndsDoubled(g) && m.Keys == g.vertices.Keys && fuel >= 2
    requires m["3_C"] == Unknown && m["2_A"] == Unknown && m["2_B"] == Unknown && m["2_B_*"] == Unknown
    ensures ExploreAll(g, "3_B", ["1_A_*", "1_B"], ["3_C"], State(m, sol), true, fuel, policy)
      == Success((State(m["3_C" := NotOK]["2_B" := NotOK], sol), true))
  {
    TraceNames();
    var p := ["1_A_*", "1_B"];
    assert "3_C" !in p;
    Trace3C(g, m, sol, fuel - 1, policy);
    assert p + ["3_C"] == ["1_A_*", "1_B", "3_C"];
    var s3 := State(m["3_C" := NotOK]["2_B" := NotOK], sol);
    assert ExploreAll(g, "3_B", p, [], s3, true, fuel, policy) == Success((s3, true));
  }

  /** Both legs of switch 3 from 1_B: 3_B succeeds, 3_C fails. */
  lemma TraceLegs(g: Graph, m: map<string, Mark>, sol: seq<seq<string>>, fuel: nat, policy: Policy)
    requires EndsDoubled(g) && m.Keys == g.vertices.Keys && fuel >= 2
    requires m["3_B"] == Unknown && m["3_B_*"] == Unknown
    requires m["3_C"] == Unknown && m["2_A"] == Unknown && m["2_B"] == Unknown && m["2_B_*"] == Unknown
    ensures ExploreAll(g, "3_B", ["1_A_*", "1_B"], ["3_B", "3_C"], State(m, sol), false, fuel, policy)
      == Success((State(m["3_B" := OK]["3_C" := NotOK]["2_B" := NotOK], sol + [["1_A_*", "1_B", "3_B"]]), true))
  {
    TraceNames();
    var p := ["1_A_*", "1_B"];
    assert "3_B" !in p;
    Trace3B(g, m, sol, fuel - 1, policy);
    assert p + ["3_B"] == ["1_A_*", "1_B", "3_B"];
    var s2 := State(m["3_B" := OK], sol + [["1_A_*", "1_B", "3_B"]]);
    TraceLeg3C(g, s2.marks, s2.solutions, fuel, policy);
    assert Reached(false, s2, "3_B");
  }

  /** From 1_B both legs of switch 3 are tried: 3_B succeeds, 3_C fails, so
      1_B ends up OK. */
  lemma Trace1B(g: Graph, m: map<string, Mark>, sol: seq<seq<string>>, fuel: nat, policy: Policy)
    requires EndsDoubled(g) && m.Keys == g.vertices.Keys && fuel >= 2
    requires m["1_B"] == Unknown && m["3_A"] == Unknown
    requires m["3_B"] == Unknown && m["3_B_*"] == Unknown
    requires m["3_C"] == Unknown && m["2_A"] == Unknown && m["2_B"] == Unknown && m["2_B_*"] == Unknown
    ensures Explore(g, "3_B", ["1_A_*", "1_B"], State(m, sol), fuel, policy)
      == Success(State(m["1_B" := NotOK]["3_B" := OK]["3_C" := NotOK]["2_B" := NotOK]["1_B" := OK], sol + [["1_A_*", "1_B", "3_B"]]))
  {
    TraceNames();
    var p := ["1_A_*", "1_B"];
    assert Last(p) == "1_B";
    TraceLegs(g, m["1_B" := NotOK], sol, fuel, policy);
  }

  /** The whole search from 1_A_*. */
  lemma TraceStart(g: Graph, fuel: nat, policy: Policy)
    requires EndsDoubled(g) && fuel >= 3
    ensures Explore(g, "3_B", ["1_A_*"], State(InitialMarks(g), []), fuel, policy).Success?
    ensures Explore(g, "3_B", ["1_A_*"], State(InitialMarks(g), []), fuel, policy).value.solutions
      == [["1_A_*", "1_B", "3_B"]]
  {
    TraceNames();
    var p := ["1_A_*"];
    var m := InitialMarks(g);
    assert Last(p) == "1_A_*";
    var m1 := m["1_A_*" := NotOK];
    assert "1_B" !in p;
    Trace1B(g, m1, [], fuel - 1, policy);
    assert p + ["1_B"] == ["1_A_*", "1_B"];
    var s2 := State(m1["1_B" := NotOK]["3_B" := OK]["3_C" := NotOK]["2_B" := NotOK]["1_B" := OK], [] + [["1_A_*", "1_B", "3_B"]]);
    assert Reached(false, s2, "1_B");
    assert ExploreAll(g, "3_B", p, [], s2, true, fuel, policy) == Success((s2, true));
    assert ExploreAll(g, "3_B", p, ["1_B"], State(m1, []), false, fuel, policy) == Success((s2, true));
  }

  /** `simpleGraph` up to the connections: tracks 1 and 2 and switch 3,
      then 1_B connected with 3_A and 3_C with 2_A. */
  function Connected(): (g: Graph)
    ensures Stage5(g)
  {
    AddTrack1();
    var g1 := WithTrack1(Empty);
    AddTrack2(g1);
    var g2 := WithTrack2(g1);
    AddSwitch3(g2);
    var g3 := WithSwitch3(g2);
    Connect1B3A(g3);
    var g4 := ConnectVertices(g3, "1_B", "3_A").value;
    Connect3C2A(g4);
    ConnectVertices(g4, "3_C", "2_A").value
  }

  /** `simpleGraph` finished: the three ends doubled. */
  function SimpleGraph(): (g: Graph)
    ensures Stage6(g)
  {
    var g5 := Connected();
    Finalised(g5);
    DoubleAllSingleVertices(g5, Order)
  }

  /** Three distinct names in a set make it at least three large. */
  lemma AtLeastThree(ks: set<string>, a: string, b: string, c: string)
    requires a in ks && b in ks && c in ks && a != b && a != c && b != c
    ensures |ks| >= 3
  {
    var sub := {a, b, c};
    assert |sub| == 3;
    assert ks == (ks - sub) + sub;
    assert |ks| == |ks - sub| + |sub|;
  }

  /** `simpleExample`: from 1_A_* to 3_B there is exactly one route, and
      both searches find it. */
  lemma SimpleExampleRoutes(fuel: nat)
    requires fuel >= 3
    ensures FindPath(SimpleGraph(), "1_A_*", "3_B", fuel) == Success([["1_A_*", "1_B", "3_B"]])
    ensures FindSimpleRoutes(SimpleGraph(), "1_A_*", "3_B") == Success([["1_A_*", "1_B", "3_B"]])
  {
    var g := SimpleGraph();
    TraceNames();
    TraceStart(g, fuel, AsWritten);
    AtLeastThree(g.vertices.Keys, "1_A_*", "1_B", "3_B");
    TraceStart(g, |g.vertices|, SimpleRoutes);
  }
}
