/** `Graph.findPath` of railwaygraph/graph.py: the depth-first search over
    double vertices that marks each vertex Unknown, NotOK or OK and collects
    every route it completes from the start vertex to the end vertex.

    A route enters a vertex and leaves through that vertex's partner, so the
    next vertex is a neighbour of the partner, never of the vertex itself.
    The source recurses until the interpreter's recursion limit raises a
    `RuntimeError`; here `fuel` bounds the depth of the recursion, and
    running out of it is reported as `OutOfFuel`. */
module Search {
  import opened Wrappers
  import opened Vertices
  import opened Graphs
  import opened Finalise

  /** The mark the search keeps per vertex. */
  datatype Mark = Unknown | NotOK | OK

  /** Why a search stopped without an answer. `NoSuchVertex` is the source's
      `IndexError` from `vertexByName`; `NoPartner` is its attribute error on
      a vertex without a partner; `Unmarked` is its key error on a vertex
      outside the graph; `OutOfFuel` stands for the interpreter's
      recursion-depth `RuntimeError`, at a depth the model leaves open. */
  datatype SearchError =
    | NoSuchVertex(name: string)
    | NoPartner(name: string)
    | Unmarked(name: string)
    | OutOfFuel

  /** What the search does with a neighbour that is already on the current
      route. `AsWritten` enters it again, as the source does; `SimpleRoutes`
      only takes its mark into account, which keeps every route free of
      repeated vertices and makes the search terminate. */
  datatype Policy = AsWritten | SimpleRoutes

  /** The marks and the routes found so far, in the order they were found. */
  datatype State = State(marks: map<string, Mark>, solutions: seq<seq<string>>)

  function Last(p: seq<string>): string
    requires |p| > 0
  {
    p[|p| - 1]
  }

  /** Marks only ever move up this order. */
  function Rank(m: Mark): nat
  {
    match m
    case Unknown => 0
    case NotOK => 1
    case OK => 2
  }

  /** Every vertex of the copied graph starts out Unknown. */
  function InitialMarks(g: Graph): (r: map<string, Mark>)
    ensures r.Keys == g.vertices.Keys
    ensures forall n :: n in r ==> r[n] == Unknown
  {
    map n | n in g.vertices :: Unknown
  }

  /** `findPathR(p, end)`: explore from the last vertex of route `p`. */
  function Explore(g: Graph, end: string, p: seq<string>, s: State, fuel: nat, policy: Policy): (r: Result<State, SearchError>)
    requires |p| > 0
    requires s.marks.Keys == g.vertices.Keys
    ensures r.Success? ==> r.value.marks.Keys == g.vertices.Keys
    decreases fuel, 1, 0
  {
    var v := Last(p);
    if v !in s.marks then Failure(Unmarked(v))
    else if s.marks[v] == NotOK then Success(s)
    else if g.vertices[v].partner.None? then Failure(NoPartner(v))
    else
      var w := g.vertices[v].partner.value;
      if w !in s.marks then Failure(Unmarked(w))
      else if s.marks[w] != Unknown then Success(s)
      else if v == end then Success(State(s.marks[v := OK], s.solutions + [p]))
      else if s.marks[v] == Unknown then
        var r := ExploreAll(g, end, p, ConnectedVertices(g.vertices[w]), State(s.marks[v := NotOK], s.solutions), false, fuel, policy);
        if r.Failure? then Failure(r.error)
        else if r.value.1 then Success(r.value.0.(marks := r.value.0.marks[v := OK]))
        else Success(r.value.0)
      else
        var r := ExploreAll(g, end, p, ConnectedVertices(g.vertices[w]), s, false, fuel, policy);
        if r.Failure? then Failure(r.error) else Success(r.value.0)
  }

  /** The loop over the partner's neighbours `cs`: explore `p + [c]` for each
      `c` in turn and record whether some `c` ended up marked OK. Under
      `SimpleRoutes` a `c` already on `p` is not entered; only its mark
      counts. */
  function ExploreAll(g: Graph, end: string, p: seq<string>, cs: seq<string>, s: State, found: bool, fuel: nat, policy: Policy)
    : (r: Result<(State, bool), SearchError>)
    requires s.marks.Keys == g.vertices.Keys
    ensures r.Success? ==> r.value.0.marks.Keys == g.vertices.Keys
    decreases fuel, 0, |cs|
  {
    if |cs| == 0 then Success((s, found))
    else if policy == SimpleRoutes && cs[0] in p then
      ExploreAll(g, end, p, cs[1..], s, Reached(found, s, cs[0]), fuel, policy)
    else if fuel == 0 then Failure(OutOfFuel)
    else
      var r := Explore(g, end, p + [cs[0]], s, fuel - 1, policy);
      if r.Failure? then Failure(r.error)
      else ExploreAll(g, end, p, cs[1..], r.value, Reached(found, r.value, cs[0]), fuel, policy)
  }

  /** The `found_path` flag after neighbour `c` was dealt with: once set it
      stays set, it is set when `c` ended up OK, and otherwise it stays
      clear. */
  function Reached(found: bool, s: State, c: string): (r: bool)
    ensures found ==> r
    ensures c in s.marks && s.marks[c] == OK ==> r
    ensures !found && (c !in s.marks || s.marks[c] != OK) ==> !r
  {
    found || (c in s.marks && s.marks[c] == OK)
  }

  /** The search from `start` to `end` under `policy`, with `fuel` bounding
      the recursion depth. The start and end vertex are looked up first, in
      that order. */
  function Search(g: Graph, start: string, end: string, fuel: nat, policy: Policy): (r: Result<seq<seq<string>>, SearchError>)
    ensures start !in g.vertices ==> r == Failure(NoSuchVertex(start))
    ensures start in g.vertices && end !in g.vertices ==> r == Failure(NoSuchVertex(end))
  {
    if start !in g.vertices then Failure(NoSuchVertex(start))
    else if end !in g.vertices then Failure(NoSuchVertex(end))
    else
      var r := Explore(g, end, [start], State(InitialMarks(g), []), fuel, policy);
      if r.Failure? then Failure(r.error) else Success(r.value.solutions)
  }

  /** `findPath(start, end)` as the source has it: every route the search
      completes, with the recursion depth bounded by `fuel`. */
  function FindPath(g: Graph, start: string, end: string, fuel: nat): (r: Result<seq<seq<string>>, SearchError>)
    ensures start !in g.vertices ==> r == Failure(NoSuchVertex(start))
    ensures start in g.vertices && end !in g.vertices ==> r == Failure(NoSuchVertex(end))
  {
    Search(g, start, end, fuel, AsWritten)
  }

  /** `findPath(start, end)` with the correction that a route never enters a
      vertex it already holds. No route is longer than the graph has
      vertices, so that many levels of recursion always suffice. */
  function FindSimpleRoutes(g: Graph, start: string, end: string): (r: Result<seq<seq<string>>, SearchError>)
    ensures start !in g.vertices ==> r == Failure(NoSuchVertex(start))
    ensures start in g.vertices && end !in g.vertices ==> r == Failure(NoSuchVertex(end))
  {
    Search(g, start, end, |g.vertices|, SimpleRoutes)
  }

  /** `a` is an initial part of `b`. */
  predicate IsPrefix<T(==)>(a: seq<T>, b: seq<T>)
  {
    |a| <= |b| && b[..|a|] == a
  }

  /** From `a` to `b` no mark moved down and no route was dropped. */
  predicate Grows(a: State, b: State)
  {
    && a.marks.Keys <= b.marks.Keys
    && (forall n :: n in a.marks ==> Rank(a.marks[n]) <= Rank(b.marks[n]))
    && IsPrefix(a.solutions, b.solutions)
  }

  lemma {:induction false} ExploreGrows(g: Graph, end: string, p: seq<string>, s: State, fuel: nat, policy: Policy)
    requires |p| > 0
    requires s.marks.Keys == g.vertices.Keys
    ensures var r := Explore(g, end, p, s, fuel, policy); r.Success? ==> Grows(s, r.value)
    decreases fuel, 1, 0
  {
    var v := Last(p);
    if v in s.marks && s.marks[v] != NotOK && g.vertices[v].partner.Some? {
      var w := g.vertices[v].partner.value;
      if w in s.marks && s.marks[w] == Unknown && v != end {
        var cs := ConnectedVertices(g.vertices[w]);
        if s.marks[v] == Unknown {
          ExploreAllGrows(g, end, p, cs, State(s.marks[v := NotOK], s.solutions), false, fuel, policy);
        } else {
          ExploreAllGrows(g, end, p, cs, s, false, fuel, policy);
        }
      }
    }
  }

  lemma {:induction false} ExploreAllGrows(g: Graph, end: string, p: seq<string>, cs: seq<string>, s: State, found: bool, fuel: nat, policy: Policy)
    requires s.marks.Keys == g.vertices.Keys
    ensures var r := ExploreAll(g, end, p, cs, s, found, fuel, policy); r.Success? ==> Grows(s, r.value.0)
    decreases fuel, 0, |cs|
  {
    if |cs| > 0 && policy == SimpleRoutes && cs[0] in p {
      ExploreAllGrows(g, end, p, cs[1..], s, Reached(found, s, cs[0]), fuel, policy);
    } else if |cs| > 0 && fuel > 0 {
      ExploreGrows(g, end, p + [cs[0]], s, fuel - 1, policy);
      var r := Explore(g, end, p + [cs[0]], s, fuel - 1, policy);
      if r.Success? {
        var s1 := r.value;
        var f1 := Reached(found, s1, cs[0]);
        ExploreAllGrows(g, end, p, cs[1..], s1, f1, fuel, policy);
        var r2 := ExploreAll(g, end, p, cs[1..], s1, f1, fuel, policy);
        if r2.Success? {
          var s2 := r2.value.0;
          assert s2.solutions[..|s.solutions|] == s2.solutions[..|s1.solutions|][..|s.solutions|];
        }
      }
    }
  }

  /** One move of a route: from vertex `a` through its partner to `b`, a
      neighbour of that partner. */
  predicate Step(g: Graph, a: string, b: string)
  {
    && a in g.vertices
    && g.vertices[a].partner.Some?
    && g.vertices[a].partner.value in g.vertices
    && b in ConnectedVertices(g.vertices[g.vertices[a].partner.value])
  }

  /** From position `k` on, route `q` moves by `Step`, reaches `end` at its
      last vertex and not before. */
  predicate CompletesFrom(g: Graph, end: string, q: seq<string>, k: nat)
  {
    && k < |q|
    && q[|q| - 1] == end
    && forall i :: k <= i < |q| - 1 ==> q[i] != end && Step(g, q[i], q[i + 1])
  }

  /** Every route added between `a` and `b` extends `p` and completes from
      the last vertex of `p`. */
  predicate RoutesExtend(g: Graph, end: string, p: seq<string>, a: State, b: State)
    requires |p| > 0
  {
    forall i :: |a.solutions| <= i < |b.solutions| ==>
      && IsPrefix(p, b.solutions[i])
      && CompletesFrom(g, end, b.solutions[i], |p| - 1)
  }

  /** Every route added between `a` and `b` extends `p` by one of `cs` and
      completes from there. */
  predicate RoutesExtendBy(g: Graph, end: string, p: seq<string>, cs: seq<string>, a: State, b: State)
  {
    forall i :: |a.solutions| <= i < |b.solutions| ==>
      && |p| < |b.solutions[i]|
      && b.solutions[i][..|p|] == p
      && b.solutions[i][|p|] in cs
      && CompletesFrom(g, end, b.solutions[i], |p|)
  }

  lemma {:induction false} ExploreRoutes(g: Graph, end: string, p: seq<string>, s: State, fuel: nat, policy: Policy)
    requires |p| > 0
    requires s.marks.Keys == g.vertices.Keys
    ensures var r := Explore(g, end, p, s, fuel, policy); r.Success? ==> RoutesExtend(g, end, p, s, r.value)
    decreases fuel, 1, 0
  {
    var v := Last(p);
    if v in s.marks && s.marks[v] != NotOK && g.vertices[v].partner.Some? {
      var w := g.vertices[v].partner.value;
      if w in s.marks && s.marks[w] == Unknown && v != end {
        var cs := ConnectedVertices(g.vertices[w]);
        var s0 := if s.marks[v] == Unknown then State(s.marks[v := NotOK], s.solutions) else s;
        ExploreAllRoutes(g, end, p, cs, s0, false, fuel, policy);
        var r := ExploreAll(g, end, p, cs, s0, false, fuel, policy);
        if r.Success? {
          var s1 := r.value.0;
          forall i | |s.solutions| <= i < |s1.solutions|
            ensures IsPrefix(p, s1.solutions[i]) && CompletesFrom(g, end, s1.solutions[i], |p| - 1)
          {
            var q := s1.solutions[i];
            assert q[|p| - 1] == p[|p| - 1] by { assert q[..|p|] == p; }
            assert Step(g, q[|p| - 1], q[|p|]);
          }
        }
      }
    }
  }

  lemma {:induction false} ExploreAllRoutes(g: Graph, end: string, p: seq<string>, cs: seq<string>, s: State, found: bool, fuel: nat, policy: Policy)
    requires |p| > 0
    requires s.marks.Keys == g.vertices.Keys
    ensures var r := ExploreAll(g, end, p, cs, s, found, fuel, policy); r.Success? ==> RoutesExtendBy(g, end, p, cs, s, r.value.0)
    decreases fuel, 0, |cs|
  {
    if |cs| > 0 && policy == SimpleRoutes && cs[0] in p {
      ExploreAllRoutes(g, end, p, cs[1..], s, Reached(found, s, cs[0]), fuel, policy);
    } else if |cs| > 0 && fuel > 0 {
      var c := cs[0];
      ExploreRoutes(g, end, p + [c], s, fuel - 1, policy);
      ExploreGrows(g, end, p + [c], s, fuel - 1, policy);
      var r := Explore(g, end, p + [c], s, fuel - 1, policy);
      if r.Success? {
        var s1 := r.value;
        var f1 := Reached(found, s1, c);
        ExploreAllRoutes(g, end, p, cs[1..], s1, f1, fuel, policy);
        ExploreAllGrows(g, end, p, cs[1..], s1, f1, fuel, policy);
        var r2 := ExploreAll(g, end, p, cs[1..], s1, f1, fuel, policy);
        if r2.Success? {
          var s2 := r2.value.0;
          forall i | |s.solutions| <= i < |s2.solutions|
            ensures |p| < |s2.solutions[i]| && s2.solutions[i][..|p|] == p
            ensures s2.solutions[i][|p|] in cs && CompletesFrom(g, end, s2.solutions[i], |p|)
          {
            var q := s2.solutions[i];
            if i < |s1.solutions| {
              assert q == s1.solutions[i] by { assert s2.solutions[..|s1.solutions|] == s1.solutions; }
              assert q[..|p| + 1] == p + [c];
              assert q[..|p|] == (p + [c])[..|p|];
              assert q[|p|] == c;
            } else {
              assert q[|p|] in cs[1..];
            }
          }
        }
      }
    }
  }

  lemma {:induction false} ExploreMarksOK(g: Graph, end: string, p: seq<string>, s: State, fuel: nat, policy: Policy)
    requires |p| > 0
    requires s.marks.Keys == g.vertices.Keys
    ensures var r := Explore(g, end, p, s, fuel, policy);
      r.Success? && |r.value.solutions| > |s.solutions| ==> r.value.marks[Last(p)] == OK
    decreases fuel, 1, 0
  {
    var v := Last(p);
    if v in s.marks && s.marks[v] != NotOK && g.vertices[v].partner.Some? {
      var w := g.vertices[v].partner.value;
      if w in s.marks && s.marks[w] == Unknown && v != end {
        var cs := ConnectedVertices(g.vertices[w]);
        if s.marks[v] == Unknown {
          ExploreAllMarksOK(g, end, p, cs, State(s.marks[v := NotOK], s.solutions), false, fuel, policy);
        } else {
          ExploreAllGrows(g, end, p, cs, s, false, fuel, policy);
        }
      }
    }
  }

  lemma {:induction false} ExploreAllMarksOK(g: Graph, end: string, p: seq<string>, cs: seq<string>, s: State, found: bool, fuel: nat, policy: Policy)
    requires s.marks.Keys == g.vertices.Keys
    ensures var r := ExploreAll(g, end, p, cs, s, found, fuel, policy);
      r.Success? && (found || |r.value.0.solutions| > |s.solutions|) ==> r.value.1
    decreases fuel, 0, |cs|
  {
    if |cs| > 0 && policy == SimpleRoutes && cs[0] in p {
      ExploreAllMarksOK(g, end, p, cs[1..], s, Reached(found, s, cs[0]), fuel, policy);
    } else if |cs| > 0 && fuel > 0 {
      var c := cs[0];
      ExploreMarksOK(g, end, p + [c], s, fuel - 1, policy);
      ExploreGrows(g, end, p + [c], s, fuel - 1, policy);
      var r := Explore(g, end, p + [c], s, fuel - 1, policy);
      if r.Success? {
        var s1 := r.value;
        var f1 := Reached(found, s1, c);
        ExploreAllMarksOK(g, end, p, cs[1..], s1, f1, fuel, policy);
      }
    }
  }

  /** The graph the search can walk without a lookup failing: every vertex
      has a partner in the graph and every neighbour is in the graph. This is
      what `doubleAllSingleVertices` leaves behind. */
  predicate Ready(g: Graph)
  {
    AllPaired(g) && PairingSymmetric(g) && EdgesClosed(g)
  }

  /** Finalising a graph whose pairing is symmetric and whose neighbours are
      all in the graph leaves it ready for the search. */
  lemma FinalisedIsReady(g: Graph, order: seq<string>)
    requires KeysAreNames(g) && NoSyntheticClash(g)
    requires PairingSymmetric(g) && EdgesClosed(g)
    requires IsListing(order, g.vertices.Keys)
    ensures Ready(DoubleAllSingleVertices(g, order))
  {
    FinalisedShape(g, order);
  }

  lemma {:induction false} ExploreOnlyRunsOutOfFuel(g: Graph, end: string, p: seq<string>, s: State, fuel: nat, policy: Policy)
    requires |p| > 0 && Last(p) in g.vertices
    requires s.marks.Keys == g.vertices.Keys
    requires Ready(g)
    ensures var r := Explore(g, end, p, s, fuel, policy); r.Failure? ==> r.error == OutOfFuel
    decreases fuel, 1, 0
  {
    var v := Last(p);
    if s.marks[v] != NotOK {
      var w := g.vertices[v].partner.value;
      if s.marks[w] == Unknown && v != end {
        var cs := ConnectedVertices(g.vertices[w]);
        var s0 := if s.marks[v] == Unknown then State(s.marks[v := NotOK], s.solutions) else s;
        ExploreAllOnlyRunsOutOfFuel(g, end, p, cs, s0, false, fuel, policy);
      }
    }
  }

  lemma {:induction false} ExploreAllOnlyRunsOutOfFuel(g: Graph, end: string, p: seq<string>, cs: seq<string>, s: State, found: bool, fuel: nat, policy: Policy)
    requires forall i :: 0 <= i < |cs| ==> cs[i] in g.vertices
    requires s.marks.Keys == g.vertices.Keys
    requires Ready(g)
    ensures var r := ExploreAll(g, end, p, cs, s, found, fuel, policy); r.Failure? ==> r.error == OutOfFuel
    decreases fuel, 0, |cs|
  {
    if |cs| > 0 && policy == SimpleRoutes && cs[0] in p {
      ExploreAllOnlyRunsOutOfFuel(g, end, p, cs[1..], s, Reached(found, s, cs[0]), fuel, policy);
    } else if |cs| > 0 && fuel > 0 {
      var c := cs[0];
      ExploreOnlyRunsOutOfFuel(g, end, p + [c], s, fuel - 1, policy);
      var r := Explore(g, end, p + [c], s, fuel - 1, policy);
      if r.Success? {
        var s1 := r.value;
        ExploreAllOnlyRunsOutOfFuel(g, end, p, cs[1..], s1, Reached(found, s1, c), fuel, policy);
      }
    }
  }

  /** Fuel is only a bound: a search that did not run out of it gives the
      same answer with more. */
  lemma {:induction false} ExploreFuel(g: Graph, end: string, p: seq<string>, s: State, fuel: nat, more: nat, policy: Policy)
    requires |p| > 0
    requires s.marks.Keys == g.vertices.Keys
    requires fuel <= more
    requires Explore(g, end, p, s, fuel, policy) != Failure(OutOfFuel)
    ensures Explore(g, end, p, s, more, policy) == Explore(g, end, p, s, fuel, policy)
    decreases fuel, 1, 0
  {
    var v := Last(p);
    if v in s.marks && s.marks[v] != NotOK && g.vertices[v].partner.Some? {
      var w := g.vertices[v].partner.value;
      if w in s.marks && s.marks[w] == Unknown && v != end {
        var cs := ConnectedVertices(g.vertices[w]);
        var s0 := if s.marks[v] == Unknown then State(s.marks[v := NotOK], s.solutions) else s;
        ExploreAllFuel(g, end, p, cs, s0, false, fuel, more, policy);
      }
    }
  }

  lemma {:induction false} ExploreAllFuel(g: Graph, end: string, p: seq<string>, cs: seq<string>, s: State, found: bool, fuel: nat, more: nat, policy: Policy)
    requires s.marks.Keys == g.vertices.Keys
    requires fuel <= more
    requires ExploreAll(g, end, p, cs, s, found, fuel, policy) != Failure(OutOfFuel)
    ensures ExploreAll(g, end, p, cs, s, found, more, policy) == ExploreAll(g, end, p, cs, s, found, fuel, policy)
    decreases fuel, 0, |cs|
  {
    if |cs| > 0 && policy == SimpleRoutes && cs[0] in p {
      ExploreAllFuel(g, end, p, cs[1..], s, Reached(found, s, cs[0]), fuel, more, policy);
    } else if |cs| > 0 {
      var c := cs[0];
      var r := Explore(g, end, p + [c], s, fuel - 1, policy);
      if r != Failure(OutOfFuel) {
        ExploreFuel(g, end, p + [c], s, fuel - 1, more - 1, policy);
        if r.Success? {
          var s1 := r.value;
          ExploreAllFuel(g, end, p, cs[1..], s1, Reached(found, s1, c), fuel, more, policy);
        }
      }
    }
  }

  /** Every route the search returns starts at `start`, moves from each
      vertex through its partner to a neighbour of the partner, and reaches
      `end` at its last vertex and nowhere before. */
  lemma SearchRoutes(g: Graph, start: string, end: string, fuel: nat, policy: Policy)
    ensures var r := Search(g, start, end, fuel, policy);
      r.Success? ==> forall q :: q in r.value ==> CompletesFrom(g, end, q, 0) && q[0] == start
  {
    if start in g.vertices && end in g.vertices {
      var s := State(InitialMarks(g), []);
      ExploreRoutes(g, end, [start], s, fuel, policy);
      var r := Explore(g, end, [start], s, fuel, policy);
      if r.Success? {
        forall q | q in r.value.solutions ensures q[0] == start && CompletesFrom(g, end, q, 0) {
          var i :| 0 <= i < |r.value.solutions| && r.value.solutions[i] == q;
          assert q[..1] == [start];
        }
      }
    }
  }

  /** On a finalised graph the search cannot fail on a lookup: given enough
      fuel it always answers. */
  lemma SearchOnlyRunsOutOfFuel(g: Graph, start: string, end: string, fuel: nat, policy: Policy)
    requires Ready(g)
    requires start in g.vertices && end in g.vertices
    ensures var r := Search(g, start, end, fuel, policy); r.Failure? ==> r.error == OutOfFuel
  {
    ExploreOnlyRunsOutOfFuel(g, end, [start], State(InitialMarks(g), []), fuel, policy);
  }

  /** More fuel never changes an answer. */
  lemma SearchFuel(g: Graph, start: string, end: string, fuel: nat, more: nat, policy: Policy)
    requires fuel <= more
    requires Search(g, start, end, fuel, policy) != Failure(OutOfFuel)
    ensures Search(g, start, end, more, policy) == Search(g, start, end, fuel, policy)
  {
    if start in g.vertices && end in g.vertices {
      ExploreFuel(g, end, [start], State(InitialMarks(g), []), fuel, more, policy);
    }
  }

  /** A route from a vertex to itself is the vertex alone, whatever the fuel. */
  lemma SearchToItself(g: Graph, x: string, fuel: nat, policy: Policy)
    requires x in g.vertices
    requires g.vertices[x].partner.Some? && g.vertices[x].partner.value in g.vertices
    ensures Search(g, x, x, fuel, policy) == Success([[x]])
  {
    var m := InitialMarks(g);
    assert Last([x]) == x;
    assert m[x] == Unknown && m[g.vertices[x].partner.value] == Unknown;
    var s := State(m, []);
    assert x in s.marks;
    assert s.marks[x] != NotOK;
    assert g.vertices[x].partner.Some?;
    assert s.solutions + [[x]] == [[x]];
    assert Explore(g, x, [x], s, fuel, policy) == Success(State(m[x := OK], [[x]]));
  }

  /** Leaving through a partner without neighbours finds nothing. */
  lemma SearchDeadEnd(g: Graph, start: string, end: string, fuel: nat, policy: Policy)
    requires start in g.vertices && end in g.vertices && start != end
    requires g.vertices[start].partner.Some? && g.vertices[start].partner.value in g.vertices
    requires ConnectedVertices(g.vertices[g.vertices[start].partner.value]) == []
    ensures Search(g, start, end, fuel, policy) == Success([])
  {
    var m := InitialMarks(g);
    var w := g.vertices[start].partner.value;
    assert Last([start]) == start;
    assert m[start] == Unknown && m[w] == Unknown;
    var s0 := State(m[start := NotOK], []);
    assert ExploreAll(g, end, [start], [], s0, false, fuel, policy) == Success((s0, false));
  }

  /** A route without repeats through vertices of `ks` is no longer than
      `ks` is large. */
  lemma {:induction false} RouteLength(q: seq<string>, ks: set<string>)
    requires NoDup(q)
    requires forall i :: 0 <= i < |q| ==> q[i] in ks
    ensures |q| <= |ks|
    decreases |q|
  {
    if |q| > 0 {
      var rest := q[1..];
      forall i | 0 <= i < |rest| ensures rest[i] in ks - {q[0]} {
        assert rest[i] == q[i + 1];
      }
      RouteLength(rest, ks - {q[0]});
    }
  }

  /** Under `SimpleRoutes` a route that starts without repeats never gains
      one. */
  lemma {:induction false} ExploreSimple(g: Graph, end: string, p: seq<string>, s: State, fuel: nat)
    requires |p| > 0 && NoDup(p)
    requires s.marks.Keys == g.vertices.Keys
    ensures var r := Explore(g, end, p, s, fuel, SimpleRoutes);
      r.Success? ==> forall i :: |s.solutions| <= i < |r.value.solutions| ==> NoDup(r.value.solutions[i])
    decreases fuel, 1, 0
  {
    var v := Last(p);
    if v in s.marks && s.marks[v] != NotOK && g.vertices[v].partner.Some? {
      var w := g.vertices[v].partner.value;
      if w in s.marks && s.marks[w] == Unknown && v != end {
        var cs := ConnectedVertices(g.vertices[w]);
        var s0 := if s.marks[v] == Unknown then State(s.marks[v := NotOK], s.solutions) else s;
        ExploreAllSimple(g, end, p, cs, s0, false, fuel);
      }
    }
  }

  lemma {:induction false} ExploreAllSimple(g: Graph, end: string, p: seq<string>, cs: seq<string>, s: State, found: bool, fuel: nat)
    requires NoDup(p)
    requires s.marks.Keys == g.vertices.Keys
    ensures var r := ExploreAll(g, end, p, cs, s, found, fuel, SimpleRoutes);
      r.Success? ==> forall i :: |s.solutions| <= i < |r.value.0.solutions| ==> NoDup(r.value.0.solutions[i])
    decreases fuel, 0, |cs|
  {
    if |cs| > 0 && cs[0] in p {
      ExploreAllSimple(g, end, p, cs[1..], s, Reached(found, s, cs[0]), fuel);
    } else if |cs| > 0 && fuel > 0 {
      var c := cs[0];
      assert NoDup(p + [c]);
      ExploreSimple(g, end, p + [c], s, fuel - 1);
      ExploreGrows(g, end, p + [c], s, fuel - 1, SimpleRoutes);
      var r := Explore(g, end, p + [c], s, fuel - 1, SimpleRoutes);
      if r.Success? {
        var s1 := r.value;
        ExploreAllSimple(g, end, p, cs[1..], s1, Reached(found, s1, c), fuel);
        ExploreAllGrows(g, end, p, cs[1..], s1, Reached(found, s1, c), fuel, SimpleRoutes);
        var r2 := ExploreAll(g, end, p, cs[1..], s1, Reached(found, s1, c), fuel, SimpleRoutes);
        if r2.Success? {
          var s2 := r2.value.0;
          forall i | |s.solutions| <= i < |s1.solutions| ensures NoDup(s2.solutions[i]) {
            assert s2.solutions[..|s1.solutions|] == s1.solutions;
            assert s2.solutions[i] == s1.solutions[i];
          }
        }
      }
    }
  }

  /** Under `SimpleRoutes` on a finalised graph, a route without repeats and
      fuel for the vertices it does not yet hold never run out. */
  lemma {:induction false} ExploreEnoughFuel(g: Graph, end: string, p: seq<string>, s: State, fuel: nat)
    requires |p| > 0 && NoDup(p)
    requires forall i :: 0 <= i < |p| ==> p[i] in g.vertices
    requires |g.vertices| <= |p| + fuel
    requires s.marks.Keys == g.vertices.Keys
    requires Ready(g)
    ensures Explore(g, end, p, s, fuel, SimpleRoutes) != Failure(OutOfFuel)
    decreases fuel, 1, 0
  {
    var v := Last(p);
    if s.marks[v] != NotOK {
      var w := g.vertices[v].partner.value;
      if s.marks[w] == Unknown && v != end {
        var cs := ConnectedVertices(g.vertices[w]);
        var s0 := if s.marks[v] == Unknown then State(s.marks[v := NotOK], s.solutions) else s;
        ExploreAllEnoughFuel(g, end, p, cs, s0, false, fuel);
      }
    }
  }

  lemma {:induction false} ExploreAllEnoughFuel(g: Graph, end: string, p: seq<string>, cs: seq<string>, s: State, found: bool, fuel: nat)
    requires NoDup(p)
    requires forall i :: 0 <= i < |p| ==> p[i] in g.vertices
    requires forall i :: 0 <= i < |cs| ==> cs[i] in g.vertices
    requires |g.vertices| <= |p| + fuel
    requires s.marks.Keys == g.vertices.Keys
    requires Ready(g)
    ensures ExploreAll(g, end, p, cs, s, found, fuel, SimpleRoutes) != Failure(OutOfFuel)
    decreases fuel, 0, |cs|
  {
    if |cs| > 0 && cs[0] in p {
      ExploreAllEnoughFuel(g, end, p, cs[1..], s, Reached(found, s, cs[0]), fuel);
    } else if |cs| > 0 {
      var c := cs[0];
      var q := p + [c];
      assert NoDup(q);
      assert forall i :: 0 <= i < |q| ==> q[i] in g.vertices;
      RouteLength(q, g.vertices.Keys);
      ExploreEnoughFuel(g, end, q, s, fuel - 1);
      var r := Explore(g, end, q, s, fuel - 1, SimpleRoutes);
      if r.Success? {
        ExploreAllEnoughFuel(g, end, p, cs[1..], r.value, Reached(found, r.value, c), fuel);
      }
    }
  }

  /** The corrected search always answers on a finalised graph. */
  lemma FindSimpleRoutesAnswers(g: Graph, start: string, end: string)
    requires Ready(g)
    requires start in g.vertices && end in g.vertices
    ensures FindSimpleRoutes(g, start, end).Success?
  {
    var s := State(InitialMarks(g), []);
    ExploreEnoughFuel(g, end, [start], s, |g.vertices|);
    ExploreOnlyRunsOutOfFuel(g, end, [start], s, |g.vertices|, SimpleRoutes);
  }

  /** Every route of the corrected search is a route in the sense of
      `SearchRoutes` and holds no vertex twice. */
  lemma FindSimpleRoutesNoRepeats(g: Graph, start: string, end: string)
    ensures var r := FindSimpleRoutes(g, start, end);
      r.Success? ==> forall q :: q in r.value ==> NoDup(q) && CompletesFrom(g, end, q, 0) && q[0] == start
  {
    SearchRoutes(g, start, end, |g.vertices|, SimpleRoutes);
    if start in g.vertices && end in g.vertices {
      var s := State(InitialMarks(g), []);
      ExploreSimple(g, end, [start], s, |g.vertices|);
    }
  }
}
