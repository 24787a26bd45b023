# railwaygraph in Dafny

A model of `railwaygraph/graph.py`, a small Python library that represents a
railway track network as a graph of *double vertices*, following Montigel's
technique. Every point where a train can pass is a pair of vertices, one per
direction of travel. A route enters a vertex and leaves it through the
vertex's partner, so the next vertex on the route is a neighbour of that
partner.

The library's life cycle is modelled in four stages:

1. **Elements.** `Track(id)` builds two vertices `id_A`, `id_B` joined by an
   edge. `Switch(id, orientation)` builds a throat `id_A` joined to two legs
   `id_B`, `id_C`. Each element keeps its own little subgraph.
2. **Composition.** `addElementGraph` merges an element's subgraph into a
   composite graph. `connectVertices` pairs two boundary vertices of
   neighbouring elements into one double vertex.
3. **Finalisation.** `doubleAllSingleVertices` gives every vertex that is still
   unpaired a synthetic partner named `"{name}_*"`. That partner is an end of
   the network.
4. **Search.** `findPath(start, end)` is a depth-first search. It marks each
   vertex `Unknown`, `NotOK` or `OK` and collects every route it completes
   from `start` to `end`.

The model is purely functional:

- Vertices are values keyed by name, and they refer to one another by name.
- Every operation returns a new graph.
- Errors that the source raises as exceptions are `Failure` values here.
- Where the source iterates over a Python dictionary, the iteration order is
  a parameter `order`. The precondition `IsListing` requires `order` to list
  every key of the dictionary and nothing else. The results are proved not
  to depend on that order.
- The search's recursion, which in the source goes on until the interpreter's
  recursion limit raises a `RuntimeError`, is bounded by `fuel`. Running out
  of fuel is reported as `OutOfFuel`.

Files:

- `wrappers.dfy`: `Option` and `Result`.
- `elements.dfy`: element identity and switch orientation.
- `vertex.dfy`: module `Vertices`, the `Vertex` class.
- `graph.dfy`: module `Graphs`, the `Graph` construction and lookup operations.
- `templates.dfy`: module `Templates`, `TrackElement`, `Track`, `Switch` and
  `addElementGraph`.
- `finalise.dfy`: module `Finalise`, `doubleAllSingleVertices`.
- `search.dfy`: module `Search`, `findPath`, as written and corrected.
- `scenario.dfy`: module `Scenarios`, the `simpleGraph` network of
  `railwaygraph/examples.py` and its search.
- `loop.dfy`: module `LoopExample`, a network on which `findPath` never
  completes its search (see Findings).

## Model

| member | source | states |
|---|---|---|
| Vertices.NewVertex | railwaygraph/graph.py:25-39 | A new vertex has the given name, element and position, no neighbours and no partner. It is not an end vertex, and it becomes one as soon as it is given any partner. |
| Vertices.AddEdge | railwaygraph/graph.py:41-44 | Afterwards the new neighbour is listed. The neighbours are exactly the old ones plus the new one. The old list is kept, in order, as a prefix. A list without repeats stays without repeats. Nothing else about the vertex changes. |
| Vertices.AddEdgeIdempotent | railwaygraph/graph.py:41-44 | Because of the membership guard, adding the same neighbour twice has the effect of adding it once. |
| Vertices.ConnectedVertices | railwaygraph/graph.py:46-49 | The neighbours in the order `addEdge` recorded them (stated by `Vertices.ConnectedInOrder`). |
| Vertices.ConnectedInOrder | railwaygraph/graph.py:41-49 | Recording a new neighbour puts it last among the connected vertices. Recording a listed one leaves them as they were. |
| Vertices.IsEndVertex | railwaygraph/graph.py:51-58 | A vertex is an end vertex exactly when it has a partner and no neighbour at all. |
| Vertices.AddEdgeNotEnd | railwaygraph/graph.py:41-58 | A vertex that has been given a neighbour is never an end vertex. |
| Graphs.AddVertex | railwaygraph/graph.py:82-90 | The vertex is registered under its name and its element under the element's id. The key sets grow by exactly these two keys. Adding an unpaired vertex under a name that is new, or whose old vertex was unpaired, keeps pairing symmetric. |
| Graphs.AddVertexFrame | railwaygraph/graph.py:82-90 | Every other vertex and element entry is unchanged. Vertices stay stored under their own names. |
| Graphs.AddVertexReplaces | railwaygraph/graph.py:82-86 | The duplicate guard tests the vertex object against the name keys, so it never refuses. A second vertex of the same name replaces the first. |
| Graphs.AddVertexThenLookup | railwaygraph/graph.py:82-110 | After `addVertex`, `vertexByName` finds the new vertex and `elementById` finds its element. Every other name finds what it found before. |
| Graphs.VertexByName | railwaygraph/graph.py:100-104 | The lookup succeeds exactly when the name is registered, and then returns that vertex. Otherwise it fails with `NotFound`, the source's `IndexError`. |
| Graphs.ElementById | railwaygraph/graph.py:106-110 | The lookup succeeds exactly when the id is registered, and then returns that element. Otherwise it fails with `NotFound`. |
| Graphs.AddEdge | railwaygraph/graph.py:92-94 | Each registered end lists the other as a neighbour. No vertex or element is added or removed. |
| Graphs.AddEdgeFrame | railwaygraph/graph.py:92-94 | Only the edge lists of the two ends change, and each gains only the other. Partners, elements and positions are untouched. |
| Graphs.AttachPreserves | railwaygraph/graph.py:41-44 | Recording one neighbour keeps vertices under their names and edge lists free of repeats. It keeps every neighbour inside the graph when the new neighbour is inside it. |
| Graphs.AddEdgeSymmetric | railwaygraph/graph.py:92-94 | An edge between two vertices of the graph keeps adjacency symmetric. |
| Graphs.AddEdgePreserves | railwaygraph/graph.py:92-94 | `addEdge` keeps vertices under their names and edge lists free of repeats. Between vertices of the graph it keeps adjacency closed and symmetric. |
| Graphs.AddEdgeNew | railwaygraph/graph.py:92-94 | A new edge between two distinct vertices appends each end to the other's edge list and changes nothing else. |
| Graphs.AddEdgeIdempotent | railwaygraph/graph.py:92-94 | Adding an edge that is already there changes nothing. |
| Graphs.ConnectVertices | railwaygraph/graph.py:118-127 | Fails with `UnknownVertex` when either name is missing. Fails with `AlreadyPaired` when both are present and either one has a partner. Succeeds exactly when both are present and unpaired. On success each becomes the other's partner and nothing else changes. Symmetric pairing and names-as-keys are preserved. |
| Graphs.AddVerticesFrom | railwaygraph/graph.py:96-98 | Merging never drops a vertex name or an element id. Every visited vertex's name and element id are registered afterwards. |
| Graphs.AddVerticesFromMerges | railwaygraph/graph.py:96-98 | Adding the vertices named in `order` one by one gives the old vertices overridden by those of the subgraph, restricted to the names visited. |
| Graphs.AddVerticesFromAll | railwaygraph/graph.py:96-98 | When every name of the subgraph is visited, in any order, the result is the union of the vertex maps, with the subgraph's vertices taking precedence. Every merged vertex is then found by name. |
| Graphs.AddVerticesFromElements | railwaygraph/graph.py:96-98 | Merging the vertices of one element registers that element, and only that element. |
| Graphs.UnionPreserves | railwaygraph/graph.py:96-98 | The union of two vertex maps keeps the invariants both have: names as keys, closed adjacency, no repeated neighbours. It keeps symmetric adjacency and symmetric pairing when the two maps share no name. |
| Templates.PortsDistinct | railwaygraph/graph.py:263-265 | The names `id_A`, `id_B` and `id_C` of one element are pairwise distinct. |
| Templates.BaseElement | railwaygraph/graph.py:196-202 | The base element is generic, keeps its id, and has an empty subgraph. |
| Templates.BaseElementAddsNothing | railwaygraph/graph.py:112-116 | Merging the base element into a graph changes nothing. It has no vertices, so not even its element is registered. |
| Templates.TrackGraph | railwaygraph/graph.py:219-228 | The track's construction steps yield exactly the names `id_A` and `id_B` and register the track under its id. |
| Templates.Track | railwaygraph/graph.py:216-228 | A track has exactly `id_A` at (0,0) and `id_B` at (1,0). Each is the other's only neighbour, neither is paired, and the track registers itself. |
| Templates.TrackBuiltAsInSource | railwaygraph/graph.py:219-228 | That track graph is exactly what two `addVertex` calls and one `addEdge` call produce. |
| Templates.TrackWellFormed | railwaygraph/graph.py:216-228 | A track's subgraph is well formed: names as keys, symmetric and closed adjacency without repeats, its element registered, nothing paired. |
| Templates.Switch | railwaygraph/graph.py:230-272 | A switch has exactly `id_A`, `id_B` and `id_C`. A is joined to B and C, in that order, and B and C are joined only to A. Nothing is paired. B lies one step right for left orientations and one step left otherwise. C shares B's x and lies one step up for upper orientations and one step down otherwise. |
| Templates.SwitchGraph | railwaygraph/graph.py:263-272 | The switch's construction steps yield exactly the names `id_A`, `id_B` and `id_C` and register the switch under its id. |
| Templates.SwitchBuiltAsInSource | railwaygraph/graph.py:263-272 | That switch graph is exactly what three `addVertex` calls followed by the edges A-B and A-C produce. |
| Templates.SwitchLinks | railwaygraph/graph.py:263-272 | Whatever the orientation, the switch's neighbour lists are A:[B,C], B:[A] and C:[A], and every vertex belongs to the switch and is unpaired. |
| Templates.SwitchOrientationIrrelevant | railwaygraph/graph.py:244-272 | Orientation changes only positions. Two switches with the same id have the same vertices, neighbours and partners. |
| Templates.SwitchWellFormed | railwaygraph/graph.py:230-272 | A switch's subgraph is well formed. |
| Templates.AddElementGraph | railwaygraph/graph.py:112-116 | For a well-formed element, the graph afterwards holds the union of both vertex maps with the element registered. Names-as-keys, closed adjacency and the absence of repeated neighbours carry over. So do symmetric adjacency and symmetric pairing, when the element's names are new. |
| Templates.AddElementGraphUnion | railwaygraph/graph.py:112-116 | The facts behind `AddElementGraph`: for a well-formed element, merging gives the union of the vertex maps, registers the element once and keeps the invariants of the graph. |
| Finalise.SyntheticNotSelf | railwaygraph/graph.py:140 | A synthetic name `"{name}_*"` never equals the name it is made from. |
| Finalise.SyntheticInjective | railwaygraph/graph.py:140 | Distinct vertices get distinct synthetic names. |
| Finalise.DoubleOne | railwaygraph/graph.py:139-140 | One iteration of the loop keeps every vertex name and keeps vertices stored under their own names. |
| Finalise.DoubleAllOver | railwaygraph/graph.py:138-140 | The whole loop keeps every vertex name and keeps vertices stored under their own names. |
| Finalise.DoubleOneEffect | railwaygraph/graph.py:139-140 | One iteration leaves a paired vertex alone. It pairs an unpaired vertex with a new edgeless vertex `"{name}_*"` that has the same element and position, and changes nothing else. |
| Finalise.DoubleOneFresh | railwaygraph/graph.py:138-140 | Visiting an unpaired vertex not yet visited extends the loop's invariant by that vertex. |
| Finalise.DoubleOneAgain | railwaygraph/graph.py:138-140 | Visiting a paired vertex, or one already visited, keeps the loop's invariant. |
| Finalise.DoubleOneStep | railwaygraph/graph.py:138-140 | Each iteration moves the loop's invariant on by the visited name and leaves a registered element registry as it was. |
| Finalise.DoubleAllOverReaches | railwaygraph/graph.py:138-140 | Running the loop over `order` reaches the invariant for every visited name. |
| Finalise.DoubleAllSingleVertices | railwaygraph/graph.py:129-140 | The result is fully determined. Originally unpaired vertices are paired with their synthetic partners, and nothing else is new or changed. Names stay keys, and a registered element registry is unchanged. |
| Finalise.DoubleAllOrderIrrelevant | railwaygraph/graph.py:138-140 | Any two orders in which the dictionary may yield the vertices give the same finalised graph. |
| Finalise.FinalAllPaired | railwaygraph/graph.py:129-140 | After finalisation every vertex has a partner. |
| Finalise.FinalKeys | railwaygraph/graph.py:129-140 | The finalised graph's names are the old names plus one synthetic name per formerly unpaired vertex. |
| Finalise.FinalVertices | railwaygraph/graph.py:129-140 | Paired vertices are untouched. Each formerly unpaired vertex is paired with a new synthetic vertex. That vertex has its element and position, points back to it, and is an end vertex in the sense of `isEndVertex` (graph.py:51-58). |
| Finalise.FinalPairingSymmetric | railwaygraph/graph.py:129-140 | Finalisation keeps pairing symmetric. |
| Finalise.FinalEdgeLists | railwaygraph/graph.py:129-140 | Finalisation adds no edges. Old vertices keep their lists and new ones have none. |
| Finalise.FinalEdges | railwaygraph/graph.py:129-140 | Finalisation keeps adjacency closed, symmetric and without repeats. |
| Finalise.FinalisedShape | railwaygraph/graph.py:129-140 | Summary: all paired, the exact new names, the shape of the old and new vertices, and the pairing and adjacency invariants. |
| Finalise.DoubleAllOverPaired | railwaygraph/graph.py:138-140 | On a graph whose vertices all have partners, the loop changes nothing. |
| Finalise.FinalisationIsTerminal | railwaygraph/graph.py:129-140 | Finalising twice is finalising once. After finalisation, every `connectVertices` is refused, as the docstring warns. |
| Search.InitialMarks | railwaygraph/graph.py:184-185 | Every vertex of the graph starts the search as `Unknown`. |
| Search.Explore | railwaygraph/graph.py:153-179 | The marks stay defined on exactly the graph's vertices. |
| Search.ExploreAll | railwaygraph/graph.py:169-179 | The marks stay defined on exactly the graph's vertices. |
| Search.Search | railwaygraph/graph.py:182-189 | The start name is looked up first and then the end name. Each missing one fails with `NoSuchVertex`. |
| Search.FindPath | railwaygraph/graph.py:152-189 | `findPath` as written: the same lookup failures. |
| Search.FindSimpleRoutes | railwaygraph/graph.py:152-189 | The corrected search: the same lookup failures. |
| Search.Reached | railwaygraph/graph.py:172-173 | The `found_path` flag: once set it stays set. It is set when the neighbour just explored is marked `OK`, and otherwise it stays clear. |
| Search.ExploreGrows | railwaygraph/graph.py:160-179 | Solutions are only ever appended. Earlier solutions are kept, in order. |
| Search.ExploreAllGrows | railwaygraph/graph.py:169-179 | The same for the loop over a partner's neighbours. |
| Search.ExploreRoutes | railwaygraph/graph.py:153-179 | Each route recorded from `p` extends `p`. From its last vertex on, it moves each time from a vertex through its partner to a neighbour of the partner, and reaches the end only at its last vertex. |
| Search.ExploreAllRoutes | railwaygraph/graph.py:169-179 | Each route recorded in the loop extends `p` by one of the partner's neighbours and completes from there. |
| Search.ExploreMarksOK | railwaygraph/graph.py:160-175 | When a route through the vertex is found, the vertex ends up marked `OK`. |
| Search.ExploreAllMarksOK | railwaygraph/graph.py:169-174 | The `found_path` flag is set when a route is found through some neighbour. |
| Search.FinalisedIsReady | railwaygraph/graph.py:129-140 | Finalising a graph whose pairing is symmetric and whose neighbours are all in the graph gives a graph the search can walk: every vertex paired, pairing symmetric, adjacency closed. |
| Search.ExploreOnlyRunsOutOfFuel | railwaygraph/graph.py:153-179 | On a finalised graph (every vertex paired, pairing symmetric, adjacency closed) no lookup fails. The only possible failure is running out of fuel. |
| Search.ExploreAllOnlyRunsOutOfFuel | railwaygraph/graph.py:169-179 | The same for the loop over a partner's neighbours. |
| Search.ExploreFuel | railwaygraph/graph.py:153-179 | More fuel never changes an answer that was reached: the fuel bound is only a bound. |
| Search.ExploreAllFuel | railwaygraph/graph.py:169-179 | The same for the loop over a partner's neighbours. |
| Search.SearchRoutes | railwaygraph/graph.py:152-189 | Every route returned starts at the start vertex, moves through partners to their neighbours, and reaches the end vertex at its last vertex and nowhere before. |
| Search.SearchOnlyRunsOutOfFuel | railwaygraph/graph.py:152-189 | On a finalised graph the search only ever fails by running out of fuel. |
| Search.SearchFuel | railwaygraph/graph.py:152-189 | Once the search answers, it answers the same with any larger bound. |
| Search.SearchToItself | railwaygraph/graph.py:157-164 | Searching from a paired vertex to itself returns exactly one route, made of that vertex alone. |
| Search.SearchDeadEnd | railwaygraph/graph.py:165-175 | When the start vertex's partner has no neighbours and the end is elsewhere, the search returns no route. |
| Search.ExploreSimple | railwaygraph/graph.py:153-179 | Under the correction, each route recorded from a route without repeated vertices holds no vertex twice. |
| Search.ExploreAllSimple | railwaygraph/graph.py:169-179 | The same for the loop over a partner's neighbours. |
| Search.ExploreEnoughFuel | railwaygraph/graph.py:153-179 | Under the correction, on a finalised graph, fuel covering the vertices not yet on the route suffices. |
| Search.ExploreAllEnoughFuel | railwaygraph/graph.py:169-179 | The same for the loop over a partner's neighbours. |
| Search.FindSimpleRoutesAnswers | railwaygraph/graph.py:152-189 | On a finalised graph the corrected search always answers. |
| Search.FindSimpleRoutesNoRepeats | railwaygraph/graph.py:152-189 | Every route of the corrected search is a route in the sense of `SearchRoutes` and holds no vertex twice. |
| Scenarios.Connected | railwaygraph/examples.py:10-20 | The network after adding tracks 1 and 2 and switch 3 (upper left) and connecting 1_B-3_A and 3_C-2_A, vertex by vertex. |
| Scenarios.SimpleGraph | railwaygraph/examples.py:3-25 | The finalised `simpleGraph`: exactly ten vertices, each with its neighbours and partner, and 1_A, 2_B and 3_B paired with 1_A_*, 2_B_* and 3_B_*. |
| Scenarios.DoubledKeys | railwaygraph/examples.py:23 | Finalising the connected network adds exactly the three synthetic ends 1_A_*, 2_B_* and 3_B_*. |
| Scenarios.SimpleExampleRoutes | railwaygraph/examples.py:27-30 | From 1_A_* to 3_B both searches return exactly one route, 1_A_* 1_B 3_B. |
| LoopExample.LoopGraph | railwaygraph/graph.py:82-127 | The network that `addVertex`, `addEdge` and `connectVertices` build for the loop example, vertex by vertex. |
| LoopExample.EnterEnd | railwaygraph/graph.py:160-164 | Entering the end vertex records the route and marks the end `OK`, also when it is `OK` already. |
| LoopExample.FirstVisit | railwaygraph/graph.py:165-175 | The first visit of v records s v e and leaves v marked `OK` with its partner unmarked. |
| LoopExample.Revisit | railwaygraph/graph.py:176-179 | With v `OK` and its partner unmarked, re-entering v explores the partner's neighbours again, and v among them, for any bound on the recursion. |
| LoopExample.FindPathNeverAnswers | railwaygraph/graph.py:176-179 | On the loop example, `findPath` from s to e runs out of any recursion bound, so it never completes its search. |
| LoopExample.SimpleRoutesFromS | railwaygraph/graph.py:152-189 | On the loop example the corrected search returns s v e and s a v e, in that order. |
| LoopExample.LoopFound | railwaygraph/graph.py:176-179 | Both results for the network as built: `findPath` never completes, and the corrected search returns two routes. |
| LoopExample.NamedLoop | railwaygraph/graph.py:176-179 | The same, with the concrete names S, S*, A, A*, V, V*, E, E*. |

## Left out

- Logging (`logger.trace`, `logger.debugdeep`): it has no effect on any result.
- `Vertex.attributes`: the only attribute used is the search mark. The marks are a map in the search state rather than fields of the vertices.
- The deep copy in `findPath` (`Graph.copy`): the model is pure, so the search cannot change the graph it runs on, and no copy is needed.
- `vertex.graph`, the back-reference that `addVertex` sets (graph.py:89): nothing in the library reads it.
- `__repr__` of vertices and elements: text only.
- `getAllElements`: it lists the registry's values in dictionary order. The registry itself is modelled as `Graph.elements`.
- `TrackElement.getDefaultVertex`: it reads a key `'a'` of the element's vertex dictionary. That dictionary is keyed `'a'`, `'b'`, `'c'`, and only the element's subgraph is modelled.
- `TrackElement.type` strings: represented by `Elements.Kind`.
- Unknown orientation strings: `Switch` then fails with a `KeyError` at graph.py:264. The orientation is an enumeration here, so that case cannot arise.
- Element ids: the source passes numbers and formats them into names. The model carries ids as the text they format to.
- Object identity: the source compares vertex objects, while the model compares names. Two objects with the same name are therefore one vertex here.
- Templates.AddElementGraph: the element's subgraph is a value snapshot. In the source, `addVerticesFrom` registers the element's own vertex objects, so the element and every graph it was merged into share those objects. This has two consequences:
  - Re-adding an element after connecting its vertices changes nothing in the source, because the shared objects already carry the partners. In the model it resets those vertices to the template's unpaired values, and pairing may then no longer be symmetric.
  - Merging one element into two graphs shares its vertices between the graphs in the source: a `connectVertices` or `addEdge` in one graph shows up in the other, and in the element. In the model the two graphs are independent.
- Graphs.AddEdge: for a name that is not registered in the graph, no edge is recorded. The source mutates the vertex object whether or not the graph holds it.
- Finalise.DoubleAllSingleVertices: requires that no unpaired vertex's synthetic name `"{name}_*"` is already taken. When it is taken, the source replaces the registered vertex of that name and still visits the old object. A name-keyed model cannot represent that.
- Search.FindPath: the recursion is bounded by `fuel`, and `OutOfFuel` stands for the `RuntimeError` that the interpreter raises when the recursion exceeds its depth limit. The model does not fix that limit's value, so it states the result for every bound.
- Search errors: the source's crashes are modelled as `Failure` values:
  - an `IndexError` for an unknown start or end name becomes `NoSuchVertex`;
  - an attribute error on a vertex without a partner becomes `NoPartner`;
  - a `KeyError` for a vertex that has no mark becomes `Unmarked`.
- Search results: the source returns lists of vertex objects; the model returns their names.
- The other networks of `railwaygraph/examples.py` (`mediumGraph` and the rest) and `setup.py` are not part of this model.
- Positions are carried as plain integers. No layout or geometry is modelled.
- Loop example: the network that makes `findPath` loop contains an edge between a vertex and its own partner. It is built with the library's public operations (`addVertex`, `addEdge`, `connectVertices`). Whether a network made only of `Track` and `Switch` elements can trigger the same behaviour is not established.
- Routes of the `simpleGraph` search: a route lists only the vertices the search enters (1_A_*, 1_B, 3_B). It does not list their partners (1_A, 3_A) in between. This follows the code, which appends each neighbour it enters and never appends a partner.

## Findings

The corrected search never enters a vertex its route already holds. It keeps the source's marks otherwise, and the marks still prune. What is proved about it:

- `Search.FindSimpleRoutesAnswers`: it always answers on a finalised graph.
- `Search.FindSimpleRoutesNoRepeats`: its routes hold no vertex twice.
- `LoopExample.LoopFound`: on the example it answers S V E and S A V E.

Completeness is not promised. The correction does not guarantee that every route without repeated vertices is found, and neither does the source on graphs where it terminates.

| source | as written | input that shows it | evidently intended | confidence | as-written member | corrected member |
|---|---|---|---|---|---|---|
| railwaygraph/graph.py:176-179 | A vertex already marked `OK` whose partner is still `Unknown` re-explores all of its partner's neighbours. It marks nothing, so the same vertex can be re-entered along one route without end. | Eight vertices paired as S/S\*, A/A\*, V/V\*, E/E\*, with edges S\*-V, S\*-A, A\*-V, V\*-E and V\*-V, searched from S to E. The search finds S V E, then enters V again along S A V, and finds S A V E, S A V V E, S A V V V E, and so on. | The search terminates, and every route it returns holds each vertex at most once. On this input it returns S V E and S A V E. | not executed | LoopExample.FindPathNeverAnswers | Search.FindSimpleRoutes |
