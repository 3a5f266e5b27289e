# Fracturing: hull splitting and hole-filling triangulation

This project models the geometric core of a Unity mesh-fracturing component and
proves properties of the model.

The core has three parts:

- **Shapes.** The topological records: `Point` (a position and a transient
  index), `Edge` (two points and its direction) and `Triangle` (three vertex
  slots, three points and three edges). There is also the `EdgeHit` record of
  where one edge was cut.
- **ConvexHull.** A triangulated surface held as parallel per-vertex attribute
  lists (positions, normals, tangents, the point of each vertex) plus point,
  edge and triangle lists.
  - It is imported from a mesh, attaching vertices at one position to one
    point and reusing the edge between two points, and exported back to
    mesh buffers.
  - It can be **split** by a plane into two child hulls:
    - every point, vertex and uncut edge goes to the child of its side;
    - every crossing edge is cut at the plane into two halves;
    - every triangle that the plane separates is split into one triangle on
      its apex side and two on the other side;
    - the cut edges that close the two new faces come back pair by pair, and
      can be sorted into a chain.
- **Triangulation.** An ear-clipping triangulator for a planar outline given as
  an edge list (two point numbers per edge):
  - the edges are cut into loops;
  - each corner is classified as concave or not about the plane's normal;
  - each loop has ears cut off into triangles;
  - a hole found inside a candidate ear is first bridged into the loop;
  - the duplicate bridge edges are removed;
  - the result is the new edges, the triangles and each triangle's edge
    numbers.

Geometry is modelled over exact reals (`Vec3`, `Vec4`). Classes whose fields the
source updates in place (`ConvexHull`, `Triangulation`, `Point`, `Edge`,
`Triangle`) are Dafny classes. Their list fields are `seq` fields that the
methods reassign. Loops in the source are `while` loops with invariants.

Each method is proved against a specification function or predicate:
- `Deduplicated`, `MergedLoop`, `ClipLoop` and `StartCorners` for the
  triangulator;
- `OnSide`, `EdgesRouted`, `Divided` and `Sourced`/`Chained` for the splitter.

The lemmas beside them prove what the source promises:
- the partition of points between the children;
- the triangle counts of a split;
- a triangulation invariant: every loop stays chained and its concavity list
  agrees with its corners, and every triangle goes round its recorded edges
  without turning clockwise.

Modules:
- `Geometry` (geometry.dfy): vectors, plane heights, the crossing parameter.
- `Shapes` (shapes.dfy): points, edges, triangles, edge hits.
- `HullSpec` (hull_spec.dfy): specification functions and lemmas for the
  splitter.
- `Hull` (hull.dfy): the `ConvexHull` class.
- `TriangulationSpec` (triangulation_spec.dfy): loops, corners, ear clipping,
  merges and duplicate removal on values.
- `TriangulationState` (triangulation_state.dfy): the triangulation pass
  invariant and its preservation lemmas.
- `Triangulator` (triangulation.dfy): the `Triangulation` class.

## Deviations from the source as written

The source does not compile as written in several places. The model takes the
evident meaning:

- `Split` leaves `pointCount` uninitialised (ConvexHull.cs:198). The model
  numbers points from 0, as it numbers edges.
- `AssignTriangles` calls `SplitTriangle` with the argument list of
  `HullifyTriangle` (ConvexHull.cs:380, 390). The model calls
  `HullifyTriangle`.
- `AddTriangle` is defined twice with the same body (ConvexHull.cs:81-91 and
  114-126). It is modelled once.
- `GetMesh` tests `IsEmpty` without a call (ConvexHull.cs:152). The model
  calls it.
- `LocateLoops` is declared `bool` and returns nothing
  (Triangulation.cs:412-430). It is modelled as returning nothing.
- `FillCutEdges` (ConvexHull.cs:219) is called but defined nowhere. It is not
  part of this model: with `fillCut` the model sorts the cut edges and stops
  there.

## Model

| member | source | states |
|---|---|---|
| `Geometry.Clamp01` | Assets/Scripts/ConvexHull.cs:273 | The result lies in [0, 1] and equals the input when the input already does. |
| `Geometry.DirectionHeight` | Assets/Scripts/ConvexHull.cs:272-273 | The denominator `Dot(line, normal)` is the difference of the endpoints' heights, and the numerator is minus the first endpoint's height. |
| `Geometry.CrossingScalar` | Assets/Scripts/ConvexHull.cs:271-274 | For an edge whose endpoints lie on opposite sides, the clamped parameter lies in [0, 1] and the height at that parameter is zero: the intersection is on the plane. |
| `Geometry.HeightAlong` | Assets/Scripts/ConvexHull.cs:274 | The height of `point0 + line * s` is the linear blend of the endpoints' heights. |
| `Geometry.TangentBlend` | Assets/Scripts/ConvexHull.cs:438-450 | A cut tangent keeps the first tangent's handedness `w`, and at parameter 0 it is the first tangent. |
| `Geometry.CrossingInSegment` | Assets/Scripts/ConvexHull.cs:273 | For endpoint heights of opposite signs, the unclamped crossing parameter already lies in [0, 1], so Clamp01 does not move it. |
| `Shapes.Point.constructor` | Assets/Scripts/Shapes.cs:30-32 | A new point holds the given position. |
| `Shapes.Edge.constructor` | Assets/Scripts/Shapes.cs:9-13 | A new edge joins the two given points, and its line is their difference. |
| `Shapes.Triangle.constructor` | Assets/Scripts/Shapes.cs:42-52 | A new triangle holds the given vertex slots, points and edges. |
| `Hull.FindPoint` | Assets/Scripts/ConvexHull.cs:62 | List.Find: null iff no point has the position; otherwise the first point that has it. |
| `Hull.FindEdge` | Assets/Scripts/ConvexHull.cs:96-97 | List.Find: null iff no edge joins the two points in either direction; otherwise the first edge that does. |
| `Hull.Flatten` | Assets/Scripts/ConvexHull.cs:165-173 | The index buffer has three entries per triangle. |
| `Hull.ConvexHull.Child` | Assets/Scripts/ConvexHull.cs:32-45 | A child hull starts valid with every list empty. |
| `Hull.ConvexHull.FromMesh` | Assets/Scripts/ConvexHull.cs:47-79 | The hull is valid. It keeps the mesh's attribute lists and has one point per vertex. It has one triangle per complete index triple and three edge entries per triangle. Its triangles' vertex slots, read in order, are the mesh's index buffer cut to whole triples. Every vertex is attached to the point of the first vertex at its position, so vertices at one position share a point. No two distinct edges join the same two points. |
| `Hull.ConvexHull.AddVertexPoints` | Assets/Scripts/ConvexHull.cs:59-71 | After the vertex loop there is one new point per vertex, at its position, and every vertex is attached to the point of the first vertex at its position. The hull is valid. |
| `Hull.FirstAt` | Assets/Scripts/ConvexHull.cs:62 | The result is the first slot holding the position, or the length when none does. |
| `Hull.FirstPointFound` | Assets/Scripts/ConvexHull.cs:62-68 | Searching the points made so far finds the point of the first earlier vertex at the same position; finding none means the vertex is the first at its position. |
| `Hull.AttachedStep` | Assets/Scripts/ConvexHull.cs:60-71 | One pass of the vertex loop keeps every vertex attached to the point of the first vertex at its position. |
| `Hull.AttachedSits` | Assets/Scripts/ConvexHull.cs:59-71 | Every attached vertex sits at a listed point at its own position. |
| `Hull.SharedPoints` | Assets/Scripts/ConvexHull.cs:59-71 | Vertices at one position share one point. |
| `Hull.ConvexHull.AddIndexedTriangles` | Assets/Scripts/ConvexHull.cs:73-78 | After the triangle loop, the triangles are the whole index triples in order, with three edge entries each. No two distinct edges join the same two points. |
| `Hull.ConvexHull.AddIndexedTriangle` | Assets/Scripts/ConvexHull.cs:75-78 | One pass of the loop extends the triangles' slots by index triple `n`. Edges that were unique stay unique. |
| `Hull.ConvexHull.AddTriangle` | Assets/Scripts/ConvexHull.cs:81-91 | Three edge entries and one new triangle are appended. The triangle holds the given slots and those slots' points, and everything earlier is kept. Edges that were unique stay unique. |
| `Hull.ConvexHull.AddCornerEdges` | Assets/Scripts/ConvexHull.cs:86-88 | The three appended edges join corners 0-1, 1-2 and 2-0. Edges that were unique stay unique. |
| `Hull.ConvexHull.AddJoiningEdge` | Assets/Scripts/ConvexHull.cs:93-108 | Exactly one edge is appended, and it joins the two points. Edges that were unique stay unique. |
| `Hull.ConvexHull.AddUniqueEdge` | Assets/Scripts/ConvexHull.cs:93-108 | The returned edge is appended and joins the two points. It is the first existing edge that joins them if there is one; otherwise it is a new edge from `point0` to `point1`. Edges that were unique stay unique: no two distinct edges join the same two points. |
| `Hull.UniqueAppend` | Assets/Scripts/ConvexHull.cs:93-108 | Appending an edge already listed, or one joining two points no listed edge joins, keeps the edges unique. |
| `Hull.UniqueAfterAdd` | Assets/Scripts/ConvexHull.cs:93-108 | Appending the edge found by the search, or a new edge when the search finds none, keeps the edges unique. |
| `Hull.ConvexHull.AppendPoint` | Assets/Scripts/ConvexHull.cs:279 | List.Add on the points: the point is appended and nothing else changes. |
| `Hull.ConvexHull.AppendEdge` | Assets/Scripts/ConvexHull.cs:101 | List.Add on the edges. |
| `Hull.ConvexHull.AppendTriangle` | Assets/Scripts/ConvexHull.cs:90 | List.Add on the triangles; the index buffer grows by the triangle's three slots. |
| `Hull.ConvexHull.AddVertex` | Assets/Scripts/ConvexHull.cs:128-135 | Every attribute list grows by the vertex's attribute. The returned number is the slot the vertex now occupies (corrected; see Findings). |
| `Hull.ConvexHull.AddVertexOf` | Assets/Scripts/ConvexHull.cs:251-253 | Vertex `i` of the parent, with all its attributes, is appended, and its new slot is returned. |
| `Hull.ConvexHull.AddVertexAsWritten` | Assets/Scripts/ConvexHull.cs:128-135 | As written, the returned number is one past the new slot and is never a valid slot. |
| `Hull.ConvexHull.Clear` | Assets/Scripts/ConvexHull.cs:138-149 | Every list is emptied, and the hull is then empty. |
| `Hull.ConvexHull.IsEmpty` | Assets/Scripts/ConvexHull.cs:110-112 | A hull that is not empty has at least the 4 points and 6 edges of a tetrahedron and exports at least four triangles (12 indices). |
| `Hull.ConvexHull.GetMesh` | Assets/Scripts/ConvexHull.cs:151-187 | There is no mesh iff the hull is empty. Otherwise the mesh carries the attribute lists and the triangles' vertex slots, three per triangle, in order. |
| `Hull.ConvexHull.WriteTriple` | Assets/Scripts/ConvexHull.cs:169-173 | After pass `count`, the index array's prefix is the flattened slots of the first `count + 1` triangles. |
| `Hull.ConvexHull.Split` | Assets/Scripts/ConvexHull.cs:189-231 | The children are fresh. A zero normal stands for the up axis. The children divide the parent: every point on its side, every crossing edge halved with the halves recorded, every uncut edge in the child of its side, every vertex copied with its attributes to a slot of the child of its side, uncut triangles kept whole on their side, cut triangles split one-and-two, and one twin cut-edge pair on the plane per cut triangle. Without `fillCut` the split completes. With it, it completes exactly when the cut list is not empty and the sorted chain does not reopen. A completed split clears the parent; otherwise its lists are unchanged. |
| `Hull.ConvexHull.Divide` | Assets/Scripts/ConvexHull.cs:197-215 | Up to the cut edges, the parent's lists stay as they are and the children are as in Split. |
| `Hull.ConvexHull.FinishCut` | Assets/Scripts/ConvexHull.cs:217-226 | Without `fillCut` the hull is cleared. With it, the cut edges are rearranged pair by pair into a chain; the hull is cleared exactly when the list is not empty and the chain does not reopen; otherwise the lists are as they were. |
| `Hull.ConvexHull.ClassifyPoints` | Assets/Scripts/ConvexHull.cs:197-206 | After numbering, each child's points are the parent's points on its side, in order. The side table records every point. Each vertex is mapped to a slot of its side's child that holds the same attributes. |
| `Hull.ConvexHull.IndexLists` | Assets/Scripts/ConvexHull.cs:197-202 | Points and edges are numbered by position; the lists are unchanged. |
| `Hull.ConvexHull.NewChildren` | Assets/Scripts/ConvexHull.cs:193-195 | Two distinct fresh valid hulls with empty lists. |
| `Hull.ConvexHull.RouteTopology` | Assets/Scripts/ConvexHull.cs:208-215 | After the edge and triangle passes the children divide the parent: every edge's routing is recorded, every vertex is mapped to a slot of the child of its side, and there is one twin cut-edge pair per triangle that the plane separates. |
| `Hull.ConvexHull.IndexPoints` | Assets/Scripts/ConvexHull.cs:199-200 | Every listed point's index names a position holding that point. |
| `Hull.ConvexHull.IndexEdges` | Assets/Scripts/ConvexHull.cs:201-202 | Every listed edge's index names a position holding that edge. |
| `Hull.ConvexHull.AssignPoints` | Assets/Scripts/ConvexHull.cs:233-244 | Child A gains exactly the points at or above the plane, and B those below, both in order. The side table holds each point's side at its index. |
| `Hull.ConvexHull.AssignPoint` | Assets/Scripts/ConvexHull.cs:235-241 | One pass: point `i` goes to its side's list and its side is recorded. |
| `Hull.ConvexHull.AssignVertices` | Assets/Scripts/ConvexHull.cs:246-256 | Every vertex moves, with all its attributes, to the child owning its point. The map sends it to that new slot. The slots are fresh and in order, and the children only grow. |
| `Hull.ConvexHull.AssignVertex` | Assets/Scripts/ConvexHull.cs:248-254 | One pass of the vertex loop keeps the map and the fresh-slot property. |
| `Hull.ConvexHull.AddHalfEdge` | Assets/Scripts/ConvexHull.cs:277-293 | A new point at the intersection and a new edge from it to the endpoint on this side are appended. |
| `Hull.ConvexHull.AddCutEdge` | Assets/Scripts/ConvexHull.cs:374-388 | A cut edge between the two halves' start points is appended. It runs from the second to the first when `reversed`. |
| `Hull.ConvexHull.Intersect` | Assets/Scripts/ConvexHull.cs:272-274 | The computed point lies on the edge at the clamped parameter and on the plane. |
| `Hull.ConvexHull.SplitEdge` | Assets/Scripts/ConvexHull.cs:271-300 | A crossing edge is cut: each child gains a fresh point on the plane and a half from it to its own endpoint. The hit records both halves. |
| `Hull.ConvexHull.RouteEdge` | Assets/Scripts/ConvexHull.cs:262-301 | An edge with both endpoints on one side goes whole to that child. Otherwise it is cut and its flag and hit are recorded at its index. Other records are kept, and the counts grow by exactly that. |
| `Hull.ConvexHull.AssignEdges` | Assets/Scripts/ConvexHull.cs:258-303 | Every edge is routed. Each child gains one point per crossing edge, and one edge per kept edge of its side plus one per crossing edge. |
| `Hull.ConvexHull.RouteNextEdge` | Assets/Scripts/ConvexHull.cs:262-302 | One pass of the edge loop extends the routing invariant from the first `i` edges to the first `i + 1`. |
| `Hull.ConvexHull.AddTopTriangle` | Assets/Scripts/ConvexHull.cs:462-471 | The two cut vertices, with their given attributes, and one fresh triangle from cut point 0 over the apex to cut point 1 are appended. |
| `Hull.ConvexHull.AddCutVertices` | Assets/Scripts/ConvexHull.cs:462-467 | Two vertices at the cut points are appended at consecutive slots. |
| `Hull.ConvexHull.AddBottomTriangles` | Assets/Scripts/ConvexHull.cs:466-481 | The two cut vertices, a fresh cross edge and two fresh triangles covering the quadrilateral are appended. |
| `Hull.ConvexHull.AddCrossTriangles` | Assets/Scripts/ConvexHull.cs:474-481 | A fresh cross edge and two fresh triangles that share it are appended, with the corner points as in the source. |
| `Hull.ConvexHull.AddNewTriangle` | Assets/Scripts/ConvexHull.cs:470-471 | A fresh triangle with the given slots and points is appended. |
| `Hull.ConvexHull.BuildPieces` | Assets/Scripts/ConvexHull.cs:403-482 | The top hull gains two vertices at the cut points and one triangle. The bottom hull gains two vertices, one edge and two triangles. All new triangles are fresh. |
| `Hull.ConvexHull.HullifyTriangle` | Assets/Scripts/ConvexHull.cs:403-482 | The cut normals and tangents are blended from the corner attributes at the cut parameters, and both hulls receive the same ones. The top hull's new triangle joins the first cut point, the apex and the second cut point. The bottom hull's two new triangles cover the corner, both cut points and the other corner, split along a new cross edge from the first corner to the second cut point. |
| `Hull.ConvexHull.AddCutPieces` | Assets/Scripts/ConvexHull.cs:460-481 | With given cut attributes: both hulls' attribute lists grow, and the new triangles and the cross edge are as in HullifyTriangle. |
| `Hull.ConvexHull.TurnToApex` | Assets/Scripts/ConvexHull.cs:335-361 | The chosen rotation is one of the triangle's three turns. When two edges are flagged, its edges 0 and 1 are the flagged ones and edge 2 is not. |
| `Hull.ConvexHull.TurnedToApex` | Assets/Scripts/ConvexHull.cs:335-368 | For a routed cut triangle, the turned apex is the corner alone on its side. The hits on its two edges end at it on its side and at the other corners on the other side. |
| `Hull.ConvexHull.CutTriangle` | Assets/Scripts/ConvexHull.cs:372-391 | The two cut edges are twins lying on the plane and are added to their hulls. The top hull grows by one triangle and the bottom hull by two. |
| `Hull.ConvexHull.AddCutEdges` | Assets/Scripts/ConvexHull.cs:374-388 | One cut edge is appended to each hull, with the direction set by `reversed`. |
| `Hull.ConvexHull.CutAtApex` | Assets/Scripts/ConvexHull.cs:372-391 | The apex's side gets the one top triangle and the other side gets two. The cut edges are twins on the plane. |
| `Hull.ConvexHull.AssignMixedTriangle` | Assets/Scripts/ConvexHull.cs:329-394 | A separated triangle is turned to its apex and split. Each child grows by its share, one or two triangles, and gains its twin cut edge on the plane. |
| `Hull.ConvexHull.TakeTriangle` | Assets/Scripts/ConvexHull.cs:315-327 | The same triangle object is appended, with its slots renumbered through the vertex map. |
| `Hull.ConvexHull.AssignTriangle` | Assets/Scripts/ConvexHull.cs:310-395 | A triangle wholly above goes to A and one wholly below goes to B. Otherwise it is split, and a twin cut-edge pair is appended. Each child grows by exactly its share. |
| `Hull.ConvexHull.HandUncut` | Assets/Scripts/ConvexHull.cs:315-328 | A triangle on one side goes to that side's child, and the other child is unchanged. |
| `Hull.ConvexHull.HandTriangle` | Assets/Scripts/ConvexHull.cs:310-395 | AssignTriangle for triangle `i`, read off the side table, the vertex map and the edge routing. The later triangles stay as they were. |
| `Hull.ConvexHull.PassTriangle` | Assets/Scripts/ConvexHull.cs:310-395 | HandTriangle with the edge routing kept valid on the grown children. |
| `Hull.ConvexHull.RoutedTriangle` | Assets/Scripts/ConvexHull.cs:311-313 | A placed triangle's corners, vertices and edges have all been routed. |
| `Hull.ConvexHull.AssignNextTriangle` | Assets/Scripts/ConvexHull.cs:310-395 | One pass of the triangle loop extends the pass invariant to the first `i + 1` triangles. |
| `Hull.ConvexHull.AssignTriangles` | Assets/Scripts/ConvexHull.cs:305-400 | Each child holds one triangle per uncut parent triangle of its side and one or two per cut triangle. The uncut ones are kept as the same objects. There is one twin cut-edge pair on the plane per cut triangle. The edge routing and the vertex map stay true while the children grow. |
| `Hull.ConvexHull.SortCutEdges` | Assets/Scripts/ConvexHull.cs:484-508 | With the swap corrected, the result is a rearrangement of the (A, B) pairs that starts at the first edge. It faults exactly when the list is empty or the chain is reopened. Without a fault the A edges form a chain and the pairs are a permutation. |
| `Hull.ConvexHull.SortCutEdgesAsWritten` | Assets/Scripts/ConvexHull.cs:484-508 | With the copy as written, every slot holds some original pair copied forward. The fault and chain properties are as above, but there is no permutation. |
| `Hull.ConvexHull.CopyLosesEdge` | Assets/Scripts/ConvexHull.cs:494-498 | For cut edges P-Q, R-S, Q-R, the written exchange drops R-S: the result is not a permutation. |
| `Hull.ConvexHull.FindContinuation` | Assets/Scripts/ConvexHull.cs:488-505 | The inner search returns the first slot at or after `i` whose edge starts at `p`, or the length when there is none. |
| `HullSpec.OnSideMembership` | Assets/Scripts/ConvexHull.cs:235-241 | A point is in a side's list iff it is a parent point on that side. |
| `HullSpec.OnSidePartition` | Assets/Scripts/ConvexHull.cs:233-244 | The two side lists together are the parent's points, multiplicities included. |
| `HullSpec.OnSideMember` | Assets/Scripts/ConvexHull.cs:236-241 | A parent point is in exactly its side's list. |
| `HullSpec.OnSideStep` | Assets/Scripts/ConvexHull.cs:235-241 | One more point extends exactly one side list. |
| `HullSpec.ShareTotal` | Assets/Scripts/ConvexHull.cs:315-391 | An uncut triangle stays one triangle; a cut one becomes three. |
| `HullSpec.SplitTriangleCount` | Assets/Scripts/ConvexHull.cs:305-400 | The children hold one triangle per uncut triangle plus three per cut one, so never fewer than the parent. |
| `HullSpec.CrossingCut` | Assets/Scripts/ConvexHull.cs:271-274 | The intersection of a crossing edge lies on the edge and on the plane. |
| `HullSpec.EdgeCountPartition` | Assets/Scripts/ConvexHull.cs:262-302 | Every edge is kept whole above, kept whole below, or cut. |
| `HullSpec.EdgeCountStep` | Assets/Scripts/ConvexHull.cs:262-302 | One more edge adds to exactly one of the counts. |
| `HullSpec.RoutedKept` | Assets/Scripts/ConvexHull.cs:296-300 | A routing record survives updates at other indices and growth of the children. |
| `HullSpec.RoutedGrow` | Assets/Scripts/ConvexHull.cs:262-302 | Routing stays recorded while the children's edge lists only grow. |
| `HullSpec.RoutedExtend` | Assets/Scripts/ConvexHull.cs:262-302 | Routing one more edge keeps the other records. |
| `HullSpec.Appended` | Assets/Scripts/ConvexHull.cs:128-135 | The attribute lists with vertex `i` of a source appended grow by one, in every attribute. |
| `HullSpec.MapStep` | Assets/Scripts/ConvexHull.cs:248-254 | Mapping the next vertex to the next slot of its side keeps the map correct and its slots fresh. |
| `HullSpec.MappedGrow` | Assets/Scripts/ConvexHull.cs:248-254 | Appending to the children keeps every mapped slot. |
| `HullSpec.CutFrom` | Assets/Scripts/ConvexHull.cs:367-368 | Measured from one endpoint, the cut sits at `s` when the edge runs that way and at `1 - s` otherwise. |
| `HullSpec.TriangleCountStep` | Assets/Scripts/ConvexHull.cs:310-395 | One more triangle adds its shares to the children's counts. |
| `HullSpec.ApexHits` | Assets/Scripts/ConvexHull.cs:363-368 | For a turned cut triangle, the hits on the two edges into the apex hold halves that end at the apex on its side and at the other corners on the other side. |
| `HullSpec.CutsGrow` | Assets/Scripts/ConvexHull.cs:393-394 | Appending paired cut edges keeps every pair while the edge lists grow. |
| `HullSpec.UncutStep` | Assets/Scripts/ConvexHull.cs:315-328 | Handing over one more triangle keeps the earlier uncut triangles listed. |
| `HullSpec.DrawnStep` | Assets/Scripts/ConvexHull.cs:310-395 | After triangle `i`, each child draws only from the first `i + 1` parent triangles, plus new triangles. |
| `HullSpec.NotDrawn` | Assets/Scripts/ConvexHull.cs:310-395 | A child drawing from the first `i` distinct triangles does not hold triangle `i` yet. |
| `HullSpec.HandedStep` | Assets/Scripts/ConvexHull.cs:310-395 | Handing over triangle `i` extends the pass's record to the first `i + 1`. |
| `HullSpec.HandedAll` | Assets/Scripts/ConvexHull.cs:305-400 | The record for every triangle gives the pass's totals and keeps the uncut triangles. |
| `HullSpec.SwapZip` | Assets/Scripts/ConvexHull.cs:494-498 | Swapping two slots of both lists swaps the same two pairs. |
| `HullSpec.SourcedPaired` | Assets/Scripts/ConvexHull.cs:484-508 | Any rearrangement of pairs that the sort can produce keeps every pair a twin cut pair. |
| `HullSpec.Exchanged` | Assets/Scripts/ConvexHull.cs:494-498 | The exchange at slots `i` and `j` is a swap, or a one-way copy when not swapping. |
| `HullSpec.CopyBack` | Assets/Scripts/ConvexHull.cs:494-498 | Writing slot `j` into `i` and then slot `i` into `j` is the one-way copy. |
| `HullSpec.SortingStart` | Assets/Scripts/ConvexHull.cs:485-486 | Before the first pass every pair is in its own slot and the chain holds its start. |
| `HullSpec.SortingSourced` | Assets/Scripts/ConvexHull.cs:484-508 | The sort's slot table says where each pair came from. |
| `HullSpec.SortingSkip` | Assets/Scripts/ConvexHull.cs:488-506 | When no edge continues the chain at slot `i`, the slot stays. |
| `HullSpec.SortingMove` | Assets/Scripts/ConvexHull.cs:492-504 | A continuing edge at slot `j` moves to slot `i` and extends the chain. |
| `HullSpec.SortingReopen` | Assets/Scripts/ConvexHull.cs:501-502 | A continuation after the chain closed reopens it, which the source turns into a null dereference. |
| `HullSpec.SortingDone` | Assets/Scripts/ConvexHull.cs:486-507 | With every slot visited, the A edges form a chain and the chain was never reopened. |
| `Triangulator.Triangulation.constructor` | Assets/Scripts/Triangulation.cs:33-41 | The triangulator copies the points and edges, starts with no triangles, and remembers the initial edge count. |
| `Triangulator.Triangulation.CheckLinePairConcavity` | Assets/Scripts/Triangulation.cs:433-437 | A corner is flagged exactly when the turn from `line0` to `line1` is clockwise about the plane normal (corrected; see Findings). |
| `Triangulator.Triangulation.LocateLoops` | Assets/Scripts/Triangulation.cs:412-430 | The edge list is cut into consecutive loops. Each loop is closed by the first edge returning to its start. The slots are even and in order, and no edge of an unclosed tail returns (corrected counter). |
| `Triangulator.Triangulation.LocateConcavities` | Assets/Scripts/Triangulation.cs:201-219 | Each loop gets one flag per corner, computed from the start points of three consecutive edges. |
| `Triangulator.Triangulation.TriangulateLoop` | Assets/Scripts/Triangulation.cs:56-104 | It stops with fewer than three edges in the loop, or with a loop where the ear test fails at every position. The edge and triangle lists only grow. The triangulation invariant is kept, with the loop's position adjusted for swallowed loops. |
| `Triangulator.Triangulation.RejectsEar` | Assets/Scripts/Triangulation.cs:74 | True exactly when the corner is concave or a concave corner of the loop lies inside the triangle of the next three corners. |
| `Triangulator.Triangulation.ClipEar` | Assets/Scripts/Triangulation.cs:79-94 | At an ear, either a loop is swallowed (fewer loops) or a triangle is cut off (a shorter loop). For a convex ear the invariant is kept. |
| `Triangulator.Triangulation.RemoveDuplicateEdges` | Assets/Scripts/Triangulation.cs:158-174 | With the counters corrected, the edges and triangle edge references are as removing each duplicate in turn and shifting the later references leaves them. |
| `Triangulator.Triangulation.ShiftFrom` | Assets/Scripts/Triangulation.cs:165-171 | References at or past the removed slot move down by one edge; the earlier duplicates are left alone. |
| `Triangulator.Triangulation.Fill` | Assets/Scripts/Triangulation.cs:43-133 | The output is the edges past the initial ones, the triangles, and each triangle edge slot halved. On an even-length edge list whose loops are chained, every new triangle goes round its recorded edges and does not turn clockwise about the normal. |
| `Triangulator.Triangulation.TriangulateLoops` | Assets/Scripts/Triangulation.cs:56-113 | Each loop is triangulated in turn and a finished loop is removed. The edge and triangle lists only grow, and the triangulation invariant holds after the pass when it held before. |
| `Triangulator.Triangulation.RetireLoop` | Assets/Scripts/Triangulation.cs:107-112 | A finished loop and its concavity list are removed, and the invariant is kept. |
| `Triangulator.Triangulation.Prepare` | Assets/Scripts/Triangulation.cs:50-53 | The loops are located and the initial concavities computed. On a chained even edge list, the invariant holds at the start. |
| `Triangulator.Triangulation.Finish` | Assets/Scripts/Triangulation.cs:127-132 | After duplicate removal, each triangle still goes round its recorded edges, now numbered by halves. The prefix before the first bridge is untouched. |
| `Triangulator.Triangulation.SetOutput` | Assets/Scripts/Triangulation.cs:135-156 | The new edges (or none), the triangles as they are, and each triangle edge slot halved with C# division. |
| `Triangulator.Triangulation.IsTriangleOverlappingLoop` | Assets/Scripts/Triangulation.cs:178-196 | True iff some concave corner of the loop, at a point other than the triangle's three, lies inside the triangle. |
| `Triangulator.Triangulation.FindClosestPointInTriangle` | Assets/Scripts/Triangulation.cs:271-313 | `-1` iff no start point of another loop lies inside the triangle. Otherwise the result is such a point, and no inside point comes after it in scan order (the last one found wins). |
| `Triangulator.Triangulation.MergeLoops` | Assets/Scripts/Triangulation.cs:224-243 | No hole point in the ear leaves the state unchanged. Otherwise the found loop is inserted at the ear and removed, and the current loop's position is adjusted. |
| `Triangulator.Triangulation.SwallowLoop` | Assets/Scripts/Triangulation.cs:231-236 | The state becomes Insert followed by Retire of the swallowed loop, and the invariant is kept. |
| `Triangulator.Triangulation.FillTriangle` | Assets/Scripts/Triangulation.cs:369-410 | The state becomes the ear clipped off. For a convex ear of a sound loop the invariant is kept: the loop stays chained and consistent, and the new triangle goes round its edges (corrected reads; see Findings). |
| `Triangulator.Triangulation.UpdateConcavity` | Assets/Scripts/Triangulation.cs:359-367 | The flag at `index` becomes the turn between the corner's two edges, read from each edge's own endpoints. |
| `Triangulator.Triangulation.SpliceLoop` | Assets/Scripts/Triangulation.cs:326-356 | The merged loop and concavity list are MergedLoop and MergedConcavity of the inputs. |
| `Triangulator.Triangulation.UpdateSpliceCorners` | Assets/Scripts/Triangulation.cs:347-356 | Exactly the four corners around the two bridges are recomputed. |
| `Triangulator.Triangulation.InsertBlock` | Assets/Scripts/Triangulation.cs:326-342 | The block is a bridge, the other loop from its anchor round, and the bridge back, with false concavity at both bridges. |
| `Triangulator.Triangulation.InsertLoop` | Assets/Scripts/Triangulation.cs:314-357 | Two bridge edges (four ints) are appended. The loop becomes the merge and its concavity list the merged list. The second bridge's slot is recorded as a duplicate (corrected bridges; see Findings). |
| `TriangulationSpec.ReflexClockwise` | Assets/Scripts/Triangulation.cs:433-437 | The corrected test is exactly a clockwise turn about the normal. |
| `TriangulationSpec.Succ` | Assets/Scripts/Triangulation.cs:71-72 | `(i + 1) % n` stays in range. |
| `TriangulationSpec.Pred` | Assets/Scripts/Triangulation.cs:66-69 | The previous position is in range and its successor is `i`. |
| `TriangulationSpec.RemoveAt` | Assets/Scripts/Triangulation.cs:399 | List.RemoveAt: the list is one shorter and later entries shift down. |
| `TriangulationSpec.StartCorners` | Assets/Scripts/Triangulation.cs:201-219 | One flag per edge of the loop. |
| `TriangulationSpec.StartCornersConsistent` | Assets/Scripts/Triangulation.cs:207-216 | On a chained loop, the initial pass (start points) agrees with the per-corner update (edge endpoints). |
| `TriangulationSpec.TurnExtended` | Assets/Scripts/Triangulation.cs:363-364 | Appending edges does not change a corner's turn. |
| `TriangulationSpec.LocateExtend` | Assets/Scripts/Triangulation.cs:421-423 | Adding edge `i` keeps the slots consecutive, and no earlier entry closes the loop. |
| `TriangulationSpec.LocateOpen` | Assets/Scripts/Triangulation.cs:421-428 | An edge that does not return to the start leaves the loop open. |
| `TriangulationSpec.LocateClose` | Assets/Scripts/Triangulation.cs:425-428 | An edge that returns to the start closes the loop. |
| `TriangulationSpec.LocatingDone` | Assets/Scripts/Triangulation.cs:420-429 | Once every edge is taken, the closed loops are the located loops. |
| `TriangulationSpec.OpenLoopTail` | Assets/Scripts/Triangulation.cs:420-429 | An unclosed tail leaves no edge returning to its start. |
| `TriangulationSpec.DoublingNeverExits` | Assets/Scripts/Triangulation.cs:420 | As written, the counter stays 0 after any number of passes, so the loop never ends on a list with a whole edge. |
| `TriangulationSpec.ClipLoop` | Assets/Scripts/Triangulation.cs:397-399 | The clipped loop is one shorter. |
| `TriangulationSpec.ClipConcavity` | Assets/Scripts/Triangulation.cs:406-409 | The clipped concavity list is one shorter. |
| `TriangulationSpec.ClipIndex` | Assets/Scripts/Triangulation.cs:397-399 | The positions of the clipped loop map to old positions other than `first`, and successors map to successors. |
| `TriangulationSpec.ClipNeighbours` | Assets/Scripts/Triangulation.cs:397-399 | Each clipped position and its successor hold the old entries, or the cross edge next to the ear. |
| `TriangulationSpec.ClipKeepsChain` | Assets/Scripts/Triangulation.cs:380-399 | Clipping an ear off a chained loop of four or more edges keeps it chained. |
| `TriangulationSpec.ClipCorner` | Assets/Scripts/Triangulation.cs:401-409 | Each flag of the clipped list is the turn at that corner of the clipped loop. |
| `TriangulationSpec.ClipKeepsConsistent` | Assets/Scripts/Triangulation.cs:369-410 | The two recomputed corners keep the concavity list in agreement with the clipped loop. |
| `TriangulationSpec.ClipTriangleEdges` | Assets/Scripts/Triangulation.cs:382-395 | The triangle's three recorded edges go from its first to its second point, second to third, and first to third. |
| `TriangulationSpec.ReadsAfterRemovalMisread` | Assets/Scripts/Triangulation.cs:399-404 | As written, on loop [0, 2, 4, 6, 8] the reads after RemoveAt name the wrong edge, or fall past the end. |
| `TriangulationSpec.MergedLoop` | Assets/Scripts/Triangulation.cs:326-343 | The merged loop has both loops' entries plus two bridges. |
| `TriangulationSpec.MergedConcavity` | Assets/Scripts/Triangulation.cs:327-356 | The merged concavity list has the merged loop's length. |
| `TriangulationSpec.MergedNeighbours` | Assets/Scripts/Triangulation.cs:326-344 | Each merged position and its successor are two neighbours of one loop, or a bridge and its neighbours. |
| `TriangulationSpec.MergedLink` | Assets/Scripts/Triangulation.cs:317-343 | With corrected bridges, each merged entry ends where the next one starts. |
| `TriangulationSpec.MergeKeepsEven` | Assets/Scripts/Triangulation.cs:326-343 | A merge of even-slot loops bridged by even slots has only even slots. |
| `TriangulationSpec.MergeKeepsChain` | Assets/Scripts/Triangulation.cs:314-344 | With corrected bridges, the merge of two chained loops is chained and names whole edges. |
| `TriangulationSpec.MergedKept` | Assets/Scripts/Triangulation.cs:346-356 | Exactly the four corners around the splice are recomputed; the rest are spliced values. |
| `TriangulationSpec.MergedCornerOther` | Assets/Scripts/Triangulation.cs:332-339 | A corner inside the spliced-in loop agrees with the merged loop. |
| `TriangulationSpec.MergedCornerLoop` | Assets/Scripts/Triangulation.cs:343-344 | A corner away from the splice agrees with the merged loop. |
| `TriangulationSpec.MergedCorner` | Assets/Scripts/Triangulation.cs:343-356 | Every corner of the merged concavity list agrees with the merged loop. |
| `TriangulationSpec.MergeKeepsConsistent` | Assets/Scripts/Triangulation.cs:314-357 | If both lists agreed with their loops, the merged list agrees with the merged loop. |
| `TriangulationSpec.BridgeAsWrittenDangles` | Assets/Scripts/Triangulation.cs:320-341 | As written, both bridge entries are `edges.Count`, one past the end, so the merged loop names a missing edge. The duplicate recorded at `edges.Count` lies past the end too, so it is not a removable slot. |
| `TriangulationSpec.BridgeRecordTwinned` | Assets/Scripts/Triangulation.cs:320-325 | With the record corrected to `Count - 2`, the new duplicate lies inside the list, after the earlier ones, and is the reverse of the bridge before it. |
| `TriangulationSpec.Half` | Assets/Scripts/Triangulation.cs:153 | C# `/ 2` on a non-negative slot gives its edge number, exactly half for even slots. |
| `TriangulationSpec.Deduplicated` | Assets/Scripts/Triangulation.cs:158-174 | The result loses two ints per duplicate and keeps the number of references. |
| `TriangulationSpec.Trail` | Assets/Scripts/Triangulation.cs:159-167 | There is one removal slot per duplicate. |
| `TriangulationSpec.DroppedSpaced` | Assets/Scripts/Triangulation.cs:161-167 | After the first removal, the later duplicates stay spaced in the shorter list. |
| `TriangulationSpec.DeduplicatedStep` | Assets/Scripts/Triangulation.cs:159-173 | One outer pass leaves the same final result and the same removal trail. |
| `TriangulationSpec.DroppedTwinned` | Assets/Scripts/Triangulation.cs:161-167 | After the first removal, the later duplicates are still reverses of the edges before them. |
| `TriangulationSpec.DroppedKeepsEnds` | Assets/Scripts/Triangulation.cs:161-170 | Removing a duplicate twin keeps what every even reference joins. |
| `TriangulationSpec.DeduplicatedKeepsEnds` | Assets/Scripts/Triangulation.cs:158-174 | Removing all duplicates keeps what every reference joins. |
| `TriangulationSpec.DroppedRest` | Assets/Scripts/Triangulation.cs:161-167 | The later duplicates keep all three properties once the first is removed. |
| `TriangulationSpec.DeduplicatedKeepsPrefix` | Assets/Scripts/Triangulation.cs:158-174 | Duplicates past `lo` leave the first `lo` ints alone. |
| `TriangulationSpec.DedupInnerAsWrittenRunsOn` | Assets/Scripts/Triangulation.cs:165-171 | As written, with a later duplicate in range the inner loop never leaves by its condition: after any number of passes it has faulted or is still running, with `j` counted up by the passes. |
| `TriangulationSpec.DedupStepAsWritten` | Assets/Scripts/Triangulation.cs:165-171 | One pass as written moves `j` and `i` up by one and leaves `l`. It faults when the duplicate at `l` is at or past the removed slot and `j` is outside the duplicate list. |
| `TriangulationSpec.DedupInnerAsWrittenFaults` | Assets/Scripts/Triangulation.cs:165-171 | Duplicates at slots 2 and 6: the third pass writes past the end of the duplicate list. |
| `TriangulationSpec.StartCornersAsWritten` | Assets/Scripts/Triangulation.cs:201-219 | LocateConcavities with the test as written gives one flag per edge. |
| `TriangulationSpec.SquareTurns` | Assets/Scripts/Triangulation.cs:436 | A quarter turn left is concave as written and not concave when corrected. |
| `TriangulationSpec.SquareAllConcaveAsWritten` | Assets/Scripts/Triangulation.cs:436 | As written, every corner of a convex square is flagged concave. |
| `TriangulationSpec.SquareConvexCorrected` | Assets/Scripts/Triangulation.cs:433-437 | Corrected, no corner of the counter-clockwise square is flagged. |
| `TriangulationSpec.StraightNotConcave` | Assets/Scripts/Triangulation.cs:436 | As written, a straight continuation is not flagged. |
| `TriangulationState.SoundExtended` | Assets/Scripts/Triangulation.cs:383-384 | Appending edges keeps a loop sound. |
| `TriangulationState.AllExtended` | Assets/Scripts/Triangulation.cs:320-323 | Appending edges keeps every sound loop sound. |
| `TriangulationState.FramedExtended` | Assets/Scripts/Triangulation.cs:383-384 | Appending edges keeps what each recorded triangle edge joins. |
| `TriangulationState.ClipRanged` | Assets/Scripts/Triangulation.cs:369-410 | Clipping an ear keeps every index in range and lists in step. |
| `TriangulationState.ClipWithRanged` | Assets/Scripts/Triangulation.cs:397-409 | As ClipRanged, for any two recomputed flags. |
| `TriangulationState.EarUnfolded` | Assets/Scripts/Triangulation.cs:74 | On a sound loop, a convex ear's triangle does not turn clockwise. |
| `TriangulationState.ClipFramed` | Assets/Scripts/Triangulation.cs:390-395 | The clipped triangle goes round the ear's two edges and the cross edge. |
| `TriangulationState.ClipSound` | Assets/Scripts/Triangulation.cs:369-410 | Clipping a sound loop of four or more edges leaves it sound. |
| `TriangulationState.ClipLoopsSound` | Assets/Scripts/Triangulation.cs:369-410 | The other loops stay sound, and the clipped one stays sound or drops below three edges. |
| `TriangulationState.ClipTrianglesHold` | Assets/Scripts/Triangulation.cs:389-395 | The new triangle goes round its edges and does not turn clockwise; older triangles are kept. |
| `TriangulationState.ClipHolds` | Assets/Scripts/Triangulation.cs:369-410 | Clipping a convex ear keeps the whole triangulation invariant. |
| `TriangulationState.MergedEntries` | Assets/Scripts/Triangulation.cs:320-343 | The merged loop names whole edges of the extended list. |
| `TriangulationState.InsertScene` | Assets/Scripts/Triangulation.cs:314-357 | The insert, field by field: edges extended, loop merged, duplicate recorded. |
| `TriangulationState.Swallowed` | Assets/Scripts/Triangulation.cs:229-238 | Inserting then removing the hole keeps every index in range, and the invariant moves to the adjusted position. |
| `TriangulationState.InsertRanged` | Assets/Scripts/Triangulation.cs:314-357 | The insert keeps indices in range, records a spaced twin and keeps lengths in step. |
| `TriangulationState.InsertWithRanged` | Assets/Scripts/Triangulation.cs:314-344 | As InsertRanged, for any concavity list of the right length. |
| `TriangulationState.InsertSound` | Assets/Scripts/Triangulation.cs:314-357 | Swallowing a hole into a sound loop leaves a sound loop. |
| `TriangulationState.InsertHolds` | Assets/Scripts/Triangulation.cs:314-357 | The insert keeps the triangulation invariant. |
| `TriangulationState.InsertWithHolds` | Assets/Scripts/Triangulation.cs:320-344 | For any list making the merge sound, the other loops stay sound, the triangles stay, and the new duplicate slot is even. |
| `TriangulationState.InsertTrianglesHold` | Assets/Scripts/Triangulation.cs:320-325 | The insert leaves the triangles as they were, on a longer edge list. |
| `TriangulationState.RetireRanged` | Assets/Scripts/Triangulation.cs:107-112 | Removing a loop keeps every index in range. |
| `TriangulationState.RetireHolds` | Assets/Scripts/Triangulation.cs:107-112 | Removing a loop keeps the invariant at the current loop's new position. |
| `TriangulationState.Settled` | Assets/Scripts/Triangulation.cs:64-104 | Once the current loop has three or more edges again, the invariant holds without exception. |
| `TriangulationState.LocatedHolds` | Assets/Scripts/Triangulation.cs:50-53 | On an even edge list with chained loops, the pass starts from the invariant. |
| `TriangulationState.DeduplicatedFramed` | Assets/Scripts/Triangulation.cs:158-174 | Removing the duplicates keeps triangle `t` going round its even edge slots. |
| `TriangulationState.DeduplicatedHolds` | Assets/Scripts/Triangulation.cs:158-174 | Removing the duplicates keeps every new triangle going round its edge slots. |

## Findings

| source | as written | input that shows it | evidently intended | confidence | as-written member | corrected member |
|---|---|---|---|---|---|---|
| Assets/Scripts/ConvexHull.cs:134 | `AddVertex` returns `vertices.Count` after the append | the first vertex added to an empty child returns 1, not 0 | return the new vertex's slot, `vertices.Count - 1` | not executed | `Hull.ConvexHull.AddVertexAsWritten` | `Hull.ConvexHull.AddVertex` |
| Assets/Scripts/ConvexHull.cs:494-498 | `edgesA[i] = edgeA; edgesA[j] = edgesA[i]` copies instead of swapping (the same on B) | cut edges P-Q, R-S, Q-R: the result is P-Q, Q-R, Q-R and R-S is lost | swap slots `i` and `j` of both lists | not executed | `Hull.ConvexHull.CopyLosesEdge` | `Hull.ConvexHull.SortCutEdges` |
| Assets/Scripts/Triangulation.cs:420 | the loop counter steps by `i *= 2` from 0 | any edge list with at least one whole edge: `i` stays 0 forever | step by `i++` | not executed | `TriangulationSpec.DoublingNeverExits` | `Triangulator.Triangulation.LocateLoops` |
| Assets/Scripts/Triangulation.cs:165-171 | the inner loop steps `j++, i++`, leaving `l` fixed, and writes `duplicateEdges[j]` | duplicates at slots 2 and 6: `l` stays below the count, so the loop goes on, and the third pass writes `duplicateEdges[2]` of a two-element list | step `l++` and shift `duplicateEdges[l]` | not executed | `TriangulationSpec.DedupInnerAsWrittenRunsOn`, `TriangulationSpec.DedupInnerAsWrittenFaults` | `Triangulator.Triangulation.RemoveDuplicateEdges` |
| Assets/Scripts/Triangulation.cs:325-341 | both bridge entries are `edges.Count`, read after the four new ints, and the duplicate is recorded as `edges.Count` too (line 325) | any merge: the bridge entry names an edge past the end of the list, and removing the recorded duplicate is out of range | bridge to the anchor at `Count - 2`, back at `Count - 4`, and record the duplicate at `Count - 2` | not executed | `TriangulationSpec.BridgeAsWrittenDangles` | `TriangulationSpec.MergeKeepsChain`, `TriangulationSpec.BridgeRecordTwinned` |
| Assets/Scripts/Triangulation.cs:399-404 | `loop[zero]` and `loop[third]` are read after `loop.RemoveAt(first)` | loop [0, 2, 4, 6, 8], ear at 1: slot 8 is read for the third edge (slot 6); ear at 0: `loop[4]` is past the end | read the neighbours at their positions before the removal | not executed | `TriangulationSpec.ReadsAfterRemovalMisread` | `TriangulationSpec.ClipKeepsConsistent` |
| Assets/Scripts/Triangulation.cs:436 | concave when `Acos(angle between the lines) > 0`, i.e. unless the lines point the same way | the unit square walked counter-clockwise about +z: all four corners are flagged, so no ear exists | concave when the turn is clockwise about the normal, as the commented test at line 459 says | not executed | `TriangulationSpec.SquareAllConcaveAsWritten` | `TriangulationSpec.SquareConvexCorrected` |

## Left out

- UV coordinates are not modelled: the uv list, its copies and the blended cut UVs (ConvexHull.cs:20, 38, 51, 421-423, 453-458). They never influence the topology.
- `Vector3.Normalize` of the cut normals and tangents (ConvexHull.cs:430, 436, 442, 449) needs a square root. The model keeps the blended vectors unnormalised.
- Floating point is modelled as exact reals:
  - rounding, Unity's approximate `==` on vectors, and `Mathf.Acos` are not modelled;
  - the as-written concavity test `Acos(c) > 0` holds exactly when the cosine `c` is below 1, so it is stated as "the cosine is below 1, with both lines of non-zero length" (a zero length divides by zero and gives NaN, which fails the test).
- List capacity hints (ConvexHull.cs:33-44) are not modelled, because they do not change contents.
- Mesh objects are modelled as their buffers. Creating a Unity `Mesh`, and the MonoBehaviour lifecycle, are I/O.
- FractureMain.cs and FractureOnHit.cs, the components that call `Split` and build meshes, are not part of this model.
- `FillCutEdges` (ConvexHull.cs:219) is not defined in the source, so filling the cut face is not modelled. `ValidateOutput` (ConvexHull.cs:223) is commented out.
- `SplitTriangle(Vector3, Vector3, Vector3)` (ConvexHull.cs:511-525) is never called with its own signature and does not compile. It is not modelled.
- The commented-out fan fill (Triangulation.cs:115-125), the commented-out triangulator call (ConvexHull.cs:529-535) and the old point-in-triangle test (Triangulation.cs:441-458) are not modelled.
- `IsPointInsideTriangle` (Triangulation.cs:245-269) is modelled as a predicate over reals. Division by a zero denominator, which gives infinities in C#, is treated as "not inside".
- Hull.ConvexHull.SortCutEdges: the exceptions the source raises are returned as `faulted`:
  - on an empty list, `edgesA[0]` throws;
  - after the chain is closed, `start` is null and the next `start.point0` throws.
- Hull.ConvexHull.BuildPieces states only how the children's lists grow and that the new triangles are fresh. The pieces' corners and the cross edge are stated one layer down, by HullifyTriangle, so that the triangle pass does not carry them.
- Hull.ConvexHull.Split: a fault in SortCutEdges is returned as `completed == false`, with the parent's lists unchanged, instead of an exception.
- Triangulator.Triangulation.FindClosestPointInTriangle is kept as written. `closestDistance` is reset to -1, so the last inside point in scan order wins rather than the closest. Distance is therefore not stated.
- Triangulator.Triangulation.Fill:
  - the geometric guarantees (each triangle goes round its edges and does not turn clockwise) are proved only for an even-length edge list whose located loops are chained;
  - it requires every point number to name a point, where the source would throw;
  - loops are taken to run counter-clockwise about the normal.
- Triangulator.Triangulation.RemoveDuplicateEdges requires the recorded duplicates to be spaced at least one edge apart and inside the list. Fill only records such duplicates.
- Triangulator.Triangulation.constructor leaves `loops`, `concavities` and `duplicateEdges` empty where the source leaves them unassigned (null) until Fill.
- Triangulator.Triangulation.MergeLoops: the reference test `loop != loops[x]` is modelled as `x != li`. This is the same as long as no loop list is shared between two entries.
