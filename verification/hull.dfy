/**
 * The hull splitter: a triangulated surface held as parallel per-vertex
 * attribute lists plus point, edge and triangle lists, and the operation that
 * divides it by a plane into two such hulls.
 */
module Hull {
  import opened Geometry
  import opened Shapes
  import opened HullSpec

  /** The first point of `ps` at `position` (List.Find), or null. */
  function FindPoint(ps: seq<Point>, position: Vec3): (r: Point?)
    ensures r == null <==> forall k :: 0 <= k < |ps| ==> ps[k].position != position
    ensures r != null ==> exists k :: 0 <= k < |ps| && ps[k] == r && r.position == position &&
                                     forall j :: 0 <= j < k ==> ps[j].position != position
  {
    if ps == [] then null
    else if ps[0].position == position then ps[0]
    else
      var r := FindPoint(ps[1..], position);
      assert r != null ==> exists k :: 0 <= k < |ps[1..]| && ps[1..][k] == r && r.position == position &&
                                      forall j :: 0 <= j < k ==> ps[1..][j].position != position;
      assert r != null ==> exists k :: 1 <= k < |ps| && ps[k] == r && r.position == position &&
                                      forall j :: 1 <= j < k ==> ps[j].position != position;
      r
  }

  /** The first edge of `es` joining `p0` and `p1` in either direction, or null. */
  function FindEdge(es: seq<Edge>, p0: Point, p1: Point): (r: Edge?)
    ensures r == null <==> forall k :: 0 <= k < |es| ==> !Joins(es[k], p0, p1)
    ensures r != null ==> exists k :: 0 <= k < |es| && es[k] == r && Joins(r, p0, p1) &&
                                     forall j :: 0 <= j < k ==> !Joins(es[j], p0, p1)
  {
    if es == [] then null
    else if Joins(es[0], p0, p1) then es[0]
    else
      var r := FindEdge(es[1..], p0, p1);
      assert r != null ==> exists k :: 0 <= k < |es[1..]| && es[1..][k] == r && Joins(r, p0, p1) &&
                                      forall j :: 0 <= j < k ==> !Joins(es[1..][j], p0, p1);
      assert r != null ==> exists k :: 1 <= k < |es| && es[k] == r && Joins(r, p0, p1) &&
                                      forall j :: 1 <= j < k ==> !Joins(es[j], p0, p1);
      r
  }

  /** The first slot of `vs` holding `v`, or `|vs|` when none does. */
  function FirstAt(vs: seq<Vec3>, v: Vec3): (r: nat)
    ensures r <= |vs| && (r < |vs| ==> vs[r] == v)
    ensures forall j :: 0 <= j < r ==> vs[j] != v
    ensures forall j :: 0 <= j < |vs| && vs[j] == v ==> r <= j
  {
    if vs == [] then 0
    else if vs[0] == v then 0
    else 1 + FirstAt(vs[1..], v)
  }

  /**
   * FindPoint over the Points made so far, one per vertex of `vs` before
   * slot `i` and at that vertex's position, finds the Point of the first
   * vertex at the position of vertex `i`, if that comes before `i`.
   */
  lemma FirstPointFound(vs: seq<Vec3>, ps: seq<Point>, i: int)
    requires 0 <= i < |vs| && |ps| == i && forall k :: 0 <= k < i ==> ps[k].position == vs[k]
    ensures FindPoint(ps, vs[i]) == null ==> FirstAt(vs, vs[i]) == i
    ensures FindPoint(ps, vs[i]) != null ==> FirstAt(vs, vs[i]) < i && FindPoint(ps, vs[i]) == ps[FirstAt(vs, vs[i])]
  {
    var f := FirstAt(vs, vs[i]);
    if FindPoint(ps, vs[i]) != null {
      var k :| 0 <= k < |ps| && ps[k] == FindPoint(ps, vs[i]) && ps[k].position == vs[i] &&
               forall j :: 0 <= j < k ==> ps[j].position != vs[i];
      assert vs[k] == vs[i];
    }
  }

  /**
   * The import's first pass after `i` vertices: Point `k` is at vertex `k`'s
   * position, and vertex `k` is attached to the Point of the first vertex at
   * its position.
   */
  predicate AttachedFirst(vs: seq<Vec3>, vps: seq<Point>, ps: seq<Point>, i: int) {
    && 0 <= i <= |vs| && |vps| == i && |ps| == i
    && (forall k :: 0 <= k < i ==> ps[k].position == vs[k])
    && (forall k :: 0 <= k < i ==> vps[k] == ps[FirstAt(vs, vs[k])])
  }

  /** One more vertex attached as the import's first pass does it. */
  lemma AttachedStep(vs: seq<Vec3>, vps: seq<Point>, ps: seq<Point>, i: int, p: Point)
    requires AttachedFirst(vs, vps, ps, i) && i < |vs| && p.position == vs[i]
    ensures var q := FindPoint(ps, p.position);
            AttachedFirst(vs, vps + [if q == null then p else q], ps + [p], i + 1)
  {
    FirstPointFound(vs, ps, i);
    var q := FindPoint(ps, p.position);
    var vps', ps' := vps + [if q == null then p else q], ps + [p];
    assert vps'[i] == ps'[FirstAt(vs, vs[i])];
    forall k | 0 <= k < i
      ensures vps'[k] == ps'[FirstAt(vs, vs[k])]
    {
      var f := FirstAt(vs, vs[k]);
      assert f <= k && vps'[k] == vps[k] && ps'[f] == ps[f];
    }
    assert forall k :: 0 <= k < i + 1 ==> ps'[k].position == vs[k];
  }

  /** After the first pass every vertex sits at a listed Point at its position. */
  lemma AttachedSits(vs: seq<Vec3>, vps: seq<Point>, ps: seq<Point>, i: int)
    requires AttachedFirst(vs, vps, ps, i)
    ensures forall k :: 0 <= k < i ==> vps[k] in ps && vps[k].position == vs[k]
  {
    forall k | 0 <= k < i
      ensures vps[k] in ps && vps[k].position == vs[k]
    {
      var f := FirstAt(vs, vs[k]);
      assert vps[k] == ps[f] && ps[f].position == vs[f];
    }
  }

  /** Vertices at one position share the Point of the first vertex there. */
  lemma SharedPoints(vs: seq<Vec3>, vps: seq<Point>, ps: seq<Point>)
    requires |vps| == |vs| && |vs| <= |ps|
    requires forall k :: 0 <= k < |vs| ==> vps[k] == ps[FirstAt(vs, vs[k])]
    ensures forall j, k :: 0 <= j < |vs| && 0 <= k < |vs| && vs[j] == vs[k] ==> vps[j] == vps[k]
  {
  }

  /** No two distinct edges of `es` join the same two points. */
  predicate UniqueEdges(es: seq<Edge>) {
    forall j, k :: 0 <= j < |es| && 0 <= k < |es| && Joins(es[j], es[k].point0, es[k].point1) ==> es[j] == es[k]
  }

  /**
   * AddUniqueEdge keeps the edges unique: the edge it appends is either one
   * already listed or one that joins two points no listed edge joins.
   */
  lemma UniqueAppend(es: seq<Edge>, e: Edge)
    requires UniqueEdges(es)
    requires e in es || forall k :: 0 <= k < |es| ==> !Joins(es[k], e.point0, e.point1)
    ensures UniqueEdges(es + [e])
  {
    var es' := es + [e];
    forall j, k | 0 <= j < |es'| && 0 <= k < |es'| && Joins(es'[j], es'[k].point0, es'[k].point1)
      ensures es'[j] == es'[k]
    {
      if j < |es| && k == |es| && e in es {
        var m :| 0 <= m < |es| && es[m] == e;
        assert Joins(es[j], es[m].point0, es[m].point1);
      } else if j == |es| && k < |es| {
        assert Joins(es[k], e.point0, e.point1);
        if e in es {
          var m :| 0 <= m < |es| && es[m] == e;
          assert Joins(es[k], es[m].point0, es[m].point1);
        }
      } else if j < |es| && k < |es| {
        assert es'[j] == es[j] && es'[k] == es[k];
      }
    }
  }

  /** AddUniqueEdge's append, stated through FindEdge. */
  lemma UniqueAfterAdd(es: seq<Edge>, e: Edge, p0: Point, p1: Point)
    requires Joins(e, p0, p1)
    requires FindEdge(es, p0, p1) != null ==> e == FindEdge(es, p0, p1)
    ensures UniqueEdges(es) ==> UniqueEdges(es + [e])
  {
    if UniqueEdges(es) {
      if FindEdge(es, p0, p1) == null {
        forall k | 0 <= k < |es|
          ensures !Joins(es[k], e.point0, e.point1)
        {
          assert !Joins(es[k], p0, p1);
        }
      }
      UniqueAppend(es, e);
    }
  }

  /** The vertex slots of `ts`, three per triangle, in order. */
  function Flatten(ts: seq<Triangle>): (r: seq<int>)
    reads ts
    ensures |r| == 3 * |ts|
  {
    if ts == [] then []
    else
      var t := ts[|ts| - 1];
      Flatten(ts[..|ts| - 1]) + [t.vertex0, t.vertex1, t.vertex2]
  }

  lemma FlattenStep(ts: seq<Triangle>, n: nat)
    requires n < |ts|
    ensures Flatten(ts[..n + 1]) == Flatten(ts[..n]) + [ts[n].vertex0, ts[n].vertex1, ts[n].vertex2]
  {
    assert ts[..n + 1][..n] == ts[..n];
  }

  lemma TripleInRange(n: nat, length: nat)
    requires n < length / 3
    ensures 3 * n + 2 < length
  {
  }

  lemma TripleStep(s: seq<int>, k: nat)
    requires k + 3 <= |s|
    ensures s[..k + 3] == s[..k] + [s[k], s[k + 1], s[k + 2]]
  {
  }

  /**
   * What a split leaves in its children `a` and `b`, for a parent with points
   * `ps`, edges `es` and triangles `ts`: both children are valid hulls, every
   * parent point is listed in the child of its side, each child has its
   * side's points plus one new point per crossing edge, and the triangles are
   * dealt out as the triangle pass promises.
   */
  ghost predicate Divided(a: ConvexHull, b: ConvexHull, ps: seq<Point>, es: seq<Edge>, ts: seq<Triangle>, plane: Plane)
    reads a, a.triangles, b, b.triangles
  {
    && a.Valid() && b.Valid()
    && (forall p :: p in ps ==> if PointAbove(p, plane) then p in a.points else p in b.points)
    && |a.points| == |OnSide(ps, plane, true)| + CrossCount(es, plane)
    && |b.points| == |OnSide(ps, plane, false)| + CrossCount(es, plane)
    && |a.triangles| == SumA(ts, plane) && |b.triangles| == SumB(ts, plane)
    && UncutKept(ts, a.triangles, b.triangles, plane)
  }

  /**
   * The pieces of one cut triangle as the cut leaves them: the last triangle
   * of the apex side joins the first cut point, the apex and the second cut
   * point; the last two triangles of the other side cover the quadrilateral
   * from the first uncut corner through the two cut points to the second
   * uncut corner, split along the last edge of that side, the cross edge
   * from the first uncut corner to the second cut point.
   */
  ghost predicate PiecesBuilt(topTriangles: seq<Triangle>, bottomTriangles: seq<Triangle>, bottomEdges: seq<Edge>,
                              topEdge0: Edge, topEdge1: Edge, bottomEdge0: Edge, bottomEdge1: Edge)
  {
    && |topTriangles| >= 1 && |bottomTriangles| >= 2 && |bottomEdges| >= 1
    && (var t := topTriangles[|topTriangles| - 1];
        t.point0 == topEdge0.point0 && t.point1 == topEdge0.point1 && t.point2 == topEdge1.point0)
    && (var t0, t1 := bottomTriangles[|bottomTriangles| - 2], bottomTriangles[|bottomTriangles| - 1];
        && t0.point0 == bottomEdge0.point1 && t0.point1 == bottomEdge0.point0 && t0.point2 == bottomEdge1.point0
        && t1.point0 == bottomEdge0.point1 && t1.point1 == bottomEdge1.point0 && t1.point2 == bottomEdge1.point1)
    && Joins(bottomEdges[|bottomEdges| - 1], bottomEdge0.point1, bottomEdge1.point0)
  }

  /**
   * Everything a split promises about its children: they divide the parent
   * (Divided), every parent edge's routing is recorded in `flags` and `hits`
   * with its halves or itself in the children, the cut edges come in one
   * twin pair per cut triangle, and every parent vertex (of the attribute
   * lists `d`) sits, unchanged, at slot `toNew[i]` of the child of its side.
   */
  ghost predicate SplitInto(a: ConvexHull, b: ConvexHull, ps: seq<Point>, es: seq<Edge>, ts: seq<Triangle>, d: VertexData,
                            flags: seq<bool>, hits: seq<EdgeHit>, toNew: seq<int>, cutA: seq<Edge>, cutB: seq<Edge>, plane: Plane)
    reads a, a.triangles, b, b.triangles, es
  {
    && Divided(a, b, ps, es, ts, plane)
    && EdgesRouted(es, flags, hits, a.edges, b.edges, plane)
    && |cutA| == MixedCount(ts, plane) && CutsPaired(cutA, cutB, a.edges, b.edges, plane)
    && |toNew| == |d.vertices| && VertexMapped(toNew, d, a.Data(), b.Data(), plane)
  }

  class ConvexHull {
    var vertices: seq<Vec3>
    var normals: seq<Vec3>
    var tangents: seq<Vec4>
    /** The point each vertex sits at. */
    var vertexPoints: seq<Point>

    var points: seq<Point>
    var edges: seq<Edge>
    var triangles: seq<Triangle>

    /**
     * `t` is a well-formed triangle of this hull: its vertex slots exist and
     * sit at its points, its edges belong to the hull, and edge k joins point
     * k to point k + 1.
     */
    ghost predicate Placed(t: Triangle)
      reads this`vertexPoints, this`edges, t
    {
      && 0 <= t.vertex0 < |vertexPoints| && 0 <= t.vertex1 < |vertexPoints| && 0 <= t.vertex2 < |vertexPoints|
      && vertexPoints[t.vertex0] == t.point0
      && vertexPoints[t.vertex1] == t.point1
      && vertexPoints[t.vertex2] == t.point2
      && t.edge0 in edges && t.edge1 in edges && t.edge2 in edges
      && Wound(t)
    }

    /**
     * The hull invariant: the attribute lists run in parallel, every vertex
     * sits at a point of the hull (at that point's position), every edge
     * joins points of the hull, and every triangle is placed, each once.
     */
    ghost predicate Valid()
      reads this, triangles
    {
      && |normals| == |vertices| && |tangents| == |vertices| && |vertexPoints| == |vertices|
      && (forall i :: 0 <= i < |vertexPoints| ==> vertexPoints[i] in points && vertexPoints[i].position == vertices[i])
      && (forall e :: e in edges ==> e.point0 in points && e.point1 in points)
      && (forall i :: 0 <= i < |triangles| ==> Placed(triangles[i]))
      && (forall i, j :: 0 <= i < j < |triangles| ==> triangles[i] != triangles[j])
    }

    /**
     * The part of the hull invariant that the hull's own lists carry, without
     * looking into the triangles: it survives while the triangles' vertex
     * slots are rewritten.
     */
    ghost predicate Listed()
      reads this
    {
      && Parallel(Data()) && (forall i :: 0 <= i < |vertexPoints| ==> vertexPoints[i] in points)
      && (forall i, j :: 0 <= i < j < |triangles| ==> triangles[i] != triangles[j])
    }

    /** The triangle index buffer this hull would export. */
    ghost function Indices(): seq<int>
      reads this, triangles
    {
      Flatten(triangles)
    }

    /** A child hull, empty until a split fills it (capacity hints are not modelled). */
    constructor Child()
      ensures Valid()
      ensures vertices == [] && normals == [] && tangents == [] && vertexPoints == []
      ensures points == [] && edges == [] && triangles == []
    {
      vertices, normals, tangents, vertexPoints := [], [], [], [];
      points, edges, triangles := [], [], [];
    }

    /**
     * Import of a mesh's buffers. Every vertex gets a new Point; a vertex
     * whose position was already seen is attached to the first Point at that
     * position. Then one triangle per complete index triple.
     */
    constructor FromMesh(meshVertices: seq<Vec3>, meshNormals: seq<Vec3>, meshTangents: seq<Vec4>, indices: seq<int>)
      requires |meshNormals| == |meshVertices| && |meshTangents| == |meshVertices|
      requires forall k :: 0 <= k < |indices| ==> 0 <= indices[k] < |meshVertices|
      ensures Valid()
      ensures vertices == meshVertices && normals == meshNormals && tangents == meshTangents
      ensures |points| == |meshVertices|
      ensures |triangles| == |indices| / 3 && |edges| == 3 * |triangles|
      ensures Indices() == indices[..3 * (|indices| / 3)]
      ensures forall k :: 0 <= k < |vertices| ==> vertexPoints[k] == points[FirstAt(vertices, vertices[k])]
      ensures forall j, k :: 0 <= j < |vertices| && 0 <= k < |vertices| && vertices[j] == vertices[k] ==>
                vertexPoints[j] == vertexPoints[k]
      ensures UniqueEdges(edges)
    {
      vertices, normals, tangents := meshVertices, meshNormals, meshTangents;
      vertexPoints, points, edges, triangles := [], [], [], [];
      new;
      AddVertexPoints();
      SharedPoints(vertices, vertexPoints, points);
      AddIndexedTriangles(indices);
    }

    /**
     * The import's first pass: a new Point per vertex, every one listed; the
     * vertex itself is attached to the first listed Point at its position.
     */
    method AddVertexPoints()
      requires |normals| == |vertices| && |tangents| == |vertices|
      requires vertexPoints == [] && points == [] && edges == [] && triangles == []
      modifies this`vertexPoints, this`points
      ensures Valid() && |points| == |vertices|
      ensures forall k :: 0 <= k < |vertices| ==> vertexPoints[k] == points[FirstAt(vertices, vertices[k])]
    {
      var i := 0;
      while i < |vertices|
        invariant AttachedFirst(vertices, vertexPoints, points, i)
      {
        var p := new Point(vertices[i]);
        var pointAlreadyExists := FindPoint(points, p.position);
        AttachedStep(vertices, vertexPoints, points, i, p);
        if pointAlreadyExists == null {
          vertexPoints := vertexPoints + [p];
        } else {
          vertexPoints := vertexPoints + [pointAlreadyExists];
        }
        points := points + [p];
        i := i + 1;
      }
      AttachedSits(vertices, vertexPoints, points, i);
    }

    /** The import's second pass: one triangle per complete index triple, in order. */
    method AddIndexedTriangles(indices: seq<int>)
      requires Valid() && edges == [] && triangles == []
      requires forall k :: 0 <= k < |indices| ==> 0 <= indices[k] < |vertexPoints|
      modifies this`edges, this`triangles
      ensures Valid()
      ensures |triangles| == |indices| / 3 && |edges| == 3 * |triangles|
      ensures Indices() == indices[..3 * (|indices| / 3)]
      ensures UniqueEdges(edges)
    {
      var n := 0;
      while n < |indices| / 3
        invariant 0 <= n <= |indices| / 3
        invariant Valid() && UniqueEdges(edges)
        invariant |triangles| == n && |edges| == 3 * n
        invariant Indices() == indices[..3 * n]
      {
        AddIndexedTriangle(indices, n);
        n := n + 1;
      }
    }

    /** One pass of the import's triangle loop: the triangle over index triple `n`. */
    method AddIndexedTriangle(indices: seq<int>, n: nat)
      requires Valid() && n < |indices| / 3 && |triangles| == n && |edges| == 3 * n
      requires forall k :: 0 <= k < |indices| ==> 0 <= indices[k] < |vertexPoints|
      requires Indices() == indices[..3 * n]
      modifies this`edges, this`triangles
      ensures Valid() && |triangles| == n + 1 && |edges| == 3 * (n + 1)
      ensures Indices() == indices[..3 * (n + 1)]
      ensures UniqueEdges(old(edges)) ==> UniqueEdges(edges)
    {
      var triangle := n * 3;
      assert triangle + 2 < |indices| by { TripleInRange(n, |indices|); }
      AddTriangle(indices[triangle + 0], indices[triangle + 1], indices[triangle + 2]);
      TripleStep(indices, triangle);
    }

    /** Adds the triangle over three vertex slots, reusing edges already present. */
    method AddTriangle(vertex0: int, vertex1: int, vertex2: int)
      requires Valid()
      requires 0 <= vertex0 < |vertexPoints| && 0 <= vertex1 < |vertexPoints| && 0 <= vertex2 < |vertexPoints|
      modifies this`edges, this`triangles
      ensures Valid()
      ensures |edges| == |old(edges)| + 3 && old(edges) <= edges
      ensures |triangles| == |old(triangles)| + 1 && old(triangles) <= triangles
      ensures Indices() == old(Indices()) + [vertex0, vertex1, vertex2]
      ensures UniqueEdges(old(edges)) ==> UniqueEdges(edges)
      ensures var t := triangles[|triangles| - 1];
              && fresh(t)
              && t.vertex0 == vertex0 && t.vertex1 == vertex1 && t.vertex2 == vertex2
              && t.point0 == vertexPoints[vertex0] && t.point1 == vertexPoints[vertex1] && t.point2 == vertexPoints[vertex2]
    {
      var point0 := vertexPoints[vertex0];
      var point1 := vertexPoints[vertex1];
      var point2 := vertexPoints[vertex2];

      var edge0, edge1, edge2 := AddCornerEdges(point0, point1, point2);

      var triangle := AddNewTriangle(vertex0, vertex1, vertex2, point0, point1, point2, edge0, edge1, edge2);
    }

    /** AddTriangle's three AddUniqueEdge calls, around the corners in winding order. */
    method AddCornerEdges(point0: Point, point1: Point, point2: Point) returns (edge0: Edge, edge1: Edge, edge2: Edge)
      requires Valid() && point0 in points && point1 in points && point2 in points
      modifies this`edges
      ensures Valid() && edges == old(edges) + [edge0, edge1, edge2]
      ensures Joins(edge0, point0, point1) && Joins(edge1, point1, point2) && Joins(edge2, point2, point0)
      ensures UniqueEdges(old(edges)) ==> UniqueEdges(edges)
    {
      edge0 := AddJoiningEdge(point0, point1);
      edge1 := AddJoiningEdge(point1, point2);
      edge2 := AddJoiningEdge(point2, point0);
    }

    /** AddUniqueEdge as AddTriangle relies on it: some edge joining the two points is appended. */
    method AddJoiningEdge(point0: Point, point1: Point) returns (e: Edge)
      requires Valid() && point0 in points && point1 in points
      modifies this`edges
      ensures Valid() && edges == old(edges) + [e] && Joins(e, point0, point1)
      ensures UniqueEdges(old(edges)) ==> UniqueEdges(edges)
    {
      e := AddUniqueEdge(point0, point1);
    }

    /**
     * Returns the first edge joining `point0` and `point1` in either direction
     * if there is one, else a new edge from `point0` to `point1`; either way
     * the returned edge is appended to the edge list once more.
     */
    method AddUniqueEdge(point0: Point, point1: Point) returns (e: Edge)
      requires Valid()
      requires point0 in points && point1 in points
      modifies this`edges
      ensures Valid()
      ensures edges == old(edges) + [e]
      ensures Joins(e, point0, point1)
      ensures FindEdge(old(edges), point0, point1) != null ==> e == FindEdge(old(edges), point0, point1)
      ensures FindEdge(old(edges), point0, point1) == null ==> fresh(e) && e.point0 == point0 && e.point1 == point1
      ensures UniqueEdges(old(edges)) ==> UniqueEdges(edges)
    {
      var edgeAlreadyExists := FindEdge(edges, point0, point1);
      if edgeAlreadyExists == null {
        e := new Edge(point0, point1);
        edges := edges + [e];
      } else {
        e := edgeAlreadyExists;
        edges := edges + [edgeAlreadyExists];
      }
      UniqueAfterAdd(old(edges), e, point0, point1);
    }

    /** List.Add on the point list. */
    method AppendPoint(p: Point)
      requires Valid()
      modifies this`points
      ensures Valid() && points == old(points) + [p]
    {
      points := points + [p];
    }

    /** List.Add on the edge list, for an edge between points of this hull. */
    method AppendEdge(e: Edge)
      requires Valid() && e.point0 in points && e.point1 in points
      modifies this`edges
      ensures Valid() && edges == old(edges) + [e]
    {
      edges := edges + [e];
    }

    /** List.Add on the triangle list, for a triangle placed in this hull. */
    method AppendTriangle(t: Triangle)
      requires Valid() && Placed(t) && t !in triangles
      modifies this`triangles
      ensures Valid() && triangles == old(triangles) + [t]
      ensures Indices() == old(Indices()) + [t.vertex0, t.vertex1, t.vertex2]
    {
      ghost var before := triangles;
      triangles := triangles + [t];
      assert forall i :: 0 <= i < |before| ==> triangles[i] == before[i];
      assert triangles[..|triangles| - 1] == before;
    }

    /**
     * A hull too small to be a closed solid: fewer than 4 points, 6 edges or
     * 4 triangles. A hull that is not empty has at least a tetrahedron's
     * points and edges and exports at least four triangles' indices.
     */
    predicate IsEmpty(): (r: bool)
      reads this, triangles
      ensures !r ==> |points| >= 4 && |edges| >= 6 && |Indices()| >= 12
    {
      |points| < 4 || |edges| < 6 || |triangles| < 4
    }

    /**
     * Appends one vertex with its attributes and returns the slot it now
     * occupies.
     */
    method AddVertex(vertex: Vec3, normal: Vec3, tangent: Vec4, point: Point) returns (r: int)
      requires Valid()
      requires point in points && point.position == vertex
      modifies this`vertices, this`normals, this`tangents, this`vertexPoints
      ensures Valid()
      ensures vertices == old(vertices) + [vertex] && normals == old(normals) + [normal]
      ensures tangents == old(tangents) + [tangent] && vertexPoints == old(vertexPoints) + [point]
      ensures r == |old(vertices)| && vertexPoints[r] == point && vertices[r] == vertex
    {
      vertices := vertices + [vertex];
      normals := normals + [normal];
      tangents := tangents + [tangent];
      vertexPoints := vertexPoints + [point];
      r := |vertices| - 1;
    }

    /** AddVertex with vertex `i` of `parent` and all of its attributes. */
    method AddVertexOf(parent: ConvexHull, i: int) returns (r: int)
      requires Valid() && parent != this && parent.Valid() && 0 <= i < |parent.vertices|
      requires parent.vertexPoints[i] in points
      modifies this`vertices, this`normals, this`tangents, this`vertexPoints
      ensures Valid() && Data() == Appended(old(Data()), parent.Data(), i) && r == |old(vertices)|
    {
      r := AddVertex(parent.vertices[i], parent.normals[i], parent.tangents[i], parent.vertexPoints[i]);
    }

    /**
     * AddVertex as the source writes it: it returns the vertex count after
     * the append, one past the slot the vertex went to, so the returned value
     * is never a valid slot.
     */
    method AddVertexAsWritten(vertex: Vec3, normal: Vec3, tangent: Vec4, point: Point) returns (r: int)
      requires Valid()
      requires point in points && point.position == vertex
      modifies this`vertices, this`normals, this`tangents, this`vertexPoints
      ensures Valid()
      ensures vertices == old(vertices) + [vertex] && vertexPoints == old(vertexPoints) + [point]
      ensures r == |old(vertices)| + 1
      ensures !(r < |vertexPoints|)
    {
      vertices := vertices + [vertex];
      normals := normals + [normal];
      tangents := tangents + [tangent];
      vertexPoints := vertexPoints + [point];
      r := |vertices|;
    }

    /** Empties every list; the hull is then empty. */
    method Clear()
      modifies this
      ensures Valid() && IsEmpty()
      ensures vertices == [] && normals == [] && tangents == [] && vertexPoints == []
      ensures points == [] && edges == [] && triangles == []
    {
      vertices, normals, tangents := [], [], [];
      vertexPoints := [];
      points, edges, triangles := [], [], [];
    }

    /**
     * The mesh buffers of a non-empty hull: the attribute lists as they are
     * and the triangles' vertex slots flattened three per triangle; nothing
     * for an empty hull.
     */
    method GetMesh() returns (r: Option<Mesh>)
      ensures r.None? <==> IsEmpty()
      ensures r.Some? ==> r.value == Mesh(vertices, normals, tangents, Indices())
    {
      if !IsEmpty() {
        var indices := new int[|triangles| * 3];
        var count := 0;
        while count < |triangles|
          invariant 0 <= count <= |triangles|
          invariant indices[..3 * count] == Flatten(triangles[..count])
        {
          WriteTriple(indices, count);
          count := count + 1;
        }
        assert triangles[..|triangles|] == triangles;
        assert indices[..] == indices[..3 * |triangles|];
        return Some(Mesh(vertices, normals, tangents, indices[..]));
      }
      return None;
    }

    /** One pass of GetMesh's loop: the vertex slots of triangle `count` go to entries 3 * count and on. */
    method WriteTriple(indices: array<int>, count: nat)
      requires count < |triangles| && indices.Length == 3 * |triangles|
      requires indices[..3 * count] == Flatten(triangles[..count])
      modifies indices
      ensures indices[..3 * (count + 1)] == Flatten(triangles[..count + 1])
    {
      var triangle := triangles[count];
      var k := 3 * count;
      indices[k] := triangle.vertex0;
      indices[k + 1] := triangle.vertex1;
      indices[k + 2] := triangle.vertex2;
      FlattenStep(triangles, count);
      assert indices[..k + 3] == indices[..k] + [triangle.vertex0, triangle.vertex1, triangle.vertex2];
    }

    /** The attribute lists as one value. */
    ghost function Data(): VertexData
      reads this`vertices, this`normals, this`tangents, this`vertexPoints
    {
      VertexData(vertices, normals, tangents, vertexPoints)
    }

    /** Every listed point's index names a slot holding that same point. */
    ghost predicate PointsIndexed()
      reads this`points, points
    {
      forall p :: p in points ==> 0 <= p.index < |points| && points[p.index] == p
    }

    /** Every listed edge's index names a slot holding that same edge. */
    ghost predicate EdgesIndexed()
      reads this`edges, edges
    {
      forall e :: e in edges ==> 0 <= e.index < |edges| && edges[e.index] == e
    }

    /**
     * Cuts the hull along the plane through `planePoint` with normal
     * `planeNormal` (a zero normal stands for the up axis): points and edges
     * are numbered, then points, vertices, edges and triangles are handed to
     * a new child `a` (above or on the plane) and a new child `b` (below).
     * With `fillCut` the cut edges are first chained by SortCutEdges; when
     * that faults the split ends there, without a result (`completed` false)
     * and with the hull's lists as they were. Otherwise the hull is cleared.
     */
    method Split(planePoint: Vec3, planeNormal: Vec3, fillCut: bool)
      returns (a: ConvexHull, b: ConvexHull, completed: bool,
               ghost edgeIntersectsPlane: seq<bool>, ghost edgeHits: seq<EdgeHit>, ghost oldToNewVertex: seq<int>,
               ghost cutEdgesA: seq<Edge>, ghost cutEdgesB: seq<Edge>, ghost sortedA: seq<Edge>)
      requires Valid()
      modifies this, points, edges, triangles
      ensures fresh(a) && fresh(b)
      ensures var plane := Plane(planePoint, if planeNormal == Zero then Up else planeNormal);
              && SplitInto(a, b, old(points), old(edges), old(triangles), old(Data()),
                           edgeIntersectsPlane, edgeHits, oldToNewVertex, cutEdgesA, cutEdgesB, plane)
              && (fillCut && MixedCount(old(triangles), plane) == 0 ==> !completed)
      ensures !fillCut ==> completed
      ensures fillCut ==> (completed <==> cutEdgesA != [] && !Reopened(sortedA))
      ensures completed ==> Valid() && IsEmpty() && points == [] && edges == [] && triangles == []
      ensures !completed ==> points == old(points) && edges == old(edges) && triangles == old(triangles)
    {
      var normal := if planeNormal == Zero then Up else planeNormal;
      var plane := Plane(planePoint, normal);
      var cutA, cutB, toNew;
      a, b, cutA, cutB, toNew, edgeIntersectsPlane, edgeHits := Divide(plane);
      cutEdgesA, cutEdgesB, oldToNewVertex := cutA, cutB, toNew;
      ghost var sortedB;
      completed, sortedA, sortedB := FinishCut(fillCut, cutA, cutB);
    }

    /** Split up to the cut edges: the hull's lists stay as they are, the children are filled. */
    method Divide(plane: Plane)
      returns (a: ConvexHull, b: ConvexHull, cutEdgesA: seq<Edge>, cutEdgesB: seq<Edge>,
               oldToNewVertex: seq<int>, ghost edgeIntersectsPlane: seq<bool>, ghost edgeHits: seq<EdgeHit>)
      requires Valid()
      modifies points, edges, triangles
      ensures fresh(a) && fresh(b)
      ensures points == old(points) && edges == old(edges) && triangles == old(triangles)
      ensures SplitInto(a, b, points, edges, triangles, Data(), edgeIntersectsPlane, edgeHits, oldToNewVertex, cutEdgesA, cutEdgesB, plane)
    {
      var pointAbovePlane;
      a, b, pointAbovePlane, oldToNewVertex := ClassifyPoints(plane);
      cutEdgesA, cutEdgesB, edgeIntersectsPlane, edgeHits := RouteTopology(a, b, pointAbovePlane, oldToNewVertex, plane);
    }

    /**
     * The end of Split: with `fillCut` the cut edges are chained first, and a
     * fault there leaves the hull's lists as they are; otherwise the hull is
     * cleared.
     */
    method FinishCut(fillCut: bool, cutEdgesA: seq<Edge>, cutEdgesB: seq<Edge>)
      returns (completed: bool, ghost sortedA: seq<Edge>, ghost sortedB: seq<Edge>)
      requires |cutEdgesA| == |cutEdgesB|
      modifies this
      ensures !fillCut ==> completed
      ensures fillCut ==> Sourced(sortedA, sortedB, cutEdgesA, cutEdgesB)
      ensures fillCut ==> (completed <==> cutEdgesA != [] && !Reopened(sortedA))
      ensures fillCut && completed ==> Chained(sortedA)
      ensures completed ==> Valid() && IsEmpty() && points == [] && edges == [] && triangles == []
      ensures !completed ==> points == old(points) && edges == old(edges) && triangles == old(triangles)
    {
      sortedA, sortedB := cutEdgesA, cutEdgesB;
      if fillCut {
        var chainA, chainB, faulted := SortCutEdges(cutEdgesA, cutEdgesB);
        sortedA, sortedB := chainA, chainB;
        if faulted {
          return false, sortedA, sortedB;
        }
      }
      Clear();
      completed := true;
    }

    /**
     * The first half of Split: points and edges are numbered, then the points
     * and the vertices are handed to the children.
     */
    method ClassifyPoints(plane: Plane) returns (a: ConvexHull, b: ConvexHull, pointAbovePlane: seq<bool>, oldToNewVertex: seq<int>)
      requires Valid()
      modifies points, edges
      ensures fresh(a) && fresh(b) && a != b
      ensures a.triangles == [] && b.triangles == []
      ensures points == old(points) && edges == old(edges) && triangles == old(triangles)
      ensures Valid() && a.Valid() && b.Valid() && EdgesIndexed()
      ensures Classified(pointAbovePlane, plane) && Partitioned(a, b, plane)
      ensures a.points == OnSide(points, plane, true) && b.points == OnSide(points, plane, false)
      ensures |oldToNewVertex| == |vertices| && VertexMapped(oldToNewVertex, Data(), a.Data(), b.Data(), plane)
    {
      a, b := NewChildren();
      IndexLists();
      pointAbovePlane := AssignPoints(a, b, plane);
      oldToNewVertex := AssignVertices(a, b, pointAbovePlane, plane);
    }

    /** Split's numbering of the points and then of the edges. */
    method IndexLists()
      requires Valid()
      modifies points, edges
      ensures points == old(points) && edges == old(edges) && triangles == old(triangles)
      ensures Valid() && PointsIndexed() && EdgesIndexed()
    {
      IndexPoints();
      IndexEdges();
    }

    /** The two empty children a split fills. */
    static method NewChildren() returns (a: ConvexHull, b: ConvexHull)
      ensures fresh(a) && fresh(b) && a != b && a.Valid() && b.Valid() && a.Bare() && b.Bare()
      ensures a.points == [] && b.points == []
    {
      a := new ConvexHull.Child();
      b := new ConvexHull.Child();
    }

    /**
     * The second half of Split: the edges and then the triangles are handed
     * to the children; the cut edges of the cut triangles come back pair by
     * pair.
     */
    method RouteTopology(a: ConvexHull, b: ConvexHull, pointAbovePlane: seq<bool>, oldToNewVertex: seq<int>, plane: Plane)
      returns (cutEdgesA: seq<Edge>, cutEdgesB: seq<Edge>, ghost edgeIntersectsPlane: seq<bool>, ghost edgeHits: seq<EdgeHit>)
      requires Valid() && a != this && b != this && a != b && a.Valid() && b.Valid() && EdgesIndexed()
      requires Classified(pointAbovePlane, plane) && Partitioned(a, b, plane)
      requires a.points == OnSide(points, plane, true) && b.points == OnSide(points, plane, false)
      requires a.triangles == [] && b.triangles == []
      requires |oldToNewVertex| == |vertices| && VertexMapped(oldToNewVertex, Data(), a.Data(), b.Data(), plane)
      modifies a, b, triangles
      ensures points == old(points) && edges == old(edges) && triangles == old(triangles)
      ensures SplitInto(a, b, points, edges, triangles, Data(), edgeIntersectsPlane, edgeHits, oldToNewVertex, cutEdgesA, cutEdgesB, plane)
    {
      var flags, hits := AssignEdges(a, b, pointAbovePlane, plane);
      cutEdgesA, cutEdgesB := AssignTriangles(a, b, pointAbovePlane, flags, hits, oldToNewVertex, plane);
      edgeIntersectsPlane, edgeHits := flags, hits;
    }

    /**
     * Numbers the points by their position in the list. A point listed twice
     * keeps the later number, so distinct points get distinct numbers.
     */
    method IndexPoints()
      requires Valid()
      modifies points
      ensures Valid() && PointsIndexed()
    {
      var pointCount := 0;
      while pointCount < |points|
        invariant 0 <= pointCount <= |points|
        invariant forall k :: 0 <= k < pointCount ==> 0 <= points[k].index < pointCount && points[points[k].index] == points[k]
      {
        points[pointCount].index := pointCount;
        pointCount := pointCount + 1;
      }
    }

    /** Numbers the edges by their position in the list, as IndexPoints does. */
    method IndexEdges()
      requires Valid()
      modifies edges
      ensures Valid() && EdgesIndexed()
    {
      var edgeCount := 0;
      while edgeCount < |edges|
        invariant 0 <= edgeCount <= |edges|
        invariant forall k :: 0 <= k < edgeCount ==> 0 <= edges[k].index < edgeCount && edges[edges[k].index] == edges[k]
      {
        edges[edgeCount].index := edgeCount;
        edgeCount := edgeCount + 1;
      }
    }

    /** Nothing but points listed yet: a child before its vertices, edges and triangles arrive. */
    predicate Bare()
      reads this
    {
      vertices == [] && normals == [] && tangents == [] && vertexPoints == [] && edges == [] && triangles == []
    }

    /** The side table holds, at each point's index, whether that point is above. */
    ghost predicate Classified(pointAbovePlane: seq<bool>, plane: Plane)
      reads this`points, points
    {
      forall p :: p in points ==> 0 <= p.index < |pointAbovePlane| && pointAbovePlane[p.index] == PointAbove(p, plane)
    }

    /** Each point of this hull is listed in the child of its side. */
    ghost predicate Partitioned(a: ConvexHull, b: ConvexHull, plane: Plane)
      reads this`points, a`points, b`points
    {
      forall p :: p in points ==> if PointAbove(p, plane) then p in a.points else p in b.points
    }

    /**
     * Classifies every point by the sign of its height over the plane, records
     * the answer at the point's index and lists the point in child `a`
     * (above or on the plane) or child `b` (below), keeping the order.
     */
    method AssignPoints(a: ConvexHull, b: ConvexHull, plane: Plane) returns (pointAbovePlane: seq<bool>)
      requires a != this && b != this && a != b && a.Bare() && b.Bare()
      requires Valid() && PointsIndexed()
      modifies a`points, b`points
      ensures Valid() && a.Bare() && b.Bare() && a.Valid() && b.Valid()
      ensures a.points == old(a.points) + OnSide(points, plane, true)
      ensures b.points == old(b.points) + OnSide(points, plane, false)
      ensures Classified(pointAbovePlane, plane) && Partitioned(a, b, plane)
    {
      pointAbovePlane := seq(|points|, _ => false);
      var i := 0;
      while i < |points|
        invariant 0 <= i <= |points| && |pointAbovePlane| == |points| && PointsIndexed()
        invariant a.points == old(a.points) + OnSide(points[..i], plane, true)
        invariant b.points == old(b.points) + OnSide(points[..i], plane, false)
        invariant forall k :: 0 <= k < i ==> pointAbovePlane[points[k].index] == PointAbove(points[k], plane)
      {
        pointAbovePlane := AssignPoint(a, b, i, pointAbovePlane, old(a.points), old(b.points), plane);
        i := i + 1;
      }
      assert points[..i] == points;
      forall p | p in points
        ensures 0 <= p.index < |pointAbovePlane| && pointAbovePlane[p.index] == PointAbove(p, plane)
      {
        var k :| 0 <= k < |points| && points[k] == p;
      }
      forall p | p in points
        ensures if PointAbove(p, plane) then p in a.points else p in b.points
      {
        OnSideMember(points, plane, p);
      }
    }

    /** One pass of AssignPoints' loop: point `i` is recorded and listed on its side. */
    method AssignPoint(a: ConvexHull, b: ConvexHull, i: nat, pointAbovePlane: seq<bool>,
                       ghost aPoints: seq<Point>, ghost bPoints: seq<Point>, plane: Plane) returns (pointAbovePlane': seq<bool>)
      requires a != this && b != this && a != b
      requires i < |points| && |pointAbovePlane| == |points| && PointsIndexed()
      requires a.points == aPoints + OnSide(points[..i], plane, true)
      requires b.points == bPoints + OnSide(points[..i], plane, false)
      requires forall k :: 0 <= k < i ==> pointAbovePlane[points[k].index] == PointAbove(points[k], plane)
      modifies a`points, b`points
      ensures |pointAbovePlane'| == |points|
      ensures a.points == aPoints + OnSide(points[..i + 1], plane, true)
      ensures b.points == bPoints + OnSide(points[..i + 1], plane, false)
      ensures forall k :: 0 <= k < i + 1 ==> pointAbovePlane'[points[k].index] == PointAbove(points[k], plane)
    {
      var point := points[i];
      var abovePlane := PointAbove(point, plane);
      pointAbovePlane' := pointAbovePlane[point.index := abovePlane];
      OnSideStep(points, i, plane);
      if abovePlane {
        a.points := a.points + [point];
      } else {
        b.points := b.points + [point];
      }
    }

    /**
     * Moves every vertex, with all of its attributes, into the child that owns
     * its point, and records the slot it went to. The vertices of each side
     * keep their relative order and fill the child's new slots.
     */
    method AssignVertices(a: ConvexHull, b: ConvexHull, pointAbovePlane: seq<bool>, plane: Plane) returns (oldToNewVertex: seq<int>)
      requires a != this && b != this && a != b
      requires Valid() && a.Valid() && b.Valid()
      requires Classified(pointAbovePlane, plane) && Partitioned(a, b, plane)
      modifies a`vertices, a`normals, a`tangents, a`vertexPoints, b`vertices, b`normals, b`tangents, b`vertexPoints
      ensures Valid() && a.Valid() && b.Valid()
      ensures |oldToNewVertex| == |vertices| && VertexMapped(oldToNewVertex, Data(), a.Data(), b.Data(), plane)
      ensures SlotsFresh(oldToNewVertex, Data(), |old(a.vertices)|, |old(b.vertices)|, plane)
      ensures Extends(old(a.Data()), a.Data()) && Extends(old(b.Data()), b.Data())
      ensures |a.vertices| + |b.vertices| == |old(a.vertices)| + |old(b.vertices)| + |vertices|
    {
      oldToNewVertex := [];
      var i := 0;
      while i < |vertices|
        invariant 0 <= i <= |vertices| && |oldToNewVertex| == i
        invariant a.Valid() && b.Valid()
        invariant Extends(old(a.Data()), a.Data()) && Extends(old(b.Data()), b.Data())
        invariant |a.vertices| + |b.vertices| == |old(a.vertices)| + |old(b.vertices)| + i
        invariant VertexMapped(oldToNewVertex, Data(), a.Data(), b.Data(), plane)
        invariant SlotsFresh(oldToNewVertex, Data(), |old(a.vertices)|, |old(b.vertices)|, plane)
      {
        oldToNewVertex := AssignVertex(a, b, pointAbovePlane, oldToNewVertex, old(a.Data()), old(b.Data()), plane);
        i := i + 1;
      }
    }

    /** One pass of AssignVertices' loop: vertex `|oldToNewVertex|` moves to the child of its point. */
    method AssignVertex(a: ConvexHull, b: ConvexHull, pointAbovePlane: seq<bool>, oldToNewVertex: seq<int>,
                        ghost aData: VertexData, ghost bData: VertexData, plane: Plane) returns (oldToNewVertex': seq<int>)
      requires a != this && b != this && a != b
      requires Valid() && a.Valid() && b.Valid() && Classified(pointAbovePlane, plane) && Partitioned(a, b, plane)
      requires |oldToNewVertex| < |vertices|
      requires Extends(aData, a.Data()) && Extends(bData, b.Data())
      requires |a.vertices| + |b.vertices| == |aData.vertices| + |bData.vertices| + |oldToNewVertex|
      requires VertexMapped(oldToNewVertex, Data(), a.Data(), b.Data(), plane)
      requires SlotsFresh(oldToNewVertex, Data(), |aData.vertices|, |bData.vertices|, plane)
      modifies a`vertices, a`normals, a`tangents, a`vertexPoints, b`vertices, b`normals, b`tangents, b`vertexPoints
      ensures a.Valid() && b.Valid()
      ensures |oldToNewVertex'| == |oldToNewVertex| + 1
      ensures Extends(aData, a.Data()) && Extends(bData, b.Data())
      ensures |a.vertices| + |b.vertices| == |aData.vertices| + |bData.vertices| + |oldToNewVertex'|
      ensures VertexMapped(oldToNewVertex', Data(), a.Data(), b.Data(), plane)
      ensures SlotsFresh(oldToNewVertex', Data(), |aData.vertices|, |bData.vertices|, plane)
    {
      var i := |oldToNewVertex|;
      var correspondingPoint := vertexPoints[i];
      assert correspondingPoint in points;
      MapStep(oldToNewVertex, Data(), a.Data(), b.Data(), |aData.vertices|, |bData.vertices|, plane);
      var slot;
      if pointAbovePlane[correspondingPoint.index] {
        slot := a.AddVertexOf(this, i);
      } else {
        slot := b.AddVertexOf(this, i);
      }
      oldToNewVertex' := oldToNewVertex + [slot];
    }
  
    /**
     * One side of a cut: a new point at the intersection and a new edge from
     * it to the endpoint `end` on this side, both appended to this hull.
     */
    method AddHalfEdge(intersection: Vec3, end: Point) returns (split: Edge)
      requires Valid() && end in points
      modifies this`points, this`edges
      ensures Valid()
      ensures fresh(split) && fresh(split.point0)
      ensures split.point0.position == intersection && split.point1 == end
      ensures points == old(points) + [split.point0] && edges == old(edges) + [split]
    {
      var point := new Point(intersection);
      AppendPoint(point);
      split := new Edge(point, end);
      AppendEdge(split);
    }

    /**
     * The cut edge of one cut triangle in this hull: a new edge between the
     * starting points of the two halves `split0` and `split1`, from the second
     * to the first when `reversed` holds.
     */
    method AddCutEdge(split0: Edge, split1: Edge, reversed: bool) returns (cut: Edge)
      requires Valid() && split0 in edges && split1 in edges
      modifies this`edges
      ensures Valid() && edges == old(edges) + [cut]
      ensures cut.point0 == (if reversed then split1.point0 else split0.point0)
      ensures cut.point1 == (if reversed then split0.point0 else split1.point0)
    {
      cut := new Edge(if reversed then split1.point0 else split0.point0,
                      if reversed then split0.point0 else split1.point0);
      AppendEdge(cut);
    }

    /**
     * Where a crossing edge meets the plane: the clamped parameter
     * `Dot(planePoint - point0, normal) / Dot(line, normal)` and the point
     * that far along the edge.
     */
    static method Intersect(edge: Edge, plane: Plane) returns (scalar: real, intersection: Vec3)
      requires Crosses(edge, plane)
      ensures CutAt(intersection, edge, scalar, plane)
    {
      scalar := CrossingScalar(edge.point0.position, edge.point1.position, plane);
      intersection := Add(edge.point0.position, Scale(edge.line, scalar));
      CrossingCut(edge, plane);
    }

    /**
     * Cuts a crossing edge at the plane: one new point at the intersection for
     * each child, and in each child a new edge from that point to the
     * endpoint on its side.
     */
    static method SplitEdge(a: ConvexHull, b: ConvexHull, edge: Edge, above0: bool, plane: Plane) returns (hit: EdgeHit)
      requires a != b && a.Valid() && b.Valid()
      requires Crosses(edge, plane) && above0 == PointAbove(edge.point0, plane)
      requires (if above0 then edge.point0 else edge.point1) in a.points
      requires (if above0 then edge.point1 else edge.point0) in b.points
      modifies a`points, a`edges, b`points, b`edges
      ensures a.Valid() && b.Valid()
      ensures HitRecorded(hit, edge, a.edges, b.edges, plane)
      ensures fresh(hit.splitA) && fresh(hit.splitB) && fresh(hit.splitA.point0) && fresh(hit.splitB.point0)
      ensures a.points == old(a.points) + [hit.splitA.point0] && b.points == old(b.points) + [hit.splitB.point0]
      ensures a.edges == old(a.edges) + [hit.splitA] && b.edges == old(b.edges) + [hit.splitB]
    {
      var scalar, intersection := Intersect(edge, plane);
      var splitA := a.AddHalfEdge(intersection, if above0 then edge.point0 else edge.point1);
      var splitB := b.AddHalfEdge(intersection, if above0 then edge.point1 else edge.point0);
      hit := EdgeHit(scalar, splitA, splitB);
    }
  
    /**
     * Routes one edge: kept whole, as the same object, by the child of its
     * side when both endpoints agree; otherwise cut, with the crossing flag
     * and the hit recorded at the edge's index. No other table entry changes.
     */
    method RouteEdge(a: ConvexHull, b: ConvexHull, edge: Edge, pointAbovePlane: seq<bool>,
                     flags: seq<bool>, hits: seq<EdgeHit>, plane: Plane)
      returns (flags': seq<bool>, hits': seq<EdgeHit>)
      requires a != this && b != this && a != b && a.Valid() && b.Valid()
      requires EdgesIndexed() && edge in edges && edge.point0 in points && edge.point1 in points
      requires Classified(pointAbovePlane, plane) && Partitioned(a, b, plane)
      requires |flags| == |edges| && |hits| == |edges|
      requires !Crosses(edge, plane) ==> !flags[edge.index] && hits[edge.index] == NoHit
      modifies a`points, a`edges, b`points, b`edges
      ensures a.Valid() && b.Valid() && Partitioned(a, b, plane)
      ensures |flags'| == |edges| && |hits'| == |edges|
      ensures EdgeRouted(edge, flags', hits', a.edges, b.edges, plane)
      ensures forall e :: e in edges && e != edge ==> flags'[e.index] == flags[e.index] && hits'[e.index] == hits[e.index]
      ensures old(a.points) <= a.points && old(b.points) <= b.points
      ensures old(a.edges) <= a.edges && old(b.edges) <= b.edges
      ensures var cut := if Crosses(edge, plane) then 1 else 0;
              && |a.points| == |old(a.points)| + cut && |b.points| == |old(b.points)| + cut
              && |a.edges| == |old(a.edges)| + cut + (if !Crosses(edge, plane) && PointAbove(edge.point0, plane) then 1 else 0)
              && |b.edges| == |old(b.edges)| + cut + (if !Crosses(edge, plane) && !PointAbove(edge.point0, plane) then 1 else 0)
    {
      var abovePlane0 := pointAbovePlane[edge.point0.index];
      var abovePlane1 := pointAbovePlane[edge.point1.index];
      flags', hits' := flags, hits;
      if abovePlane0 && abovePlane1 {
        a.AppendEdge(edge);
      } else if !abovePlane0 && !abovePlane1 {
        b.AppendEdge(edge);
      } else {
        var hit := SplitEdge(a, b, edge, abovePlane0, plane);
        flags' := flags'[edge.index := true];
        hits' := hits'[edge.index := hit];
      }
    }
  
    /**
     * Routes every edge (a listed-twice edge is routed twice; the second cut
     * replaces the first in the tables) and returns the crossing flags and
     * hits, indexed by edge index.
     */
    method AssignEdges(a: ConvexHull, b: ConvexHull, pointAbovePlane: seq<bool>, plane: Plane)
      returns (edgeIntersectsPlane: seq<bool>, edgeHits: seq<EdgeHit>)
      requires a != this && b != this && a != b && a.Valid() && b.Valid()
      requires Valid() && EdgesIndexed()
      requires Classified(pointAbovePlane, plane) && Partitioned(a, b, plane)
      modifies a`points, a`edges, b`points, b`edges
      ensures Valid() && a.Valid() && b.Valid()
      ensures |edgeIntersectsPlane| == |edges| && |edgeHits| == |edges|
      ensures EdgesRouted(edges, edgeIntersectsPlane, edgeHits, a.edges, b.edges, plane)
      ensures old(a.points) <= a.points && old(b.points) <= b.points
      ensures old(a.edges) <= a.edges && old(b.edges) <= b.edges
      ensures |a.points| == |old(a.points)| + CrossCount(edges, plane)
      ensures |b.points| == |old(b.points)| + CrossCount(edges, plane)
      ensures |a.edges| == |old(a.edges)| + KeptCount(edges, plane, true) + CrossCount(edges, plane)
      ensures |b.edges| == |old(b.edges)| + KeptCount(edges, plane, false) + CrossCount(edges, plane)
    {
      edgeIntersectsPlane := seq(|edges|, _ => false);
      edgeHits := seq(|edges|, _ => NoHit);
      var i := 0;
      while i < |edges|
        invariant Routing(a, b, i, pointAbovePlane, edgeIntersectsPlane, edgeHits,
                          old(a.points), old(b.points), old(a.edges), old(b.edges), plane)
      {
        edgeIntersectsPlane, edgeHits := RouteNextEdge(a, b, i, pointAbovePlane, edgeIntersectsPlane, edgeHits,
                                                       old(a.points), old(b.points), old(a.edges), old(b.edges), plane);
        i := i + 1;
      }
      assert edges[..i] == edges;
    }

    /**
     * The edge pass's state after routing the first `i` edges: both children
     * valid and partitioned, the first `i` edges routed, the tables untouched
     * at edges that do not cross, and the children grown by exactly the
     * points and edges those `i` edges contribute.
     */
    ghost predicate Routing(a: ConvexHull, b: ConvexHull, i: int, pointAbovePlane: seq<bool>,
                            edgeIntersectsPlane: seq<bool>, edgeHits: seq<EdgeHit>,
                            aPoints: seq<Point>, bPoints: seq<Point>, aEdges: seq<Edge>, bEdges: seq<Edge>, plane: Plane)
      reads this, points, edges, a, a.triangles, b, b.triangles
    {
      && a != this && b != this && a != b && a.Valid() && b.Valid()
      && EdgesIndexed() && (forall e :: e in edges ==> e.point0 in points && e.point1 in points)
      && Classified(pointAbovePlane, plane) && Partitioned(a, b, plane)
      && 0 <= i <= |edges| && |edgeIntersectsPlane| == |edges| && |edgeHits| == |edges|
      && (forall e :: e in edges && !Crosses(e, plane) ==> !edgeIntersectsPlane[e.index] && edgeHits[e.index] == NoHit)
      && EdgesRouted(edges[..i], edgeIntersectsPlane, edgeHits, a.edges, b.edges, plane)
      && aPoints <= a.points && bPoints <= b.points && aEdges <= a.edges && bEdges <= b.edges
      && |a.points| == |aPoints| + CrossCount(edges[..i], plane)
      && |b.points| == |bPoints| + CrossCount(edges[..i], plane)
      && |a.edges| == |aEdges| + KeptCount(edges[..i], plane, true) + CrossCount(edges[..i], plane)
      && |b.edges| == |bEdges| + KeptCount(edges[..i], plane, false) + CrossCount(edges[..i], plane)
    }

    /** One pass of AssignEdges' loop: edge `i` is routed and the counts extend to it. */
    method RouteNextEdge(a: ConvexHull, b: ConvexHull, i: nat, pointAbovePlane: seq<bool>,
                         edgeIntersectsPlane: seq<bool>, edgeHits: seq<EdgeHit>,
                         ghost aPoints: seq<Point>, ghost bPoints: seq<Point>, ghost aEdges: seq<Edge>, ghost bEdges: seq<Edge>,
                         plane: Plane)
      returns (edgeIntersectsPlane': seq<bool>, edgeHits': seq<EdgeHit>)
      requires i < |edges|
      requires Routing(a, b, i, pointAbovePlane, edgeIntersectsPlane, edgeHits, aPoints, bPoints, aEdges, bEdges, plane)
      modifies a`points, a`edges, b`points, b`edges
      ensures Routing(a, b, i + 1, pointAbovePlane, edgeIntersectsPlane', edgeHits', aPoints, bPoints, aEdges, bEdges, plane)
    {
      var edge := edges[i];
      edgeIntersectsPlane', edgeHits' := RouteEdge(a, b, edge, pointAbovePlane, edgeIntersectsPlane, edgeHits, plane);
      EdgeCountStep(edges, i, plane);
      RoutedExtend(edges, i, edgeIntersectsPlane, edgeHits, old(a.edges), old(b.edges), edgeIntersectsPlane', edgeHits',
                   a.edges, b.edges, plane);
    }
  
    /**
     * The apex side of a cut triangle: the two cut points become vertices
     * (with the given blended attributes) and one triangle joins them to the
     * apex, whose vertex is `apexVertex`.
     */
    method AddTopTriangle(topEdge0: Edge, topEdge1: Edge, topCutEdge: Edge, apexVertex: int,
                          cutNormal0: Vec3, cutTangent0: Vec4, cutNormal1: Vec3, cutTangent1: Vec4)
      requires Valid()
      requires topEdge0 in edges && topEdge1 in edges && topCutEdge in edges
      requires topEdge0.point1 == topEdge1.point1
      requires Joins(topCutEdge, topEdge1.point0, topEdge0.point0)
      requires 0 <= apexVertex < |vertexPoints| && vertexPoints[apexVertex] == topEdge0.point1
      modifies this`vertices, this`normals, this`tangents, this`vertexPoints, this`triangles
      ensures Valid()
      ensures vertices == old(vertices) + [topEdge0.point0.position, topEdge1.point0.position]
      ensures normals == old(normals) + [cutNormal0, cutNormal1]
      ensures tangents == old(tangents) + [cutTangent0, cutTangent1]
      ensures vertexPoints == old(vertexPoints) + [topEdge0.point0, topEdge1.point0]
      ensures |triangles| == |old(triangles)| + 1 && old(triangles) <= triangles
      ensures var t := triangles[|triangles| - 1];
              fresh(t) && t.point0 == topEdge0.point0 && t.point1 == topEdge0.point1 && t.point2 == topEdge1.point0
      ensures forall t :: t in triangles && t !in old(triangles) ==> fresh(t)
    {
      var topCutVertex0, topCutVertex1 := AddCutVertices(topEdge0.point0, cutNormal0, cutTangent0,
                                                         topEdge1.point0, cutNormal1, cutTangent1);
      var topTriangle := AddNewTriangle(topCutVertex0, apexVertex, topCutVertex1,
                                        topEdge0.point0, topEdge0.point1, topEdge1.point0, topEdge0, topEdge1, topCutEdge);
    }

    /** The two AddVertex calls that give a cut triangle's cut points their vertices on one side. */
    method AddCutVertices(point0: Point, normal0: Vec3, tangent0: Vec4, point1: Point, normal1: Vec3, tangent1: Vec4)
      returns (vertex0: int, vertex1: int)
      requires Valid() && point0 in points && point1 in points
      modifies this`vertices, this`normals, this`tangents, this`vertexPoints
      ensures Valid()
      ensures vertices == old(vertices) + [point0.position, point1.position]
      ensures normals == old(normals) + [normal0, normal1]
      ensures tangents == old(tangents) + [tangent0, tangent1]
      ensures vertexPoints == old(vertexPoints) + [point0, point1]
      ensures vertex0 == |old(vertices)| && vertex1 == vertex0 + 1
    {
      vertex0 := AddVertex(point0.position, normal0, tangent0, point0);
      vertex1 := AddVertex(point1.position, normal1, tangent1, point1);
    }

    /**
     * The other side of a cut triangle: the two cut points become vertices
     * and the quadrilateral between them and the two uncut corners (vertices
     * `vertex0` and `vertex2`) is covered by two triangles sharing a new cross
     * edge.
     */
    method AddBottomTriangles(bottomEdge0: Edge, bottomEdge1: Edge, bottomCutEdge: Edge, bottomEdge2: Edge,
                              vertex0: int, vertex2: int,
                              cutNormal0: Vec3, cutTangent0: Vec4, cutNormal1: Vec3, cutTangent1: Vec4)
      requires Valid()
      requires bottomEdge0 in edges && bottomEdge1 in edges && bottomCutEdge in edges && bottomEdge2 in edges
      requires Joins(bottomCutEdge, bottomEdge0.point0, bottomEdge1.point0)
      requires Joins(bottomEdge2, bottomEdge1.point1, bottomEdge0.point1)
      requires 0 <= vertex0 < |vertexPoints| && vertexPoints[vertex0] == bottomEdge0.point1
      requires 0 <= vertex2 < |vertexPoints| && vertexPoints[vertex2] == bottomEdge1.point1
      modifies this`vertices, this`normals, this`tangents, this`vertexPoints, this`edges, this`triangles
      ensures Valid()
      ensures vertices == old(vertices) + [bottomEdge0.point0.position, bottomEdge1.point0.position]
      ensures normals == old(normals) + [cutNormal0, cutNormal1]
      ensures tangents == old(tangents) + [cutTangent0, cutTangent1]
      ensures vertexPoints == old(vertexPoints) + [bottomEdge0.point0, bottomEdge1.point0]
      ensures |edges| == |old(edges)| + 1 && old(edges) <= edges
      ensures fresh(edges[|edges| - 1]) && Joins(edges[|edges| - 1], bottomEdge0.point1, bottomEdge1.point0)
      ensures |triangles| == |old(triangles)| + 2 && old(triangles) <= triangles
      ensures var t0, t1 := triangles[|triangles| - 2], triangles[|triangles| - 1];
              && fresh(t0) && t0.point0 == bottomEdge0.point1 && t0.point1 == bottomEdge0.point0 && t0.point2 == bottomEdge1.point0
              && fresh(t1) && t1.point0 == bottomEdge0.point1 && t1.point1 == bottomEdge1.point0 && t1.point2 == bottomEdge1.point1
      ensures forall t :: t in triangles && t !in old(triangles) ==> fresh(t)
    {
      var bottomCutVertex0, bottomCutVertex1 := AddCutVertices(bottomEdge0.point0, cutNormal0, cutTangent0,
                                                               bottomEdge1.point0, cutNormal1, cutTangent1);

      AddCrossTriangles(bottomEdge0, bottomEdge1, bottomCutEdge, bottomEdge2,
                        vertex0, bottomCutVertex0, bottomCutVertex1, vertex2);
    }
  
    /**
     * Covers the quadrilateral with corners at slots `vertex0`, `cutVertex0`,
     * `cutVertex1`, `vertex2` by two triangles sharing a new cross edge from
     * the first corner to the second cut point.
     */
    method AddCrossTriangles(bottomEdge0: Edge, bottomEdge1: Edge, bottomCutEdge: Edge, bottomEdge2: Edge,
                             vertex0: int, cutVertex0: int, cutVertex1: int, vertex2: int)
      requires Valid()
      requires bottomEdge0 in edges && bottomEdge1 in edges && bottomCutEdge in edges && bottomEdge2 in edges
      requires Joins(bottomCutEdge, bottomEdge0.point0, bottomEdge1.point0)
      requires Joins(bottomEdge2, bottomEdge1.point1, bottomEdge0.point1)
      requires 0 <= vertex0 < |vertexPoints| && vertexPoints[vertex0] == bottomEdge0.point1
      requires 0 <= cutVertex0 < |vertexPoints| && vertexPoints[cutVertex0] == bottomEdge0.point0
      requires 0 <= cutVertex1 < |vertexPoints| && vertexPoints[cutVertex1] == bottomEdge1.point0
      requires 0 <= vertex2 < |vertexPoints| && vertexPoints[vertex2] == bottomEdge1.point1
      modifies this`edges, this`triangles
      ensures Valid()
      ensures |edges| == |old(edges)| + 1 && old(edges) <= edges
      ensures fresh(edges[|edges| - 1]) && Joins(edges[|edges| - 1], bottomEdge0.point1, bottomEdge1.point0)
      ensures |triangles| == |old(triangles)| + 2 && old(triangles) <= triangles
      ensures var t0, t1 := triangles[|triangles| - 2], triangles[|triangles| - 1];
              && fresh(t0) && t0.point0 == bottomEdge0.point1 && t0.point1 == bottomEdge0.point0 && t0.point2 == bottomEdge1.point0
              && fresh(t1) && t1.point0 == bottomEdge0.point1 && t1.point1 == bottomEdge1.point0 && t1.point2 == bottomEdge1.point1
    {
      var bottomCrossEdge := new Edge(bottomEdge0.point1, bottomEdge1.point0);
      AppendEdge(bottomCrossEdge);
      var bottomTriangle0 := AddNewTriangle(vertex0, cutVertex0, cutVertex1,
                                            bottomEdge0.point1, bottomEdge0.point0, bottomEdge1.point0,
                                            bottomEdge0, bottomCutEdge, bottomCrossEdge);
      var bottomTriangle1 := AddNewTriangle(vertex0, cutVertex1, vertex2,
                                            bottomEdge0.point1, bottomEdge1.point0, bottomEdge1.point1,
                                            bottomCrossEdge, bottomEdge1, bottomEdge2);
    }

    /** A new triangle over three slots of this hull, its points and its edges, appended to the list. */
    method AddNewTriangle(vertex0: int, vertex1: int, vertex2: int, point0: Point, point1: Point, point2: Point,
                          edge0: Edge, edge1: Edge, edge2: Edge) returns (t: Triangle)
      requires Valid()
      requires 0 <= vertex0 < |vertexPoints| && vertexPoints[vertex0] == point0
      requires 0 <= vertex1 < |vertexPoints| && vertexPoints[vertex1] == point1
      requires 0 <= vertex2 < |vertexPoints| && vertexPoints[vertex2] == point2
      requires edge0 in edges && edge1 in edges && edge2 in edges
      requires Joins(edge0, point0, point1) && Joins(edge1, point1, point2) && Joins(edge2, point2, point0)
      modifies this`triangles
      ensures Valid() && triangles == old(triangles) + [t] && fresh(t)
      ensures t.vertex0 == vertex0 && t.vertex1 == vertex1 && t.vertex2 == vertex2
      ensures t.point0 == point0 && t.point1 == point1 && t.point2 == point2
      ensures Indices() == old(Indices()) + [vertex0, vertex1, vertex2]
    {
      t := new Triangle(vertex0, vertex1, vertex2, point0, point1, point2, edge0, edge1, edge2);
      AppendTriangle(t);
    }

    /**
     * HullifyTriangle as the hulls' lists see it: both children's lists grow
     * at their ends, the new vertices sit at the cut points, and the new
     * triangles are new objects.
     */
    method BuildPieces(topHull: ConvexHull, bottomHull: ConvexHull,
                       topEdge0: Edge, topEdge1: Edge, topCutEdge: Edge,
                       bottomEdge0: Edge, bottomEdge1: Edge, bottomCutEdge: Edge, bottomEdge2: Edge,
                       vertex0: int, vertex1: int, vertex2: int, scalar0: real, scalar1: real,
                       oldToNewVertex: seq<int>)
      requires topHull != this && bottomHull != this && topHull != bottomHull
      requires topHull.Valid() && bottomHull.Valid()
      requires topEdge0 in topHull.edges && topEdge1 in topHull.edges && topCutEdge in topHull.edges
      requires topEdge0.point1 == topEdge1.point1 && Joins(topCutEdge, topEdge1.point0, topEdge0.point0)
      requires bottomEdge0 in bottomHull.edges && bottomEdge1 in bottomHull.edges
      requires bottomCutEdge in bottomHull.edges && bottomEdge2 in bottomHull.edges
      requires Joins(bottomCutEdge, bottomEdge0.point0, bottomEdge1.point0)
      requires Joins(bottomEdge2, bottomEdge1.point1, bottomEdge0.point1)
      requires 0 <= vertex0 < |oldToNewVertex| && 0 <= vertex1 < |oldToNewVertex| && 0 <= vertex2 < |oldToNewVertex|
      requires |normals| == |oldToNewVertex| && |tangents| == |oldToNewVertex|
      requires 0 <= oldToNewVertex[vertex1] < |topHull.vertexPoints|
      requires topHull.vertexPoints[oldToNewVertex[vertex1]] == topEdge0.point1
      requires 0 <= oldToNewVertex[vertex0] < |bottomHull.vertexPoints|
      requires bottomHull.vertexPoints[oldToNewVertex[vertex0]] == bottomEdge0.point1
      requires 0 <= oldToNewVertex[vertex2] < |bottomHull.vertexPoints|
      requires bottomHull.vertexPoints[oldToNewVertex[vertex2]] == bottomEdge1.point1
      modifies topHull`vertices, topHull`normals, topHull`tangents, topHull`vertexPoints, topHull`triangles
      modifies bottomHull`vertices, bottomHull`normals, bottomHull`tangents, bottomHull`vertexPoints
      modifies bottomHull`edges, bottomHull`triangles
      ensures topHull.Valid() && bottomHull.Valid()
      ensures Extends(old(topHull.Data()), topHull.Data()) && Extends(old(bottomHull.Data()), bottomHull.Data())
      ensures topHull.vertices == old(topHull.vertices) + [topEdge0.point0.position, topEdge1.point0.position]
      ensures bottomHull.vertices == old(bottomHull.vertices) + [bottomEdge0.point0.position, bottomEdge1.point0.position]
      ensures |topHull.triangles| == |old(topHull.triangles)| + 1 && old(topHull.triangles) <= topHull.triangles
      ensures |bottomHull.triangles| == |old(bottomHull.triangles)| + 2 && old(bottomHull.triangles) <= bottomHull.triangles
      ensures forall t :: t in topHull.triangles && t !in old(topHull.triangles) ==> fresh(t)
      ensures forall t :: t in bottomHull.triangles && t !in old(bottomHull.triangles) ==> fresh(t)
      ensures |bottomHull.edges| == |old(bottomHull.edges)| + 1 && old(bottomHull.edges) <= bottomHull.edges
    {
      HullifyTriangle(topHull, bottomHull, topEdge0, topEdge1, topCutEdge, bottomEdge0, bottomEdge1, bottomCutEdge, bottomEdge2,
                      vertex0, vertex1, vertex2, scalar0, scalar1, oldToNewVertex);
    }

    /**
     * Splits one cut triangle between the hull holding its apex (`topHull`)
     * and the hull holding its other two corners (`bottomHull`). The two cut
     * points become vertices in both hulls, with normals and tangents blended
     * from the parent's vertices `vertex0`, `vertex1` (apex) and `vertex2` at
     * the parameters `scalar0` and `scalar1`; the apex side gets one triangle,
     * the other side two and a new cross edge. `oldToNewVertex` gives the
     * child slots of the parent's corner vertices.
     */
    method HullifyTriangle(topHull: ConvexHull, bottomHull: ConvexHull,
                           topEdge0: Edge, topEdge1: Edge, topCutEdge: Edge,
                           bottomEdge0: Edge, bottomEdge1: Edge, bottomCutEdge: Edge, bottomEdge2: Edge,
                           vertex0: int, vertex1: int, vertex2: int, scalar0: real, scalar1: real,
                           oldToNewVertex: seq<int>)
      requires topHull != this && bottomHull != this && topHull != bottomHull
      requires topHull.Valid() && bottomHull.Valid()
      requires topEdge0 in topHull.edges && topEdge1 in topHull.edges && topCutEdge in topHull.edges
      requires topEdge0.point1 == topEdge1.point1 && Joins(topCutEdge, topEdge1.point0, topEdge0.point0)
      requires bottomEdge0 in bottomHull.edges && bottomEdge1 in bottomHull.edges
      requires bottomCutEdge in bottomHull.edges && bottomEdge2 in bottomHull.edges
      requires Joins(bottomCutEdge, bottomEdge0.point0, bottomEdge1.point0)
      requires Joins(bottomEdge2, bottomEdge1.point1, bottomEdge0.point1)
      requires 0 <= vertex0 < |oldToNewVertex| && 0 <= vertex1 < |oldToNewVertex| && 0 <= vertex2 < |oldToNewVertex|
      requires |normals| == |oldToNewVertex| && |tangents| == |oldToNewVertex|
      requires 0 <= oldToNewVertex[vertex1] < |topHull.vertexPoints|
      requires topHull.vertexPoints[oldToNewVertex[vertex1]] == topEdge0.point1
      requires 0 <= oldToNewVertex[vertex0] < |bottomHull.vertexPoints|
      requires bottomHull.vertexPoints[oldToNewVertex[vertex0]] == bottomEdge0.point1
      requires 0 <= oldToNewVertex[vertex2] < |bottomHull.vertexPoints|
      requires bottomHull.vertexPoints[oldToNewVertex[vertex2]] == bottomEdge1.point1
      modifies topHull`vertices, topHull`normals, topHull`tangents, topHull`vertexPoints, topHull`triangles
      modifies bottomHull`vertices, bottomHull`normals, bottomHull`tangents, bottomHull`vertexPoints
      modifies bottomHull`edges, bottomHull`triangles
      ensures topHull.Valid() && bottomHull.Valid()
      ensures var cutNormal0, cutNormal1 := Lerp(normals[vertex0], normals[vertex1], scalar0), Lerp(normals[vertex1], normals[vertex2], scalar1);
              && topHull.normals == old(topHull.normals) + [cutNormal0, cutNormal1]
              && bottomHull.normals == old(bottomHull.normals) + [cutNormal0, cutNormal1]
      ensures var cutTangent0, cutTangent1 := TangentBlend(tangents[vertex0], tangents[vertex1], scalar0), TangentBlend(tangents[vertex1], tangents[vertex2], scalar1);
              && topHull.tangents == old(topHull.tangents) + [cutTangent0, cutTangent1]
              && bottomHull.tangents == old(bottomHull.tangents) + [cutTangent0, cutTangent1]
      ensures topHull.vertices == old(topHull.vertices) + [topEdge0.point0.position, topEdge1.point0.position]
      ensures bottomHull.vertices == old(bottomHull.vertices) + [bottomEdge0.point0.position, bottomEdge1.point0.position]
      ensures topHull.vertexPoints == old(topHull.vertexPoints) + [topEdge0.point0, topEdge1.point0]
      ensures bottomHull.vertexPoints == old(bottomHull.vertexPoints) + [bottomEdge0.point0, bottomEdge1.point0]
      ensures |topHull.triangles| == |old(topHull.triangles)| + 1 && old(topHull.triangles) <= topHull.triangles
      ensures |bottomHull.triangles| == |old(bottomHull.triangles)| + 2 && old(bottomHull.triangles) <= bottomHull.triangles
      ensures forall t :: t in topHull.triangles && t !in old(topHull.triangles) ==> fresh(t)
      ensures forall t :: t in bottomHull.triangles && t !in old(bottomHull.triangles) ==> fresh(t)
      ensures |bottomHull.edges| == |old(bottomHull.edges)| + 1 && old(bottomHull.edges) <= bottomHull.edges
      ensures PiecesBuilt(topHull.triangles, bottomHull.triangles, bottomHull.edges, topEdge0, topEdge1, bottomEdge0, bottomEdge1)
    {
      var cutNormal0 := Lerp(normals[vertex0], normals[vertex1], scalar0);
      var cutNormal1 := Lerp(normals[vertex1], normals[vertex2], scalar1);
      var cutTangent0 := TangentBlend(tangents[vertex0], tangents[vertex1], scalar0);
      var cutTangent1 := TangentBlend(tangents[vertex1], tangents[vertex2], scalar1);
      AddCutPieces(topHull, bottomHull, topEdge0, topEdge1, topCutEdge, bottomEdge0, bottomEdge1, bottomCutEdge, bottomEdge2,
                   oldToNewVertex[vertex1], oldToNewVertex[vertex0], oldToNewVertex[vertex2],
                   cutNormal0, cutTangent0, cutNormal1, cutTangent1);
    }

    /**
     * The two sides of a cut triangle, given the attributes of its cut
     * points: the top triangle in `topHull` over the apex at slot `apex`, the
     * two bottom triangles in `bottomHull` over the corners at slots
     * `corner0` and `corner2`.
     */
    static method AddCutPieces(topHull: ConvexHull, bottomHull: ConvexHull,
                               topEdge0: Edge, topEdge1: Edge, topCutEdge: Edge,
                               bottomEdge0: Edge, bottomEdge1: Edge, bottomCutEdge: Edge, bottomEdge2: Edge,
                               apex: int, corner0: int, corner2: int,
                               cutNormal0: Vec3, cutTangent0: Vec4, cutNormal1: Vec3, cutTangent1: Vec4)
      requires topHull != bottomHull && topHull.Valid() && bottomHull.Valid()
      requires topEdge0 in topHull.edges && topEdge1 in topHull.edges && topCutEdge in topHull.edges
      requires topEdge0.point1 == topEdge1.point1 && Joins(topCutEdge, topEdge1.point0, topEdge0.point0)
      requires bottomEdge0 in bottomHull.edges && bottomEdge1 in bottomHull.edges
      requires bottomCutEdge in bottomHull.edges && bottomEdge2 in bottomHull.edges
      requires Joins(bottomCutEdge, bottomEdge0.point0, bottomEdge1.point0)
      requires Joins(bottomEdge2, bottomEdge1.point1, bottomEdge0.point1)
      requires 0 <= apex < |topHull.vertexPoints| && topHull.vertexPoints[apex] == topEdge0.point1
      requires 0 <= corner0 < |bottomHull.vertexPoints| && bottomHull.vertexPoints[corner0] == bottomEdge0.point1
      requires 0 <= corner2 < |bottomHull.vertexPoints| && bottomHull.vertexPoints[corner2] == bottomEdge1.point1
      modifies topHull`vertices, topHull`normals, topHull`tangents, topHull`vertexPoints, topHull`triangles
      modifies bottomHull`vertices, bottomHull`normals, bottomHull`tangents, bottomHull`vertexPoints
      modifies bottomHull`edges, bottomHull`triangles
      ensures topHull.Valid() && bottomHull.Valid()
      ensures topHull.normals == old(topHull.normals) + [cutNormal0, cutNormal1]
      ensures bottomHull.normals == old(bottomHull.normals) + [cutNormal0, cutNormal1]
      ensures topHull.tangents == old(topHull.tangents) + [cutTangent0, cutTangent1]
      ensures bottomHull.tangents == old(bottomHull.tangents) + [cutTangent0, cutTangent1]
      ensures topHull.vertices == old(topHull.vertices) + [topEdge0.point0.position, topEdge1.point0.position]
      ensures bottomHull.vertices == old(bottomHull.vertices) + [bottomEdge0.point0.position, bottomEdge1.point0.position]
      ensures topHull.vertexPoints == old(topHull.vertexPoints) + [topEdge0.point0, topEdge1.point0]
      ensures bottomHull.vertexPoints == old(bottomHull.vertexPoints) + [bottomEdge0.point0, bottomEdge1.point0]
      ensures |topHull.triangles| == |old(topHull.triangles)| + 1 && old(topHull.triangles) <= topHull.triangles
      ensures |bottomHull.triangles| == |old(bottomHull.triangles)| + 2 && old(bottomHull.triangles) <= bottomHull.triangles
      ensures forall t :: t in topHull.triangles && t !in old(topHull.triangles) ==> fresh(t)
      ensures forall t :: t in bottomHull.triangles && t !in old(bottomHull.triangles) ==> fresh(t)
      ensures |bottomHull.edges| == |old(bottomHull.edges)| + 1 && old(bottomHull.edges) <= bottomHull.edges
      ensures PiecesBuilt(topHull.triangles, bottomHull.triangles, bottomHull.edges, topEdge0, topEdge1, bottomEdge0, bottomEdge1)
    {
      bottomHull.AddBottomTriangles(bottomEdge0, bottomEdge1, bottomCutEdge, bottomEdge2, corner0, corner2,
                                    cutNormal0, cutTangent0, cutNormal1, cutTangent1);
      topHull.AddTopTriangle(topEdge0, topEdge1, topCutEdge, apex, cutNormal0, cutTangent0, cutNormal1, cutTangent1);
    }

    /**
     * What the triangle pass knows about the corners and edges of one parent
     * triangle once points, vertices and edges have been distributed: each
     * corner's side, each corner vertex's slot in the child of its side, and
     * each edge's routing record.
     */
    ghost predicate TriangleRouted(t: Triangle, a: ConvexHull, b: ConvexHull, pointAbovePlane: seq<bool>,
                                   edgeIntersectsPlane: seq<bool>, edgeHits: seq<EdgeHit>, oldToNewVertex: seq<int>,
                                   plane: Plane)
      reads this`vertices, this`normals, this`tangents, this`vertexPoints, t, t.point0, t.point1, t.point2
      reads a`vertices, a`normals, a`tangents, a`vertexPoints, b`vertices, b`normals, b`tangents, b`vertexPoints
      reads a`edges, b`edges, t.edge0, t.edge1, t.edge2
    {
      && 0 <= t.point0.index < |pointAbovePlane| && pointAbovePlane[t.point0.index] == PointAbove(t.point0, plane)
      && 0 <= t.point1.index < |pointAbovePlane| && pointAbovePlane[t.point1.index] == PointAbove(t.point1, plane)
      && 0 <= t.point2.index < |pointAbovePlane| && pointAbovePlane[t.point2.index] == PointAbove(t.point2, plane)
      && Parallel(Data()) && |oldToNewVertex| == |vertices|
      && 0 <= t.vertex0 < |vertices| && 0 <= t.vertex1 < |vertices| && 0 <= t.vertex2 < |vertices|
      && SlotHolds(if PointAbove(vertexPoints[t.vertex0], plane) then a.Data() else b.Data(), oldToNewVertex[t.vertex0], Data(), t.vertex0)
      && SlotHolds(if PointAbove(vertexPoints[t.vertex1], plane) then a.Data() else b.Data(), oldToNewVertex[t.vertex1], Data(), t.vertex1)
      && SlotHolds(if PointAbove(vertexPoints[t.vertex2], plane) then a.Data() else b.Data(), oldToNewVertex[t.vertex2], Data(), t.vertex2)
      && EdgeRouted(t.edge0, edgeIntersectsPlane, edgeHits, a.edges, b.edges, plane)
      && EdgeRouted(t.edge1, edgeIntersectsPlane, edgeHits, a.edges, b.edges, plane)
      && EdgeRouted(t.edge2, edgeIntersectsPlane, edgeHits, a.edges, b.edges, plane)
    }

    /**
     * A cut triangle turned to its apex `top`: the hits on its edges 0 and 1
     * end at the apex on the apex's side and at the corners `bottom0` and
     * `bottom2` on the other side, edge 2 joins those corners and is kept
     * whole on their side, and the corner vertices `vertex1` (the apex's),
     * `vertex0` and `vertex2` have their slots in the child of their side.
     */
    ghost predicate ApexTurned(a: ConvexHull, b: ConvexHull, edgeHit0: EdgeHit, edgeHit1: EdgeHit, edge2: Edge,
                               vertex0: int, vertex1: int, vertex2: int, oldToNewVertex: seq<int>,
                               top: Point, bottom0: Point, bottom2: Point, plane: Plane)
      reads this`normals, this`tangents, a`edges, a`vertexPoints, b`edges, b`vertexPoints
    {
      var above := PointAbove(top, plane);
      var topHull, bottomHull := if above then a else b, if above then b else a;
      && HitPair(edgeHit0, a.edges, b.edges, plane) && HitPair(edgeHit1, a.edges, b.edges, plane)
      && edgeHit0.splitA.point1 == (if above then top else bottom0) && edgeHit0.splitB.point1 == (if above then bottom0 else top)
      && edgeHit1.splitA.point1 == (if above then top else bottom2) && edgeHit1.splitB.point1 == (if above then bottom2 else top)
      && Joins(edge2, bottom2, bottom0) && edge2 in bottomHull.edges
      && 0 <= vertex0 < |oldToNewVertex| && 0 <= vertex1 < |oldToNewVertex| && 0 <= vertex2 < |oldToNewVertex|
      && |normals| == |oldToNewVertex| && |tangents| == |oldToNewVertex|
      && 0 <= oldToNewVertex[vertex1] < |topHull.vertexPoints| && topHull.vertexPoints[oldToNewVertex[vertex1]] == top
      && 0 <= oldToNewVertex[vertex0] < |bottomHull.vertexPoints| && bottomHull.vertexPoints[oldToNewVertex[vertex0]] == bottom0
      && 0 <= oldToNewVertex[vertex2] < |bottomHull.vertexPoints| && bottomHull.vertexPoints[oldToNewVertex[vertex2]] == bottom2
    }

    /**
     * Turns a cut triangle so that it starts at the edge into its apex: the
     * first of the three rotations whose edges 0 and 1 are both flagged as
     * crossing, or the third when neither of the first two is. `top` is the
     * corner between edges 0 and 1, `bottom0` and `bottom2` the corners at
     * `vertex0` and `vertex2`.
     */
    static function TurnToApex(triangle: Triangle, edgeIntersectsPlane: seq<bool>): (r: Turn)
      reads triangle, triangle.edge0, triangle.edge1, triangle.edge2
      requires 0 <= triangle.edge0.index < |edgeIntersectsPlane| && 0 <= triangle.edge1.index < |edgeIntersectsPlane|
      requires 0 <= triangle.edge2.index < |edgeIntersectsPlane|
      ensures Turned(triangle, r.top, r.edge0, r.edge1, r.edge2, r.vertex0, r.vertex1, r.vertex2, r.bottom0, r.bottom2)
      ensures TwoFlagged(triangle, edgeIntersectsPlane) ==>
                edgeIntersectsPlane[r.edge0.index] && edgeIntersectsPlane[r.edge1.index] && !edgeIntersectsPlane[r.edge2.index]
    {
      if edgeIntersectsPlane[triangle.edge0.index] && edgeIntersectsPlane[triangle.edge1.index] then
        Turn(triangle.point1, triangle.edge0, triangle.edge1, triangle.edge2,
             triangle.vertex0, triangle.vertex1, triangle.vertex2, triangle.point0, triangle.point2)
      else if edgeIntersectsPlane[triangle.edge1.index] && edgeIntersectsPlane[triangle.edge2.index] then
        Turn(triangle.point2, triangle.edge1, triangle.edge2, triangle.edge0,
             triangle.vertex1, triangle.vertex2, triangle.vertex0, triangle.point1, triangle.point0)
      else
        Turn(triangle.point0, triangle.edge2, triangle.edge0, triangle.edge1,
             triangle.vertex2, triangle.vertex0, triangle.vertex1, triangle.point2, triangle.point1)
    }

    /**
     * For a placed cut triangle whose corners, vertices and edges are
     * routed, TurnToApex finds the corner alone on its side: the hits on
     * edges 0 and 1 end at it on its side and at the other corners on the
     * other side, edge 2 is kept whole on the other side, and every corner
     * vertex has its slot in the child of its side.
     */
    lemma TurnedToApex(triangle: Triangle, a: ConvexHull, b: ConvexHull, pointAbovePlane: seq<bool>,
                       edgeIntersectsPlane: seq<bool>, edgeHits: seq<EdgeHit>, oldToNewVertex: seq<int>, plane: Plane)
      requires Placed(triangle) && IsMixed(triangle, plane)
      requires TriangleRouted(triangle, a, b, pointAbovePlane, edgeIntersectsPlane, edgeHits, oldToNewVertex, plane)
      ensures 0 <= triangle.edge0.index < |edgeIntersectsPlane| && 0 <= triangle.edge1.index < |edgeIntersectsPlane|
      ensures 0 <= triangle.edge2.index < |edgeIntersectsPlane|
      ensures var r := TurnToApex(triangle, edgeIntersectsPlane);
              && 0 <= r.top.index < |pointAbovePlane| && pointAbovePlane[r.top.index] == PointAbove(r.top, plane)
              && AboveCount(triangle, plane) == (if PointAbove(r.top, plane) then 1 else 2)
              && 0 <= r.edge0.index < |edgeHits| && 0 <= r.edge1.index < |edgeHits|
              && ApexTurned(a, b, edgeHits[r.edge0.index], edgeHits[r.edge1.index], r.edge2, r.vertex0, r.vertex1, r.vertex2,
                            oldToNewVertex, r.top, r.bottom0, r.bottom2, plane)
    {
      assert EdgeRouted(triangle.edge0, edgeIntersectsPlane, edgeHits, a.edges, b.edges, plane);
      assert EdgeRouted(triangle.edge1, edgeIntersectsPlane, edgeHits, a.edges, b.edges, plane);
      assert EdgeRouted(triangle.edge2, edgeIntersectsPlane, edgeHits, a.edges, b.edges, plane);
      var r := TurnToApex(triangle, edgeIntersectsPlane);
      ApexHits(triangle, r.top, r.edge0, r.edge1, r.edge2, r.vertex0, r.vertex1, r.vertex2, r.bottom0, r.bottom2,
               edgeIntersectsPlane, edgeHits, a.edges, b.edges, plane);
    }

    /**
     * Joins the two cut points of a cut triangle by a new edge in each child
     * and builds the pieces. `topSplit0`/`topSplit1` are the halves of the
     * two crossing edges on the apex side, `bottomSplit0`/`bottomSplit1` those
     * on the other side; each cut edge runs from the second cut point to the
     * first when `reversed` holds, from the first to the second otherwise.
     */
    method CutTriangle(topHull: ConvexHull, bottomHull: ConvexHull,
                       topSplit0: Edge, topSplit1: Edge, bottomSplit0: Edge, bottomSplit1: Edge, edge2: Edge,
                       vertex0: int, vertex1: int, vertex2: int, scalar0: real, scalar1: real,
                       oldToNewVertex: seq<int>, reversed: bool, ghost plane: Plane)
      returns (topCutEdge: Edge, bottomCutEdge: Edge)
      requires topHull != this && bottomHull != this && topHull != bottomHull
      requires topHull.Valid() && bottomHull.Valid()
      requires topSplit0 in topHull.edges && topSplit1 in topHull.edges && topSplit0.point1 == topSplit1.point1
      requires topSplit0.point0.position == bottomSplit0.point0.position && Height(topSplit0.point0.position, plane) == 0.0
      requires topSplit1.point0.position == bottomSplit1.point0.position && Height(topSplit1.point0.position, plane) == 0.0
      requires bottomSplit0 in bottomHull.edges && bottomSplit1 in bottomHull.edges && edge2 in bottomHull.edges
      requires Joins(edge2, bottomSplit1.point1, bottomSplit0.point1)
      requires 0 <= vertex0 < |oldToNewVertex| && 0 <= vertex1 < |oldToNewVertex| && 0 <= vertex2 < |oldToNewVertex|
      requires |normals| == |oldToNewVertex| && |tangents| == |oldToNewVertex|
      requires 0 <= oldToNewVertex[vertex1] < |topHull.vertexPoints|
      requires topHull.vertexPoints[oldToNewVertex[vertex1]] == topSplit0.point1
      requires 0 <= oldToNewVertex[vertex0] < |bottomHull.vertexPoints|
      requires bottomHull.vertexPoints[oldToNewVertex[vertex0]] == bottomSplit0.point1
      requires 0 <= oldToNewVertex[vertex2] < |bottomHull.vertexPoints|
      requires bottomHull.vertexPoints[oldToNewVertex[vertex2]] == bottomSplit1.point1
      modifies topHull`vertices, topHull`normals, topHull`tangents, topHull`vertexPoints, topHull`edges, topHull`triangles
      modifies bottomHull`vertices, bottomHull`normals, bottomHull`tangents, bottomHull`vertexPoints
      modifies bottomHull`edges, bottomHull`triangles
      ensures topHull.Valid() && bottomHull.Valid()
      ensures topCutEdge in topHull.edges && bottomCutEdge in bottomHull.edges
      ensures topCutEdge.point0 == (if reversed then topSplit1.point0 else topSplit0.point0)
      ensures topCutEdge.point1 == (if reversed then topSplit0.point0 else topSplit1.point0)
      ensures bottomCutEdge.point0 == (if reversed then bottomSplit1.point0 else bottomSplit0.point0)
      ensures bottomCutEdge.point1 == (if reversed then bottomSplit0.point0 else bottomSplit1.point0)
      ensures Twin(topCutEdge, bottomCutEdge) && OnPlane(topCutEdge, plane) && OnPlane(bottomCutEdge, plane)
      ensures Grown(old(topHull.Data()), topHull.Data(), old(topHull.edges), topHull.edges,
                    old(topHull.triangles), topHull.triangles, 1, plane)
      ensures Grown(old(bottomHull.Data()), bottomHull.Data(), old(bottomHull.edges), bottomHull.edges,
                    old(bottomHull.triangles), bottomHull.triangles, 2, plane)
      ensures forall t :: t in topHull.triangles && t !in old(topHull.triangles) ==> fresh(t)
      ensures forall t :: t in bottomHull.triangles && t !in old(bottomHull.triangles) ==> fresh(t)
    {
      topCutEdge, bottomCutEdge := AddCutEdges(topHull, bottomHull, topSplit0, topSplit1, bottomSplit0, bottomSplit1, reversed);
      BuildPieces(topHull, bottomHull, topSplit0, topSplit1, topCutEdge, bottomSplit0, bottomSplit1, bottomCutEdge,
                  edge2, vertex0, vertex1, vertex2, scalar0, scalar1, oldToNewVertex);
    }

    /** The cut edges of one cut triangle, one in each child, between the starting points of the halves. */
    static method AddCutEdges(topHull: ConvexHull, bottomHull: ConvexHull,
                              topSplit0: Edge, topSplit1: Edge, bottomSplit0: Edge, bottomSplit1: Edge, reversed: bool)
      returns (topCutEdge: Edge, bottomCutEdge: Edge)
      requires topHull != bottomHull && topHull.Valid() && bottomHull.Valid()
      requires topSplit0 in topHull.edges && topSplit1 in topHull.edges
      requires bottomSplit0 in bottomHull.edges && bottomSplit1 in bottomHull.edges
      modifies topHull`edges, bottomHull`edges
      ensures topHull.Valid() && topHull.edges == old(topHull.edges) + [topCutEdge]
      ensures bottomHull.Valid() && bottomHull.edges == old(bottomHull.edges) + [bottomCutEdge]
      ensures topCutEdge.point0 == (if reversed then topSplit1.point0 else topSplit0.point0)
      ensures topCutEdge.point1 == (if reversed then topSplit0.point0 else topSplit1.point0)
      ensures bottomCutEdge.point0 == (if reversed then bottomSplit1.point0 else bottomSplit0.point0)
      ensures bottomCutEdge.point1 == (if reversed then bottomSplit0.point0 else bottomSplit1.point0)
    {
      topCutEdge := topHull.AddCutEdge(topSplit0, topSplit1, reversed);
      bottomCutEdge := bottomHull.AddCutEdge(bottomSplit0, bottomSplit1, reversed);
    }

    /**
     * The branch on the apex's side: when the apex is above, A gets the top
     * triangle and the cut edges run from the second cut point to the first;
     * otherwise B gets it and they run from the first to the second.
     */
    method CutAtApex(a: ConvexHull, b: ConvexHull, edgeHit0: EdgeHit, edgeHit1: EdgeHit, edge2: Edge,
                     vertex0: int, vertex1: int, vertex2: int, scalar0: real, scalar1: real,
                     oldToNewVertex: seq<int>, topAbove: bool,
                     ghost top: Point, ghost bottom0: Point, ghost bottom2: Point, ghost plane: Plane)
      returns (cutEdgeA: Edge, cutEdgeB: Edge)
      requires a != this && b != this && a != b && a.Valid() && b.Valid()
      requires topAbove == PointAbove(top, plane)
      requires ApexTurned(a, b, edgeHit0, edgeHit1, edge2, vertex0, vertex1, vertex2, oldToNewVertex, top, bottom0, bottom2, plane)
      modifies a`vertices, a`normals, a`tangents, a`vertexPoints, a`edges, a`triangles
      modifies b`vertices, b`normals, b`tangents, b`vertexPoints, b`edges, b`triangles
      ensures a.Valid() && b.Valid()
      ensures Twin(cutEdgeA, cutEdgeB) && OnPlane(cutEdgeA, plane) && OnPlane(cutEdgeB, plane)
      ensures cutEdgeA in a.edges && cutEdgeB in b.edges
      ensures Grown(old(a.Data()), a.Data(), old(a.edges), a.edges, old(a.triangles), a.triangles,
                    if topAbove then 1 else 2, plane)
      ensures Grown(old(b.Data()), b.Data(), old(b.edges), b.edges, old(b.triangles), b.triangles,
                    if topAbove then 2 else 1, plane)
      ensures forall t :: t in a.triangles && t !in old(a.triangles) ==> fresh(t)
      ensures forall t :: t in b.triangles && t !in old(b.triangles) ==> fresh(t)
    {
      if topAbove {
        cutEdgeA, cutEdgeB := CutTriangle(a, b, edgeHit0.splitA, edgeHit1.splitA, edgeHit0.splitB, edgeHit1.splitB, edge2,
                                          vertex0, vertex1, vertex2, scalar0, scalar1, oldToNewVertex, true, plane);
      } else {
        cutEdgeB, cutEdgeA := CutTriangle(b, a, edgeHit0.splitB, edgeHit1.splitB, edgeHit0.splitA, edgeHit1.splitA, edge2,
                                          vertex0, vertex1, vertex2, scalar0, scalar1, oldToNewVertex, false, plane);
      }
    }

    /**
     * Splits a triangle whose corners the plane separates. The triangle is
     * turned so that its edges 0 and 1 are the two that cross and meet at the
     * lone corner (the apex); the hits on those edges give the cut points,
     * which are joined by a new cut edge in each child, and the apex side
     * gets one triangle, the other side two. Returns the cut edges, A's and B's.
     */
    method AssignMixedTriangle(a: ConvexHull, b: ConvexHull, triangle: Triangle, pointAbovePlane: seq<bool>,
                               edgeIntersectsPlane: seq<bool>, edgeHits: seq<EdgeHit>, oldToNewVertex: seq<int>,
                               plane: Plane)
      returns (cutEdgeA: Edge, cutEdgeB: Edge)
      requires a != this && b != this && a != b && a.Valid() && b.Valid()
      requires |normals| == |vertices| && |tangents| == |vertices| && |vertexPoints| == |vertices|
      requires Placed(triangle) && IsMixed(triangle, plane)
      requires TriangleRouted(triangle, a, b, pointAbovePlane, edgeIntersectsPlane, edgeHits, oldToNewVertex, plane)
      modifies a`vertices, a`normals, a`tangents, a`vertexPoints, a`edges, a`triangles
      modifies b`vertices, b`normals, b`tangents, b`vertexPoints, b`edges, b`triangles
      ensures a.Valid() && b.Valid()
      ensures Twin(cutEdgeA, cutEdgeB) && OnPlane(cutEdgeA, plane) && OnPlane(cutEdgeB, plane)
      ensures cutEdgeA in a.edges && cutEdgeB in b.edges
      ensures Grown(old(a.Data()), a.Data(), old(a.edges), a.edges, old(a.triangles), a.triangles,
                    ShareA(triangle, plane), plane)
      ensures Grown(old(b.Data()), b.Data(), old(b.edges), b.edges, old(b.triangles), b.triangles,
                    ShareB(triangle, plane), plane)
      ensures forall t :: t in a.triangles && t !in old(a.triangles) ==> fresh(t)
      ensures forall t :: t in b.triangles && t !in old(b.triangles) ==> fresh(t)
    {
      TurnedToApex(triangle, a, b, pointAbovePlane, edgeIntersectsPlane, edgeHits, oldToNewVertex, plane);
      var turn := TurnToApex(triangle, edgeIntersectsPlane);
      var top, edge0, edge1, edge2, vertex0, vertex1, vertex2 :=
        turn.top, turn.edge0, turn.edge1, turn.edge2, turn.vertex0, turn.vertex1, turn.vertex2;
      var edgeHit0 := edgeHits[edge0.index];
      var edgeHit1 := edgeHits[edge1.index];
      var scalar0 := if top == edge0.point1 then edgeHit0.scalar else 1.0 - edgeHit0.scalar;
      var scalar1 := if top == edge1.point0 then edgeHit1.scalar else 1.0 - edgeHit1.scalar;
      var topAbove := pointAbovePlane[top.index];
      assert ShareA(triangle, plane) == (if topAbove then 1 else 2) && ShareB(triangle, plane) == (if topAbove then 2 else 1);
      cutEdgeA, cutEdgeB := CutAtApex(a, b, edgeHit0, edgeHit1, edge2, vertex0, vertex1, vertex2, scalar0, scalar1,
                                      oldToNewVertex, topAbove, top, turn.bottom0, turn.bottom2, plane);
    }

    /**
     * Takes a parent triangle that lies wholly on this hull's side: its vertex
     * slots are renumbered through `oldToNewVertex` and the same triangle
     * object is appended to this hull.
     */
    method TakeTriangle(triangle: Triangle, oldToNewVertex: seq<int>)
      requires Valid() && triangle !in triangles && Wound(triangle)
      requires triangle.edge0 in edges && triangle.edge1 in edges && triangle.edge2 in edges
      requires 0 <= triangle.vertex0 < |oldToNewVertex| && 0 <= triangle.vertex1 < |oldToNewVertex| && 0 <= triangle.vertex2 < |oldToNewVertex|
      requires 0 <= oldToNewVertex[triangle.vertex0] < |vertexPoints| && vertexPoints[oldToNewVertex[triangle.vertex0]] == triangle.point0
      requires 0 <= oldToNewVertex[triangle.vertex1] < |vertexPoints| && vertexPoints[oldToNewVertex[triangle.vertex1]] == triangle.point1
      requires 0 <= oldToNewVertex[triangle.vertex2] < |vertexPoints| && vertexPoints[oldToNewVertex[triangle.vertex2]] == triangle.point2
      modifies triangle`vertex0, triangle`vertex1, triangle`vertex2, this`triangles
      ensures Valid() && triangles == old(triangles) + [triangle]
      ensures triangle.vertex0 == oldToNewVertex[old(triangle.vertex0)]
      ensures triangle.vertex1 == oldToNewVertex[old(triangle.vertex1)]
      ensures triangle.vertex2 == oldToNewVertex[old(triangle.vertex2)]
    {
      triangle.vertex0 := oldToNewVertex[triangle.vertex0];
      triangle.vertex1 := oldToNewVertex[triangle.vertex1];
      triangle.vertex2 := oldToNewVertex[triangle.vertex2];
      AppendTriangle(triangle);
    }

    /**
     * Hands one parent triangle to the children: wholly above, it moves to A;
     * wholly below, to B; otherwise it is cut, and the two new cut edges are
     * appended to `cutEdgesA` and `cutEdgesB`.
     */
    method AssignTriangle(a: ConvexHull, b: ConvexHull, triangle: Triangle, pointAbovePlane: seq<bool>,
                          edgeIntersectsPlane: seq<bool>, edgeHits: seq<EdgeHit>, oldToNewVertex: seq<int>,
                          cutEdgesA: seq<Edge>, cutEdgesB: seq<Edge>, plane: Plane)
      returns (cutEdgesA': seq<Edge>, cutEdgesB': seq<Edge>)
      requires a != this && b != this && a != b && a.Valid() && b.Valid()
      requires |normals| == |vertices| && |tangents| == |vertices| && |vertexPoints| == |vertices|
      requires Placed(triangle) && triangle !in a.triangles && triangle !in b.triangles
      requires TriangleRouted(triangle, a, b, pointAbovePlane, edgeIntersectsPlane, edgeHits, oldToNewVertex, plane)
      requires |cutEdgesA| == |cutEdgesB|
      modifies a`vertices, a`normals, a`tangents, a`vertexPoints, a`edges, a`triangles
      modifies b`vertices, b`normals, b`tangents, b`vertexPoints, b`edges, b`triangles
      modifies triangle`vertex0, triangle`vertex1, triangle`vertex2
      ensures a.Valid() && b.Valid()
      ensures Grown(old(a.Data()), a.Data(), old(a.edges), a.edges, old(a.triangles), a.triangles,
                    ShareA(triangle, plane), plane)
      ensures Grown(old(b.Data()), b.Data(), old(b.edges), b.edges, old(b.triangles), b.triangles,
                    ShareB(triangle, plane), plane)
      ensures HandedOver(triangle, triangles, old(a.triangles), old(b.triangles), a.triangles, b.triangles,
                         cutEdgesA, cutEdgesB, cutEdgesA', cutEdgesB', a.edges, b.edges, plane)
    {
      var abovePlane0 := pointAbovePlane[triangle.point0.index];
      var abovePlane1 := pointAbovePlane[triangle.point1.index];
      var abovePlane2 := pointAbovePlane[triangle.point2.index];
      if (abovePlane0 && abovePlane1 && abovePlane2) || (!abovePlane0 && !abovePlane1 && !abovePlane2) {
        HandUncut(a, b, triangle, abovePlane0, pointAbovePlane, edgeIntersectsPlane, edgeHits, oldToNewVertex,
                  cutEdgesA, cutEdgesB, plane);
        cutEdgesA', cutEdgesB' := cutEdgesA, cutEdgesB;
      } else {
        var cutEdgeA, cutEdgeB := AssignMixedTriangle(a, b, triangle, pointAbovePlane, edgeIntersectsPlane, edgeHits,
                                                      oldToNewVertex, plane);
        cutEdgesA', cutEdgesB' := cutEdgesA + [cutEdgeA], cutEdgesB + [cutEdgeB];
      }
    }

    /**
     * Hands a triangle whose corners all lie on one side (above when `above`)
     * to the child of that side, A or B; the other child is left unchanged.
     */
    method HandUncut(a: ConvexHull, b: ConvexHull, triangle: Triangle, above: bool,
                     ghost pointAbovePlane: seq<bool>, ghost edgeIntersectsPlane: seq<bool>,
                     ghost edgeHits: seq<EdgeHit>, oldToNewVertex: seq<int>,
                     ghost cutEdgesA: seq<Edge>, ghost cutEdgesB: seq<Edge>, ghost plane: Plane)
      requires a != this && b != this && a != b && a.Valid() && b.Valid()
      requires Placed(triangle) && triangle !in a.triangles && triangle !in b.triangles
      requires TriangleRouted(triangle, a, b, pointAbovePlane, edgeIntersectsPlane, edgeHits, oldToNewVertex, plane)
      requires AboveCount(triangle, plane) == if above then 3 else 0
      requires |cutEdgesA| == |cutEdgesB|
      modifies a`triangles, b`triangles, triangle`vertex0, triangle`vertex1, triangle`vertex2
      ensures a.Valid() && b.Valid()
      ensures Grown(old(a.Data()), a.Data(), old(a.edges), a.edges, old(a.triangles), a.triangles,
                    ShareA(triangle, plane), plane)
      ensures Grown(old(b.Data()), b.Data(), old(b.edges), b.edges, old(b.triangles), b.triangles,
                    ShareB(triangle, plane), plane)
      ensures HandedOver(triangle, triangles, old(a.triangles), old(b.triangles), a.triangles, b.triangles,
                         cutEdgesA, cutEdgesB, cutEdgesA, cutEdgesB, a.edges, b.edges, plane)
    {
      if above {
        a.TakeTriangle(triangle, oldToNewVertex);
      } else {
        b.TakeTriangle(triangle, oldToNewVertex);
      }
    }

    /**
     * AssignTriangle for parent triangle `i`, read off the distribution
     * records: the corners' sides, the corner vertices' slots and the edges'
     * routing. The side table, the vertex map and the remaining parent
     * triangles stay as they were.
     */
    method HandTriangle(a: ConvexHull, b: ConvexHull, i: nat, triangle: Triangle, pointAbovePlane: seq<bool>,
                        edgeIntersectsPlane: seq<bool>, edgeHits: seq<EdgeHit>, oldToNewVertex: seq<int>,
                        cutEdgesA: seq<Edge>, cutEdgesB: seq<Edge>, plane: Plane)
      returns (cutEdgesA': seq<Edge>, cutEdgesB': seq<Edge>)
      requires i < |triangles| && triangle == triangles[i] && a != this && b != this && a != b && a.Valid() && b.Valid() && Listed()
      requires Classified(pointAbovePlane, plane)
      requires |oldToNewVertex| == |vertices| && VertexMapped(oldToNewVertex, Data(), a.Data(), b.Data(), plane)
      requires EdgesRouted(edges, edgeIntersectsPlane, edgeHits, a.edges, b.edges, plane)
      requires forall k :: i <= k < |triangles| ==> Placed(triangles[k])
      requires triangle !in a.triangles && triangle !in b.triangles
      requires |cutEdgesA| == |cutEdgesB|
      modifies a`vertices, a`normals, a`tangents, a`vertexPoints, a`edges, a`triangles
      modifies b`vertices, b`normals, b`tangents, b`vertexPoints, b`edges, b`triangles
      modifies triangle`vertex0, triangle`vertex1, triangle`vertex2
      ensures a.Valid() && b.Valid() && Listed() && Classified(pointAbovePlane, plane)
      ensures VertexMapped(oldToNewVertex, Data(), a.Data(), b.Data(), plane)
      ensures forall k :: i < k < |triangles| ==> Placed(triangles[k])
      ensures Grown(old(a.Data()), a.Data(), old(a.edges), a.edges, old(a.triangles), a.triangles,
                    ShareA(triangle, plane), plane)
      ensures Grown(old(b.Data()), b.Data(), old(b.edges), b.edges, old(b.triangles), b.triangles,
                    ShareB(triangle, plane), plane)
      ensures HandedOver(triangle, triangles, old(a.triangles), old(b.triangles), a.triangles, b.triangles,
                         cutEdgesA, cutEdgesB, cutEdgesA', cutEdgesB', a.edges, b.edges, plane)
    {
      RoutedTriangle(triangle, a, b, pointAbovePlane, edgeIntersectsPlane, edgeHits, oldToNewVertex, plane);
      cutEdgesA', cutEdgesB' := AssignTriangle(a, b, triangle, pointAbovePlane, edgeIntersectsPlane, edgeHits, oldToNewVertex,
                                               cutEdgesA, cutEdgesB, plane);
      MappedGrow(oldToNewVertex, Data(), old(a.Data()), old(b.Data()), a.Data(), b.Data(), plane);
    }

    /**
     * HandTriangle, with the edges' routing records carried over to the
     * grown edge lists of the children.
     */
    method PassTriangle(a: ConvexHull, b: ConvexHull, i: nat, triangle: Triangle, pointAbovePlane: seq<bool>,
                        edgeIntersectsPlane: seq<bool>, edgeHits: seq<EdgeHit>, oldToNewVertex: seq<int>,
                        cutEdgesA: seq<Edge>, cutEdgesB: seq<Edge>, plane: Plane)
      returns (cutEdgesA': seq<Edge>, cutEdgesB': seq<Edge>)
      requires i < |triangles| && triangle == triangles[i] && a != this && b != this && a != b && a.Valid() && b.Valid() && Listed()
      requires Classified(pointAbovePlane, plane)
      requires |oldToNewVertex| == |vertices| && VertexMapped(oldToNewVertex, Data(), a.Data(), b.Data(), plane)
      requires EdgesRouted(edges, edgeIntersectsPlane, edgeHits, a.edges, b.edges, plane)
      requires forall k :: i <= k < |triangles| ==> Placed(triangles[k])
      requires triangle !in a.triangles && triangle !in b.triangles
      requires |cutEdgesA| == |cutEdgesB|
      modifies a`vertices, a`normals, a`tangents, a`vertexPoints, a`edges, a`triangles
      modifies b`vertices, b`normals, b`tangents, b`vertexPoints, b`edges, b`triangles
      modifies triangle`vertex0, triangle`vertex1, triangle`vertex2
      ensures a.Valid() && b.Valid() && Listed() && Classified(pointAbovePlane, plane)
      ensures a.points == old(a.points) && b.points == old(b.points)
      ensures VertexMapped(oldToNewVertex, Data(), a.Data(), b.Data(), plane)
      ensures EdgesRouted(edges, edgeIntersectsPlane, edgeHits, a.edges, b.edges, plane)
      ensures forall k :: i < k < |triangles| ==> Placed(triangles[k])
      ensures Grown(old(a.Data()), a.Data(), old(a.edges), a.edges, old(a.triangles), a.triangles,
                    ShareA(triangle, plane), plane)
      ensures Grown(old(b.Data()), b.Data(), old(b.edges), b.edges, old(b.triangles), b.triangles,
                    ShareB(triangle, plane), plane)
      ensures HandedOver(triangle, triangles, old(a.triangles), old(b.triangles), a.triangles, b.triangles,
                         cutEdgesA, cutEdgesB, cutEdgesA', cutEdgesB', a.edges, b.edges, plane)
    {
      cutEdgesA', cutEdgesB' := HandTriangle(a, b, i, triangle, pointAbovePlane, edgeIntersectsPlane, edgeHits, oldToNewVertex,
                                             cutEdgesA, cutEdgesB, plane);
      RoutedGrow(edges, edgeIntersectsPlane, edgeHits, old(a.edges), old(b.edges), a.edges, b.edges, plane);
    }

    /** The facts the triangle pass needs about one placed triangle, read off the distribution records. */
    lemma RoutedTriangle(t: Triangle, a: ConvexHull, b: ConvexHull, pointAbovePlane: seq<bool>,
                         edgeIntersectsPlane: seq<bool>, edgeHits: seq<EdgeHit>, oldToNewVertex: seq<int>, plane: Plane)
      requires Placed(t) && Parallel(Data()) && forall i :: 0 <= i < |vertexPoints| ==> vertexPoints[i] in points
      requires Classified(pointAbovePlane, plane)
      requires |oldToNewVertex| == |vertices| && VertexMapped(oldToNewVertex, Data(), a.Data(), b.Data(), plane)
      requires EdgesRouted(edges, edgeIntersectsPlane, edgeHits, a.edges, b.edges, plane)
      ensures TriangleRouted(t, a, b, pointAbovePlane, edgeIntersectsPlane, edgeHits, oldToNewVertex, plane)
    {
      assert vertexPoints[t.vertex0] in points && vertexPoints[t.vertex1] in points && vertexPoints[t.vertex2] in points;
    }

    /**
     * The triangle pass's state after handing over the first `i` parent
     * triangles: both children valid, the vertex map and the edge routing
     * recorded, the remaining parent triangles still placed, and the
     * hand-over record for the first `i`.
     */
    ghost predicate Passing(a: ConvexHull, b: ConvexHull, i: int, pointAbovePlane: seq<bool>,
                            edgeIntersectsPlane: seq<bool>, edgeHits: seq<EdgeHit>, oldToNewVertex: seq<int>,
                            cutEdgesA: seq<Edge>, cutEdgesB: seq<Edge>, plane: Plane)
      reads this, points, edges, triangles, a, a.triangles, b, b.triangles
    {
      && 0 <= i <= |triangles| && a != this && b != this && a != b && a.Valid() && b.Valid() && Listed()
      && Classified(pointAbovePlane, plane)
      && |oldToNewVertex| == |vertices| && VertexMapped(oldToNewVertex, Data(), a.Data(), b.Data(), plane)
      && EdgesRouted(edges, edgeIntersectsPlane, edgeHits, a.edges, b.edges, plane)
      && (forall k :: i <= k < |triangles| ==> Placed(triangles[k]))
      && Handed(triangles, i, a.triangles, b.triangles, cutEdgesA, cutEdgesB, a.edges, b.edges, plane)
    }

    /**
     * One pass of the triangle loop: hands parent triangle `i` to the children
     * and keeps the pass's state true for the first `i + 1` triangles.
     */
    method AssignNextTriangle(a: ConvexHull, b: ConvexHull, i: nat, pointAbovePlane: seq<bool>,
                              edgeIntersectsPlane: seq<bool>, edgeHits: seq<EdgeHit>, oldToNewVertex: seq<int>,
                              cutEdgesA: seq<Edge>, cutEdgesB: seq<Edge>, plane: Plane)
      returns (cutEdgesA': seq<Edge>, cutEdgesB': seq<Edge>)
      requires i < |triangles|
      requires Passing(a, b, i, pointAbovePlane, edgeIntersectsPlane, edgeHits, oldToNewVertex, cutEdgesA, cutEdgesB, plane)
      modifies a`vertices, a`normals, a`tangents, a`vertexPoints, a`edges, a`triangles
      modifies b`vertices, b`normals, b`tangents, b`vertexPoints, b`edges, b`triangles
      modifies triangles[i]
      ensures Passing(a, b, i + 1, pointAbovePlane, edgeIntersectsPlane, edgeHits, oldToNewVertex, cutEdgesA', cutEdgesB', plane)
      ensures a.points == old(a.points) && b.points == old(b.points)
    {
      NotDrawn(a.triangles, triangles, i);
      NotDrawn(b.triangles, triangles, i);
      cutEdgesA', cutEdgesB' := PassTriangle(a, b, i, triangles[i], pointAbovePlane, edgeIntersectsPlane, edgeHits, oldToNewVertex,
                                             cutEdgesA, cutEdgesB, plane);
      HandedStep(triangles, i, old(a.triangles), old(b.triangles), cutEdgesA, cutEdgesB, old(a.edges), old(b.edges),
                 a.triangles, b.triangles, cutEdgesA', cutEdgesB', a.edges, b.edges, plane);
    }

    /**
     * Hands every triangle to the children (see AssignTriangle) and returns the
     * cut edges of the cut triangles, A's and B's, pair by pair.
     */
    method AssignTriangles(a: ConvexHull, b: ConvexHull, pointAbovePlane: seq<bool>,
                           edgeIntersectsPlane: seq<bool>, edgeHits: seq<EdgeHit>, oldToNewVertex: seq<int>, plane: Plane)
      returns (cutEdgesA: seq<Edge>, cutEdgesB: seq<Edge>)
      requires a != this && b != this && a != b && a.Valid() && b.Valid() && Valid()
      requires a.triangles == [] && b.triangles == []
      requires Classified(pointAbovePlane, plane)
      requires |oldToNewVertex| == |vertices| && VertexMapped(oldToNewVertex, Data(), a.Data(), b.Data(), plane)
      requires EdgesRouted(edges, edgeIntersectsPlane, edgeHits, a.edges, b.edges, plane)
      modifies a`vertices, a`normals, a`tangents, a`vertexPoints, a`edges, a`triangles
      modifies b`vertices, b`normals, b`tangents, b`vertexPoints, b`edges, b`triangles
      modifies triangles
      ensures a.Valid() && b.Valid() && a.points == old(a.points) && b.points == old(b.points)
      ensures |a.triangles| == SumA(triangles, plane) && |b.triangles| == SumB(triangles, plane)
      ensures UncutKept(triangles, a.triangles, b.triangles, plane)
      ensures |cutEdgesA| == MixedCount(triangles, plane) && CutsPaired(cutEdgesA, cutEdgesB, a.edges, b.edges, plane)
      ensures EdgesRouted(edges, edgeIntersectsPlane, edgeHits, a.edges, b.edges, plane)
      ensures VertexMapped(oldToNewVertex, Data(), a.Data(), b.Data(), plane)
    {
      cutEdgesA, cutEdgesB := [], [];
      var i := 0;
      while i < |triangles|
        invariant Passing(a, b, i, pointAbovePlane, edgeIntersectsPlane, edgeHits, oldToNewVertex, cutEdgesA, cutEdgesB, plane)
        invariant a.points == old(a.points) && b.points == old(b.points)
      {
        cutEdgesA, cutEdgesB := AssignNextTriangle(a, b, i, pointAbovePlane, edgeIntersectsPlane, edgeHits, oldToNewVertex,
                                                   cutEdgesA, cutEdgesB, plane);
        i := i + 1;
      }
      HandedAll(triangles, a.triangles, b.triangles, cutEdgesA, cutEdgesB, a.edges, b.edges, plane);
    }
  

    /**
     * Rearranges the cut edges into a chain: from the second slot on, each
     * slot takes the first edge at or after it that starts where the previous
     * slot's edge ends, swapping those two slots of A's list and the same two
     * of B's list. The first edge is the chain's start; the chain closes when
     * an edge ends where the start begins. An empty list, or an edge that
     * continues the chain after it closed, faults: the source dereferences a
     * missing first edge or the cleared start there.
     */
    static method SortCutEdges(edgesA: seq<Edge>, edgesB: seq<Edge>)
      returns (sortedA: seq<Edge>, sortedB: seq<Edge>, faulted: bool)
      requires |edgesA| == |edgesB|
      ensures Sourced(sortedA, sortedB, edgesA, edgesB)
      ensures faulted <==> |edgesA| == 0 || Reopened(sortedA)
      ensures |edgesA| > 0 ==> sortedA[0] == edgesA[0] && sortedB[0] == edgesB[0]
      ensures !faulted ==> Chained(sortedA)
      ensures !faulted ==> multiset(Zip(sortedA, sortedB)) == multiset(Zip(edgesA, edgesB))
    {
      sortedA, sortedB := edgesA, edgesB;
      if |edgesA| == 0 {
        return sortedA, sortedB, true;
      }
      var start: Edge? := edgesA[0];
      ghost var source := SortingStart(edgesA, edgesB, false);
      ghost var closedAt := 0;
      var i := 1;
      while i < |sortedA|
        invariant Sorting(edgesA, edgesB, sortedA, sortedB, source, false, i, closedAt)
        invariant (start == null) == (closedAt >= 1) && (start != null ==> start == sortedA[0])
        invariant multiset(Zip(sortedA, sortedB)) == multiset(Zip(edgesA, edgesB))
      {
        var j := FindContinuation(sortedA, i, sortedA[i - 1].point1);
        if j == |sortedA| {
          SortingSkip(edgesA, edgesB, sortedA, sortedB, source, false, i, closedAt);
        } else {
          var edgeA := sortedA[j];
          SwapZip(sortedA, sortedB, i, j);
          if start == null {
            SortingReopen(edgesA, edgesB, sortedA, sortedB, source, i, j, closedAt, true);
          } else {
            SortingMove(edgesA, edgesB, sortedA, sortedB, source, i, j, true);
          }
          sortedA := sortedA[i := edgeA][j := sortedA[i]];
          sortedB := sortedB[i := sortedB[j]][j := sortedB[i]];
          source := Exchanged(source, i, j, true);
          if start == null {
            SortingSourced(edgesA, edgesB, sortedA, sortedB, source, false, 1, 0);
            return sortedA, sortedB, true;
          }
          if edgeA.point1 == start.point0 {
            start := null;
            closedAt := i;
          }
        }
        i := i + 1;
      }
      SortingSourced(edgesA, edgesB, sortedA, sortedB, source, false, i, closedAt);
      SortingDone(edgesA, edgesB, sortedA, sortedB, source, false, closedAt);
      faulted := false;
    }

    /**
     * SortCutEdges as the source writes the exchange: `edgesA[i] = edgeA;
     * edgesA[j] = edgesA[i]` (and the same on B) copies slot `j` into slot `i`
     * and leaves slot `j` as it was, so slot `i`'s pair is lost.
     */
    static method SortCutEdgesAsWritten(edgesA: seq<Edge>, edgesB: seq<Edge>)
      returns (sortedA: seq<Edge>, sortedB: seq<Edge>, faulted: bool)
      requires |edgesA| == |edgesB|
      ensures Sourced(sortedA, sortedB, edgesA, edgesB) && CopiedForward(sortedA, sortedB, edgesA, edgesB)
      ensures faulted <==> |edgesA| == 0 || Reopened(sortedA)
      ensures |edgesA| > 0 ==> sortedA[0] == edgesA[0] && sortedB[0] == edgesB[0]
      ensures !faulted ==> Chained(sortedA)
    {
      sortedA, sortedB := edgesA, edgesB;
      if |edgesA| == 0 {
        return sortedA, sortedB, true;
      }
      var start: Edge? := edgesA[0];
      ghost var source := SortingStart(edgesA, edgesB, true);
      ghost var closedAt := 0;
      var i := 1;
      while i < |sortedA|
        invariant Sorting(edgesA, edgesB, sortedA, sortedB, source, true, i, closedAt)
        invariant (start == null) == (closedAt >= 1) && (start != null ==> start == sortedA[0])
      {
        var j := FindContinuation(sortedA, i, sortedA[i - 1].point1);
        if j == |sortedA| {
          SortingSkip(edgesA, edgesB, sortedA, sortedB, source, true, i, closedAt);
        } else {
          var edgeA := sortedA[j];
          if start == null {
            SortingReopen(edgesA, edgesB, sortedA, sortedB, source, i, j, closedAt, false);
          } else {
            SortingMove(edgesA, edgesB, sortedA, sortedB, source, i, j, false);
          }
          CopyBack(sortedA, i, j);
          CopyBack(sortedB, i, j);
          sortedA := sortedA[i := edgeA];
          sortedA := sortedA[j := sortedA[i]];
          sortedB := sortedB[i := sortedB[j]];
          sortedB := sortedB[j := sortedB[i]];
          source := Exchanged(source, i, j, false);
          if start == null {
            SortingSourced(edgesA, edgesB, sortedA, sortedB, source, true, 1, 0);
            return sortedA, sortedB, true;
          }
          if edgeA.point1 == start.point0 {
            start := null;
            closedAt := i;
          }
        }
        i := i + 1;
      }
      SortingSourced(edgesA, edgesB, sortedA, sortedB, source, true, i, closedAt);
      SortingDone(edgesA, edgesB, sortedA, sortedB, source, true, closedAt);
      faulted := false;
    }

    /**
     * The exchange as written loses a pair: for the cut edges P-Q, R-S, Q-R in
     * that order, the second slot takes Q-R, the third keeps it, and R-S is
     * gone from the list.
     */
    static method CopyLosesEdge() returns (cutEdges: seq<Edge>, sorted: seq<Edge>)
      ensures |sorted| == |cutEdges| == 3
      ensures multiset(sorted) != multiset(cutEdges)
      ensures cutEdges[1] !in sorted
    {
      var p := new Point(Zero);
      var q := new Point(Zero);
      var r := new Point(Zero);
      var s := new Point(Zero);
      var pq := new Edge(p, q);
      var rs := new Edge(r, s);
      var qr := new Edge(q, r);
      cutEdges := [pq, rs, qr];
      var sortedB, faulted;
      sorted, sortedB, faulted := SortCutEdgesAsWritten(cutEdges, cutEdges);
      assert !Closes(sorted, 1);
      assert sorted[2] == qr;
      assert sorted[1] == qr;
      assert multiset(sorted)[rs] == 0;
    }

    /**
     * The inner search of SortCutEdges: the first slot at or after `i` whose
     * edge starts at `p`, or the list's length when there is none.
     */
    static method FindContinuation(es: seq<Edge>, i: nat, p: Point) returns (j: nat)
      requires i <= |es|
      ensures i <= j <= |es|
      ensures forall k :: i <= k < j ==> es[k].point0 != p
      ensures j < |es| ==> es[j].point0 == p
    {
      j := i;
      while j < |es|
        invariant i <= j <= |es|
        invariant forall k :: i <= k < j ==> es[k].point0 != p
      {
        if p == es[j].point0 {
          return;
        }
        j := j + 1;
      }
    }
  }
}
