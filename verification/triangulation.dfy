/**
 * The ear-clipping triangulator: a flat edge list (two point numbers per
 * edge) is cut into loops, holes are bridged into the loops that surround
 * them, and convex ears are cut off one by one into triangles.
 */
module Triangulator {
  import opened Geometry
  import opened TriangulationSpec
  import opened TriangulationState

  /** Fill's result: the new edges, the triangles' points and each triangle edge's edge number. */
  datatype Output = Output(edges: seq<int>, triangles: seq<int>, triangleEdges: seq<int>)

  /** `(i + 1) % n` and `(i + 2) % n` are the next and next-but-one cyclic positions. */
  lemma SuccMod(i: int, n: int)
    requires 0 <= i < n
    ensures (i + 1) % n == Succ(i, n) && (i + 2) % n == Succ(Succ(i, n), n)
  {
    if i + 2 >= n {
      assert n == 1 || n == i + 2 || n == i + 1;
    }
  }

  /** Position `(x0, c0)` comes before `(x1, c1)` in a scan of loop `x`, entry `c`. */
  predicate Before(x0: int, c0: int, x1: int, c1: int) {
    x0 < x1 || (x0 == x1 && c0 < c1)
  }

  class Triangulation {
    const points: seq<Vec3>
    const normalPlane: Vec3
    const initEdgeCount: nat

    var edges: seq<int>
    var triangles: seq<int>
    var triangleEdges: seq<int>

    var loops: seq<seq<int>>
    var concavities: seq<seq<bool>>
    var duplicateEdges: seq<int>

    /** The working lists as one value. */
    ghost function State(): Scene
      reads this
    {
      Scene(edges, triangles, triangleEdges, loops, concavities, duplicateEdges)
    }

    /** What Fill needs: point numbers in range and whole triangles with a recorded edge each. */
    predicate Ready()
      reads this
    {
      && PointRefs(edges, |points|) && PointRefs(triangles, |points|)
      && |triangles| == |triangleEdges| && |triangles| % 3 == 0
      && (forall k :: 0 <= k < |triangleEdges| ==> 0 <= triangleEdges[k])
    }

    constructor(points: seq<Vec3>, edges: seq<int>, normalPlane: Vec3)
      ensures this.points == points && this.edges == edges && this.normalPlane == normalPlane
      ensures triangles == [] && triangleEdges == [] && initEdgeCount == |edges|
      ensures loops == [] && concavities == [] && duplicateEdges == []
    {
      this.points := points;
      this.edges := edges;
      this.triangles := [];
      this.triangleEdges := [];
      this.normalPlane := normalPlane;
      this.initEdgeCount := |edges|;
      this.loops := [];
      this.concavities := [];
      this.duplicateEdges := [];
    }

    /** The start point of the edge in position `k` of `loop`. */
    function StartPoint(loop: seq<int>, k: int): Vec3
      reads this
      requires PointRefs(edges, |points|) && Entries(loop, |edges|) && 0 <= k < |loop|
    {
      points[edges[loop[k]]]
    }

    /**
     * The concavity test (corrected, see Reflex): the turn from `line0` to
     * `line1` is clockwise about the normal plane.
     */
    function CheckLinePairConcavity(line0: Vec3, line1: Vec3): (r: bool)
      ensures r <==> Dot(Cross(line0, line1), normalPlane) < 0.0
    {
      ReflexClockwise(line0, line1, normalPlane);
      Reflex(line0, line1, normalPlane)
    }

    /**
     * Cuts the edge list into loops: the edges are taken in order, and a loop
     * is closed by the first edge that returns to its start point (corrected
     * counter, see DoublingNeverExits). Edges after the last closed loop are
     * dropped.
     */
    method LocateLoops()
      modifies this`loops
      ensures Located(edges, loops)
    {
      loops := [];
      var loop: seq<int> := [];
      var i := 0;
      while i < |edges| / 2
        invariant Locating(edges, loops, loop, i)
      {
        ghost var open := loop;
        var edge := i * 2;
        var endPoint := edges[edge + 1];
        loop := loop + [edge];
        // Check if the edge ends the loop
        if endPoint == edges[loop[0]] {
          LocateClose(edges, loops, open, i);
          loops := loops + [loop];
          loop := [];
        } else {
          LocateOpen(edges, loops, open, i);
        }
        i := i + 1;
      }
      LocatingDone(edges, loops, loop);
    }

    /**
     * Computes every loop's initial concavity list from the start points of
     * three consecutive edges.
     */
    method LocateConcavities()
      requires PointRefs(edges, |points|) && forall k :: 0 <= k < |loops| ==> Entries(loops[k], |edges|)
      modifies this`concavities
      ensures |concavities| == |loops|
      ensures forall k :: 0 <= k < |loops| ==> concavities[k] == StartCorners(points, edges, loops[k], normalPlane)
    {
      concavities := [];
      var k := 0;
      while k < |loops|
        invariant 0 <= k <= |loops| && |concavities| == k
        invariant forall q :: 0 <= q < k ==> concavities[q] == StartCorners(points, edges, loops[q], normalPlane)
      {
        var loop := loops[k];
        var concavity: seq<bool> := [];
        var i := 0;
        ghost var done := concavities;
        while i < |loop|
          invariant concavities == done
          invariant 0 <= i <= |loop| && |concavity| == i
          invariant forall j :: 0 <= j < i ==> concavity[j] == StartCorner(points, edges, loop, j, normalPlane)
        {
          SuccMod(i, |loop|);
          var point0 := edges[loop[i]];
          var point1 := edges[loop[(i + 1) % |loop|]];
          var point2 := edges[loop[(i + 2) % |loop|]];
          var firstLine := Sub(points[point1], points[point0]);
          var secondLine := Sub(points[point2], points[point1]);
          concavity := concavity + [CheckLinePairConcavity(firstLine, secondLine)];
          i := i + 1;
        }
        assert concavity == StartCorners(points, edges, loop, normalPlane);
        concavities := concavities + [concavity];
        k := k + 1;
      }
    }
    /**
     * Triangulates loop `li` (Fill's inner loop): cuts off ears, or swallows
     * the hole found inside a candidate ear, until fewer than three edges
     * are left or a whole round finds no ear. Returns the loop's position,
     * one lower for each loop before it that was swallowed.
     */
    method TriangulateLoop(li: int, ghost base: int, ghost start: int) returns (i: int)
      requires Ranged(points, State(), base) && Shaped(State()) && 0 <= li < |loops|
      modifies this`edges, this`triangles, this`triangleEdges, this`loops, this`concavities, this`duplicateEdges
      ensures Ranged(points, State(), base) && Shaped(State())
      ensures old(edges) <= edges && old(triangles) <= triangles
      ensures 0 <= i <= li && i < |loops| <= old(|loops|) && (|loops| == old(|loops|) ==> i == li)
      ensures old(Holds(points, normalPlane, State(), start, li)) ==> Holds(points, normalPlane, State(), start, i)
      ensures |loops[i]| < 3 || Earless(points, edges, loops[i], concavities[i])
    {
      ghost var held := Holds(points, normalPlane, State(), start, li);
      i := li;
      var index := 0;
      var unsuitableTriangles := 0;
      while |loops[i]| >= 3
        invariant 0 <= i <= li && i < |loops| <= old(|loops|) && (|loops| == old(|loops|) ==> i == li)
        invariant Ranged(points, State(), base) && Shaped(State())
        invariant old(edges) <= edges && old(triangles) <= triangles
        invariant held ==> Holds(points, normalPlane, State(), start, i)
        invariant 0 <= unsuitableTriangles <= index && (index < |loops[i]| || index == 0)
        invariant FailedRun(points, edges, loops[i], concavities[i], index - unsuitableTriangles, index)
        decreases |loops|, |loops[i]|, if unsuitableTriangles == index then |loops[i]| - index else 2 * |loops[i]| - index
      {
        // Evaluate triangle
        var n := |loops[i]|;
        var zero := if index == 0 then n - 1 else index - 1;
        var first := index;
        SuccMod(index, n);
        var second := (index + 1) % n;
        var third := (index + 2) % n;

        var notEar := RejectsEar(loops[i], concavities[i], first);
        if notEar {
          // Triangle is not an ear
          FailedRunExtend(points, edges, loops[i], concavities[i], index - unsuitableTriangles, index);
          index := index + 1;
          unsuitableTriangles := unsuitableTriangles + 1;
        } else {
          i := ClipEar(zero, first, second, third, i, base, start);
          // Suitable triangles may have appeared
          unsuitableTriangles := 0;
        }

        if unsuitableTriangles >= |loops[i]| {
          RoundFailed(points, edges, loops[i], concavities[i], index, unsuitableTriangles);
          break; // No suitable triangles in loop
        }
        // Wrap index
        if index >= |loops[i]| {
          index := 0;
          unsuitableTriangles := 0;
        }
      }
    }

    /**
     * The ear test at position `first` of `loop`: the corner there is
     * reflex, or a reflex corner of the loop lies inside the triangle of the
     * next three corners' points.
     */
    method RejectsEar(loop: seq<int>, concavity: seq<bool>, first: int) returns (notEar: bool)
      requires PointRefs(edges, |points|) && Entries(loop, |edges|) && |concavity| == |loop| && 0 <= first < |loop|
      ensures notEar <==> NoEarAt(points, edges, loop, concavity, first)
    {
      var n := |loop|;
      SuccMod(first, n);
      var second := (first + 1) % n;
      var third := (first + 2) % n;
      notEar := concavity[first];
      if !notEar {
        notEar := IsTriangleOverlappingLoop(edges[loop[first]], edges[loop[second]], edges[loop[third]], loop, concavity);
      }
    }

    /**
     * An ear was found at `first`: a hole inside it is merged into the loop;
     * otherwise the ear is cut off as a triangle. Either the loop count drops
     * (the returned position of the loop shifts down when the swallowed hole
     * came before it) or the loop loses a corner.
     */
    method ClipEar(zero: int, first: int, second: int, third: int, li: int, ghost base: int, ghost start: int)
      returns (i: int)
      requires Ranged(points, State(), base) && Shaped(State()) && 0 <= li < |loops| && |loops[li]| >= 3
      requires Ear(|loops[li]|, zero, first, second, third)
      modifies this`edges, this`triangles, this`triangleEdges, this`loops, this`concavities, this`duplicateEdges
      ensures Ranged(points, State(), base) && Shaped(State())
      ensures old(edges) <= edges && old(triangles) <= triangles
      ensures 0 <= i <= li && i < |loops|
      ensures |loops| < old(|loops|) || (|loops| == old(|loops|) && i == li && |loops[i]| < old(|loops[li]|))
      ensures old(Holds(points, normalPlane, State(), start, li)) && !old(concavities[li][first]) ==>
                Holds(points, normalPlane, State(), start, i)
    {
      ghost var s := State();
      i := li;
      // Evaluate loop merge
      var merged, swallowedLoopIndex, anchor := MergeLoops(first, second, third, i, base, start);
      if merged {
        if swallowedLoopIndex < i {
          i := i - 1; // Merge occurred; adjust loop index
        }
      } else {
        // No merge occurred; fill triangle
        FillTriangle(zero, first, second, third, i, base, start);
        assert |loops| == |s.loops| && |loops[li]| == |s.loops[li]| - 1;
      }
    }

    /**
     * Removes the recorded duplicate edges in order (corrected counters, see
     * DedupInnerAsWrittenRunsOn): each removal moves down, by one edge, the
     * triangle edge references and the later duplicates from its slot on.
     */
    method RemoveDuplicateEdges()
      requires Spaced(duplicateEdges, 0, |edges|)
      modifies this`edges, this`triangleEdges, this`duplicateEdges
      ensures (edges, triangleEdges) == Deduplicated(old(edges), old(triangleEdges), old(duplicateEdges))
      ensures duplicateEdges == Trail(old(duplicateEdges))
    {
      ghost var edges0, triangleEdges0, duplicateEdges0 := edges, triangleEdges, duplicateEdges;
      var es, te, dups := edges, triangleEdges, duplicateEdges;
      var i := 0;
      while i < |dups|
        invariant 0 <= i <= |dups| && Spaced(dups[i..], 0, |es|)
        invariant Deduplicated(es, te, dups[i..]) == Deduplicated(edges0, triangleEdges0, duplicateEdges0)
        invariant dups[..i] + Trail(dups[i..]) == Trail(duplicateEdges0)
      {
        var edge := dups[i];
        DeduplicatedStep(es, te, dups, i);
        es := es[..edge] + es[edge + 2..]; // Remove the duplicate edge
        ghost var before := dups;
        te, dups := ShiftFrom(edge, te, dups, i + 1);
        assert dups[..i + 1] == before[..i] + [edge] && dups[i + 1..] == Shifted(before[i + 1..], edge);
        i := i + 1;
      }
      edges, triangleEdges, duplicateEdges := es, te, dups;
    }

    /**
     * RemoveDuplicateEdges' update after removing the edge at slot `edge`:
     * the triangle edges and the duplicates from position `from` on move
     * down one edge when they are at or past that slot.
     */
    static method ShiftFrom(edge: int, triangleEdges: seq<int>, duplicateEdges: seq<int>, from: int)
      returns (te: seq<int>, dups: seq<int>)
      requires 0 <= from <= |duplicateEdges|
      ensures te == Shifted(triangleEdges, edge)
      ensures dups == duplicateEdges[..from] + Shifted(duplicateEdges[from..], edge)
    {
      te, dups := triangleEdges, duplicateEdges;
      var j, l := 0, from;
      while j < |te| || l < |dups|
        invariant 0 <= j && l == from + j && |te| == |triangleEdges| && |dups| == |duplicateEdges|
        invariant forall k :: 0 <= k < |te| ==> te[k] == if k < j && triangleEdges[k] >= edge then triangleEdges[k] - 2 else triangleEdges[k]
        invariant forall k :: 0 <= k < |dups| ==>
          dups[k] == if from <= k < l && duplicateEdges[k] >= edge then duplicateEdges[k] - 2 else duplicateEdges[k]
        decreases if |te| - j > |dups| - l then |te| - j else |dups| - l
      {
        if l < |dups| && dups[l] >= edge {
          dups := dups[l := dups[l] - 2];
        }
        if j < |te| && te[j] >= edge {
          te := te[j := te[j] - 2];
        }
        j, l := j + 1, l + 1;
      }
    }

    /**
     * The triangulation pass. The loops are located and their corners
     * classified; then each loop in turn has ears cut off (or a hole inside
     * the candidate ear swallowed) until fewer than three edges are left or
     * no corner of the loop is an ear, and a finished loop is removed. The
     * duplicate bridge edges are removed at the end.
     *
     * `located` is the list of loops the pass started from. When the edge
     * list has whole edges only and every located loop is chained, every
     * new triangle goes round its three recorded edges and does not turn
     * clockwise about the normal plane, and its recorded edges are whole
     * edges numbered by half their slot.
     */
    method Fill() returns (out: Output, ghost located: seq<seq<int>>)
      requires Ready()
      modifies this`edges, this`triangles, this`triangleEdges, this`loops, this`concavities, this`duplicateEdges
      ensures Located(old(edges), located)
      ensures old(edges) <= edges && old(triangles) <= triangles
      ensures PointRefs(triangles, |points|) && |triangleEdges| == |triangles|
      ensures out.edges == (if |edges| > initEdgeCount then edges[initEdgeCount..] else [])
      ensures out.triangles == triangles && |out.triangleEdges| == |triangles|
      ensures |old(edges)| % 2 == 0 && (forall k :: 0 <= k < |located| ==> Chained(old(edges), located[k])) ==>
                && (forall k :: |old(triangles)| <= k < |triangles| ==> 2 * out.triangleEdges[k] == triangleEdges[k])
                && forall t :: |old(triangles)| <= 3 * t && 3 * t + 2 < |triangles| ==>
                     Framed(edges, triangles, triangleEdges, t) && Unfolded(points, triangles, t, normalPlane)
    {
      ghost var start, base := |triangles|, |edges|;
      ghost var edges0, triangles0 := edges, triangles;

      // Prepare triangulation
      located := Prepare();

      // Triangulate loops
      TriangulateLoops(base, start);

      // Finish triangulation
      assert edges0 == edges[..base];
      out := Finish(base, start);
      assert edges0 == edges[..base];
    }

    /**
     * Fill's main loop: triangulates each loop in turn and removes the
     * finished ones (two edges or fewer) from the loop list.
     */
    method TriangulateLoops(ghost base: int, ghost start: int)
      requires Ranged(points, State(), base) && Shaped(State())
      modifies this`edges, this`triangles, this`triangleEdges, this`loops, this`concavities, this`duplicateEdges
      ensures Ranged(points, State(), base) && Shaped(State())
      ensures old(edges) <= edges && old(triangles) <= triangles
      ensures old(Holds(points, normalPlane, State(), start, -1)) ==> Holds(points, normalPlane, State(), start, -1)
    {
      ghost var linked := Holds(points, normalPlane, State(), start, -1);
      var i := 0;
      while i < |loops|
        invariant 0 <= i <= |loops|
        invariant Ranged(points, State(), base) && Shaped(State())
        invariant old(edges) <= edges && old(triangles) <= triangles
        invariant linked ==> Holds(points, normalPlane, State(), start, -1)
        decreases |loops|, |loops| - i
      {
        i := TriangulateLoop(i, base, start);

        // Check if loop is complete
        if |loops[i]| <= 2 {
          // Remove the loop to avoid future merges; the next loop moves into position i
          RetireLoop(i, base, start);
        } else {
          if linked {
            Settled(points, normalPlane, State(), start, i);
          }
          i := i + 1;
        }
      }
    }

    /**
     * Removes a finished loop (two edges or fewer) with its concavity list.
     * The loops after it move down one place; the edges and triangles stay.
     */
    method RetireLoop(i: int, ghost base: int, ghost start: int)
      requires Ranged(points, State(), base) && Shaped(State()) && 0 <= i < |loops|
      modifies this`loops, this`concavities
      ensures State() == Retire(old(State()), i)
      ensures Ranged(points, State(), base) && Shaped(State())
      ensures old(Holds(points, normalPlane, State(), start, i)) ==> Holds(points, normalPlane, State(), start, -1)
    {
      ghost var s := State();
      loops := RemoveAt(loops, i);
      concavities := RemoveAt(concavities, i);
      RetireRanged(points, s, base, i);
      if Holds(points, normalPlane, s, start, i) {
        RetireHolds(points, normalPlane, s, base, start, i, i);
      }
    }

    /**
     * Fill's preparation: the loops are located, their initial concavities
     * computed, and the duplicate list started empty. On an even-length edge
     * list whose located loops are chained, the pass's invariant holds.
     */
    method Prepare() returns (ghost located: seq<seq<int>>)
      requires Ready()
      modifies this`loops, this`concavities, this`duplicateEdges
      ensures located == loops && Located(edges, loops)
      ensures Ranged(points, State(), |edges|) && Shaped(State())
      ensures |edges| % 2 == 0 && (forall k :: 0 <= k < |loops| ==> Chained(edges, loops[k])) ==>
                Holds(points, normalPlane, State(), |triangles|, -1)
    {
      LocateLoops();
      located := loops;
      LocateConcavities();
      duplicateEdges := [];
      if |edges| % 2 == 0 && forall k :: 0 <= k < |loops| ==> Chained(edges, loops[k]) {
        LocatedHolds(points, normalPlane, edges, triangles, triangleEdges, loops, concavities);
      }
    }

    /**
     * Fill's finish: the duplicate bridge edges are removed and the output
     * assembled. When the invariant held, every triangle from `start` on
     * still goes round its recorded edges, now numbered by half their slot.
     */
    method Finish(ghost base: int, ghost start: int) returns (out: Output)
      requires Ranged(points, State(), base) && Shaped(State()) && 0 <= start && start % 3 == 0
      modifies this`edges, this`triangleEdges, this`duplicateEdges
      ensures base <= |edges| && old(edges)[..base] == edges[..base]
      ensures out.edges == (if |edges| > initEdgeCount then edges[initEdgeCount..] else [])
      ensures out.triangles == triangles && |out.triangleEdges| == |triangles| == |triangleEdges|
      ensures old(Holds(points, normalPlane, State(), start, -1)) ==>
                && (forall k :: start <= k < |triangles| ==> 2 * out.triangleEdges[k] == triangleEdges[k])
                && forall t :: start <= 3 * t && 3 * t + 2 < |triangles| ==> Framed(edges, triangles, triangleEdges, t)
    {
      ghost var s := State();
      assert Spaced(duplicateEdges, 0, |edges|);
      DeduplicatedKeepsPrefix(edges, triangleEdges, duplicateEdges, base);
      if Holds(points, normalPlane, s, start, -1) {
        DeduplicatedHolds(points, normalPlane, s, base, start);
      }
      RemoveDuplicateEdges();
      out := SetOutput();
    }

    /**
     * Fill's result: the edges past the initial ones, the triangles, and
     * each triangle edge's slot halved (C# division) into an edge number.
     */
    method SetOutput() returns (out: Output)
      ensures out.edges == if |edges| > initEdgeCount then edges[initEdgeCount..] else []
      ensures out.triangles == triangles
      ensures |out.triangleEdges| == |triangleEdges|
      ensures forall k :: 0 <= k < |triangleEdges| ==> out.triangleEdges[k] == Half(triangleEdges[k])
    {
      var newEdgeCount := |edges| - initEdgeCount;
      var newEdges := if newEdgeCount > 0 then edges[initEdgeCount..] else [];
      var edgeNumbers := [];
      for i := 0 to |triangleEdges|
        invariant |edgeNumbers| == i
        invariant forall k :: 0 <= k < i ==> edgeNumbers[k] == Half(triangleEdges[k])
      {
        edgeNumbers := edgeNumbers + [Half(triangleEdges[i])];
      }
      out := Output(newEdges, triangles, edgeNumbers);
    }

    /**
     * The ear test's overlap check: some reflex corner of `loop`, at a point
     * other than the triangle's three, lies inside the triangle.
     */
    method IsTriangleOverlappingLoop(point0: int, point1: int, point2: int, loop: seq<int>, concavity: seq<bool>) returns (r: bool)
      requires PointRefs(edges, |points|) && Entries(loop, |edges|) && |concavity| == |loop|
      requires 0 <= point0 < |points| && 0 <= point1 < |points| && 0 <= point2 < |points|
      ensures r <==> exists j :: 0 <= j < |loop| && ReflexInside(points, edges, loop, concavity, j, point0, point1, point2)
    {
      var triangle0, triangle1, triangle2 := points[point0], points[point1], points[point2];
      for i := 0 to |loop|
        invariant forall j :: 0 <= j < i ==> !ReflexInside(points, edges, loop, concavity, j, point0, point1, point2)
      {
        if concavity[i] {
          var reflexAngleVert := edges[loop[i] + 1];
          // Skip points that aren't in the triangle
          if reflexAngleVert != point0 && reflexAngleVert != point1 && reflexAngleVert != point2 {
            var point := points[reflexAngleVert];
            if PointInsideTriangle(point, triangle0, triangle1, triangle2) {
              assert ReflexInside(points, edges, loop, concavity, i, point0, point1, point2);
              return true;
            }
          }
        }
      }
      return false;
    }

    /**
     * The search for a hole point inside the triangle at positions `first`,
     * `second`, `third` of loop `li`. As written the closest distance stays
     * at -1, so every inside point replaces the previous one: the result is
     * the last inside entry of the last loop that has one, or (-1, 0).
     */
    method FindClosestPointInTriangle(first: int, second: int, third: int, li: int) returns (x: int, c: int)
      requires PointRefs(edges, |points|) && forall k :: 0 <= k < |loops| ==> Entries(loops[k], |edges|)
      requires 0 <= li < |loops| && 0 <= first < |loops[li]| && 0 <= second < |loops[li]| && 0 <= third < |loops[li]|
      ensures var t0, t1, t2 := StartPoint(loops[li], first), StartPoint(loops[li], second), StartPoint(loops[li], third);
              && (x == -1 ==> c == 0 && forall x', c' :: !HoleInside(points, edges, loops, li, t0, t1, t2, x', c'))
              && (x != -1 ==> && HoleInside(points, edges, loops, li, t0, t1, t2, x, c)
                              && forall x', c' :: HoleInside(points, edges, loops, li, t0, t1, t2, x', c') ==> !Before(x, c, x', c'))
    {
      var closestLoopIndex := -1;
      var closestLoopLocation := 0;
      var closestDistance := -1.0;
      var loop := loops[li];
      var triPoint1, triPoint2, triPoint3 := StartPoint(loop, first), StartPoint(loop, second), StartPoint(loop, third);
      var triPoint1Normal := Cross(normalPlane, Sub(triPoint2, triPoint1));
      for x := 0 to |loops|
        invariant closestDistance == -1.0
        invariant closestLoopIndex == -1 ==> closestLoopLocation == 0
        invariant closestLoopIndex != -1 ==>
          && HoleInside(points, edges, loops, li, triPoint1, triPoint2, triPoint3, closestLoopIndex, closestLoopLocation)
          && closestLoopIndex < x
        invariant forall x', c' :: x' < x && HoleInside(points, edges, loops, li, triPoint1, triPoint2, triPoint3, x', c') ==>
          closestLoopIndex != -1 && !Before(closestLoopIndex, closestLoopLocation, x', c')
      {
        // The loop we've been passed is skipped
        if x != li {
          assert Entries(loops[x], |edges|);
          for c := 0 to |loops[x]|
            invariant closestDistance == -1.0
            invariant closestLoopIndex == -1 ==> closestLoopLocation == 0
            invariant closestLoopIndex != -1 ==>
              && HoleInside(points, edges, loops, li, triPoint1, triPoint2, triPoint3, closestLoopIndex, closestLoopLocation)
              && Before(closestLoopIndex, closestLoopLocation, x, c)
            invariant forall x', c' :: Before(x', c', x, c) && HoleInside(points, edges, loops, li, triPoint1, triPoint2, triPoint3, x', c') ==>
              closestLoopIndex != -1 && !Before(closestLoopIndex, closestLoopLocation, x', c')
          {
            var point := StartPoint(loops[x], c);
            if PointInsideTriangle(point, triPoint1, triPoint2, triPoint3) {
              // The point is taken when it is closer than the closest one so far, or when there is none yet
              if SqrMagnitude(Sub(point, triPoint1Normal)) < closestDistance || closestDistance == -1.0 {
                closestLoopIndex := x;
                closestLoopLocation := c;
                closestDistance := -1.0;
              }
            }
          }
        }
      }
      x, c := closestLoopIndex, closestLoopLocation;
    }

    /**
     * Looks for a hole point inside the candidate ear at positions `first`,
     * `second`, `third` of loop `li`; when there is one, its loop is
     * swallowed into loop `li` before position `first` and removed from the
     * loop list.
     */
    method MergeLoops(first: int, second: int, third: int, li: int, ghost base: int, ghost start: int)
      returns (merged: bool, swallowed: int, ghost anchor: int)
      requires Ranged(points, State(), base) && Shaped(State()) && 0 <= li < |loops| && |loops[li]| >= 3
      requires 0 <= first < |loops[li]| && second == Succ(first, |loops[li]|) && third == Succ(second, |loops[li]|)
      modifies this`edges, this`loops, this`concavities, this`duplicateEdges
      ensures Ranged(points, State(), base) && Shaped(State())
      ensures old(edges) <= edges && triangles == old(triangles)
      ensures !merged ==> && swallowed == -1 && State() == old(State())
                          && forall x', c' :: !HoleInside(points, edges, loops, li, StartPoint(loops[li], first),
                                                        StartPoint(loops[li], second), StartPoint(loops[li], third), x', c')
      ensures merged ==> && 0 <= swallowed < old(|loops|) && swallowed != li && 0 <= anchor < old(|loops[swallowed]|)
                         && old(HoleInside(points, edges, loops, li, StartPoint(loops[li], first),
                                           StartPoint(loops[li], second), StartPoint(loops[li], third), swallowed, anchor))
                         && State() == Retire(Insert(points, normalPlane, old(State()), li, first, swallowed, anchor), swallowed)
      ensures |loops| == if merged then old(|loops|) - 1 else old(|loops|)
      ensures old(Holds(points, normalPlane, State(), start, li)) ==>
                Holds(points, normalPlane, State(), start, if merged then Adjusted(li, swallowed) else li)
    {
      var otherLoopIndex, otherLoopLocation := FindClosestPointInTriangle(first, second, third, li);
      if otherLoopIndex != -1 {
        // Swallow the other loop
        SwallowLoop(first, li, otherLoopLocation, otherLoopIndex, base, start);
        return true, otherLoopIndex, otherLoopLocation;
      }
      return false, -1, 0;
    }

    /**
     * MergeLoops' merge: loop `x` is inserted into loop `li` before position
     * `ins`, from its entry `anchor` round, and then removed from the loop
     * and concavity lists.
     */
    method SwallowLoop(ins: int, li: int, anchor: int, x: int, ghost base: int, ghost start: int)
      requires Ranged(points, State(), base) && Shaped(State()) && 0 <= li < |loops| && 0 <= x < |loops| && x != li
      requires 0 <= ins < |loops[li]| && 0 <= anchor < |loops[x]|
      modifies this`edges, this`loops, this`concavities, this`duplicateEdges
      ensures State() == Retire(Insert(points, normalPlane, old(State()), li, ins, x, anchor), x)
      ensures Ranged(points, State(), base) && Shaped(State()) && |loops| == old(|loops|) - 1
      ensures old(edges) <= edges
      ensures old(Holds(points, normalPlane, State(), start, li)) && old(|loops[li]|) >= 3 ==>
                Holds(points, normalPlane, State(), start, Adjusted(li, x))
    {
      ghost var s := State();
      InsertLoop(ins, li, anchor, x);
      InsertScene(points, normalPlane, s, li, ins, x, anchor, loops[li], concavities[li]);
      Swallowed(points, normalPlane, s, base, start, li, ins, x, anchor);
      // Remove the obsolete loop
      loops := RemoveAt(loops, x);
      concavities := RemoveAt(concavities, x);
    }

    /**
     * Cuts the ear at positions `first`, `second`, `third` of loop `li` off
     * into a triangle: a cross edge from its first to its third point is
     * appended (or, on a loop of three, its third edge serves), the ear's two
     * edges are replaced by the cross edge, and the corners on either side of
     * the cross edge are recomputed. The zero and third lines are read
     * before the loop changes (corrected, see ReadsAfterRemovalMisread).
     */
    method FillTriangle(zero: int, first: int, second: int, third: int, li: int, ghost base: int, ghost start: int)
      requires Ranged(points, State(), base) && Shaped(State()) && 0 <= li < |loops| && |loops[li]| >= 3
      requires Ear(|loops[li]|, zero, first, second, third)
      modifies this`edges, this`triangles, this`triangleEdges, this`loops, this`concavities
      ensures State() == Clip(points, normalPlane, old(State()), li, zero, first, second, third)
      ensures Ranged(points, State(), base) && Shaped(State())
      ensures old(edges) <= edges && old(triangles) <= triangles
      ensures old(Holds(points, normalPlane, State(), start, li)) && !old(concavities[li][first]) ==>
                Holds(points, normalPlane, State(), start, li)
    {
      ghost var s := State();
      var loop, concavity := loops[li], concavities[li];
      var firstPoint := edges[loop[first]];
      var secondPoint := edges[loop[second]];
      var thirdPoint := edges[loop[third]];
      var zeroLine := Sub(points[firstPoint], points[edges[loop[zero]]]);
      var crossLine := Sub(points[thirdPoint], points[firstPoint]);
      var thirdLine := Sub(points[edges[loop[third] + 1]], points[thirdPoint]);

      var crossEdge;
      if |loop| != 3 {
        // Create the cross edge
        crossEdge := |edges|;
        edges := edges + [firstPoint, thirdPoint];
      } else {
        // Use the third edge as the cross edge
        crossEdge := loop[third];
      }

      // Add new triangle
      triangles := triangles + [firstPoint, secondPoint, thirdPoint];
      triangleEdges := triangleEdges + [loop[first], loop[second], crossEdge];

      // Update loop
      loops := loops[li := RemoveAt(loop[second := crossEdge], first)];

      // Update concavity
      concavity := concavity[zero := CheckLinePairConcavity(zeroLine, crossLine)];
      concavity := concavity[second := CheckLinePairConcavity(crossLine, thirdLine)];
      concavities := concavities[li := RemoveAt(concavity, first)];

      ClipRanged(points, normalPlane, s, base, li, zero, first, second, third);
      if Holds(points, normalPlane, s, start, li) && !s.concavities[li][first] {
        ClipHolds(points, normalPlane, s, base, start, li, zero, first, second, third);
      }
    }

    /**
     * Recomputes the corner after position `index` of `loop` from the two
     * edges' own endpoints; the loop's concavity list is returned updated.
     */
    method UpdateConcavity(index: int, loop: seq<int>, concavity: seq<bool>) returns (r: seq<bool>)
      requires PointRefs(edges, |points|) && Entries(loop, |edges|) && |concavity| == |loop| && 0 <= index < |loop|
      ensures r == concavity[index := CornerTurn(points, edges, loop, index, normalPlane)]
    {
      SuccMod(index, |loop|);
      var firstEdge := loop[index];
      var secondEdge := loop[(index + 1) % |loop|];
      var firstLine := Sub(points[edges[firstEdge + 1]], points[edges[firstEdge]]);
      var secondLine := Sub(points[edges[secondEdge + 1]], points[edges[secondEdge]]);
      r := concavity[index := CheckLinePairConcavity(firstLine, secondLine)];
    }

    /**
     * InsertLoop's concavity update: the corners before and after each of the
     * two bridges of a loop with a block of `m` + 2 entries spliced in before
     * position `ins`.
     */
    /**
     * InsertLoop's new loop and concavity list, once the four bridge ints
     * are at the end of the edge list: the other loop, rotated to start at
     * its anchor and framed by the two bridges, goes in before position
     * `ins`, and the four corners around the splice are recomputed.
     */
    method SpliceLoop(loop: seq<int>, ins: int, other: seq<int>, concavity: seq<bool>, otherConcavity: seq<bool>, anchor: int)
      returns (merged: seq<int>, c: seq<bool>)
      requires 4 <= |edges| && PointRefs(edges, |points|)
      requires Entries(loop, |edges| - 4) && Entries(other, |edges| - 4)
      requires 0 <= ins < |loop| && 0 <= anchor < |other| && |concavity| == |loop| && |otherConcavity| == |other|
      ensures merged == MergedLoop(loop, ins, other, anchor, |edges| - 2, |edges| - 4)
      ensures Entries(merged, |edges|)
      ensures c == MergedConcavity(points, edges, merged, concavity, ins, otherConcavity, anchor, normalPlane)
    {
      var insertLoop, insertConcavity := InsertBlock(other, otherConcavity, anchor, |edges| - 2, |edges| - 4);
      merged := Splice(loop, ins, insertLoop);
      var spliced := Splice(concavity, ins, insertConcavity);
      MergedEntries(edges[..|edges| - 4], loop, ins, other, anchor);
      c := UpdateSpliceCorners(ins, merged, spliced, |other|);
    }

    method UpdateSpliceCorners(ins: int, merged: seq<int>, spliced: seq<bool>, m: int) returns (c: seq<bool>)
      requires PointRefs(edges, |points|) && Entries(merged, |edges|) && |spliced| == |merged|
      requires 0 <= ins && 0 <= m && ins + m + 1 < |merged|
      ensures var prev := Pred(ins, |merged|);
              c == spliced[prev := CornerTurn(points, edges, merged, prev, normalPlane)]
                          [ins := CornerTurn(points, edges, merged, ins, normalPlane)]
                          [ins + m := CornerTurn(points, edges, merged, ins + m, normalPlane)]
                          [ins + m + 1 := CornerTurn(points, edges, merged, ins + m + 1, normalPlane)]
    {
      var previousLocation := if ins == 0 then |merged| - 1 else ins - 1;
      c := UpdateConcavity(previousLocation, merged, spliced);
      c := UpdateConcavity(ins, merged, c);
      c := UpdateConcavity(ins + m, merged, c);
      c := UpdateConcavity(ins + m + 1, merged, c);
    }

    /**
     * InsertLoop's block: bridge `b0`, the other loop from its anchor entry
     * round to the anchor again, bridge `b1`; the concavities alongside,
     * false at both bridges.
     */
    static method InsertBlock(other: seq<int>, otherConcavity: seq<bool>, anchor: int, b0: int, b1: int)
      returns (insertLoop: seq<int>, insertConcavity: seq<bool>)
      requires 0 <= anchor < |other| && |otherConcavity| == |other|
      ensures insertLoop == [b0] + Rotate(other, anchor) + [b1]
      ensures insertConcavity == [false] + Rotate(otherConcavity, anchor) + [false]
    {
      insertLoop := [b0];
      insertConcavity := [false];
      for i := anchor to |other|
        invariant insertLoop == [b0] + other[anchor..i]
        invariant insertConcavity == [false] + otherConcavity[anchor..i]
      {
        insertLoop := insertLoop + [other[i]];
        insertConcavity := insertConcavity + [otherConcavity[i]];
      }
      for i := 0 to anchor
        invariant insertLoop == [b0] + other[anchor..] + other[..i]
        invariant insertConcavity == [false] + otherConcavity[anchor..] + otherConcavity[..i]
      {
        insertLoop := insertLoop + [other[i]];
        insertConcavity := insertConcavity + [otherConcavity[i]];
      }
      insertLoop := insertLoop + [b1];
      insertConcavity := insertConcavity + [false];
    }

    /**
     * Swallows loop `x` into loop `li` before position `ins`: a bridge from
     * the insert point to the anchor point of loop `x` and its reverse are
     * appended to the edge list, loop `x` is spliced in from its anchor
     * entry round between them, and the four corners around the splice are
     * recomputed. The bridges are the edges at Count - 2 and Count - 4, and
     * the one at Count - 2 is recorded as the duplicate (corrected, see
     * BridgeAsWrittenDangles).
     */
    method InsertLoop(ins: int, li: int, anchor: int, x: int)
      requires PointRefs(edges, |points|) && |loops| == |concavities| && 0 <= li < |loops| && 0 <= x < |loops| && x != li
      requires 0 <= ins < |loops[li]| && 0 <= anchor < |loops[x]|
      requires Entries(loops[li], |edges|) && Entries(loops[x], |edges|)
      requires |concavities[li]| == |loops[li]| && |concavities[x]| == |loops[x]|
      modifies this`edges, this`loops, this`concavities, this`duplicateEdges
      ensures edges == old(edges) + BridgeEdges(old(edges), old(loops[li]), ins, old(loops[x]), anchor)
      ensures loops == old(loops)[li := MergedLoop(old(loops[li]), ins, old(loops[x]), anchor, |edges| - 2, |edges| - 4)]
      ensures Entries(loops[li], |edges|)
      ensures concavities == old(concavities)[li := MergedConcavity(points, edges, loops[li], old(concavities[li]), ins,
                                                                   old(concavities[x]), anchor, normalPlane)]
      ensures duplicateEdges == old(duplicateEdges) + [|edges| - 2]
    {
      var loop, other := loops[li], loops[x];
      var concavity, otherConcavity := concavities[li], concavities[x];
      var insertPoint := edges[loop[ins]];
      var anchorPoint := edges[other[anchor]];

      var ls, cs := loops, concavities;
      edges := edges + [anchorPoint, insertPoint, insertPoint, anchorPoint];
      var merged, c := SpliceLoop(loop, ins, other, concavity, otherConcavity, anchor);
      loops, concavities, duplicateEdges := ls[li := merged], cs[li := c], duplicateEdges + [|edges| - 2];
    }
  }
}
