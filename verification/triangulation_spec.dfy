/**
 * The loop bookkeeping of the ear-clipping cap triangulator, on values.
 *
 * The triangulator keeps its boundary as a flat `edges` list of point
 * numbers: the edge stored at slot `e` runs from point `edges[e]` to point
 * `edges[e + 1]`. A loop is a list of such slots, walked in order and closed
 * at the end; its concavity list holds, at position `i`, whether the corner
 * after the loop's `i`-th edge is reflex.
 */
module TriangulationSpec {
  import opened Geometry

  datatype Option<T> = None | Some(value: T)

  // ---------------------------------------------------------------------------
  // Geometric tests
  // ---------------------------------------------------------------------------

  /**
   * CheckLinePairConcavity as written: `Acos(Dot(l0, l1) / (|l0| * |l1|)) > 0`.
   * Over the reals the cosine lies in [-1, 1] and Acos is positive exactly
   * below 1, so the test holds when both lines are non-zero and the cosine is
   * below 1, that is, when the dot product is negative or its square is below
   * the product of the squared lengths. A zero line gives 0/0, a NaN, and the
   * comparison fails.
   */
  predicate LinePairConcave(line0: Vec3, line1: Vec3) {
    var d := Dot(line0, line1);
    var m := Dot(line0, line0) * Dot(line1, line1);
    m != 0.0 && (d < 0.0 || d * d < m)
  }

  /**
   * The concavity test the triangulator evidently intends (the alternative
   * kept in a comment at the end of the file): `Dot(l1, Cross(l0, normal)) > 0`.
   * It holds exactly when the turn from `line0` to `line1` is clockwise about
   * `normal` (ReflexClockwise).
   */
  predicate Reflex(line0: Vec3, line1: Vec3, normal: Vec3) {
    Dot(line1, Cross(line0, normal)) > 0.0
  }

  /** The corrected test flags exactly the clockwise turns. */
  lemma ReflexClockwise(line0: Vec3, line1: Vec3, normal: Vec3)
    ensures Reflex(line0, line1, normal) <==> Dot(Cross(line0, line1), normal) < 0.0
  {
  }

  /**
   * IsPointInsideTriangle over the reals: `point` lies in the triangle's
   * plane and its barycentric coordinates `u`, `v` satisfy u >= 0, v >= 0 and
   * u + v < 1. A degenerate triangle (zero denominator) is never entered:
   * with single-precision infinities or NaNs the three comparisons cannot
   * all hold.
   */
  predicate PointInsideTriangle(point: Vec3, t0: Vec3, t1: Vec3, t2: Vec3) {
    var v0 := Sub(t2, t0);
    var v1 := Sub(t1, t0);
    var v2 := Sub(point, t0);
    var dot00 := Dot(v0, v0);
    var dot01 := Dot(v0, v1);
    var dot02 := Dot(v0, v2);
    var dot11 := Dot(v1, v1);
    var dot12 := Dot(v1, v2);
    var denom := dot00 * dot11 - dot01 * dot01;
    && Dot(Sub(t2, t0), Cross(Sub(t1, t0), Sub(point, t2))) == 0.0
    && denom != 0.0
    && var u := (dot11 * dot02 - dot01 * dot12) / denom;
       var v := (dot00 * dot12 - dot01 * dot02) / denom;
       u >= 0.0 && v >= 0.0 && u + v < 1.0
  }

  // ---------------------------------------------------------------------------
  // Index ranges and cyclic positions
  // ---------------------------------------------------------------------------

  /** Every int of `s` numbers one of `count` points. */
  predicate PointRefs(s: seq<int>, count: int) {
    forall k :: 0 <= k < |s| ==> 0 <= s[k] < count
  }

  /** Every slot of `loop` holds a whole edge of a list of `edgeCount` ints. */
  predicate Entries(loop: seq<int>, edgeCount: int) {
    forall j :: 0 <= j < |loop| ==> 0 <= loop[j] && loop[j] + 1 < edgeCount
  }

  /** The next position of a cyclic list: `(i + 1) % n`. */
  function Succ(i: int, n: int): (r: int)
    requires 0 <= i < n
    ensures 0 <= r < n
  {
    if i + 1 == n then 0 else i + 1
  }

  /** The previous position of a cyclic list. */
  function Pred(i: int, n: int): (r: int)
    requires 0 <= i < n
    ensures 0 <= r < n && Succ(r, n) == i
  {
    if i == 0 then n - 1 else i - 1
  }

  /** Removal of position `k`, as List.RemoveAt. */
  function RemoveAt<T>(s: seq<T>, k: int): (r: seq<T>)
    requires 0 <= k < |s|
    ensures |r| == |s| - 1
    ensures forall j :: 0 <= j < |r| ==> r[j] == if j < k then s[j] else s[j + 1]
  {
    s[..k] + s[k + 1..]
  }

  // ---------------------------------------------------------------------------
  // Chains and corners
  // ---------------------------------------------------------------------------

  /** Each edge of the loop ends where the next one (cyclically) starts. */
  predicate Chained(edges: seq<int>, loop: seq<int>)
    requires Entries(loop, |edges|)
  {
    forall j {:trigger edges[loop[j] + 1]} :: 0 <= j < |loop| ==> edges[loop[j] + 1] == edges[loop[Succ(j, |loop|)]]
  }

  /** The direction of the edge at slot `e`. */
  function Line(points: seq<Vec3>, edges: seq<int>, e: int): Vec3
    requires PointRefs(edges, |points|) && 0 <= e && e + 1 < |edges|
  {
    Sub(points[edges[e + 1]], points[edges[e]])
  }

  /** The corner between edge `e0` and edge `e1`, from each edge's own endpoints. */
  predicate Turn(points: seq<Vec3>, edges: seq<int>, e0: int, e1: int, normal: Vec3)
    requires PointRefs(edges, |points|) && 0 <= e0 && e0 + 1 < |edges| && 0 <= e1 && e1 + 1 < |edges|
  {
    Reflex(Line(points, edges, e0), Line(points, edges, e1), normal)
  }

  /** The concavity list agrees, position by position, with the loop's corners. */
  predicate Consistent(points: seq<Vec3>, edges: seq<int>, loop: seq<int>, concavity: seq<bool>, normal: Vec3)
    requires PointRefs(edges, |points|) && Entries(loop, |edges|)
  {
    && |concavity| == |loop|
    && forall j {:trigger concavity[j]} :: 0 <= j < |loop| ==> concavity[j] == Turn(points, edges, loop[j], loop[Succ(j, |loop|)], normal)
  }

  /**
   * The corner after the loop's `i`-th edge as the initial concavity pass
   * computes it: from the start points of three consecutive loop edges.
   */
  predicate StartCorner(points: seq<Vec3>, edges: seq<int>, loop: seq<int>, i: int, normal: Vec3)
    requires PointRefs(edges, |points|) && Entries(loop, |edges|) && 0 <= i < |loop|
  {
    var i1 := Succ(i, |loop|);
    var i2 := Succ(i1, |loop|);
    var p0 := points[edges[loop[i]]];
    var p1 := points[edges[loop[i1]]];
    var p2 := points[edges[loop[i2]]];
    Reflex(Sub(p1, p0), Sub(p2, p1), normal)
  }

  /** The initial concavity list of a loop. */
  function StartCorners(points: seq<Vec3>, edges: seq<int>, loop: seq<int>, normal: Vec3): (r: seq<bool>)
    requires PointRefs(edges, |points|) && Entries(loop, |edges|)
    ensures |r| == |loop|
  {
    seq(|loop|, i requires 0 <= i < |loop| => StartCorner(points, edges, loop, i, normal))
  }

  /**
   * On a chained loop the initial pass (start points of consecutive edges)
   * and the later per-corner update (each edge's own endpoints) agree.
   */
  lemma StartCornersConsistent(points: seq<Vec3>, edges: seq<int>, loop: seq<int>, normal: Vec3)
    requires PointRefs(edges, |points|) && Entries(loop, |edges|) && Chained(edges, loop)
    ensures Consistent(points, edges, loop, StartCorners(points, edges, loop, normal), normal)
  {
    var n := |loop|;
    forall j | 0 <= j < n
      ensures StartCorners(points, edges, loop, normal)[j] == Turn(points, edges, loop[j], loop[Succ(j, n)], normal)
    {
      var j1 := Succ(j, n);
      var j2 := Succ(j1, n);
      assert edges[loop[j] + 1] == edges[loop[j1]];
      assert edges[loop[j1] + 1] == edges[loop[j2]];
    }
  }

  /** Lengthening the edge list keeps the lines of the existing slots. */
  lemma TurnExtended(points: seq<Vec3>, edges: seq<int>, more: seq<int>, e0: int, e1: int, normal: Vec3)
    requires PointRefs(edges, |points|) && PointRefs(edges + more, |points|)
    requires 0 <= e0 && e0 + 1 < |edges| && 0 <= e1 && e1 + 1 < |edges|
    ensures Turn(points, edges + more, e0, e1, normal) == Turn(points, edges, e0, e1, normal)
  {
    assert (edges + more)[e0] == edges[e0] && (edges + more)[e0 + 1] == edges[e0 + 1];
    assert (edges + more)[e1] == edges[e1] && (edges + more)[e1 + 1] == edges[e1 + 1];
  }

  // ---------------------------------------------------------------------------
  // Loop location
  // ---------------------------------------------------------------------------

  /** The slots of the first `n` edges of the flat list: 0, 2, 4, ... */
  function Slots(n: nat): seq<int> {
    seq(n, k => 2 * k)
  }

  /** The loops' entries one after the other. */
  function Flatten(loops: seq<seq<int>>): seq<int> {
    if loops == [] then [] else Flatten(loops[..|loops| - 1]) + loops[|loops| - 1]
  }

  /** The loop's `j`-th edge ends at the loop's start point. */
  predicate ClosesAt(edges: seq<int>, loop: seq<int>, j: int)
    requires Entries(loop, |edges|) && 0 <= j < |loop|
  {
    edges[loop[j] + 1] == edges[loop[0]]
  }

  /** A loop as the locator cuts it: it ends at the first edge returning to its start. */
  predicate FirstReturn(edges: seq<int>, loop: seq<int>)
    requires Entries(loop, |edges|)
  {
    && |loop| > 0
    && ClosesAt(edges, loop, |loop| - 1)
    && forall j :: 0 <= j < |loop| - 1 ==> !ClosesAt(edges, loop, j)
  }

  /** No edge from edge number `from` on returns to the start point of edge `from`. */
  predicate OpenTail(edges: seq<int>, from: int)
    requires 0 <= from
  {
    forall k :: from <= k < |edges| / 2 ==> edges[2 * k + 1] != edges[2 * from]
  }

  /**
   * The loops LocateLoops finds: the edges are taken in order and cut into
   * loops, each ending at the first edge that returns to its start point;
   * the edges after the last loop never return to their first start point.
   */
  predicate Located(edges: seq<int>, loops: seq<seq<int>>) {
    && (forall k :: 0 <= k < |loops| ==> Entries(loops[k], |edges|) && EvenSlots(loops[k]) && FirstReturn(edges, loops[k]))
    && 2 * |Flatten(loops)| <= |edges|
    && Flatten(loops) == Slots(|Flatten(loops)|)
    && OpenTail(edges, |Flatten(loops)|)
  }

  lemma FlattenAppend(loops: seq<seq<int>>, loop: seq<int>)
    ensures Flatten(loops + [loop]) == Flatten(loops) + loop
  {
    assert (loops + [loop])[..|loops|] == loops;
  }

  /** The first slots of the flat list name whole edges. */
  lemma SlotsEntries(n: nat, edgeCount: int)
    requires 2 * n <= edgeCount
    ensures Entries(Slots(n), edgeCount)
  {
  }

  /**
   * LocateLoops after the first `i` edges: the closed loops and the open
   * loop hold the first `i` slots in order, each closed loop ends at its
   * first return, and the open loop has not returned yet.
   */
  predicate Locating(edges: seq<int>, loops: seq<seq<int>>, loop: seq<int>, i: int) {
    && 0 <= i <= |edges| / 2
    && Flatten(loops) + loop == Slots(i)
    && (forall k :: 0 <= k < |loops| ==> Entries(loops[k], |edges|) && EvenSlots(loops[k]) && FirstReturn(edges, loops[k]))
    && Entries(loop, |edges|)
    && forall j :: 0 <= j < |loop| ==> !ClosesAt(edges, loop, j)
  }

  /** Edge `i` joins the open loop: the slots stay in order and no earlier entry closes the loop. */
  lemma LocateExtend(edges: seq<int>, loops: seq<seq<int>>, loop: seq<int>, i: int)
    requires Locating(edges, loops, loop, i) && i < |edges| / 2
    ensures var loop' := loop + [2 * i];
            && Flatten(loops) + loop' == Slots(i + 1) && Entries(loop', |edges|)
            && forall j :: 0 <= j < |loop| ==> !ClosesAt(edges, loop', j)
  {
    var loop' := loop + [2 * i];
    assert Slots(i + 1) == Slots(i) + [2 * i];
    forall j | 0 <= j < |loop|
      ensures !ClosesAt(edges, loop', j)
    {
      assert loop'[j] == loop[j] && loop'[0] == loop[0];
      assert !ClosesAt(edges, loop, j);
    }
  }

  /** A step of LocateLoops whose edge does not return to the loop's start: the loop stays open. */
  lemma LocateOpen(edges: seq<int>, loops: seq<seq<int>>, loop: seq<int>, i: int)
    requires Locating(edges, loops, loop, i) && i < |edges| / 2
    requires edges[2 * i + 1] != edges[(loop + [2 * i])[0]]
    ensures Locating(edges, loops, loop + [2 * i], i + 1)
  {
    LocateExtend(edges, loops, loop, i);
  }

  /** A step of LocateLoops whose edge returns to the loop's start: the loop is closed. */
  lemma LocateClose(edges: seq<int>, loops: seq<seq<int>>, loop: seq<int>, i: int)
    requires Locating(edges, loops, loop, i) && i < |edges| / 2
    requires edges[2 * i + 1] == edges[(loop + [2 * i])[0]]
    ensures Locating(edges, loops + [loop + [2 * i]], [], i + 1)
  {
    var loop' := loop + [2 * i];
    LocateExtend(edges, loops, loop, i);
    FlattenAppend(loops, loop');
    forall j | 0 <= j < |loop'|
      ensures loop'[j] % 2 == 0
    {
      assert loop'[j] == Slots(i + 1)[|Flatten(loops)| + j];
    }
    assert FirstReturn(edges, loop');
    var loops' := loops + [loop'];
    forall k | 0 <= k < |loops'|
      ensures Entries(loops'[k], |edges|) && EvenSlots(loops'[k]) && FirstReturn(edges, loops'[k])
    {
      if k < |loops| {
        assert loops'[k] == loops[k];
      }
    }
  }

  /** When every edge is taken, the closed loops are the located loops. */
  lemma LocatingDone(edges: seq<int>, loops: seq<seq<int>>, loop: seq<int>)
    requires Locating(edges, loops, loop, |edges| / 2)
    ensures Located(edges, loops)
  {
    var i := |edges| / 2;
    var flat := Flatten(loops);
    var n := |flat|;
    assert flat == Slots(i)[..n] && loop == Slots(i)[n..];
    assert Slots(i)[..n] == Slots(n);
    OpenLoopTail(edges, loop, n, i);
  }

  /** An open loop holding every slot from `n` on leaves no edge from `n` on that returns to its start. */
  lemma OpenLoopTail(edges: seq<int>, loop: seq<int>, n: int, i: int)
    requires 0 <= n <= i == |edges| / 2 && loop == Slots(i)[n..] && Entries(loop, |edges|)
    requires forall j :: 0 <= j < |loop| ==> !ClosesAt(edges, loop, j)
    ensures OpenTail(edges, n)
  {
    forall k | n <= k < i
      ensures edges[2 * k + 1] != edges[2 * n]
    {
      assert loop[k - n] == 2 * k && loop[0] == 2 * n;
      assert !ClosesAt(edges, loop, k - n);
    }
  }

  /**
   * The loop counter of LocateLoops as written (`i *= 2`, starting from 0)
   * after `k` passes.
   */
  function DoublingCounter(k: nat): int {
    if k == 0 then 0 else DoublingCounter(k - 1) * 2
  }

  /**
   * As written, the counter never leaves 0, so for a list with at least one
   * whole edge the loop condition `i < edges.Count / 2` holds after every
   * number of passes: the locator never returns.
   */
  lemma {:induction false} DoublingNeverExits(k: nat, edgeCount: int)
    requires edgeCount / 2 >= 1
    ensures DoublingCounter(k) == 0
    ensures DoublingCounter(k) < edgeCount / 2
  {
    if k > 0 {
      DoublingNeverExits(k - 1, edgeCount);
    }
  }

  // ---------------------------------------------------------------------------
  // Clipping an ear
  // ---------------------------------------------------------------------------

  /**
   * Positions of a candidate ear in a loop of `n` entries: the corner after
   * edge `first`, between `zero` (the edge before) and `third` (the edge
   * after `second`).
   */
  predicate Ear(n: int, zero: int, first: int, second: int, third: int) {
    && 0 <= first < n
    && second == Succ(first, n)
    && third == Succ(second, n)
    && zero == Pred(first, n)
  }

  /**
   * FillTriangle's update of the loop: the ear's second edge is replaced by
   * the cross edge and its first edge removed.
   */
  function ClipLoop(loop: seq<int>, first: int, second: int, cross: int): (r: seq<int>)
    requires 0 <= first < |loop| && 0 <= second < |loop|
    ensures |r| == |loop| - 1
  {
    RemoveAt(loop[second := cross], first)
  }

  /** FillTriangle's update of the concavity list, in the same positions. */
  function ClipConcavity(concavity: seq<bool>, zero: int, first: int, second: int, zeroTurn: bool, crossTurn: bool): (r: seq<bool>)
    requires 0 <= first < |concavity| && 0 <= second < |concavity| && 0 <= zero < |concavity|
    ensures |r| == |concavity| - 1
  {
    RemoveAt(concavity[zero := zeroTurn][second := crossTurn], first)
  }

  /**
   * The two corners FillTriangle recomputes, read before the loop is
   * updated: the corner before the cross edge (from the start of edge
   * `zero` to the first point, then along the cross edge) and the corner
   * after it (along the cross edge, then along edge `third`).
   */
  function ClipTurns(points: seq<Vec3>, edges: seq<int>, loop: seq<int>, zero: int, first: int, third: int, normal: Vec3): (bool, bool)
    requires PointRefs(edges, |points|) && Entries(loop, |edges|)
    requires 0 <= zero < |loop| && 0 <= first < |loop| && 0 <= third < |loop|
  {
    var firstPoint := edges[loop[first]];
    var thirdPoint := edges[loop[third]];
    var zeroLine := Sub(points[firstPoint], points[edges[loop[zero]]]);
    var crossLine := Sub(points[thirdPoint], points[firstPoint]);
    var thirdLine := Sub(points[edges[loop[third] + 1]], points[thirdPoint]);
    (Reflex(zeroLine, crossLine, normal), Reflex(crossLine, thirdLine, normal))
  }

  /**
   * Position `j` of a clipped loop of `n - 1` entries holds old position
   * `o(j)` (`j` before `first`, `j + 1` from it on); the successor of `j`
   * holds the old successor of `o(j)`, except after the edge before the ear,
   * which is now followed by the cross edge in the old `second` position.
   */
  lemma ClipIndex(n: int, first: int, j: int)
    requires 3 <= n && 0 <= first < n && 0 <= j < n - 1
    ensures var o := if j < first then j else j + 1;
            var j' := Succ(j, n - 1);
            var o' := if j' < first then j' else j' + 1;
            && o != first
            && o' == if o == Pred(first, n) then Succ(first, n) else Succ(o, n)
  {
  }

  /** What a clipped loop holds at position `j` and at its successor, by the old position `o(j)`. */
  lemma ClipNeighbours(loop: seq<int>, zero: int, first: int, second: int, third: int, cross: int, j: int)
    requires |loop| >= 4 && Ear(|loop|, zero, first, second, third) && 0 <= j < |loop| - 1
    ensures var n := |loop|;
            var loop' := ClipLoop(loop, first, second, cross);
            var o := if j < first then j else j + 1;
            var j' := Succ(j, n - 1);
            && (o == second ==> loop'[j] == cross && loop'[j'] == loop[third])
            && (o == zero ==> loop'[j] == loop[zero] && loop'[j'] == cross)
            && (o != second && o != zero ==> loop'[j] == loop[o] && loop'[j'] == loop[Succ(o, n)])
  {
    ClipIndex(|loop|, first, j);
  }

  /** On a chained loop of at least four edges, clipping an ear keeps the loop chained. */
  lemma ClipKeepsChain(edges: seq<int>, loop: seq<int>, zero: int, first: int, second: int, third: int)
    requires Entries(loop, |edges|) && |loop| >= 4 && Ear(|loop|, zero, first, second, third)
    requires Chained(edges, loop)
    ensures var edges' := edges + [edges[loop[first]], edges[loop[third]]];
            var loop' := ClipLoop(loop, first, second, |edges|);
            Entries(loop', |edges'|) && Chained(edges', loop')
  {
    var n := |loop|;
    var cross := |edges|;
    var edges' := edges + [edges[loop[first]], edges[loop[third]]];
    var loop' := ClipLoop(loop, first, second, cross);
    forall j | 0 <= j < n - 1
      ensures 0 <= loop'[j] && loop'[j] + 1 < |edges'|
    {
    }
    forall j | 0 <= j < n - 1
      ensures edges'[loop'[j] + 1] == edges'[loop'[Succ(j, n - 1)]]
    {
      ClipNeighbours(loop, zero, first, second, third, cross, j);
      var o := if j < first then j else j + 1;
      if o == zero {
        assert edges[loop[zero] + 1] == edges[loop[first]];
      } else if o != second {
        assert edges[loop[o] + 1] == edges[loop[Succ(o, n)]];
      }
    }
  }

  /** One position of the clipped concavity list agrees with the clipped loop. */
  lemma ClipCorner(points: seq<Vec3>, edges: seq<int>, loop: seq<int>, concavity: seq<bool>, normal: Vec3,
                   zero: int, first: int, second: int, third: int, j: int)
    requires PointRefs(edges, |points|) && Entries(loop, |edges|) && |loop| >= 4 && Ear(|loop|, zero, first, second, third)
    requires Chained(edges, loop) && Consistent(points, edges, loop, concavity, normal)
    requires PointRefs(edges + [edges[loop[first]], edges[loop[third]]], |points|)
    requires Entries(ClipLoop(loop, first, second, |edges|), |edges| + 2)
    requires 0 <= j < |loop| - 1
    ensures var edges' := edges + [edges[loop[first]], edges[loop[third]]];
            var loop' := ClipLoop(loop, first, second, |edges|);
            var turns := ClipTurns(points, edges, loop, zero, first, third, normal);
            ClipConcavity(concavity, zero, first, second, turns.0, turns.1)[j] == Turn(points, edges', loop'[j], loop'[Succ(j, |loop| - 1)], normal)
  {
    var n := |loop|;
    var more := [edges[loop[first]], edges[loop[third]]];
    ClipNeighbours(loop, zero, first, second, third, |edges|, j);
    var o := if j < first then j else j + 1;
    if o == zero {
      assert edges[loop[zero] + 1] == edges[loop[first]];
    } else if o != second {
      TurnExtended(points, edges, more, loop[o], loop[Succ(o, n)], normal);
    }
  }

  /**
   * On a chained loop of at least four edges whose concavity list agrees
   * with its corners, FillTriangle's two recomputed corners keep the list in
   * agreement with the clipped loop.
   */
  lemma ClipKeepsConsistent(points: seq<Vec3>, edges: seq<int>, loop: seq<int>, concavity: seq<bool>, normal: Vec3,
                            zero: int, first: int, second: int, third: int)
    requires PointRefs(edges, |points|) && Entries(loop, |edges|) && |loop| >= 4 && Ear(|loop|, zero, first, second, third)
    requires Chained(edges, loop) && Consistent(points, edges, loop, concavity, normal)
    ensures var edges' := edges + [edges[loop[first]], edges[loop[third]]];
            var loop' := ClipLoop(loop, first, second, |edges|);
            var turns := ClipTurns(points, edges, loop, zero, first, third, normal);
            && PointRefs(edges', |points|) && Entries(loop', |edges'|)
            && Consistent(points, edges', loop', ClipConcavity(concavity, zero, first, second, turns.0, turns.1), normal)
  {
    var edges' := edges + [edges[loop[first]], edges[loop[third]]];
    var loop' := ClipLoop(loop, first, second, |edges|);
    var turns := ClipTurns(points, edges, loop, zero, first, third, normal);
    var concavity' := ClipConcavity(concavity, zero, first, second, turns.0, turns.1);
    ClipKeepsChain(edges, loop, zero, first, second, third);
    assert PointRefs(edges', |points|);
    forall j | 0 <= j < |loop'|
      ensures concavity'[j] == Turn(points, edges', loop'[j], loop'[Succ(j, |loop'|)], normal)
    {
      ClipCorner(points, edges, loop, concavity, normal, zero, first, second, third, j);
    }
  }

  /**
   * On a chained loop the clipped triangle's three recorded edges go round
   * it: edge `first` from its first to its second point, edge `second` from
   * its second to its third point, and the new cross edge from its first to
   * its third point.
   */
  lemma ClipTriangleEdges(edges: seq<int>, loop: seq<int>, zero: int, first: int, second: int, third: int)
    requires Entries(loop, |edges|) && |loop| >= 4 && Ear(|loop|, zero, first, second, third)
    requires Chained(edges, loop)
    ensures var edges' := edges + [edges[loop[first]], edges[loop[third]]];
            var cross := |edges|;
            && edges'[loop[first]] == edges[loop[first]] && edges'[loop[first] + 1] == edges[loop[second]]
            && edges'[loop[second]] == edges[loop[second]] && edges'[loop[second] + 1] == edges[loop[third]]
            && edges'[cross] == edges[loop[first]] && edges'[cross + 1] == edges[loop[third]]
  {
    assert edges[loop[first] + 1] == edges[loop[Succ(first, |loop|)]];
    assert edges[loop[second] + 1] == edges[loop[Succ(second, |loop|)]];
  }

  /**
   * FillTriangle as written reads `loop[zero]` and `loop[third]` after the
   * loop update and RemoveAt(first); None marks a read past the end.
   */
  function ReadsAfterRemoval(loop: seq<int>, zero: int, first: int, second: int, third: int, cross: int): (Option<int>, Option<int>)
    requires 0 <= first < |loop| && 0 <= second < |loop| && 0 <= zero && 0 <= third
  {
    var loop' := ClipLoop(loop, first, second, cross);
    (if zero < |loop'| then Some(loop'[zero]) else None, if third < |loop'| then Some(loop'[third]) else None)
  }

  /**
   * On the loop of slots [0, 2, 4, 6, 8]: the ear at 1 reads slot 8 where
   * its third edge is slot 6, and the ear at 0 reads `loop[zero]` past the
   * end of the shortened loop.
   */
  lemma ReadsAfterRemovalMisread()
    ensures Ear(5, 0, 1, 2, 3) && ReadsAfterRemoval([0, 2, 4, 6, 8], 0, 1, 2, 3, 10) == (Some(0), Some(8))
    ensures [0, 2, 4, 6, 8][3] == 6
    ensures Ear(5, 4, 0, 1, 2) && ReadsAfterRemoval([0, 2, 4, 6, 8], 4, 0, 1, 2, 10).0 == None
  {
    assert ClipLoop([0, 2, 4, 6, 8], 1, 2, 10) == [0, 10, 6, 8];
    assert ClipLoop([0, 2, 4, 6, 8], 0, 1, 10) == [10, 4, 6, 8];
  }

  /**
   * IsTriangleOverlappingLoop's test at position `j`: the corner after the
   * loop's `j`-th edge is reflex, its point is none of the triangle's three
   * points, and it lies inside the triangle.
   */
  predicate ReflexInside(points: seq<Vec3>, edges: seq<int>, loop: seq<int>, concavity: seq<bool>, j: int, p0: int, p1: int, p2: int)
    requires PointRefs(edges, |points|) && Entries(loop, |edges|) && |concavity| == |loop| && 0 <= j < |loop|
    requires 0 <= p0 < |points| && 0 <= p1 < |points| && 0 <= p2 < |points|
  {
    var v := edges[loop[j] + 1];
    && concavity[j]
    && v != p0 && v != p1 && v != p2
    && PointInsideTriangle(points[v], points[p0], points[p1], points[p2])
  }

  /**
   * The ear test at position `j` of a loop fails: the corner there is
   * reflex, or some reflex corner of the loop lies inside the triangle of the
   * start points of the edges at positions `j`, `j + 1` and `j + 2`.
   */
  predicate NoEarAt(points: seq<Vec3>, edges: seq<int>, loop: seq<int>, concavity: seq<bool>, j: int)
    requires PointRefs(edges, |points|) && Entries(loop, |edges|) && |concavity| == |loop| && 0 <= j < |loop|
  {
    var n := |loop|;
    var second := Succ(j, n);
    var third := Succ(second, n);
    || concavity[j]
    || exists m :: 0 <= m < n && ReflexInside(points, edges, loop, concavity, m, edges[loop[j]], edges[loop[second]], edges[loop[third]])
  }

  /** The ear test fails at every position of the loop from `from` up to `to`. */
  predicate FailedRun(points: seq<Vec3>, edges: seq<int>, loop: seq<int>, concavity: seq<bool>, from: int, to: int)
    requires PointRefs(edges, |points|) && Entries(loop, |edges|) && |concavity| == |loop|
  {
    forall j :: from <= j < to && 0 <= j < |loop| ==> NoEarAt(points, edges, loop, concavity, j)
  }

  /** One more failed position extends the run. */
  lemma FailedRunExtend(points: seq<Vec3>, edges: seq<int>, loop: seq<int>, concavity: seq<bool>, from: int, to: int)
    requires PointRefs(edges, |points|) && Entries(loop, |edges|) && |concavity| == |loop| && 0 <= to < |loop|
    requires FailedRun(points, edges, loop, concavity, from, to) && NoEarAt(points, edges, loop, concavity, to)
    ensures FailedRun(points, edges, loop, concavity, from, to + 1)
  {
  }

  /**
   * TriangulateLoop's stop: a run of failed positions as long as the loop,
   * counted from the start of a round, leaves a loop of under three edges or
   * one with no ear.
   */
  lemma RoundFailed(points: seq<Vec3>, edges: seq<int>, loop: seq<int>, concavity: seq<bool>, index: int, unsuitable: int)
    requires PointRefs(edges, |points|) && Entries(loop, |edges|) && |concavity| == |loop|
    requires 0 <= unsuitable && |loop| <= unsuitable && (unsuitable > 0 ==> unsuitable <= index <= |loop|)
    requires FailedRun(points, edges, loop, concavity, index - unsuitable, index)
    ensures |loop| < 3 || Earless(points, edges, loop, concavity)
  {
  }

  /** A whole round of the ear test fails: no position of the loop is an ear. */
  predicate Earless(points: seq<Vec3>, edges: seq<int>, loop: seq<int>, concavity: seq<bool>)
    requires PointRefs(edges, |points|) && Entries(loop, |edges|) && |concavity| == |loop|
  {
    forall j :: 0 <= j < |loop| ==> NoEarAt(points, edges, loop, concavity, j)
  }

  /**
   * FindClosestPointInTriangle's test: the start point of entry `c` of loop
   * `x`, a loop other than loop `li`, lies inside the triangle.
   */
  predicate HoleInside(points: seq<Vec3>, edges: seq<int>, loops: seq<seq<int>>, li: int, t0: Vec3, t1: Vec3, t2: Vec3, x: int, c: int)
    requires PointRefs(edges, |points|) && forall k :: 0 <= k < |loops| ==> Entries(loops[k], |edges|)
  {
    && 0 <= x < |loops| && x != li && 0 <= c < |loops[x]|
    && assert Entries(loops[x], |edges|);
       PointInsideTriangle(points[edges[loops[x][c]]], t0, t1, t2)
  }

  // ---------------------------------------------------------------------------
  // Merging a hole into a loop
  // ---------------------------------------------------------------------------

  /** The corner after position `i` of a loop, from each edge's own endpoints (UpdateConcavity). */
  predicate CornerTurn(points: seq<Vec3>, edges: seq<int>, loop: seq<int>, i: int, normal: Vec3)
    requires PointRefs(edges, |points|) && Entries(loop, |edges|) && 0 <= i < |loop|
  {
    Turn(points, edges, loop[i], loop[Succ(i, |loop|)], normal)
  }

  /** A cyclic list read from position `a` round to `a` again. */
  function Rotate<T>(s: seq<T>, a: int): seq<T>
    requires 0 <= a <= |s|
  {
    s[a..] + s[..a]
  }

  /** List.InsertRange: `block` inserted before position `at`. */
  function Splice<T>(s: seq<T>, at: int, block: seq<T>): seq<T>
    requires 0 <= at <= |s|
  {
    s[..at] + block + s[at..]
  }

  /**
   * InsertLoop's new loop: before position `ins` come the bridge `b0`, the
   * other loop from its anchor round to the anchor again, and the bridge
   * `b1` back.
   */
  function MergedLoop<T>(loop: seq<T>, ins: int, other: seq<T>, anchor: int, b0: T, b1: T): (r: seq<T>)
    requires 0 <= ins <= |loop| && 0 <= anchor <= |other|
    ensures |r| == |loop| + |other| + 2
  {
    Splice(loop, ins, [b0] + Rotate(other, anchor) + [b1])
  }

  /**
   * The four ints InsertLoop appends to the edge list: an edge from the
   * anchor point to the insert point and its reverse.
   */
  function BridgeEdges(edges: seq<int>, loop: seq<int>, ins: int, other: seq<int>, anchor: int): seq<int>
    requires Entries(loop, |edges|) && Entries(other, |edges|) && 0 <= ins < |loop| && 0 <= anchor < |other|
  {
    var insertPoint := edges[loop[ins]];
    var anchorPoint := edges[other[anchor]];
    [anchorPoint, insertPoint, insertPoint, anchorPoint]
  }

  /**
   * InsertLoop's new concavity list: the other list spliced in like the
   * loop, with `false` for the two bridges, then the four corners around
   * the splice recomputed on the merged loop.
   */
  function MergedConcavity(points: seq<Vec3>, edges: seq<int>, merged: seq<int>, concavity: seq<bool>, ins: int,
                           otherConcavity: seq<bool>, anchor: int, normal: Vec3): (r: seq<bool>)
    requires PointRefs(edges, |points|) && Entries(merged, |edges|)
    requires 0 <= ins < |concavity| && 0 <= anchor < |otherConcavity|
    requires |merged| == |concavity| + |otherConcavity| + 2
    ensures |r| == |merged|
  {
    var m := |otherConcavity|;
    var spliced := MergedLoop(concavity, ins, otherConcavity, anchor, false, false);
    var prev := Pred(ins, |merged|);
    spliced[prev := CornerTurn(points, edges, merged, prev, normal)]
           [ins := CornerTurn(points, edges, merged, ins, normal)]
           [ins + m := CornerTurn(points, edges, merged, ins + m, normal)]
           [ins + m + 1 := CornerTurn(points, edges, merged, ins + m + 1, normal)]
  }

  /**
   * What a merged list holds at position `j` and at its successor: around
   * the splice the bridges and the ends of the other loop; elsewhere two
   * neighbours of the loop, or two neighbours of the other loop.
   */
  lemma MergedNeighbours<T>(loop: seq<T>, ins: int, other: seq<T>, anchor: int, b0: T, b1: T, j: int)
    requires 0 <= ins < |loop| && 0 <= anchor < |other|
    requires 0 <= j < |loop| + |other| + 2
    ensures var merged := MergedLoop(loop, ins, other, anchor, b0, b1);
            var n := |loop|;
            var m := |other|;
            var j' := Succ(j, |merged|);
            var prev := Pred(ins, |merged|);
            && (j == prev ==> merged[j] == loop[Pred(ins, n)] && merged[j'] == b0)
            && (j == ins ==> merged[j] == b0 && merged[j'] == other[anchor])
            && (j == ins + m ==> merged[j] == other[Pred(anchor, m)] && merged[j'] == b1)
            && (j == ins + m + 1 ==> merged[j] == b1 && merged[j'] == loop[ins])
            && (ins < j < ins + m ==>
                  var k := if anchor + j - ins - 1 < m then anchor + j - ins - 1 else anchor + j - ins - 1 - m;
                  0 <= k < m && merged[j] == other[k] && merged[j'] == other[Succ(k, m)])
            && (j != prev && (j < ins || ins + m + 1 < j) ==>
                  var k := if j < ins then j else j - m - 2;
                  0 <= k < n && merged[j] == loop[k] && merged[j'] == loop[Succ(k, n)])
  {
  }

  /** One position of the merged loop links to the next: its entry and the bridge edges line up. */
  lemma MergedLink(edges: seq<int>, loop: seq<int>, ins: int, other: seq<int>, anchor: int, j: int)
    requires Entries(loop, |edges|) && Entries(other, |edges|) && 0 <= ins < |loop| && 0 <= anchor < |other|
    requires Chained(edges, loop) && Chained(edges, other)
    requires 0 <= j < |loop| + |other| + 2
    ensures var edges' := edges + BridgeEdges(edges, loop, ins, other, anchor);
            var merged := MergedLoop(loop, ins, other, anchor, |edges| + 2, |edges|);
            && 0 <= merged[j] && merged[j] + 1 < |edges'|
            && edges'[merged[j] + 1] == edges'[merged[Succ(j, |merged|)]]
  {
    var n, m := |loop|, |other|;
    MergedNeighbours(loop, ins, other, anchor, |edges| + 2, |edges|, j);
    if j == Pred(ins, n + m + 2) {
      assert edges[loop[Pred(ins, n)] + 1] == edges[loop[ins]];
    } else if j == ins + m {
      assert edges[other[Pred(anchor, m)] + 1] == edges[other[anchor]];
    } else if ins < j < ins + m {
      var k := if anchor + j - ins - 1 < m then anchor + j - ins - 1 else anchor + j - ins - 1 - m;
      assert edges[other[k] + 1] == edges[other[Succ(k, m)]];
    } else if j != ins && j != ins + m + 1 {
      var k := if j < ins then j else j - m - 2;
      assert edges[loop[k] + 1] == edges[loop[Succ(k, n)]];
    }
  }

  /** A merge of two loops of even edge slots, bridged by even slots, has only even slots. */
  lemma MergeKeepsEven(loop: seq<int>, ins: int, other: seq<int>, anchor: int, b0: int, b1: int)
    requires 0 <= ins < |loop| && 0 <= anchor < |other|
    requires EvenSlots(loop) && EvenSlots(other) && b0 % 2 == 0 && b1 % 2 == 0
    ensures EvenSlots(MergedLoop(loop, ins, other, anchor, b0, b1))
  {
    var merged := MergedLoop(loop, ins, other, anchor, b0, b1);
    forall j | 0 <= j < |merged|
      ensures merged[j] % 2 == 0
    {
      MergedNeighbours(loop, ins, other, anchor, b0, b1, j);
    }
  }

  /** The bridges and the splice keep a merged loop chained when both loops were chained. */
  lemma MergeKeepsChain(edges: seq<int>, loop: seq<int>, ins: int, other: seq<int>, anchor: int)
    requires Entries(loop, |edges|) && Entries(other, |edges|) && 0 <= ins < |loop| && 0 <= anchor < |other|
    requires Chained(edges, loop) && Chained(edges, other)
    ensures var edges' := edges + BridgeEdges(edges, loop, ins, other, anchor);
            var merged := MergedLoop(loop, ins, other, anchor, |edges| + 2, |edges|);
            Entries(merged, |edges'|) && Chained(edges', merged)
  {
    var edges' := edges + BridgeEdges(edges, loop, ins, other, anchor);
    var merged := MergedLoop(loop, ins, other, anchor, |edges| + 2, |edges|);
    forall j | 0 <= j < |merged|
      ensures 0 <= merged[j] && merged[j] + 1 < |edges'|
      ensures edges'[merged[j] + 1] == edges'[merged[Succ(j, |merged|)]]
    {
      MergedLink(edges, loop, ins, other, anchor, j);
    }
  }

  /** The merged concavity list holds the recomputed corners around the splice and the spliced values elsewhere. */
  lemma MergedKept(points: seq<Vec3>, edges: seq<int>, merged: seq<int>, concavity: seq<bool>, ins: int,
                   otherConcavity: seq<bool>, anchor: int, normal: Vec3, j: int)
    requires PointRefs(edges, |points|) && Entries(merged, |edges|)
    requires 0 <= ins < |concavity| && 0 <= anchor < |otherConcavity|
    requires |merged| == |concavity| + |otherConcavity| + 2
    requires 0 <= j < |merged|
    ensures var m := |otherConcavity|;
            var r := MergedConcavity(points, edges, merged, concavity, ins, otherConcavity, anchor, normal);
            && (j == Pred(ins, |merged|) || j == ins || j == ins + m || j == ins + m + 1 ==> r[j] == CornerTurn(points, edges, merged, j, normal))
            && (j != Pred(ins, |merged|) && j != ins && j != ins + m && j != ins + m + 1 ==>
                  r[j] == MergedLoop(concavity, ins, otherConcavity, anchor, false, false)[j])
  {
  }

  /** A position of the merged concavity list inside the spliced-in loop agrees with the merged loop. */
  lemma MergedCornerOther(points: seq<Vec3>, edges: seq<int>, loop: seq<int>, concavity: seq<bool>, ins: int,
                          other: seq<int>, otherConcavity: seq<bool>, anchor: int, normal: Vec3, j: int)
    requires PointRefs(edges, |points|) && Entries(loop, |edges|) && Entries(other, |edges|)
    requires 0 <= ins < |loop| && 0 <= anchor < |other| && |concavity| == |loop|
    requires Consistent(points, edges, other, otherConcavity, normal)
    requires PointRefs(edges + BridgeEdges(edges, loop, ins, other, anchor), |points|)
    requires Entries(MergedLoop(loop, ins, other, anchor, |edges| + 2, |edges|), |edges| + 4)
    requires ins < j < ins + |other|
    ensures var edges' := edges + BridgeEdges(edges, loop, ins, other, anchor);
            var merged := MergedLoop(loop, ins, other, anchor, |edges| + 2, |edges|);
            MergedLoop(concavity, ins, otherConcavity, anchor, false, false)[j] == CornerTurn(points, edges', merged, j, normal)
  {
    var more := BridgeEdges(edges, loop, ins, other, anchor);
    var m := |other|;
    var merged := MergedLoop(loop, ins, other, anchor, |edges| + 2, |edges|);
    MergedNeighbours(loop, ins, other, anchor, |edges| + 2, |edges|, j);
    MergedNeighbours(concavity, ins, otherConcavity, anchor, false, false, j);
    var k := if anchor + j - ins - 1 < m then anchor + j - ins - 1 else anchor + j - ins - 1 - m;
    TurnExtended(points, edges, more, other[k], other[Succ(k, m)], normal);
  }

  /** A position of the merged concavity list away from the splice agrees with the merged loop. */
  lemma MergedCornerLoop(points: seq<Vec3>, edges: seq<int>, loop: seq<int>, concavity: seq<bool>, ins: int,
                         other: seq<int>, otherConcavity: seq<bool>, anchor: int, normal: Vec3, j: int)
    requires PointRefs(edges, |points|) && Entries(loop, |edges|) && Entries(other, |edges|)
    requires 0 <= ins < |loop| && 0 <= anchor < |other| && |otherConcavity| == |other|
    requires Consistent(points, edges, loop, concavity, normal)
    requires PointRefs(edges + BridgeEdges(edges, loop, ins, other, anchor), |points|)
    requires Entries(MergedLoop(loop, ins, other, anchor, |edges| + 2, |edges|), |edges| + 4)
    requires 0 <= j < |loop| + |other| + 2 && j != Pred(ins, |loop| + |other| + 2) && (j < ins || ins + |other| + 1 < j)
    ensures var edges' := edges + BridgeEdges(edges, loop, ins, other, anchor);
            var merged := MergedLoop(loop, ins, other, anchor, |edges| + 2, |edges|);
            MergedLoop(concavity, ins, otherConcavity, anchor, false, false)[j] == CornerTurn(points, edges', merged, j, normal)
  {
    var more := BridgeEdges(edges, loop, ins, other, anchor);
    var n, m := |loop|, |other|;
    MergedNeighbours(loop, ins, other, anchor, |edges| + 2, |edges|, j);
    MergedNeighbours(concavity, ins, otherConcavity, anchor, false, false, j);
    var k := if j < ins then j else j - m - 2;
    TurnExtended(points, edges, more, loop[k], loop[Succ(k, n)], normal);
  }

  /** One position of the merged concavity list agrees with the merged loop. */
  lemma MergedCorner(points: seq<Vec3>, edges: seq<int>, loop: seq<int>, concavity: seq<bool>, ins: int,
                     other: seq<int>, otherConcavity: seq<bool>, anchor: int, normal: Vec3, j: int)
    requires PointRefs(edges, |points|) && Entries(loop, |edges|) && Entries(other, |edges|)
    requires 0 <= ins < |loop| && 0 <= anchor < |other|
    requires Consistent(points, edges, loop, concavity, normal) && Consistent(points, edges, other, otherConcavity, normal)
    requires PointRefs(edges + BridgeEdges(edges, loop, ins, other, anchor), |points|)
    requires Entries(MergedLoop(loop, ins, other, anchor, |edges| + 2, |edges|), |edges| + 4)
    requires 0 <= j < |loop| + |other| + 2
    ensures var edges' := edges + BridgeEdges(edges, loop, ins, other, anchor);
            var merged := MergedLoop(loop, ins, other, anchor, |edges| + 2, |edges|);
            MergedConcavity(points, edges', merged, concavity, ins, otherConcavity, anchor, normal)[j]
              == CornerTurn(points, edges', merged, j, normal)
  {
    var edges' := edges + BridgeEdges(edges, loop, ins, other, anchor);
    var m := |other|;
    var merged := MergedLoop(loop, ins, other, anchor, |edges| + 2, |edges|);
    MergedKept(points, edges', merged, concavity, ins, otherConcavity, anchor, normal, j);
    if ins < j < ins + m {
      MergedCornerOther(points, edges, loop, concavity, ins, other, otherConcavity, anchor, normal, j);
    } else if j != Pred(ins, |merged|) && j != ins && j != ins + m && j != ins + m + 1 {
      MergedCornerLoop(points, edges, loop, concavity, ins, other, otherConcavity, anchor, normal, j);
    }
  }

  /**
   * The merged concavity list agrees with the merged loop whenever both
   * lists agreed with their loops: only the four corners around the splice
   * are new, and those are the four InsertLoop recomputes.
   */
  lemma MergeKeepsConsistent(points: seq<Vec3>, edges: seq<int>, loop: seq<int>, concavity: seq<bool>, ins: int,
                             other: seq<int>, otherConcavity: seq<bool>, anchor: int, normal: Vec3)
    requires PointRefs(edges, |points|) && Entries(loop, |edges|) && Entries(other, |edges|)
    requires 0 <= ins < |loop| && 0 <= anchor < |other|
    requires Consistent(points, edges, loop, concavity, normal) && Consistent(points, edges, other, otherConcavity, normal)
    ensures var edges' := edges + BridgeEdges(edges, loop, ins, other, anchor);
            var merged := MergedLoop(loop, ins, other, anchor, |edges| + 2, |edges|);
            && PointRefs(edges', |points|) && Entries(merged, |edges'|)
            && Consistent(points, edges', merged, MergedConcavity(points, edges', merged, concavity, ins, otherConcavity, anchor, normal), normal)
  {
    var edges' := edges + BridgeEdges(edges, loop, ins, other, anchor);
    var merged := MergedLoop(loop, ins, other, anchor, |edges| + 2, |edges|);
    assert PointRefs(edges', |points|);
    forall j | 0 <= j < |merged|
      ensures 0 <= merged[j] && merged[j] + 1 < |edges'|
    {
      MergedNeighbours(loop, ins, other, anchor, |edges| + 2, |edges|, j);
    }
    var concavity' := MergedConcavity(points, edges', merged, concavity, ins, otherConcavity, anchor, normal);
    forall j | 0 <= j < |merged|
      ensures concavity'[j] == Turn(points, edges', merged[j], merged[Succ(j, |merged|)], normal)
    {
      MergedCorner(points, edges, loop, concavity, ins, other, otherConcavity, anchor, normal, j);
    }
  }

  /**
   * InsertLoop as written puts `edges.Count`, taken after the four new ints,
   * into both bridge positions: that slot is past the end of the list, so
   * the first corner update after the splice (at the insert position) reads
   * past the end. The duplicate it records is that slot too, so removing the
   * two ints there later is out of range.
   */
  lemma BridgeAsWrittenDangles(loop: seq<int>, ins: int, other: seq<int>, anchor: int, edgeCount: int)
    requires 0 <= ins < |loop| && 0 <= anchor < |other|
    ensures var merged := MergedLoop(loop, ins, other, anchor, edgeCount + 4, edgeCount + 4);
            merged[ins] + 1 >= edgeCount + 4 && !Entries(merged, edgeCount + 4)
    ensures !Spaced([edgeCount + 4], 0, edgeCount + 4)
  {
    var merged := MergedLoop(loop, ins, other, anchor, edgeCount + 4, edgeCount + 4);
    MergedNeighbours(loop, ins, other, anchor, edgeCount + 4, edgeCount + 4, ins);
  }

  /**
   * InsertLoop's corrected record: once the two bridges are appended, the
   * duplicate recorded at Count - 2 lies inside the list, past the earlier
   * records, and is the reverse of the bridge just before it.
   */
  lemma BridgeRecordTwinned(edges: seq<int>, a: int, b: int, dups: seq<int>, base: int)
    requires 0 <= base <= |edges| && Spaced(dups, base, |edges|) && Twinned(edges, dups)
    ensures var edges' := edges + [a, b, b, a];
            Spaced(dups + [|edges'| - 2], base, |edges'|) && Twinned(edges', dups + [|edges'| - 2])
  {
    var edges', dups' := edges + [a, b, b, a], dups + [|edges| + 2];
    forall k | 0 <= k < |dups'| && 2 <= dups'[k] && dups'[k] + 2 <= |edges'|
      ensures edges'[dups'[k] - 2] == edges'[dups'[k] + 1] && edges'[dups'[k] - 1] == edges'[dups'[k]]
    {
      if k < |dups| {
        assert dups'[k] == dups[k] && dups[k] + 2 <= |edges|;
      }
    }
  }

  // ---------------------------------------------------------------------------
  // Triangles
  // ---------------------------------------------------------------------------

  /** The edge at slot `e` joins points `a` and `b`, in either direction. */
  predicate SameEnds(edges: seq<int>, e: int, a: int, b: int) {
    && 0 <= e && e + 1 < |edges|
    && ((edges[e] == a && edges[e + 1] == b) || (edges[e] == b && edges[e + 1] == a))
  }

  /**
   * Triangle `t` goes round its three recorded edges: the first joins its
   * first and second points, the second its second and third, the third its
   * first and third.
   */
  predicate Framed(edges: seq<int>, triangles: seq<int>, slots: seq<int>, t: int)
    requires 0 <= t && 3 * t + 2 < |triangles| && 3 * t + 2 < |slots|
  {
    var p0, p1, p2 := triangles[3 * t], triangles[3 * t + 1], triangles[3 * t + 2];
    && SameEnds(edges, slots[3 * t], p0, p1)
    && SameEnds(edges, slots[3 * t + 1], p1, p2)
    && SameEnds(edges, slots[3 * t + 2], p0, p2)
  }

  /** Triangle `t` does not turn clockwise about `normal` at its second point. */
  predicate Unfolded(points: seq<Vec3>, triangles: seq<int>, t: int, normal: Vec3)
    requires 0 <= t && 3 * t + 2 < |triangles| && PointRefs(triangles, |points|)
  {
    var p0, p1, p2 := points[triangles[3 * t]], points[triangles[3 * t + 1]], points[triangles[3 * t + 2]];
    !Reflex(Sub(p1, p0), Sub(p2, p1), normal)
  }

  /** Every int of `s` is even: a slot at the start of an edge of an even-length list. */
  predicate EvenSlots(s: seq<int>) {
    forall k :: 0 <= k < |s| ==> s[k] % 2 == 0
  }

  /**
   * C# integer division by two, which truncates toward zero. The output
   * turns a slot into an edge number with it.
   */
  function Half(x: int): (r: int)
    ensures x >= 0 ==> 2 * r <= x < 2 * r + 2
    ensures x % 2 == 0 ==> 2 * r == x
  {
    if x >= 0 then x / 2 else -((-x) / 2)
  }

  // ---------------------------------------------------------------------------
  // Duplicate edge removal
  // ---------------------------------------------------------------------------

  /** Slot references once the edge at slot `d` is gone: slots from `d` on move down one edge. */
  function Shifted(s: seq<int>, d: int): seq<int> {
    seq(|s|, k requires 0 <= k < |s| => if s[k] >= d then s[k] - 2 else s[k])
  }

  /** List.RemoveRange(d, 2): the edge at slot `d` removed from the flat list. */
  function Dropped(edges: seq<int>, d: int): seq<int>
    requires 0 <= d && d + 2 <= |edges|
  {
    edges[..d] + edges[d + 2..]
  }

  /**
   * Duplicate slots as InsertLoop records them: each lies past `lo` with a
   * whole edge before it, inside the list, and each is at least two edges
   * before the next.
   */
  predicate Spaced(dups: seq<int>, lo: int, edgeCount: int) {
    && (forall k :: 0 <= k < |dups| ==> lo + 2 <= dups[k] && dups[k] + 2 <= edgeCount)
    && (forall k, l :: 0 <= k < l < |dups| ==> dups[k] + 4 <= dups[l])
  }

  /** Each duplicate edge is the reverse of the edge just before it. */
  predicate Twinned(edges: seq<int>, dups: seq<int>) {
    forall k :: 0 <= k < |dups| && 2 <= dups[k] && dups[k] + 2 <= |edges| ==>
      edges[dups[k] - 2] == edges[dups[k] + 1] && edges[dups[k] - 1] == edges[dups[k]]
  }

  /**
   * RemoveDuplicateEdges: the duplicates are removed in order; each removal
   * moves down the later duplicates and the triangle edge references from
   * that slot on.
   */
  function Deduplicated(edges: seq<int>, refs: seq<int>, dups: seq<int>): (r: (seq<int>, seq<int>))
    requires Spaced(dups, 0, |edges|)
    ensures |r.0| == |edges| - 2 * |dups| && |r.1| == |refs|
    decreases |dups|
  {
    if dups == [] then (edges, refs)
    else
      DroppedSpaced(edges, dups, 0);
      Deduplicated(Dropped(edges, dups[0]), Shifted(refs, dups[0]), Shifted(dups[1..], dups[0]))
  }

  /** The slots the removals happen at, in order: each duplicate once the earlier ones are gone. */
  function Trail(dups: seq<int>): (r: seq<int>)
    ensures |r| == |dups|
    decreases |dups|
  {
    if dups == [] then [] else [dups[0]] + Trail(Shifted(dups[1..], dups[0]))
  }

  /** After the first duplicate is removed, the later ones stay spaced in the shorter list. */
  lemma DroppedSpaced(edges: seq<int>, dups: seq<int>, lo: int)
    requires Spaced(dups, lo, |edges|) && dups != []
    ensures Spaced(Shifted(dups[1..], dups[0]), lo, |edges| - 2)
  {
    var rest := Shifted(dups[1..], dups[0]);
    forall k | 0 <= k < |rest|
      ensures lo + 2 <= rest[k] && rest[k] + 2 <= |edges| - 2
    {
      assert dups[0] + 4 <= dups[k + 1];
    }
    forall k, l | 0 <= k < l < |rest|
      ensures rest[k] + 4 <= rest[l]
    {
      assert dups[0] + 4 <= dups[k + 1] && dups[k + 1] + 4 <= dups[l + 1];
    }
  }

  /**
   * One step of RemoveDuplicateEdges: removing the duplicate at position `i`
   * and shifting the later ones leaves the same end result and the same
   * trail of removed slots.
   */
  lemma DeduplicatedStep(edges: seq<int>, refs: seq<int>, dups: seq<int>, i: int)
    requires 0 <= i < |dups| && Spaced(dups[i..], 0, |edges|)
    ensures dups[i] + 2 <= |edges|
    ensures Spaced(Shifted(dups[i + 1..], dups[i]), 0, |edges| - 2)
    ensures Deduplicated(Dropped(edges, dups[i]), Shifted(refs, dups[i]), Shifted(dups[i + 1..], dups[i]))
            == Deduplicated(edges, refs, dups[i..])
    ensures dups[..i] + [dups[i]] + Trail(Shifted(dups[i + 1..], dups[i])) == dups[..i] + Trail(dups[i..])
  {
    var rest := dups[i..];
    assert rest[0] == dups[i] && rest[1..] == dups[i + 1..];
    DroppedSpaced(edges, rest, 0);
    assert Trail(rest) == [dups[i]] + Trail(Shifted(rest[1..], dups[i]));
  }

  /** After the first duplicate is removed, the later ones are still reverses of their predecessors. */
  lemma DroppedTwinned(edges: seq<int>, dups: seq<int>)
    requires Spaced(dups, 0, |edges|) && Twinned(edges, dups) && dups != []
    ensures Twinned(Dropped(edges, dups[0]), Shifted(dups[1..], dups[0]))
  {
    var d := dups[0];
    var edges' := Dropped(edges, d);
    var rest := Shifted(dups[1..], d);
    forall k | 0 <= k < |rest| && 2 <= rest[k] && rest[k] + 2 <= |edges'|
      ensures edges'[rest[k] - 2] == edges'[rest[k] + 1] && edges'[rest[k] - 1] == edges'[rest[k]]
    {
      var e := dups[k + 1];
      assert d + 4 <= e && rest[k] == e - 2;
      assert edges'[e - 4] == edges[e - 2] && edges'[e - 3] == edges[e - 1];
      assert edges'[e - 2] == edges[e] && edges'[e - 1] == edges[e + 1];
    }
  }

  /**
   * Removing the duplicate at an even slot `d`, the reverse of the edge
   * before it, keeps what every even reference joins: a reference before
   * `d` is untouched, one past it moves down with its edge, and one to `d`
   * itself moves to the twin.
   */
  lemma DroppedKeepsEnds(edges: seq<int>, d: int, e: int)
    requires 2 <= d && d + 2 <= |edges| && d % 2 == 0
    requires edges[d - 2] == edges[d + 1] && edges[d - 1] == edges[d]
    requires 0 <= e && e + 1 < |edges| && e % 2 == 0
    ensures SameEnds(Dropped(edges, d), if e >= d then e - 2 else e, edges[e], edges[e + 1])
  {
    var edges' := Dropped(edges, d);
    if e < d {
      assert edges'[e] == edges[e] && edges'[e + 1] == edges[e + 1];
    } else if e == d {
      assert edges'[d - 2] == edges[d + 1] && edges'[d - 1] == edges[d];
    } else {
      assert edges'[e - 2] == edges[e] && edges'[e - 1] == edges[e + 1];
    }
  }

  /**
   * On an even-slotted list whose duplicates are spaced reverses of their
   * predecessors, removing all duplicates keeps what every reference joins.
   */
  lemma {:induction false} DeduplicatedKeepsEnds(edges: seq<int>, refs: seq<int>, dups: seq<int>, k: int)
    requires Spaced(dups, 0, |edges|) && Twinned(edges, dups) && EvenSlots(dups)
    requires 0 <= k < |refs| && 0 <= refs[k] && refs[k] + 1 < |edges| && refs[k] % 2 == 0
    ensures var r := Deduplicated(edges, refs, dups);
            SameEnds(r.0, r.1[k], edges[refs[k]], edges[refs[k] + 1]) && r.1[k] % 2 == 0
    decreases |dups|
  {
    if dups != [] {
      var d := dups[0];
      DroppedKeepsEnds(edges, d, refs[k]);
      DroppedRest(edges, dups);
      DeduplicatedKeepsEnds(Dropped(edges, d), Shifted(refs, d), Shifted(dups[1..], d), k);
    }
  }

  /** The later duplicates keep all three properties once the first is removed. */
  lemma DroppedRest(edges: seq<int>, dups: seq<int>)
    requires Spaced(dups, 0, |edges|) && Twinned(edges, dups) && EvenSlots(dups) && dups != []
    ensures var rest := Shifted(dups[1..], dups[0]);
            && Spaced(rest, 0, |edges| - 2) && Twinned(Dropped(edges, dups[0]), rest) && EvenSlots(rest)
  {
    var rest := Shifted(dups[1..], dups[0]);
    DroppedSpaced(edges, dups, 0);
    DroppedTwinned(edges, dups);
    forall l | 0 <= l < |rest|
      ensures rest[l] % 2 == 0
    {
      assert dups[l + 1] % 2 == 0;
    }
  }

  /** Removing duplicates past `lo` leaves the first `lo` ints of the list alone. */
  lemma {:induction false} DeduplicatedKeepsPrefix(edges: seq<int>, refs: seq<int>, dups: seq<int>, lo: int)
    requires 0 <= lo <= |edges| && Spaced(dups, lo, |edges|)
    ensures lo <= |Deduplicated(edges, refs, dups).0| && Deduplicated(edges, refs, dups).0[..lo] == edges[..lo]
    decreases |dups|
  {
    if dups != [] {
      var d := dups[0];
      DroppedSpaced(edges, dups, lo);
      DroppedSpaced(edges, dups, 0);
      DeduplicatedKeepsPrefix(Dropped(edges, d), Shifted(refs, d), Shifted(dups[1..], d), lo);
      assert Dropped(edges, d)[..lo] == edges[..lo];
    }
  }

  /**
   * The state of RemoveDuplicateEdges' inner loop as written: the counters
   * `i`, `j`, `l` and the duplicate and triangle-edge lists it updates.
   */
  datatype DedupPass = DedupPass(i: int, j: int, l: int, dups: seq<int>, te: seq<int>)

  /** The inner loop's condition as written: `j < triangleEdges.Count || l < duplicateEdges.Count`. */
  predicate DedupGuard(s: DedupPass) {
    s.j < |s.te| || s.l < |s.dups|
  }

  /**
   * One pass of the inner loop as written, after the edge at slot `edge` was
   * removed: `duplicateEdges[j] -= 2` when the duplicate at `l` is at or past
   * the slot, `triangleEdges[j] -= 2` when the triangle edge at `j` is, then
   * `j++, i++` (`l` never moves). None when an index is outside its list,
   * where the source throws.
   */
  function DedupStepAsWritten(s: DedupPass, edge: int): (r: Option<DedupPass>)
    ensures r.Some? ==> r.value.j == s.j + 1 && r.value.i == s.i + 1 && r.value.l == s.l
    ensures r.Some? ==> |r.value.dups| == |s.dups| && |r.value.te| == |s.te|
    ensures s.l < |s.dups| && 0 <= s.l && s.dups[s.l] >= edge && !(0 <= s.j < |s.dups|) ==> r.None?
  {
    if s.l < |s.dups| && s.l < 0 then None
    else
      var writeDup := s.l < |s.dups| && s.dups[s.l] >= edge;
      if writeDup && !(0 <= s.j < |s.dups|) then None
      else if s.j < |s.te| && s.j < 0 then None
      else
        var dups := if writeDup then s.dups[s.j := s.dups[s.j] - 2] else s.dups;
        var te := if s.j < |s.te| && s.te[s.j] >= edge then s.te[s.j := s.te[s.j] - 2] else s.te;
        Some(DedupPass(s.i + 1, s.j + 1, s.l, dups, te))
  }

  /** Up to `k` passes of the inner loop as written, stopping when its condition fails; None on a fault. */
  function DedupRunAsWritten(s: DedupPass, edge: int, k: nat): Option<DedupPass>
    decreases k
  {
    if k == 0 || !DedupGuard(s) then Some(s)
    else
      match DedupStepAsWritten(s, edge)
      case None => None
      case Some(next) => DedupRunAsWritten(next, edge, k - 1)
  }

  /**
   * As written, once a later duplicate exists (`l` in range) the inner loop
   * never leaves by its condition: after any number of passes it has either
   * faulted or is still running, with `j` counted up by the passes and `l`
   * still in range.
   */
  lemma {:induction false} DedupInnerAsWrittenRunsOn(s: DedupPass, edge: int, k: nat)
    requires 0 <= s.l < |s.dups|
    ensures var r := DedupRunAsWritten(s, edge, k);
            r.None? || (r.value.j == s.j + k && r.value.l == s.l && |r.value.dups| == |s.dups| && DedupGuard(r.value))
    decreases k
  {
    if k > 0 {
      assert DedupGuard(s);
      var step := DedupStepAsWritten(s, edge);
      if step.Some? {
        DedupInnerAsWrittenRunsOn(step.value, edge, k - 1);
      }
    }
  }

  /**
   * Duplicates at slots 2 and 6: after removing slot 2 the later duplicate
   * stays at or past it, so every pass writes `duplicateEdges[j]`, and the
   * third pass writes at index 2 of a two-element list.
   */
  lemma DedupInnerAsWrittenFaults()
    ensures DedupRunAsWritten(DedupPass(0, 0, 1, [2, 6], []), 2, 3) == None
  {
    assert [2, 6][0 := 2 - 2] == [0, 6];
    assert DedupStepAsWritten(DedupPass(0, 0, 1, [2, 6], []), 2) == Some(DedupPass(1, 1, 1, [0, 6], []));
    assert [0, 6][1 := 6 - 2] == [0, 4];
    assert DedupStepAsWritten(DedupPass(1, 1, 1, [0, 6], []), 2) == Some(DedupPass(2, 2, 1, [0, 4], []));
  }

  // ---------------------------------------------------------------------------
  // The concavity test as written
  // ---------------------------------------------------------------------------

  /** The initial concavity list as LocateConcavities computes it with the test as written. */
  function StartCornersAsWritten(points: seq<Vec3>, edges: seq<int>, loop: seq<int>): (r: seq<bool>)
    requires PointRefs(edges, |points|) && Entries(loop, |edges|)
    ensures |r| == |loop|
  {
    seq(|loop|, i requires 0 <= i < |loop| =>
      var i1 := Succ(i, |loop|);
      var i2 := Succ(i1, |loop|);
      var p0 := points[edges[loop[i]]];
      var p1 := points[edges[loop[i1]]];
      var p2 := points[edges[loop[i2]]];
      LinePairConcave(Sub(p1, p0), Sub(p2, p1)))
  }

  /** The unit square, walked counter-clockwise about +z. */
  function SquarePoints(): seq<Vec3> {
    [Vec3(0.0, 0.0, 0.0), Vec3(1.0, 0.0, 0.0), Vec3(1.0, 1.0, 0.0), Vec3(0.0, 1.0, 0.0)]
  }

  /** The square's edge list and its one loop. */
  function SquareEdges(): seq<int> {
    [0, 1, 1, 2, 2, 3, 3, 0]
  }

  /** The square's sides in walking order: +x, +y, -x, -y. */
  function SquareSides(): seq<Vec3> {
    [Vec3(1.0, 0.0, 0.0), Vec3(0.0, 1.0, 0.0), Vec3(-1.0, 0.0, 0.0), Vec3(0.0, -1.0, 0.0)]
  }

  /** The `i`-th corner of the square turns from side `i` to the next side. */
  lemma SquareLines(i: int)
    requires 0 <= i < 4
    ensures var p := SquarePoints();
            var e := SquareEdges();
            var loop := [0, 2, 4, 6];
            var i1 := Succ(i, 4);
            var i2 := Succ(i1, 4);
            Sub(p[e[loop[i1]]], p[e[loop[i]]]) == SquareSides()[i] && Sub(p[e[loop[i2]]], p[e[loop[i1]]]) == SquareSides()[i1]
  {
  }

  /** Each corner of the square is a quarter turn left: concave as written, convex when corrected. */
  lemma SquareTurns(i: int)
    requires 0 <= i < 4
    ensures var l0 := SquareSides()[i];
            var l1 := SquareSides()[Succ(i, 4)];
            LinePairConcave(l0, l1) && !Reflex(l0, l1, Vec3(0.0, 0.0, 1.0))
  {
    if i == 0 {
      QuarterTurn(1.0, 0.0, 0.0, 1.0);
    } else if i == 1 {
      QuarterTurn(0.0, 1.0, -1.0, 0.0);
    } else if i == 2 {
      QuarterTurn(-1.0, 0.0, 0.0, -1.0);
    } else {
      QuarterTurn(0.0, -1.0, 1.0, 0.0);
    }
  }

  /** A unit side in the xy-plane followed by its quarter turn to the left. */
  lemma QuarterTurn(x0: real, y0: real, x1: real, y1: real)
    requires x0 * x0 + y0 * y0 == 1.0 && x1 == -y0 && y1 == x0
    ensures LinePairConcave(Vec3(x0, y0, 0.0), Vec3(x1, y1, 0.0)) && !Reflex(Vec3(x0, y0, 0.0), Vec3(x1, y1, 0.0), Vec3(0.0, 0.0, 1.0))
  {
    assert Dot(Vec3(x0, y0, 0.0), Vec3(x1, y1, 0.0)) == 0.0;
    assert Dot(Vec3(x1, y1, 0.0), Vec3(x1, y1, 0.0)) == 1.0;
    assert Cross(Vec3(x0, y0, 0.0), Vec3(0.0, 0.0, 1.0)) == Vec3(y0, -x0, 0.0);
  }

  /**
   * As written, every corner of a convex square is flagged concave (the
   * angle between two edges is positive unless they point the same way), so
   * no ear is ever found.
   */
  lemma SquareAllConcaveAsWritten()
    ensures Chained(SquareEdges(), [0, 2, 4, 6])
    ensures StartCornersAsWritten(SquarePoints(), SquareEdges(), [0, 2, 4, 6]) == [true, true, true, true]
  {
    var r := StartCornersAsWritten(SquarePoints(), SquareEdges(), [0, 2, 4, 6]);
    forall i | 0 <= i < 4
      ensures r[i]
    {
      SquareLines(i);
      SquareTurns(i);
    }
  }

  /** The corrected test flags no corner of the same square, walked counter-clockwise about +z. */
  lemma SquareConvexCorrected()
    ensures StartCorners(SquarePoints(), SquareEdges(), [0, 2, 4, 6], Vec3(0.0, 0.0, 1.0)) == [false, false, false, false]
  {
    var r := StartCorners(SquarePoints(), SquareEdges(), [0, 2, 4, 6], Vec3(0.0, 0.0, 1.0));
    forall i | 0 <= i < 4
      ensures !r[i]
    {
      SquareLines(i);
      SquareTurns(i);
    }
  }

  /** As written, the test flags no corner between a line and its forward continuation. */
  lemma StraightNotConcave(line: Vec3, s: real)
    requires s > 0.0
    ensures !LinePairConcave(line, Scale(line, s))
  {
    var q := Dot(line, line);
    assert Dot(line, Scale(line, s)) == s * q;
    assert Dot(Scale(line, s), Scale(line, s)) == s * s * q;
    assert (s * q) * (s * q) == q * (s * s * q);
  }
}
