/**
 * The triangulator's working lists as one value, its two loop updates
 * (cutting off an ear, swallowing a hole) as functions on that value, and
 * the invariant both keep when the loops the pass starts from are chained.
 */
module TriangulationState {
  import opened Geometry
  import opened TriangulationSpec

  /** The triangulator's lists at one moment: `slots` are the triangle edge references. */
  datatype Scene = Scene(edges: seq<int>, triangles: seq<int>, slots: seq<int>,
                         loops: seq<seq<int>>, concavities: seq<seq<bool>>, dups: seq<int>)

  /** Every point number and every slot in the lists is in range. */
  predicate Indexed(points: seq<Vec3>, s: Scene) {
    && PointRefs(s.edges, |points|) && PointRefs(s.triangles, |points|)
    && |s.triangles| == |s.slots| && |s.triangles| % 3 == 0
    && (forall k :: 0 <= k < |s.slots| ==> 0 <= s.slots[k])
    && (forall k :: 0 <= k < |s.loops| ==> Entries(s.loops[k], |s.edges|))
  }

  /** Indexed, and the duplicates recorded so far lie past `base` and are spaced twins. */
  predicate Ranged(points: seq<Vec3>, s: Scene, base: int) {
    && Indexed(points, s)
    && 0 <= base <= |s.edges|
    && Spaced(s.dups, base, |s.edges|)
    && Twinned(s.edges, s.dups)
  }

  /** Each loop has a concavity list of its own length. */
  predicate Shaped(s: Scene) {
    && |s.loops| == |s.concavities|
    && forall k :: 0 <= k < |s.loops| ==> |s.concavities[k]| == |s.loops[k]|
  }

  /** A loop that is chained, whose concavity list agrees with its corners and whose slots are even. */
  predicate Sound(points: seq<Vec3>, edges: seq<int>, loop: seq<int>, concavity: seq<bool>, normal: Vec3)
    requires PointRefs(edges, |points|) && Entries(loop, |edges|)
  {
    && Chained(edges, loop)
    && Consistent(points, edges, loop, concavity, normal)
    && EvenSlots(loop)
  }

  /**
   * The invariant of the ear-clipping pass over chained loops: the edge
   * list has whole edges only; every loop is sound, except loop `cur` once
   * it is down to fewer than three edges; and every triangle from int
   * `start` of the triangle list on goes round its recorded (even) edge
   * slots and does not turn clockwise about `normal`.
   */
  ghost predicate Holds(points: seq<Vec3>, normal: Vec3, s: Scene, start: int, cur: int)
    requires Indexed(points, s)
  {
    && |s.edges| % 2 == 0
    && EvenSlots(s.dups)
    && |s.loops| == |s.concavities|
    && (forall k :: 0 <= k < |s.loops| && (k != cur || |s.loops[k]| >= 3) ==>
          Sound(points, s.edges, s.loops[k], s.concavities[k], normal))
    && (forall k :: 0 <= start <= k < |s.slots| ==> s.slots[k] % 2 == 0)
    && (forall t :: 0 <= start <= 3 * t && 3 * t + 2 < |s.triangles| ==>
          Framed(s.edges, s.triangles, s.slots, t) && Unfolded(points, s.triangles, t, normal))
  }

  // ---------------------------------------------------------------------------
  // Lengthening the edge list
  // ---------------------------------------------------------------------------

  /** Appending to the edge list keeps a loop sound. */
  lemma SoundExtended(points: seq<Vec3>, edges: seq<int>, more: seq<int>, loop: seq<int>, concavity: seq<bool>, normal: Vec3)
    requires PointRefs(edges, |points|) && PointRefs(edges + more, |points|) && Entries(loop, |edges|)
    requires Sound(points, edges, loop, concavity, normal)
    ensures Entries(loop, |edges + more|) && Sound(points, edges + more, loop, concavity, normal)
  {
    var n := |loop|;
    forall j | 0 <= j < n
      ensures (edges + more)[loop[j] + 1] == (edges + more)[loop[Succ(j, n)]]
      ensures concavity[j] == Turn(points, edges + more, loop[j], loop[Succ(j, n)], normal)
    {
      assert edges[loop[j] + 1] == edges[loop[Succ(j, n)]];
      TurnExtended(points, edges, more, loop[j], loop[Succ(j, n)], normal);
    }
  }

  /** Appending to the edge list keeps every sound loop of a list of loops sound. */
  lemma AllExtended(points: seq<Vec3>, normal: Vec3, edges: seq<int>, more: seq<int>, loops: seq<seq<int>>, concavities: seq<seq<bool>>, cur: int)
    requires PointRefs(edges, |points|) && PointRefs(edges + more, |points|) && |loops| == |concavities|
    requires forall k :: 0 <= k < |loops| ==> Entries(loops[k], |edges|)
    requires forall k :: 0 <= k < |loops| && (k != cur || |loops[k]| >= 3) ==> Sound(points, edges, loops[k], concavities[k], normal)
    ensures forall k :: 0 <= k < |loops| ==> Entries(loops[k], |edges + more|)
    ensures forall k :: 0 <= k < |loops| && (k != cur || |loops[k]| >= 3) ==> Sound(points, edges + more, loops[k], concavities[k], normal)
  {
    forall k | 0 <= k < |loops| && (k != cur || |loops[k]| >= 3)
      ensures Entries(loops[k], |edges + more|) && Sound(points, edges + more, loops[k], concavities[k], normal)
    {
      SoundExtended(points, edges, more, loops[k], concavities[k], normal);
    }
  }

  /** Appending to the edge list keeps what each recorded triangle edge joins. */
  lemma FramedExtended(edges: seq<int>, more: seq<int>, triangles: seq<int>, slots: seq<int>,
                       triangles': seq<int>, slots': seq<int>, t: int)
    requires 0 <= t && 3 * t + 2 < |triangles| && 3 * t + 2 < |slots|
    requires |triangles| <= |triangles'| && triangles'[..|triangles|] == triangles
    requires |slots| <= |slots'| && slots'[..|slots|] == slots
    requires Framed(edges, triangles, slots, t)
    ensures Framed(edges + more, triangles', slots', t)
  {
    assert triangles'[3 * t] == triangles[3 * t] && triangles'[3 * t + 1] == triangles[3 * t + 1] && triangles'[3 * t + 2] == triangles[3 * t + 2];
    assert slots'[3 * t] == slots[3 * t] && slots'[3 * t + 1] == slots[3 * t + 1] && slots'[3 * t + 2] == slots[3 * t + 2];
  }

  // ---------------------------------------------------------------------------
  // Cutting off an ear
  // ---------------------------------------------------------------------------

  /**
   * FillTriangle on the lists: the ear at position `first` of loop `li`
   * becomes a triangle; unless the loop is down to three edges a cross edge
   * from its first to its third point is appended and replaces the ear's
   * two edges in the loop; the two corners beside the cross edge are
   * recomputed.
   */
  function Clip(points: seq<Vec3>, normal: Vec3, s: Scene, li: int, zero: int, first: int, second: int, third: int): Scene
    requires Indexed(points, s) && Shaped(s) && 0 <= li < |s.loops|
    requires |s.loops[li]| >= 3 && Ear(|s.loops[li]|, zero, first, second, third)
  {
    var turns := ClipTurns(points, s.edges, s.loops[li], zero, first, third, normal);
    ClipWith(s, li, zero, first, second, third, turns.0, turns.1)
  }

  /** Clip with the two recomputed corners given. */
  function ClipWith(s: Scene, li: int, zero: int, first: int, second: int, third: int, zeroTurn: bool, crossTurn: bool): Scene
    requires Shaped(s) && 0 <= li < |s.loops| && Entries(s.loops[li], |s.edges|)
    requires |s.loops[li]| >= 3 && Ear(|s.loops[li]|, zero, first, second, third)
  {
    var loop := s.loops[li];
    var firstPoint, secondPoint, thirdPoint := s.edges[loop[first]], s.edges[loop[second]], s.edges[loop[third]];
    var cross := if |loop| != 3 then |s.edges| else loop[third];
    Scene(if |loop| != 3 then s.edges + [firstPoint, thirdPoint] else s.edges,
          s.triangles + [firstPoint, secondPoint, thirdPoint],
          s.slots + [loop[first], loop[second], cross],
          s.loops[li := ClipLoop(loop, first, second, cross)],
          s.concavities[li := ClipConcavity(s.concavities[li], zero, first, second, zeroTurn, crossTurn)],
          s.dups)
  }

  /** Cutting off an ear keeps every index in range and every list its loop's length. */
  lemma ClipRanged(points: seq<Vec3>, normal: Vec3, s: Scene, base: int, li: int, zero: int, first: int, second: int, third: int)
    requires Ranged(points, s, base) && Shaped(s) && 0 <= li < |s.loops|
    requires |s.loops[li]| >= 3 && Ear(|s.loops[li]|, zero, first, second, third)
    ensures var s' := Clip(points, normal, s, li, zero, first, second, third);
            Ranged(points, s', base) && Shaped(s')
  {
    var turns := ClipTurns(points, s.edges, s.loops[li], zero, first, third, normal);
    ClipWithRanged(points, s, base, li, zero, first, second, third, turns.0, turns.1);
  }

  /** ClipRanged for any two recomputed corners. */
  lemma ClipWithRanged(points: seq<Vec3>, s: Scene, base: int, li: int, zero: int, first: int, second: int, third: int,
                       zeroTurn: bool, crossTurn: bool)
    requires Ranged(points, s, base) && Shaped(s) && 0 <= li < |s.loops|
    requires |s.loops[li]| >= 3 && Ear(|s.loops[li]|, zero, first, second, third)
    ensures var s' := ClipWith(s, li, zero, first, second, third, zeroTurn, crossTurn);
            Ranged(points, s', base) && Shaped(s')
  {
    var s' := ClipWith(s, li, zero, first, second, third, zeroTurn, crossTurn);
    var loop := s.loops[li];
    var loop' := s'.loops[li];
    forall j | 0 <= j < |loop'|
      ensures 0 <= loop'[j] && loop'[j] + 1 < |s'.edges|
    {
    }
    assert Entries(loop', |s'.edges|);
    forall k | 0 <= k < |s'.loops|
      ensures Entries(s'.loops[k], |s'.edges|)
    {
      if k != li {
        assert Entries(s.loops[k], |s.edges|);
      }
    }
  }

  /** On a sound loop the corners of an ear's triangle are the ear's corners: a convex ear gives an unfolded triangle. */
  lemma EarUnfolded(points: seq<Vec3>, edges: seq<int>, loop: seq<int>, concavity: seq<bool>, normal: Vec3, first: int)
    requires PointRefs(edges, |points|) && Entries(loop, |edges|) && 0 <= first < |loop|
    requires Sound(points, edges, loop, concavity, normal) && !concavity[first]
    ensures var second := Succ(first, |loop|);
            var third := Succ(second, |loop|);
            var p0, p1, p2 := points[edges[loop[first]]], points[edges[loop[second]]], points[edges[loop[third]]];
            !Reflex(Sub(p1, p0), Sub(p2, p1), normal)
  {
    var second := Succ(first, |loop|);
    assert edges[loop[first] + 1] == edges[loop[second]];
    assert edges[loop[second] + 1] == edges[loop[Succ(second, |loop|)]];
  }

  /** The triangle cut off a chained loop goes round the ear's two edges and the cross edge. */
  lemma ClipFramed(edges: seq<int>, loop: seq<int>, zero: int, first: int, second: int, third: int)
    requires Entries(loop, |edges|) && |loop| >= 3 && Ear(|loop|, zero, first, second, third)
    requires Chained(edges, loop)
    ensures var fp, sp, tp := edges[loop[first]], edges[loop[second]], edges[loop[third]];
            var edges' := if |loop| != 3 then edges + [fp, tp] else edges;
            var cross := if |loop| != 3 then |edges| else loop[third];
            && SameEnds(edges', loop[first], fp, sp)
            && SameEnds(edges', loop[second], sp, tp)
            && SameEnds(edges', cross, fp, tp)
  {
    if |loop| != 3 {
      ClipTriangleEdges(edges, loop, zero, first, second, third);
    } else {
      assert edges[loop[first] + 1] == edges[loop[second]];
      assert edges[loop[second] + 1] == edges[loop[third]];
      assert edges[loop[third] + 1] == edges[loop[first]];
    }
  }

  /** Cutting off an ear of a sound loop of four or more edges leaves a sound loop. */
  lemma ClipSound(points: seq<Vec3>, normal: Vec3, edges: seq<int>, loop: seq<int>, concavity: seq<bool>,
                  zero: int, first: int, second: int, third: int)
    requires PointRefs(edges, |points|) && Entries(loop, |edges|) && |loop| >= 4 && Ear(|loop|, zero, first, second, third)
    requires Sound(points, edges, loop, concavity, normal) && |edges| % 2 == 0
    ensures var edges' := edges + [edges[loop[first]], edges[loop[third]]];
            var loop' := ClipLoop(loop, first, second, |edges|);
            var turns := ClipTurns(points, edges, loop, zero, first, third, normal);
            && PointRefs(edges', |points|) && Entries(loop', |edges'|)
            && Sound(points, edges', loop', ClipConcavity(concavity, zero, first, second, turns.0, turns.1), normal)
  {
    ClipKeepsConsistent(points, edges, loop, concavity, normal, zero, first, second, third);
    ClipKeepsChain(edges, loop, zero, first, second, third);
  }

  /** Cutting off an ear keeps the other loops sound and the clipped loop sound or below three edges. */
  lemma ClipLoopsSound(points: seq<Vec3>, normal: Vec3, s: Scene, base: int, start: int, li: int, zero: int, first: int, second: int, third: int)
    requires Ranged(points, s, base) && Shaped(s) && 0 <= li < |s.loops|
    requires |s.loops[li]| >= 3 && Ear(|s.loops[li]|, zero, first, second, third)
    requires Holds(points, normal, s, start, li)
    ensures var s' := Clip(points, normal, s, li, zero, first, second, third);
            && Indexed(points, s')
            && forall k :: 0 <= k < |s'.loops| && (k != li || |s'.loops[k]| >= 3) ==>
                 Sound(points, s'.edges, s'.loops[k], s'.concavities[k], normal)
  {
    var s' := Clip(points, normal, s, li, zero, first, second, third);
    ClipRanged(points, normal, s, base, li, zero, first, second, third);
    var loop := s.loops[li];
    var more := if |loop| != 3 then [s.edges[loop[first]], s.edges[loop[third]]] else [];
    assert s'.edges == s.edges + more;
    forall k | 0 <= k < |s'.loops| && (k != li || |s'.loops[k]| >= 3)
      ensures Sound(points, s'.edges, s'.loops[k], s'.concavities[k], normal)
    {
      if k == li {
        ClipSound(points, normal, s.edges, loop, s.concavities[li], zero, first, second, third);
      } else {
        SoundExtended(points, s.edges, more, s.loops[k], s.concavities[k], normal);
      }
    }
  }

  /** Cutting off a convex ear adds a triangle that goes round its edges and does not turn clockwise. */
  lemma ClipTrianglesHold(points: seq<Vec3>, normal: Vec3, s: Scene, base: int, start: int, li: int, zero: int, first: int, second: int, third: int)
    requires Ranged(points, s, base) && Shaped(s) && 0 <= li < |s.loops|
    requires |s.loops[li]| >= 3 && Ear(|s.loops[li]|, zero, first, second, third)
    requires Holds(points, normal, s, start, li) && !s.concavities[li][first]
    ensures var s' := Clip(points, normal, s, li, zero, first, second, third);
            && Indexed(points, s')
            && (forall k :: 0 <= start <= k < |s'.slots| ==> s'.slots[k] % 2 == 0)
            && forall t :: 0 <= start <= 3 * t && 3 * t + 2 < |s'.triangles| ==>
                 Framed(s'.edges, s'.triangles, s'.slots, t) && Unfolded(points, s'.triangles, t, normal)
  {
    var s' := Clip(points, normal, s, li, zero, first, second, third);
    ClipRanged(points, normal, s, base, li, zero, first, second, third);
    var loop := s.loops[li];
    var more := if |loop| != 3 then [s.edges[loop[first]], s.edges[loop[third]]] else [];
    assert s'.edges == s.edges + more;
    assert Sound(points, s.edges, loop, s.concavities[li], normal);
    var t0 := |s.triangles| / 3;
    forall t | 0 <= start <= 3 * t && 3 * t + 2 < |s'.triangles|
      ensures Framed(s'.edges, s'.triangles, s'.slots, t) && Unfolded(points, s'.triangles, t, normal)
    {
      if t < t0 {
        FramedExtended(s.edges, more, s.triangles, s.slots, s'.triangles, s'.slots, t);
        assert s'.triangles[3 * t] == s.triangles[3 * t] && s'.triangles[3 * t + 1] == s.triangles[3 * t + 1] && s'.triangles[3 * t + 2] == s.triangles[3 * t + 2];
      } else {
        ClipFramed(s.edges, loop, zero, first, second, third);
        EarUnfolded(points, s.edges, loop, s.concavities[li], normal, first);
      }
    }
  }

  /**
   * Cutting off a convex ear keeps the invariant: the clipped loop stays
   * sound (or drops below three edges), the other loops keep their corners
   * on the longer edge list, and the new triangle goes round its edges
   * without turning clockwise.
   */
  lemma ClipHolds(points: seq<Vec3>, normal: Vec3, s: Scene, base: int, start: int, li: int, zero: int, first: int, second: int, third: int)
    requires Ranged(points, s, base) && Shaped(s) && 0 <= li < |s.loops|
    requires |s.loops[li]| >= 3 && Ear(|s.loops[li]|, zero, first, second, third)
    requires Holds(points, normal, s, start, li) && !s.concavities[li][first]
    ensures var s' := Clip(points, normal, s, li, zero, first, second, third);
            Indexed(points, s') && Holds(points, normal, s', start, li)
  {
    var s' := Clip(points, normal, s, li, zero, first, second, third);
    assert s'.dups == s.dups && |s'.edges| % 2 == 0 && |s'.loops| == |s'.concavities|;
    ClipLoopsSound(points, normal, s, base, start, li, zero, first, second, third);
    ClipTrianglesHold(points, normal, s, base, start, li, zero, first, second, third);
  }

  // ---------------------------------------------------------------------------
  // Swallowing a hole, retiring a loop
  // ---------------------------------------------------------------------------

  /** The merged loop's slots name whole edges of the list with the bridges appended. */
  lemma MergedEntries(edges: seq<int>, loop: seq<int>, ins: int, other: seq<int>, anchor: int)
    requires Entries(loop, |edges|) && Entries(other, |edges|) && 0 <= ins < |loop| && 0 <= anchor < |other|
    ensures Entries(MergedLoop(loop, ins, other, anchor, |edges| + 2, |edges|), |edges| + 4)
  {
    var merged := MergedLoop(loop, ins, other, anchor, |edges| + 2, |edges|);
    forall j | 0 <= j < |merged|
      ensures 0 <= merged[j] && merged[j] + 1 < |edges| + 4
    {
      MergedNeighbours(loop, ins, other, anchor, |edges| + 2, |edges|, j);
    }
  }

  /** What Insert needs of the two loops it joins. */
  predicate Joinable(points: seq<Vec3>, s: Scene, li: int, ins: int, x: int, anchor: int) {
    && PointRefs(s.edges, |points|)
    && 0 <= li < |s.loops| && 0 <= x < |s.loops| && li < |s.concavities| && x < |s.concavities|
    && 0 <= ins < |s.loops[li]| && 0 <= anchor < |s.loops[x]|
    && Entries(s.loops[li], |s.edges|) && Entries(s.loops[x], |s.edges|)
    && |s.concavities[li]| == |s.loops[li]| && |s.concavities[x]| == |s.loops[x]|
  }

  /**
   * InsertLoop on the lists: loop `x` is spliced into loop `li` before
   * position `ins`, from its anchor entry round, between a bridge edge from
   * the insert point to the anchor point and its reverse; both bridges are
   * appended to the edge list and the second one is recorded as the
   * duplicate; the four corners around the splice are recomputed.
   */
  function Insert(points: seq<Vec3>, normal: Vec3, s: Scene, li: int, ins: int, x: int, anchor: int): Scene
    requires Joinable(points, s, li, ins, x, anchor)
  {
    var loop, other := s.loops[li], s.loops[x];
    var edges' := s.edges + BridgeEdges(s.edges, loop, ins, other, anchor);
    var merged := MergedLoop(loop, ins, other, anchor, |s.edges| + 2, |s.edges|);
    MergedEntries(s.edges, loop, ins, other, anchor);
    var concavity := MergedConcavity(points, edges', merged, s.concavities[li], ins, s.concavities[x], anchor, normal);
    InsertWith(s, li, ins, x, anchor, concavity)
  }

  /** Insert with the merged concavity list given. */
  function InsertWith(s: Scene, li: int, ins: int, x: int, anchor: int, concavity: seq<bool>): Scene
    requires 0 <= li < |s.loops| && 0 <= x < |s.loops| && li < |s.concavities|
    requires 0 <= ins < |s.loops[li]| && 0 <= anchor < |s.loops[x]|
    requires Entries(s.loops[li], |s.edges|) && Entries(s.loops[x], |s.edges|)
  {
    var loop, other := s.loops[li], s.loops[x];
    var merged := MergedLoop(loop, ins, other, anchor, |s.edges| + 2, |s.edges|);
    Scene(s.edges + BridgeEdges(s.edges, loop, ins, other, anchor), s.triangles, s.slots,
          s.loops[li := merged], s.concavities[li := concavity], s.dups + [|s.edges| + 2])
  }

  /** Insert, field by field, once its merged loop and concavity list are known. */
  lemma InsertScene(points: seq<Vec3>, normal: Vec3, s: Scene, li: int, ins: int, x: int, anchor: int,
                    merged: seq<int>, concavity: seq<bool>)
    requires Indexed(points, s) && Shaped(s) && 0 <= li < |s.loops| && 0 <= x < |s.loops|
    requires 0 <= ins < |s.loops[li]| && 0 <= anchor < |s.loops[x]|
    requires merged == MergedLoop(s.loops[li], ins, s.loops[x], anchor, |s.edges| + 2, |s.edges|)
    requires var edges' := s.edges + BridgeEdges(s.edges, s.loops[li], ins, s.loops[x], anchor);
             PointRefs(edges', |points|) && Entries(merged, |edges'|) &&
             concavity == MergedConcavity(points, edges', merged, s.concavities[li], ins, s.concavities[x], anchor, normal)
    ensures Insert(points, normal, s, li, ins, x, anchor)
            == Scene(s.edges + BridgeEdges(s.edges, s.loops[li], ins, s.loops[x], anchor), s.triangles, s.slots,
                     s.loops[li := merged], s.concavities[li := concavity], s.dups + [|s.edges| + 2])
  {
  }

  /**
   * MergeLoops' whole update when a hole is found: the hole's loop is
   * inserted into loop `li`, then removed from the list. Every index stays
   * in range, and the invariant carries over to loop `li`'s new position.
   */
  lemma Swallowed(points: seq<Vec3>, normal: Vec3, s: Scene, base: int, start: int, li: int, ins: int, x: int, anchor: int)
    requires Ranged(points, s, base) && Shaped(s) && 0 <= li < |s.loops| && 0 <= x < |s.loops| && x != li
    requires 0 <= ins < |s.loops[li]| && 0 <= anchor < |s.loops[x]|
    ensures var s1 := Insert(points, normal, s, li, ins, x, anchor);
            && Shaped(s1) && |s1.loops| == |s.loops|
            && var s2 := Retire(s1, x);
               && Ranged(points, s2, base) && Shaped(s2)
               && (Holds(points, normal, s, start, li) && |s.loops[li]| >= 3 ==>
                     Holds(points, normal, s2, start, Adjusted(li, x)))
  {
    var s1 := Insert(points, normal, s, li, ins, x, anchor);
    InsertRanged(points, normal, s, base, li, ins, x, anchor);
    RetireRanged(points, s1, base, x);
    if Holds(points, normal, s, start, li) && |s.loops[li]| >= 3 {
      InsertHolds(points, normal, s, base, start, li, ins, x, anchor);
      RetireHolds(points, normal, s1, base, start, li, x);
    }
  }

  /** List.RemoveAt on the loop and concavity lists. */
  function Retire(s: Scene, x: int): Scene
    requires Shaped(s) && 0 <= x < |s.loops|
  {
    s.(loops := RemoveAt(s.loops, x), concavities := RemoveAt(s.concavities, x))
  }

  /** The position of loop `cur` once loop `x` is removed; -1 when it is loop `cur` itself. */
  function Adjusted(cur: int, x: int): int {
    if x < cur then cur - 1 else if x == cur then -1 else cur
  }

  /** Inserting a hole keeps every index in range, records a spaced twin and keeps the lengths in step. */
  lemma InsertRanged(points: seq<Vec3>, normal: Vec3, s: Scene, base: int, li: int, ins: int, x: int, anchor: int)
    requires Ranged(points, s, base) && Shaped(s) && 0 <= li < |s.loops| && 0 <= x < |s.loops|
    requires 0 <= ins < |s.loops[li]| && 0 <= anchor < |s.loops[x]|
    ensures var s' := Insert(points, normal, s, li, ins, x, anchor);
            Ranged(points, s', base) && Shaped(s') && |s'.loops[li]| == |s.loops[li]| + |s.loops[x]| + 2
  {
    var loop, other := s.loops[li], s.loops[x];
    var edges' := s.edges + BridgeEdges(s.edges, loop, ins, other, anchor);
    var merged := MergedLoop(loop, ins, other, anchor, |s.edges| + 2, |s.edges|);
    MergedEntries(s.edges, loop, ins, other, anchor);
    var concavity := MergedConcavity(points, edges', merged, s.concavities[li], ins, s.concavities[x], anchor, normal);
    InsertWithRanged(points, s, base, li, ins, x, anchor, concavity);
  }

  /** InsertRanged for any concavity list of the merged loop's length. */
  lemma InsertWithRanged(points: seq<Vec3>, s: Scene, base: int, li: int, ins: int, x: int, anchor: int, concavity: seq<bool>)
    requires Ranged(points, s, base) && Shaped(s) && 0 <= li < |s.loops| && 0 <= x < |s.loops|
    requires 0 <= ins < |s.loops[li]| && 0 <= anchor < |s.loops[x]|
    requires |concavity| == |s.loops[li]| + |s.loops[x]| + 2
    ensures var s' := InsertWith(s, li, ins, x, anchor, concavity);
            Ranged(points, s', base) && Shaped(s') && |s'.loops[li]| == |s.loops[li]| + |s.loops[x]| + 2
  {
    var s' := InsertWith(s, li, ins, x, anchor, concavity);
    MergedEntries(s.edges, s.loops[li], ins, s.loops[x], anchor);
    forall k | 0 <= k < |s'.loops|
      ensures Entries(s'.loops[k], |s'.edges|)
    {
      if k != li {
        assert Entries(s.loops[k], |s.edges|);
      }
    }
    var n := |s.edges|;
    assert s'.edges[n] == s'.edges[n + 3] && s'.edges[n + 1] == s'.edges[n + 2];
    assert forall k :: 0 <= k < |s.dups| ==> s'.dups[k] == s.dups[k];
  }

  /** Swallowing a hole into a sound loop leaves a sound loop. */
  lemma InsertSound(points: seq<Vec3>, normal: Vec3, edges: seq<int>, loop: seq<int>, concavity: seq<bool>, ins: int,
                    other: seq<int>, otherConcavity: seq<bool>, anchor: int)
    requires PointRefs(edges, |points|) && Entries(loop, |edges|) && Entries(other, |edges|)
    requires 0 <= ins < |loop| && 0 <= anchor < |other| && |edges| % 2 == 0
    requires Sound(points, edges, loop, concavity, normal) && Sound(points, edges, other, otherConcavity, normal)
    ensures var edges' := edges + BridgeEdges(edges, loop, ins, other, anchor);
            var merged := MergedLoop(loop, ins, other, anchor, |edges| + 2, |edges|);
            && PointRefs(edges', |points|) && Entries(merged, |edges'|)
            && Sound(points, edges', merged, MergedConcavity(points, edges', merged, concavity, ins, otherConcavity, anchor, normal), normal)
  {
    MergeKeepsChain(edges, loop, ins, other, anchor);
    MergeKeepsConsistent(points, edges, loop, concavity, ins, other, otherConcavity, anchor, normal);
    MergeKeepsEven(loop, ins, other, anchor, |edges| + 2, |edges|);
  }

  /**
   * Swallowing another loop into loop `li` (of three or more edges) keeps
   * the invariant: the merged loop is sound, every other loop keeps its
   * corners on the longer edge list, and the triangles are untouched.
   */
  lemma InsertHolds(points: seq<Vec3>, normal: Vec3, s: Scene, base: int, start: int, li: int, ins: int, x: int, anchor: int)
    requires Ranged(points, s, base) && Shaped(s) && 0 <= li < |s.loops| && 0 <= x < |s.loops| && x != li
    requires 0 <= ins < |s.loops[li]| && 0 <= anchor < |s.loops[x]|
    requires Holds(points, normal, s, start, li) && |s.loops[li]| >= 3
    ensures var s' := Insert(points, normal, s, li, ins, x, anchor);
            Indexed(points, s') && Holds(points, normal, s', start, li)
  {
    var edges, loop, other, c0, c1 := s.edges, s.loops[li], s.loops[x], s.concavities[li], s.concavities[x];
    assert Sound(points, edges, loop, c0, normal) && Sound(points, edges, other, c1, normal);
    InsertSound(points, normal, edges, loop, c0, ins, other, c1, anchor);
    var edges' := edges + BridgeEdges(edges, loop, ins, other, anchor);
    var merged := MergedLoop(loop, ins, other, anchor, |edges| + 2, |edges|);
    var c := MergedConcavity(points, edges', merged, c0, ins, c1, anchor, normal);
    assert Insert(points, normal, s, li, ins, x, anchor) == InsertWith(s, li, ins, x, anchor, c);
    InsertWithHolds(points, normal, s, base, start, li, ins, x, anchor, edges', merged, c);
  }

  /**
   * InsertHolds for any concavity list that makes the merged loop sound:
   * the other loops stay sound on the longer edge list, the triangles are
   * untouched and the new duplicate slot is even.
   */
  lemma InsertWithHolds(points: seq<Vec3>, normal: Vec3, s: Scene, base: int, start: int, li: int, ins: int, x: int, anchor: int,
                        edges': seq<int>, merged: seq<int>, concavity: seq<bool>)
    requires Ranged(points, s, base) && Shaped(s) && 0 <= li < |s.loops| && 0 <= x < |s.loops|
    requires 0 <= ins < |s.loops[li]| && 0 <= anchor < |s.loops[x]|
    requires Holds(points, normal, s, start, li)
    requires edges' == s.edges + BridgeEdges(s.edges, s.loops[li], ins, s.loops[x], anchor)
    requires merged == MergedLoop(s.loops[li], ins, s.loops[x], anchor, |s.edges| + 2, |s.edges|)
    requires |concavity| == |merged| && PointRefs(edges', |points|) && Entries(merged, |edges'|)
    requires Sound(points, edges', merged, concavity, normal)
    ensures var s' := InsertWith(s, li, ins, x, anchor, concavity);
            Indexed(points, s') && Holds(points, normal, s', start, li)
  {
    var s' := InsertWith(s, li, ins, x, anchor, concavity);
    var more := BridgeEdges(s.edges, s.loops[li], ins, s.loops[x], anchor);
    InsertWithRanged(points, s, base, li, ins, x, anchor, concavity);
    assert s'.edges == s.edges + more == edges' && |more| == 4;
    assert s'.loops[li] == merged && s'.concavities[li] == concavity;
    forall k | 0 <= k < |s'.loops| && k != li
      ensures Sound(points, s'.edges, s'.loops[k], s'.concavities[k], normal)
    {
      assert s'.loops[k] == s.loops[k] && s'.concavities[k] == s.concavities[k];
      SoundExtended(points, s.edges, more, s.loops[k], s.concavities[k], normal);
    }
    InsertTrianglesHold(points, normal, s, start, li, ins, x, anchor, concavity);
    assert s'.slots == s.slots && |s'.loops| == |s'.concavities|;
    assert EvenSlots(s'.dups) by {
      assert s'.dups == s.dups + [|s.edges| + 2];
    }
  }

  /** Swallowing a hole leaves the triangles and their slots as they were, on a longer edge list. */
  lemma InsertTrianglesHold(points: seq<Vec3>, normal: Vec3, s: Scene, start: int, li: int, ins: int, x: int, anchor: int,
                            concavity: seq<bool>)
    requires 0 <= li < |s.loops| && 0 <= x < |s.loops| && li < |s.concavities|
    requires 0 <= ins < |s.loops[li]| && 0 <= anchor < |s.loops[x]|
    requires Entries(s.loops[li], |s.edges|) && Entries(s.loops[x], |s.edges|)
    requires |s.triangles| == |s.slots| && PointRefs(s.triangles, |points|)
    requires forall t :: 0 <= start <= 3 * t && 3 * t + 2 < |s.triangles| ==>
               Framed(s.edges, s.triangles, s.slots, t) && Unfolded(points, s.triangles, t, normal)
    ensures var s' := InsertWith(s, li, ins, x, anchor, concavity);
            forall t :: 0 <= start <= 3 * t && 3 * t + 2 < |s'.triangles| ==>
              Framed(s'.edges, s'.triangles, s'.slots, t) && Unfolded(points, s'.triangles, t, normal)
  {
    var s' := InsertWith(s, li, ins, x, anchor, concavity);
    var more := BridgeEdges(s.edges, s.loops[li], ins, s.loops[x], anchor);
    forall t | 0 <= start <= 3 * t && 3 * t + 2 < |s'.triangles|
      ensures Framed(s'.edges, s'.triangles, s'.slots, t)
    {
      FramedExtended(s.edges, more, s.triangles, s.slots, s'.triangles, s'.slots, t);
    }
  }

  /** Removing a loop keeps every index in range. */
  lemma RetireRanged(points: seq<Vec3>, s: Scene, base: int, x: int)
    requires Ranged(points, s, base) && Shaped(s) && 0 <= x < |s.loops|
    ensures Ranged(points, Retire(s, x), base) && Shaped(Retire(s, x))
  {
    var s' := Retire(s, x);
    forall k | 0 <= k < |s'.loops|
      ensures Entries(s'.loops[k], |s'.edges|) && |s'.concavities[k]| == |s'.loops[k]|
    {
      var o := if k < x then k else k + 1;
      assert s'.loops[k] == s.loops[o] && s'.concavities[k] == s.concavities[o];
    }
  }

  /** Removing loop `x` keeps the invariant, with loop `cur` moved to its new position. */
  lemma RetireHolds(points: seq<Vec3>, normal: Vec3, s: Scene, base: int, start: int, cur: int, x: int)
    requires Ranged(points, s, base) && Shaped(s) && 0 <= x < |s.loops|
    requires Holds(points, normal, s, start, cur)
    ensures Indexed(points, Retire(s, x)) && Holds(points, normal, Retire(s, x), start, Adjusted(cur, x))
  {
    var s' := Retire(s, x);
    RetireRanged(points, s, base, x);
    forall k | 0 <= k < |s'.loops| && (k != Adjusted(cur, x) || |s'.loops[k]| >= 3)
      ensures Sound(points, s'.edges, s'.loops[k], s'.concavities[k], normal)
    {
      var o := if k < x then k else k + 1;
      assert s'.loops[k] == s.loops[o] && s'.concavities[k] == s.concavities[o];
    }
  }

  /** Once loop `cur` has three or more edges again, the invariant holds with no exception. */
  lemma Settled(points: seq<Vec3>, normal: Vec3, s: Scene, start: int, cur: int)
    requires Indexed(points, s) && Holds(points, normal, s, start, cur)
    requires 0 <= cur < |s.loops| ==> |s.loops[cur]| >= 3
    ensures Holds(points, normal, s, start, -1)
  {
  }

  // ---------------------------------------------------------------------------
  // Start and finish of the pass
  // ---------------------------------------------------------------------------

  /**
   * The pass starts from the invariant: on an even-length edge list whose
   * located loops are chained, the initial concavity lists agree with the
   * corners, and there are no triangles from `start` on yet.
   */
  lemma LocatedHolds(points: seq<Vec3>, normal: Vec3, edges: seq<int>, triangles: seq<int>, slots: seq<int>,
                     loops: seq<seq<int>>, concavities: seq<seq<bool>>)
    requires PointRefs(edges, |points|) && Located(edges, loops)
    requires |edges| % 2 == 0 && forall k :: 0 <= k < |loops| ==> Chained(edges, loops[k])
    requires Indexed(points, Scene(edges, triangles, slots, loops, [], []))
    requires |concavities| == |loops| && forall k :: 0 <= k < |loops| ==> concavities[k] == StartCorners(points, edges, loops[k], normal)
    ensures var s := Scene(edges, triangles, slots, loops, concavities, []);
            Indexed(points, s) && Shaped(s) && Holds(points, normal, s, |triangles|, -1)
  {
    forall k | 0 <= k < |loops|
      ensures Sound(points, edges, loops[k], concavities[k], normal)
    {
      StartCornersConsistent(points, edges, loops[k], normal);
    }
  }

  /** Removing the duplicates at the end keeps triangle `t` going round its (still even) edge slots. */
  lemma DeduplicatedFramed(points: seq<Vec3>, normal: Vec3, s: Scene, base: int, start: int, t: int)
    requires Ranged(points, s, base) && Holds(points, normal, s, start, -1)
    requires 0 <= start <= 3 * t && 3 * t + 2 < |s.triangles|
    ensures Spaced(s.dups, 0, |s.edges|)
    ensures var r := Deduplicated(s.edges, s.slots, s.dups);
            && r.1[3 * t] % 2 == 0 && r.1[3 * t + 1] % 2 == 0 && r.1[3 * t + 2] % 2 == 0
            && Framed(r.0, s.triangles, r.1, t)
  {
    assert Framed(s.edges, s.triangles, s.slots, t);
    DeduplicatedKeepsEnds(s.edges, s.slots, s.dups, 3 * t);
    DeduplicatedKeepsEnds(s.edges, s.slots, s.dups, 3 * t + 1);
    DeduplicatedKeepsEnds(s.edges, s.slots, s.dups, 3 * t + 2);
  }

  /**
   * Removing the duplicates at the end keeps every triangle from `start` on
   * going round its (still even) edge slots.
   */
  lemma DeduplicatedHolds(points: seq<Vec3>, normal: Vec3, s: Scene, base: int, start: int)
    requires Ranged(points, s, base) && Holds(points, normal, s, start, -1) && start % 3 == 0
    ensures Spaced(s.dups, 0, |s.edges|)
    ensures var r := Deduplicated(s.edges, s.slots, s.dups);
            && (forall k :: 0 <= start <= k < |r.1| ==> r.1[k] % 2 == 0)
            && forall t :: 0 <= start <= 3 * t && 3 * t + 2 < |s.triangles| ==> Framed(r.0, s.triangles, r.1, t)
  {
    var r := Deduplicated(s.edges, s.slots, s.dups);
    forall t | 0 <= start <= 3 * t && 3 * t + 2 < |s.triangles|
      ensures Framed(r.0, s.triangles, r.1, t)
    {
      DeduplicatedFramed(points, normal, s, base, start, t);
    }
    var q := |s.triangles| / 3;
    assert |s.triangles| == 3 * q;
    forall k | 0 <= start <= k < |r.1|
      ensures r.1[k] % 2 == 0
    {
      var t := k / 3;
      assert 3 * t <= k < 3 * t + 3 && t < q;
      DeduplicatedFramed(points, normal, s, base, start, t);
    }
  }
}
