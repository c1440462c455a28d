/**
 * The geometry of the chart component: where a drawn baseline crosses the sampled curve,
 * which stretches between consecutive crossings are peaks, the polygons that outline them,
 * the snapping of an x position to the nearest sample, and the drag that moves one end of a
 * stored baseline onto a sample.
 */
module ChartComponent {
  import opened Wrappers
  import opened DataPoint
  import opened StableSort

  /** A drawn baseline, the `line` argument destructured as `[p1, p2]`. */
  datatype Segment = Segment(p1: Sample, p2: Sample)

  /** Which end of a stored baseline a drag handle moves (`data-point-type`). */
  datatype Endpoint = Start | End

  // ---------------------------------------------------------------------------------------
  // Points on a segment

  /** The point a + t·(b − a). */
  function Lerp(a: Sample, b: Sample, t: real): (r: Sample) {
    Sample(a.rtime + t * (b.rtime - a.rtime), a.intensity + t * (b.intensity - a.intensity))
  }

  /** q lies on the closed segment from a to b. */
  ghost predicate OnSegment(q: Sample, a: Sample, b: Sample) {
    exists t :: 0.0 <= t <= 1.0 && q == Lerp(a, b, t)
  }

  /**
   * The cross product of the baseline's direction with p − p1: zero exactly when p lies on the
   * infinite line through the baseline, and of opposite signs on its two sides.
   */
  function Orientation(line: Segment, p: Sample): (r: real) {
    (line.p2.rtime - line.p1.rtime) * (p.intensity - line.p1.intensity)
      - (line.p2.intensity - line.p1.intensity) * (p.rtime - line.p1.rtime)
  }

  /** A point of a segment lies in the box spanned by the segment's end points. */
  lemma LerpInSpan(a: Sample, b: Sample, t: real)
    requires 0.0 <= t <= 1.0
    ensures InSpan(Lerp(a, b, t).rtime, a.rtime, b.rtime)
    ensures InSpan(Lerp(a, b, t).intensity, a.intensity, b.intensity)
  {
    ScaledInSpan(a.rtime, b.rtime, t);
    ScaledInSpan(a.intensity, b.intensity, t);
  }

  lemma ScaledInSpan(a: real, b: real, t: real)
    requires 0.0 <= t <= 1.0
    ensures InSpan(a + t * (b - a), a, b)
  {
    if a <= b {
      ScaledRising(a, b, t);
    } else {
      ScaledFalling(a, b, t);
    }
  }

  lemma ScaledRising(a: real, b: real, t: real)
    requires 0.0 <= t <= 1.0 && a <= b
    ensures a <= a + t * (b - a) <= b
  {
    ScaledDifferenceBounds(t, b, a);
  }

  lemma ScaledFalling(a: real, b: real, t: real)
    requires 0.0 <= t <= 1.0 && b < a
    ensures b <= a + t * (b - a) <= a
  {
    ScaledDifferenceBounds(t, a, b);
    assert t * (b - a) == -(t * (a - b));
  }

  /** A fraction t of a non-negative difference x − y lies between 0 and the difference. */
  lemma ScaledDifferenceBounds(t: real, x: real, y: real)
    requires 0.0 <= t <= 1.0 && y <= x
    ensures 0.0 <= t * (x - y) <= x - y
  {
    assert t * (x - y) == t * x - t * y;
    MulMonotone(t, y, x);
    MulMonotone(1.0 - t, y, x);
    assert (1.0 - t) * x == x - t * x;
    assert (1.0 - t) * y == y - t * y;
  }

  lemma MulMonotone(t: real, y: real, x: real)
    requires 0.0 <= t && y <= x
    ensures t * y <= t * x
  {
  }

  /** A convex combination of two numbers of the same strict sign keeps that sign. */
  lemma ConvexKeepsSign(a: real, b: real, u: real)
    requires 0.0 <= u <= 1.0
    ensures a > 0.0 && b > 0.0 ==> (1.0 - u) * a + u * b > 0.0
    ensures a < 0.0 && b < 0.0 ==> (1.0 - u) * a + u * b < 0.0
  {
    if a > 0.0 && b > 0.0 {
      if u <= 0.5 {
        assert (1.0 - u) * a >= 0.5 * a;
        assert u * b >= 0.0;
      } else {
        assert u * b >= 0.5 * b;
        assert (1.0 - u) * a >= 0.0;
      }
    }
    if a < 0.0 && b < 0.0 {
      if u <= 0.5 {
        assert (1.0 - u) * a <= 0.5 * a;
        assert u * b <= 0.0;
      } else {
        assert u * b <= 0.5 * b;
        assert (1.0 - u) * a <= 0.0;
      }
    }
  }

  /** Cramer's rule for the crossing: the two parameters recovered from the scaled numerators. */
  lemma CramerIdentity(rx: real, ry: real, sx: real, sy: real, t: real, u: real, d: real)
    requires d == sx * ry - sy * rx
    ensures sy * (u * sx - t * rx) - sx * (u * sy - t * ry) == t * d
    ensures ry * (u * sx - t * rx) - rx * (u * sy - t * ry) == u * d
  {
    assert sy * (u * sx - t * rx) == u * sx * sy - t * rx * sy;
    assert sx * (u * sy - t * ry) == u * sx * sy - t * ry * sx;
    assert ry * (u * sx - t * rx) == u * sx * ry - t * rx * ry;
    assert rx * (u * sy - t * ry) == u * sy * rx - t * rx * ry;
  }

  lemma DivideOut(a: real, d: real, t: real)
    requires d != 0.0 && a == t * d
    ensures a / d == t
  {
  }

  /** The orientation is affine along a segment. */
  lemma OrientationAffine(line: Segment, a: Sample, b: Sample, u: real)
    ensures Orientation(line, Lerp(a, b, u)) == (1.0 - u) * Orientation(line, a) + u * Orientation(line, b)
  {
  }

  /** Every point of the baseline itself has orientation zero. */
  lemma OrientationOnLine(line: Segment, t: real)
    ensures Orientation(line, Lerp(line.p1, line.p2, t)) == 0.0
  {
  }

  // ---------------------------------------------------------------------------------------
  // Intersection of the baseline with one curve edge (findIntersections' loop body)

  /** The determinant of the two direction vectors; zero when the lines are parallel or degenerate. */
  function Denominator(line: Segment, p3: Sample, p4: Sample): (r: real) {
    (p4.rtime - p3.rtime) * (line.p2.intensity - line.p1.intensity)
      - (p4.intensity - p3.intensity) * (line.p2.rtime - line.p1.rtime)
  }

  /** ua · denominator: the position of the crossing along the baseline, scaled. */
  function UaNumerator(line: Segment, p3: Sample, p4: Sample): (r: real) {
    (p4.intensity - p3.intensity) * (line.p1.rtime - p3.rtime)
      - (p4.rtime - p3.rtime) * (line.p1.intensity - p3.intensity)
  }

  /** ub · denominator: the position of the crossing along the curve edge, scaled. */
  function UbNumerator(line: Segment, p3: Sample, p4: Sample): (r: real) {
    (line.p2.intensity - line.p1.intensity) * (line.p1.rtime - p3.rtime)
      - (line.p2.rtime - line.p1.rtime) * (line.p1.intensity - p3.intensity)
  }

  /** Where the lines cross, the point at ua along the baseline is the point at ub along the edge. */
  lemma CrossingPoint(line: Segment, p3: Sample, p4: Sample)
    requires Denominator(line, p3, p4) != 0.0
    ensures var d := Denominator(line, p3, p4);
      Lerp(line.p1, line.p2, UaNumerator(line, p3, p4) / d) == Lerp(p3, p4, UbNumerator(line, p3, p4) / d)
  {
    var d := Denominator(line, p3, p4);
    var ua, ub := UaNumerator(line, p3, p4) / d, UbNumerator(line, p3, p4) / d;
    CrossingSolved(line, p3, p4, ua, ub);
  }

  /** Parameters that solve ua·d = ua-numerator and ub·d = ub-numerator name the same point. */
  lemma CrossingSolved(line: Segment, p3: Sample, p4: Sample, ua: real, ub: real)
    requires Denominator(line, p3, p4) != 0.0
    requires ua * Denominator(line, p3, p4) == UaNumerator(line, p3, p4)
    requires ub * Denominator(line, p3, p4) == UbNumerator(line, p3, p4)
    ensures Lerp(line.p1, line.p2, ua) == Lerp(p3, p4, ub)
  {
    CramerCrossing(line.p1.rtime, line.p1.intensity, line.p2.rtime, line.p2.intensity,
                   p3.rtime, p3.intensity, p4.rtime, p4.intensity, ua, ub);
    assert line.p1.rtime + ua * (line.p2.rtime - line.p1.rtime) == p3.rtime + ub * (p4.rtime - p3.rtime);
    assert line.p1.intensity + ua * (line.p2.intensity - line.p1.intensity)
        == p3.intensity + ub * (p4.intensity - p3.intensity);
    assert Lerp(line.p1, line.p2, ua).rtime == Lerp(p3, p4, ub).rtime;
    assert Lerp(line.p1, line.p2, ua).intensity == Lerp(p3, p4, ub).intensity;
  }

  /** Cramer's rule for the crossing, in coordinates: ua and ub solve both component equations. */
  lemma CramerCrossing(x1: real, y1: real, x2: real, y2: real, x3: real, y3: real, x4: real, y4: real,
                       ua: real, ub: real)
    requires (x4 - x3) * (y2 - y1) - (y4 - y3) * (x2 - x1) != 0.0
    requires ua * ((x4 - x3) * (y2 - y1) - (y4 - y3) * (x2 - x1)) == (y4 - y3) * (x1 - x3) - (x4 - x3) * (y1 - y3)
    requires ub * ((x4 - x3) * (y2 - y1) - (y4 - y3) * (x2 - x1)) == (y2 - y1) * (x1 - x3) - (x2 - x1) * (y1 - y3)
    ensures x1 + ua * (x2 - x1) == x3 + ub * (x4 - x3)
    ensures y1 + ua * (y2 - y1) == y3 + ub * (y4 - y3)
  {
    var rx, ry, sx, sy, wx, wy := x2 - x1, y2 - y1, x4 - x3, y4 - y3, x1 - x3, y1 - y3;
    var d := sx * ry - sy * rx;
    assert ua * d == sy * wx - sx * wy;
    assert ub * d == ry * wx - rx * wy;
    assert (wx + ua * rx - ub * sx) * d == 0.0 by {
      calc {
        (wx + ua * rx - ub * sx) * d;
        wx * d + (ua * d) * rx - (ub * d) * sx;
        wx * d + (sy * wx - sx * wy) * rx - (ry * wx - rx * wy) * sx;
        0.0;
      }
    }
    assert (wy + ua * ry - ub * sy) * d == 0.0 by {
      calc {
        (wy + ua * ry - ub * sy) * d;
        wy * d + (ua * d) * ry - (ub * d) * sy;
        wy * d + (sy * wx - sx * wy) * ry - (ry * wx - rx * wy) * sy;
        0.0;
      }
    }
  }

  /**
   * The crossing contributed by the curve edge p3–p4, if any: none when the denominator is
   * zero (parallel or collinear edges, even overlapping ones), none when the crossing of the
   * infinite lines falls outside either finite segment (ua or ub outside [0, 1]).
   */
  function EdgeHit(line: Segment, p3: Sample, p4: Sample): (r: Option<Sample>)
    ensures r.Some? ==> Denominator(line, p3, p4) != 0.0
    ensures r.Some? ==> OnSegment(r.value, line.p1, line.p2) && OnSegment(r.value, p3, p4)
  {
    var d := Denominator(line, p3, p4);
    if d == 0.0 then None
    else
      var ua := UaNumerator(line, p3, p4) / d;
      var ub := UbNumerator(line, p3, p4) / d;
      if 0.0 <= ua <= 1.0 && 0.0 <= ub <= 1.0 then
        CrossingPoint(line, p3, p4);
        Some(Lerp(line.p1, line.p2, ua))
      else None
  }

  /**
   * Conversely, a point that lies on both finite segments of a non-parallel pair is found:
   * the edge test misses no crossing.
   */
  lemma EdgeHitComplete(line: Segment, p3: Sample, p4: Sample, q: Sample)
    requires Denominator(line, p3, p4) != 0.0
    requires OnSegment(q, line.p1, line.p2) && OnSegment(q, p3, p4)
    ensures EdgeHit(line, p3, p4) == Some(q)
  {
    var t :| 0.0 <= t <= 1.0 && q == Lerp(line.p1, line.p2, t);
    var u :| 0.0 <= u <= 1.0 && q == Lerp(p3, p4, u);
    CrossingAt(line, p3, p4, t, u);
    EdgeHitAccepts(line, p3, p4, t);
  }

  /** With both parameters in [0, 1] the edge test accepts, at the point ua along the baseline. */
  lemma EdgeHitAccepts(line: Segment, p3: Sample, p4: Sample, t: real)
    requires Denominator(line, p3, p4) != 0.0
    requires UaNumerator(line, p3, p4) / Denominator(line, p3, p4) == t && 0.0 <= t <= 1.0
    requires 0.0 <= UbNumerator(line, p3, p4) / Denominator(line, p3, p4) <= 1.0
    ensures EdgeHit(line, p3, p4) == Some(Lerp(line.p1, line.p2, t))
  {
  }

  /** An edge with a zero determinant (parallel or collinear with the baseline) is skipped. */
  lemma EdgeHitParallel(line: Segment, p3: Sample, p4: Sample)
    requires Denominator(line, p3, p4) == 0.0
    ensures EdgeHit(line, p3, p4) == None
  {
  }

  /** With ua or ub outside [0, 1] the lines cross outside one of the two finite segments: no hit. */
  lemma EdgeHitRejects(line: Segment, p3: Sample, p4: Sample)
    requires Denominator(line, p3, p4) != 0.0
    requires !(0.0 <= UaNumerator(line, p3, p4) / Denominator(line, p3, p4) <= 1.0
               && 0.0 <= UbNumerator(line, p3, p4) / Denominator(line, p3, p4) <= 1.0)
    ensures EdgeHit(line, p3, p4) == None
  {
  }

  /** A common point at t along the baseline and u along the edge gives ua = t and ub = u. */
  lemma CrossingAt(line: Segment, p3: Sample, p4: Sample, t: real, u: real)
    requires Denominator(line, p3, p4) != 0.0
    requires Lerp(line.p1, line.p2, t) == Lerp(p3, p4, u)
    ensures UaNumerator(line, p3, p4) / Denominator(line, p3, p4) == t
    ensures UbNumerator(line, p3, p4) / Denominator(line, p3, p4) == u
  {
    CrossingCoordinates(line, p3, p4, t, u);
    CrossingAtBaseline(line, p3, p4, t, u);
    CrossingAtEdge(line, p3, p4, t, u);
  }

  /** The common point, coordinate by coordinate. */
  lemma CrossingCoordinates(line: Segment, p3: Sample, p4: Sample, t: real, u: real)
    requires Lerp(line.p1, line.p2, t) == Lerp(p3, p4, u)
    ensures line.p1.rtime + t * (line.p2.rtime - line.p1.rtime) == p3.rtime + u * (p4.rtime - p3.rtime)
    ensures line.p1.intensity + t * (line.p2.intensity - line.p1.intensity)
         == p3.intensity + u * (p4.intensity - p3.intensity)
  {
  }

  lemma CrossingAtBaseline(line: Segment, p3: Sample, p4: Sample, t: real, u: real)
    requires Denominator(line, p3, p4) != 0.0
    requires line.p1.rtime + t * (line.p2.rtime - line.p1.rtime) == p3.rtime + u * (p4.rtime - p3.rtime)
    requires line.p1.intensity + t * (line.p2.intensity - line.p1.intensity)
          == p3.intensity + u * (p4.intensity - p3.intensity)
    ensures UaNumerator(line, p3, p4) / Denominator(line, p3, p4) == t
  {
    CrossingParameters(line.p1.rtime, line.p1.intensity, line.p2.rtime, line.p2.intensity,
                       p3.rtime, p3.intensity, p4.rtime, p4.intensity, t, u);
  }

  lemma CrossingAtEdge(line: Segment, p3: Sample, p4: Sample, t: real, u: real)
    requires Denominator(line, p3, p4) != 0.0
    requires line.p1.rtime + t * (line.p2.rtime - line.p1.rtime) == p3.rtime + u * (p4.rtime - p3.rtime)
    requires line.p1.intensity + t * (line.p2.intensity - line.p1.intensity)
          == p3.intensity + u * (p4.intensity - p3.intensity)
    ensures UbNumerator(line, p3, p4) / Denominator(line, p3, p4) == u
  {
    CrossingParameters(line.p1.rtime, line.p1.intensity, line.p2.rtime, line.p2.intensity,
                       p3.rtime, p3.intensity, p4.rtime, p4.intensity, t, u);
  }

  /** SolveCrossing in the coordinates of the four end points, as the edge test writes them. */
  lemma CrossingParameters(x1: real, y1: real, x2: real, y2: real,
                           x3: real, y3: real, x4: real, y4: real, t: real, u: real)
    requires (x4 - x3) * (y2 - y1) - (y4 - y3) * (x2 - x1) != 0.0
    requires x1 + t * (x2 - x1) == x3 + u * (x4 - x3)
    requires y1 + t * (y2 - y1) == y3 + u * (y4 - y3)
    ensures ((y4 - y3) * (x1 - x3) - (x4 - x3) * (y1 - y3)) / ((x4 - x3) * (y2 - y1) - (y4 - y3) * (x2 - x1)) == t
    ensures ((y2 - y1) * (x1 - x3) - (x2 - x1) * (y1 - y3)) / ((x4 - x3) * (y2 - y1) - (y4 - y3) * (x2 - x1)) == u
  {
    SolveCrossing(x2 - x1, y2 - y1, x4 - x3, y4 - y3, x1 - x3, y1 - y3, t, u);
  }

  /** The two crossing parameters, recovered by Cramer's rule from the vector equation w + t·r = u·s. */
  lemma SolveCrossing(rx: real, ry: real, sx: real, sy: real, wx: real, wy: real, t: real, u: real)
    requires sx * ry - sy * rx != 0.0
    requires wx + t * rx == u * sx && wy + t * ry == u * sy
    ensures (sy * wx - sx * wy) / (sx * ry - sy * rx) == t
    ensures (ry * wx - rx * wy) / (sx * ry - sy * rx) == u
  {
    var d := sx * ry - sy * rx;
    assert wx == u * sx - t * rx && wy == u * sy - t * ry;
    CramerIdentity(rx, ry, sx, sy, t, u, d);
    assert sy * wx - sx * wy == t * d by {
      assert sy * wx == sy * (u * sx - t * rx) && sx * wy == sx * (u * sy - t * ry);
    }
    assert ry * wx - rx * wy == u * d by {
      assert ry * wx == ry * (u * sx - t * rx) && rx * wy == rx * (u * sy - t * ry);
    }
    DivideOut(sy * wx - sx * wy, d, t);
    DivideOut(ry * wx - rx * wy, d, u);
  }

  // ---------------------------------------------------------------------------------------
  // findIntersections

  /** The outcome of the crossing test on each consecutive curve edge, in edge order. */
  function EdgeHits(line: Segment, data: seq<Sample>): (r: seq<Option<Sample>>)
    ensures |r| == if |data| < 2 then 0 else |data| - 1
  {
    if |data| < 2 then [] else EdgeHits(line, data[..|data| - 1]) + [EdgeHit(line, data[|data| - 2], data[|data| - 1])]
  }

  lemma {:induction false} EdgeHitsAt(line: Segment, data: seq<Sample>, i: nat)
    requires i < |data| - 1
    ensures EdgeHits(line, data)[i] == EdgeHit(line, data[i], data[i + 1])
  {
    if i < |data| - 2 {
      EdgeHitsAt(line, data[..|data| - 1], i);
    }
  }

  /** The crossings of the baseline with the whole curve, in edge order, before sorting. */
  function Hits(line: Segment, data: seq<Sample>): (r: seq<Sample>)
    ensures |data| < 2 ==> r == []
    ensures |data| >= 2 ==> |r| <= |data| - 1
  {
    Somes(EdgeHits(line, data))
  }

  /** Every crossing found comes from some curve edge. */
  lemma HitsSound(line: Segment, data: seq<Sample>, q: Sample)
    requires q in Hits(line, data)
    ensures exists i :: 0 <= i < |data| - 1 && EdgeHit(line, data[i], data[i + 1]) == Some(q)
  {
    var edges := EdgeHits(line, data);
    SomesMembership(edges, q);
    var i :| 0 <= i < |edges| && edges[i] == Some(q);
    EdgeHitsAt(line, data, i);
  }

  /** Every curve edge that the baseline crosses contributes its crossing. */
  lemma HitsComplete(line: Segment, data: seq<Sample>, i: nat)
    requires i < |data| - 1
    requires EdgeHit(line, data[i], data[i + 1]).Some?
    ensures EdgeHit(line, data[i], data[i + 1]).value in Hits(line, data)
  {
    EdgeHitsAt(line, data, i);
    SomesMembership(EdgeHits(line, data), EdgeHit(line, data[i], data[i + 1]).value);
  }

  /** A crossing lies on the baseline and within its retention-time and intensity spans. */
  lemma HitOnBaseline(line: Segment, data: seq<Sample>, q: Sample)
    requires q in Hits(line, data)
    ensures OnSegment(q, line.p1, line.p2)
    ensures InSpan(q.rtime, line.p1.rtime, line.p2.rtime)
    ensures InSpan(q.intensity, line.p1.intensity, line.p2.intensity)
    ensures Orientation(line, q) == 0.0
  {
    HitsSound(line, data, q);
    var t :| 0.0 <= t <= 1.0 && q == Lerp(line.p1, line.p2, t);
    LerpInSpan(line.p1, line.p2, t);
    OrientationOnLine(line, t);
  }

  /** A crossing lies on some curve edge, within that edge's retention-time and intensity spans. */
  lemma HitOnCurve(line: Segment, data: seq<Sample>, q: Sample)
    requires q in Hits(line, data)
    ensures exists i :: (0 <= i < |data| - 1 && OnSegment(q, data[i], data[i + 1])
                         && InSpan(q.rtime, data[i].rtime, data[i + 1].rtime)
                         && InSpan(q.intensity, data[i].intensity, data[i + 1].intensity))
  {
    HitsSound(line, data, q);
    var i :| 0 <= i < |data| - 1 && EdgeHit(line, data[i], data[i + 1]) == Some(q);
    var u :| 0.0 <= u <= 1.0 && q == Lerp(data[i], data[i + 1], u);
    LerpInSpan(data[i], data[i + 1], u);
  }

  /** An edge whose two end points lie strictly on the same side of the baseline's line is not crossed. */
  lemma SameSideNoHit(line: Segment, a: Sample, b: Sample)
    requires (Orientation(line, a) > 0.0 && Orientation(line, b) > 0.0)
          || (Orientation(line, a) < 0.0 && Orientation(line, b) < 0.0)
    ensures EdgeHit(line, a, b) == None
  {
    if EdgeHit(line, a, b).Some? {
      var q := EdgeHit(line, a, b).value;
      var t :| 0.0 <= t <= 1.0 && q == Lerp(line.p1, line.p2, t);
      var u :| 0.0 <= u <= 1.0 && q == Lerp(a, b, u);
      OrientationOnLine(line, t);
      OrientationAffine(line, a, b, u);
      ConvexKeepsSign(Orientation(line, a), Orientation(line, b), u);
    }
  }

  /**
   * A baseline whose infinite line has every sample strictly on one side of it (entirely above
   * or entirely below the curve) crosses nothing.
   */
  lemma NoCrossingNoHits(line: Segment, data: seq<Sample>, side: real)
    requires side == 1.0 || side == -1.0
    requires forall k :: 0 <= k < |data| ==> side * Orientation(line, data[k]) > 0.0
    ensures Hits(line, data) == []
  {
    if Hits(line, data) != [] {
      var q := Hits(line, data)[0];
      HitsSound(line, data, q);
      var i :| 0 <= i < |data| - 1 && EdgeHit(line, data[i], data[i + 1]) == Some(q);
      assert side * Orientation(line, data[i]) > 0.0 && side * Orientation(line, data[i + 1]) > 0.0;
      SameSideNoHit(line, data[i], data[i + 1]);
    }
  }

  /**
   * findIntersections: tests each consecutive curve edge in turn, pushes the accepted
   * crossings, and returns them sorted by retention time.
   */
  method FindIntersections(line: Segment, data: seq<Sample>) returns (intersections: seq<Sample>)
    ensures intersections == SortByRtime(Hits(line, data))
    ensures Sorted(intersections)
    ensures multiset(intersections) == multiset(Hits(line, data))
  {
    var hits: seq<Sample> := [];
    ghost var edges := EdgeHits(line, data);
    var i := 0;
    while i < |data| - 1
      invariant i <= |edges|
      invariant hits == SomesUpTo(edges, i)
    {
      var p3, p4 := data[i], data[i + 1];
      EdgeHitsAt(line, data, i);
      var denominator := Denominator(line, p3, p4);
      if denominator == 0.0 {
        assert edges[i] == None by { EdgeHitParallel(line, p3, p4); }
      } else {
        var ua := UaNumerator(line, p3, p4) / denominator;
        var ub := UbNumerator(line, p3, p4) / denominator;
        if ua >= 0.0 && ua <= 1.0 && ub >= 0.0 && ub <= 1.0 {
          var hit := Lerp(line.p1, line.p2, ua);
          assert edges[i] == Some(hit) by { EdgeHitAccepts(line, p3, p4, ua); }
          hits := hits + [hit];
        } else {
          assert edges[i] == None by { EdgeHitRejects(line, p3, p4); }
        }
      }
      i := i + 1;
    }
    assert i == |edges|;
    assert hits == Hits(line, data);
    intersections := SortSamples(hits);
    SortByRtimeSorted(hits);
    SortByRtimePermutes(hits);
  }

  // ---------------------------------------------------------------------------------------
  // getLineYAtX and the peak test

  /**
   * The baseline's intensity at retention time x, by linear interpolation between its end
   * points. A vertical baseline (equal retention times) has none: the source divides 0 by 0
   * there and gets NaN, which no comparison accepts.
   */
  function LineYAtX(x: real, line: Segment): (r: Option<real>)
    ensures r.None? <==> line.p1.rtime == line.p2.rtime
  {
    var p1, p2 := line.p1, line.p2;
    if p2.rtime - p1.rtime == 0.0 then None
    else Some(p1.intensity + ((x - p1.rtime) / (p2.rtime - p1.rtime)) * (p2.intensity - p1.intensity))
  }

  /**
   * The interpolated intensity is the one point at x on the infinite line through the
   * baseline: (x, y) is on that line exactly when y is what LineYAtX returns.
   */
  lemma LineYAtXOnBaseline(x: real, line: Segment, y: real)
    requires line.p1.rtime != line.p2.rtime
    ensures LineYAtX(x, line) == Some(y) <==> Orientation(line, Sample(x, y)) == 0.0
  {
    InterpolationUnique(x - line.p1.rtime, y - line.p1.intensity,
                        line.p2.rtime - line.p1.rtime, line.p2.intensity - line.p1.intensity);
  }

  lemma InterpolationUnique(dx: real, dy: real, rx: real, ry: real)
    requires rx != 0.0
    ensures rx * dy - ry * dx == 0.0 <==> dy == (dx / rx) * ry
  {
    var k := dx / rx;
    assert dx == k * rx;
    assert rx * dy - ry * dx == rx * (dy - k * ry);
  }

  /** The source's `point.intensity > getLineYAtX(point.rtime, line)`, false when the result is NaN. */
  predicate AboveLine(p: Sample, line: Segment) {
    match LineYAtX(p.rtime, line)
    case None => false
    case Some(y) => p.intensity > y
  }

  /**
   * A sample is above the baseline exactly when it lies strictly on the upper side of the line
   * through it: left of p1→p2 when the baseline runs to the right, right of it otherwise.
   */
  lemma AboveLineIsUpperSide(p: Sample, line: Segment)
    ensures AboveLine(p, line) <==>
      (line.p2.rtime > line.p1.rtime && Orientation(line, p) > 0.0) ||
      (line.p2.rtime < line.p1.rtime && Orientation(line, p) < 0.0)
  {
    if line.p1.rtime != line.p2.rtime {
      var y := LineYAtX(p.rtime, line).value;
      LineYAtXOnBaseline(p.rtime, line, y);
      OrientationVertical(line, p, y);
      SignOfProduct(line.p2.rtime - line.p1.rtime, p.intensity - y);
    }
  }

  /** Moving a point straight up changes its orientation by the baseline's run times the rise. */
  lemma OrientationVertical(line: Segment, p: Sample, y: real)
    ensures Orientation(line, p) - Orientation(line, Sample(p.rtime, y))
         == (line.p2.rtime - line.p1.rtime) * (p.intensity - y)
  {
  }

  lemma SignOfProduct(a: real, b: real)
    ensures a * b > 0.0 <==> (a > 0.0 && b > 0.0) || (a < 0.0 && b < 0.0)
    ensures a * b < 0.0 <==> (a > 0.0 && b < 0.0) || (a < 0.0 && b > 0.0)
  {
    if a > 0.0 && b < 0.0 { assert a * b == -(a * -b); }
    if a < 0.0 && b > 0.0 { assert a * b == -(-a * b); }
    if a < 0.0 && b < 0.0 { assert a * b == -a * -b; }
  }

  // ---------------------------------------------------------------------------------------
  // createPolygons

  /** Some sample of the stretch lies strictly above the baseline: the loop that sets `isPeak`. */
  predicate HasPeak(line: Segment, segmentData: seq<Sample>) {
    exists k :: 0 <= k < |segmentData| && AboveLine(segmentData[k], line)
  }

  /**
   * The polygon for the stretch between two consecutive crossings, when it is a peak:
   * the start crossing, the samples whose retention time lies between the two, the end crossing.
   */
  function PeakPolygon(line: Segment, data: seq<Sample>, start: Sample, end: Sample): (r: Option<seq<Sample>>)
    ensures r.Some? ==> |r.value| >= 3
  {
    var segmentData := Within(data, start.rtime, end.rtime);
    if HasPeak(line, segmentData) && |segmentData| > 0 then Some([start] + segmentData + [end]) else None
  }

  /** The outcome of the peak test for each pair of consecutive intersections, in order. */
  function PeakCandidates(line: Segment, data: seq<Sample>, ints: seq<Sample>): (r: seq<Option<seq<Sample>>>)
    ensures |r| == if |ints| < 2 then 0 else |ints| - 1
  {
    seq(if |ints| < 2 then 0 else |ints| - 1, i requires 0 <= i < |ints| - 1 => PeakPolygon(line, data, ints[i], ints[i + 1]))
  }

  lemma PeakCandidateAt(line: Segment, data: seq<Sample>, ints: seq<Sample>, i: nat)
    requires i < |ints| - 1
    ensures PeakCandidates(line, data, ints)[i] == PeakPolygon(line, data, ints[i], ints[i + 1])
  {
  }

  /** The polygons of every pair of consecutive intersections, in order. */
  function PolygonsOf(line: Segment, data: seq<Sample>, ints: seq<Sample>): (r: seq<seq<Sample>>)
    ensures |ints| < 2 ==> r == []
    ensures |ints| >= 2 ==> |r| <= |ints| - 1
  {
    Somes(PeakCandidates(line, data, ints))
  }

  /** What createPolygons returns for a baseline and a curve. */
  function BuildPolygons(line: Segment, data: seq<Sample>): (r: seq<seq<Sample>>) {
    PolygonsOf(line, data, SortByRtime(Hits(line, data)))
  }

  /**
   * Every emitted polygon is [ints[i]] + S + [ints[i+1]] for a pair of consecutive
   * intersections, where S is the samples between them in curve order and some sample of S is
   * above the baseline.
   */
  lemma PolygonsSound(line: Segment, data: seq<Sample>, ints: seq<Sample>, poly: seq<Sample>)
    requires poly in PolygonsOf(line, data, ints)
    ensures exists i :: (0 <= i < |ints| - 1
      && HasPeak(line, Within(data, ints[i].rtime, ints[i + 1].rtime))
      && poly == [ints[i]] + Within(data, ints[i].rtime, ints[i + 1].rtime) + [ints[i + 1]])
  {
    var candidates := PeakCandidates(line, data, ints);
    SomesMembership(candidates, poly);
    var i :| 0 <= i < |candidates| && candidates[i] == Some(poly);
    PeakCandidateAt(line, data, ints, i);
    assert HasPeak(line, Within(data, ints[i].rtime, ints[i + 1].rtime));
  }

  /** Conversely, every pair of consecutive intersections whose stretch has a peak yields its polygon. */
  lemma PolygonsComplete(line: Segment, data: seq<Sample>, ints: seq<Sample>, i: nat)
    requires i < |ints| - 1
    requires HasPeak(line, Within(data, ints[i].rtime, ints[i + 1].rtime))
    ensures [ints[i]] + Within(data, ints[i].rtime, ints[i + 1].rtime) + [ints[i + 1]] in PolygonsOf(line, data, ints)
  {
    PeakCandidateAt(line, data, ints, i);
    SomesMembership(PeakCandidates(line, data, ints), [ints[i]] + Within(data, ints[i].rtime, ints[i + 1].rtime) + [ints[i + 1]]);
  }

  /** Samples on or below the baseline never make a peak: with none above it, no polygon is emitted. */
  lemma NoSampleAboveNoPolygon(line: Segment, data: seq<Sample>, ints: seq<Sample>)
    requires forall k :: 0 <= k < |data| ==> !AboveLine(data[k], line)
    ensures PolygonsOf(line, data, ints) == []
  {
    if PolygonsOf(line, data, ints) != [] {
      var poly := PolygonsOf(line, data, ints)[0];
      PolygonsSound(line, data, ints, poly);
      var i :| 0 <= i < |ints| - 1 && HasPeak(line, Within(data, ints[i].rtime, ints[i + 1].rtime));
      var stretch := Within(data, ints[i].rtime, ints[i + 1].rtime);
      var k :| 0 <= k < |stretch| && AboveLine(stretch[k], line);
      WithinMembership(data, ints[i].rtime, ints[i + 1].rtime, stretch[k]);
    }
  }

  /** A vertical baseline never yields a polygon. */
  lemma VerticalBaselineNoPolygon(line: Segment, data: seq<Sample>)
    requires line.p1.rtime == line.p2.rtime
    ensures BuildPolygons(line, data) == []
  {
    NoSampleAboveNoPolygon(line, data, SortByRtime(Hits(line, data)));
  }

  /** Each intersection createPolygons works with is a crossing of the baseline with the curve. */
  lemma SortedHitIsHit(line: Segment, data: seq<Sample>, i: nat)
    requires i < |SortByRtime(Hits(line, data))|
    ensures SortByRtime(Hits(line, data))[i] in Hits(line, data)
  {
    var ints := SortByRtime(Hits(line, data));
    SortByRtimePermutes(Hits(line, data));
    assert ints[i] in multiset(ints);
  }

  /** Each sorted intersection lies within the baseline's retention-time span. */
  lemma SortedHitInSpan(line: Segment, data: seq<Sample>, i: nat)
    requires i < |SortByRtime(Hits(line, data))|
    ensures InSpan(SortByRtime(Hits(line, data))[i].rtime, line.p1.rtime, line.p2.rtime)
  {
    SortedHitIsHit(line, data, i);
    HitOnBaseline(line, data, SortByRtime(Hits(line, data))[i]);
  }

  /**
   * For a vertical baseline the peak test only ever meets samples at the baseline's own
   * retention time: every crossing lies at that time, so does every sample between two of
   * them, and the source's interpolation there is 0/0 (NaN). This is why the None of
   * LineYAtX is what the source computes wherever it is used.
   */
  lemma VerticalBaselineTestsOnlyItsOwnTime(line: Segment, data: seq<Sample>, i: nat, s: Sample)
    requires line.p1.rtime == line.p2.rtime
    requires i < |SortByRtime(Hits(line, data))| - 1
    requires var ints := SortByRtime(Hits(line, data));
      s in Within(data, ints[i].rtime, ints[i + 1].rtime)
    ensures s.rtime == line.p1.rtime
  {
    var ints := SortByRtime(Hits(line, data));
    WithinMembership(data, ints[i].rtime, ints[i + 1].rtime, s);
    SortedHitInSpan(line, data, i);
    SortedHitInSpan(line, data, i + 1);
  }

  /** A vertex of a peak polygon is one of its two crossings or a curve sample between them. */
  lemma PeakPolygonVertex(line: Segment, data: seq<Sample>, start: Sample, end: Sample, v: Sample)
    requires PeakPolygon(line, data, start, end).Some?
    requires v in PeakPolygon(line, data, start, end).value
    ensures v == start || v == end || (v in data && start.rtime <= v.rtime <= end.rtime)
  {
    var stretch := Within(data, start.rtime, end.rtime);
    var poly := [start] + stretch + [end];
    assert PeakPolygon(line, data, start, end).value == poly;
    var j :| 0 <= j < |poly| && poly[j] == v;
    if 0 < j < |poly| - 1 {
      assert v == stretch[j - 1];
      WithinMembership(data, start.rtime, end.rtime, v);
    }
  }

  /** Every vertex of every polygon lies within the baseline's retention-time span. */
  lemma PolygonsWithinBaselineSpan(line: Segment, data: seq<Sample>, poly: seq<Sample>, v: Sample)
    requires poly in BuildPolygons(line, data)
    requires v in poly
    ensures InSpan(v.rtime, line.p1.rtime, line.p2.rtime)
  {
    var ints := SortByRtime(Hits(line, data));
    var candidates := PeakCandidates(line, data, ints);
    SomesMembership(candidates, poly);
    var i :| 0 <= i < |candidates| && candidates[i] == Some(poly);
    PeakCandidateAt(line, data, ints, i);
    var start, end := ints[i], ints[i + 1];
    PeakPolygonVertex(line, data, start, end, v);
    SortedHitInSpan(line, data, i);
    SortedHitInSpan(line, data, i + 1);
    if v != start && v != end {
      InSpanBetween(start.rtime, end.rtime, v.rtime, line.p1.rtime, line.p2.rtime);
    }
  }

  /** A span is convex: whatever lies between two of its points lies in it. */
  lemma InSpanBetween(a: real, b: real, x: real, lo: real, hi: real)
    requires InSpan(a, lo, hi) && InSpan(b, lo, hi) && a <= x <= b
    ensures InSpan(x, lo, hi)
  {
  }

  /**
   * createPolygons: finds and sorts the intersections, then for each consecutive pair collects
   * the samples between them, scans them for one above the baseline, and emits the polygon.
   */
  method CreatePolygons(line: Segment, data: seq<Sample>) returns (polygons: seq<seq<Sample>>)
    ensures polygons == BuildPolygons(line, data)
  {
    var intersections := FindIntersections(line, data);
    polygons := [];
    if |intersections| >= 2 {
      intersections := SortSamples(intersections);
      SortIdempotent(Hits(line, data));
      polygons := PolygonsBetween(line, data, intersections);
    }
  }

  /** The loop of createPolygons over consecutive pairs of (sorted) intersections. */
  method PolygonsBetween(line: Segment, data: seq<Sample>, intersections: seq<Sample>) returns (polygons: seq<seq<Sample>>)
    requires |intersections| >= 2
    ensures polygons == PolygonsOf(line, data, intersections)
  {
    polygons := [];
    ghost var candidates := PeakCandidates(line, data, intersections);
    var i := 0;
    while i < |intersections| - 1
      invariant 0 <= i < |intersections|
      invariant polygons == SomesUpTo(candidates, i)
    {
      var startPoint, endPoint := intersections[i], intersections[i + 1];
      var segmentData := Within(data, startPoint.rtime, endPoint.rtime);
      var isPeak := IsPeak(line, segmentData);
      assert candidates[i] == PeakPolygon(line, data, startPoint, endPoint);
      if isPeak && |segmentData| > 0 {
        polygons := polygons + [[startPoint] + segmentData + [endPoint]];
      }
      i := i + 1;
    }
  }

  /** The scan that sets `isPeak`: stops at the first sample strictly above the baseline. */
  method IsPeak(line: Segment, segmentData: seq<Sample>) returns (isPeak: bool)
    ensures isPeak == HasPeak(line, segmentData)
  {
    isPeak := false;
    var k := 0;
    while k < |segmentData|
      invariant 0 <= k <= |segmentData|
      invariant forall m :: 0 <= m < k ==> !AboveLine(segmentData[m], line)
    {
      var point := segmentData[k];
      var lineY := LineYAtX(point.rtime, line);
      if lineY.Some? && point.intensity > lineY.value {
        isPeak := true;
        break;
      }
      k := k + 1;
    }
  }

  // ---------------------------------------------------------------------------------------
  // findNearestPoint

  /** `Math.abs(p.rtime - x)`. */
  function Distance(p: Sample, x: real): (r: real) {
    if p.rtime - x < 0.0 then x - p.rtime else p.rtime - x
  }

  /**
   * findNearestPoint: the `reduce` over the curve that keeps the previous sample unless the
   * current one is strictly closer to x. The source calls it only on a non-empty curve.
   */
  function FindNearestPoint(data: seq<Sample>, x: real): (r: Sample)
    requires |data| > 0
    ensures r in data
    ensures forall p :: p in data ==> Distance(r, x) <= Distance(p, x)
  {
    if |data| == 1 then data[0]
    else
      var prev := FindNearestPoint(data[..|data| - 1], x);
      var curr := data[|data| - 1];
      assert data == data[..|data| - 1] + [curr];
      if Distance(curr, x) < Distance(prev, x) then curr else prev
  }

  /** On ties the earliest closest sample wins: the first minimiser is the one returned. */
  lemma {:induction false} NearestKeepsEarliest(data: seq<Sample>, x: real, j: nat)
    requires j < |data|
    requires forall i :: 0 <= i < |data| ==> Distance(data[j], x) <= Distance(data[i], x)
    requires forall i :: 0 <= i < j ==> Distance(data[i], x) > Distance(data[j], x)
    ensures FindNearestPoint(data, x) == data[j]
  {
    if |data| > 1 {
      var init := data[..|data| - 1];
      if j < |data| - 1 {
        NearestKeepsEarliest(init, x, j);
      } else {
        var prev := FindNearestPoint(init, x);
        var k :| 0 <= k < |init| && init[k] == prev;
        assert Distance(data[k], x) > Distance(data[j], x);
      }
    }
  }

  // ---------------------------------------------------------------------------------------
  // The adjust drag handler

  /**
   * Moves one end of the stored baseline `selectedLines[index]` onto the sample nearest to x.
   * The copy `[...selectedLines]` is shallow, so the endpoint is written into the very array
   * that selectedLines holds, and the returned list shares every array with it.
   */
  method AdjustEndpoint(selectedLines: seq<array<Sample>>, index: nat, pointType: Endpoint,
                        x: real, data: seq<Sample>) returns (newLines: seq<array<Sample>>)
    requires index < |selectedLines| && selectedLines[index].Length == 2
    requires |data| > 0
    modifies selectedLines[index]
    ensures newLines == selectedLines
    ensures pointType == Start ==>
      selectedLines[index][0] == FindNearestPoint(data, x) && selectedLines[index][1] == old(selectedLines[index][1])
    ensures pointType == End ==>
      selectedLines[index][1] == FindNearestPoint(data, x) && selectedLines[index][0] == old(selectedLines[index][0])
    ensures forall k :: 0 <= k < |selectedLines| && selectedLines[k] != selectedLines[index] ==>
              selectedLines[k][..] == old(selectedLines[k][..])
  {
    newLines := selectedLines;
    if pointType == Start {
      newLines[index][0] := FindNearestPoint(data, x);
    } else {
      newLines[index][1] := FindNearestPoint(data, x);
    }
  }
}
