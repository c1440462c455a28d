/**
 * The chart's behaviour on the bump curve (0,0), (10,0), (20,10), (30,0), (40,0) with three
 * horizontal baselines: along the floor, through the bump's flanks, and below everything.
 */
module ChartScenarios {
  import opened Wrappers
  import opened DataPoint
  import opened StableSort
  import opened ChartComponent

  function Bump(): seq<Sample> {
    [Sample(0.0, 0.0), Sample(10.0, 0.0), Sample(20.0, 10.0), Sample(30.0, 0.0), Sample(40.0, 0.0)]
  }

  function Floor(): Segment { Segment(Sample(0.0, 0.0), Sample(40.0, 0.0)) }

  function Mid(): Segment { Segment(Sample(0.0, 5.0), Sample(40.0, 5.0)) }

  /** An edge parallel to the baseline (zero determinant) is skipped. */
  lemma Parallel(line: Segment, p3: Sample, p4: Sample)
    requires Denominator(line, p3, p4) == 0.0
    ensures EdgeHit(line, p3, p4) == None
  {
  }

  lemma FloorEdge0()
    ensures EdgeHit(Floor(), Sample(0.0, 0.0), Sample(10.0, 0.0)) == None
  {
    Parallel(Floor(), Sample(0.0, 0.0), Sample(10.0, 0.0));
  }

  lemma FloorEdge1()
    ensures EdgeHit(Floor(), Sample(10.0, 0.0), Sample(20.0, 10.0)) == Some(Sample(10.0, 0.0))
  {
    assert Denominator(Floor(), Sample(10.0, 0.0), Sample(20.0, 10.0)) == -400.0;
    assert UaNumerator(Floor(), Sample(10.0, 0.0), Sample(20.0, 10.0)) == -100.0;
    assert UbNumerator(Floor(), Sample(10.0, 0.0), Sample(20.0, 10.0)) == 0.0;
  }

  lemma FloorEdge2()
    ensures EdgeHit(Floor(), Sample(20.0, 10.0), Sample(30.0, 0.0)) == Some(Sample(30.0, 0.0))
  {
    assert Denominator(Floor(), Sample(20.0, 10.0), Sample(30.0, 0.0)) == 400.0;
    assert UaNumerator(Floor(), Sample(20.0, 10.0), Sample(30.0, 0.0)) == 300.0;
    assert UbNumerator(Floor(), Sample(20.0, 10.0), Sample(30.0, 0.0)) == 400.0;
  }

  lemma FloorEdge3()
    ensures EdgeHit(Floor(), Sample(30.0, 0.0), Sample(40.0, 0.0)) == None
  {
    Parallel(Floor(), Sample(30.0, 0.0), Sample(40.0, 0.0));
  }

  /** The edge tests against the floor: the two flat edges are collinear with it and skipped. */
  lemma FloorEdges()
    ensures var e := EdgeHits(Floor(), Bump());
      |e| == 4 && e[0] == None && e[1] == Some(Sample(10.0, 0.0)) && e[2] == Some(Sample(30.0, 0.0)) && e[3] == None
  {
    var e := EdgeHits(Floor(), Bump());
    assert e[0] == None by { EdgeHitsAt(Floor(), Bump(), 0); FloorEdge0(); }
    assert e[1] == Some(Sample(10.0, 0.0)) by { EdgeHitsAt(Floor(), Bump(), 1); FloorEdge1(); }
    assert e[2] == Some(Sample(30.0, 0.0)) by { EdgeHitsAt(Floor(), Bump(), 2); FloorEdge2(); }
    assert e[3] == None by { EdgeHitsAt(Floor(), Bump(), 3); FloorEdge3(); }
  }

  lemma MidEdge0()
    ensures EdgeHit(Mid(), Sample(0.0, 0.0), Sample(10.0, 0.0)) == None
  {
    Parallel(Mid(), Sample(0.0, 0.0), Sample(10.0, 0.0));
  }

  lemma MidEdge1()
    ensures EdgeHit(Mid(), Sample(10.0, 0.0), Sample(20.0, 10.0)) == Some(Sample(15.0, 5.0))
  {
    assert Denominator(Mid(), Sample(10.0, 0.0), Sample(20.0, 10.0)) == -400.0;
    assert UaNumerator(Mid(), Sample(10.0, 0.0), Sample(20.0, 10.0)) == -150.0;
    assert UbNumerator(Mid(), Sample(10.0, 0.0), Sample(20.0, 10.0)) == -200.0;
  }

  lemma MidEdge2()
    ensures EdgeHit(Mid(), Sample(20.0, 10.0), Sample(30.0, 0.0)) == Some(Sample(25.0, 5.0))
  {
    assert Denominator(Mid(), Sample(20.0, 10.0), Sample(30.0, 0.0)) == 400.0;
    assert UaNumerator(Mid(), Sample(20.0, 10.0), Sample(30.0, 0.0)) == 250.0;
    assert UbNumerator(Mid(), Sample(20.0, 10.0), Sample(30.0, 0.0)) == 200.0;
  }

  lemma MidEdge3()
    ensures EdgeHit(Mid(), Sample(30.0, 0.0), Sample(40.0, 0.0)) == None
  {
    Parallel(Mid(), Sample(30.0, 0.0), Sample(40.0, 0.0));
  }

  /** The edge tests against intensity 5: it crosses the two flanks of the bump halfway up. */
  lemma MidEdges()
    ensures var e := EdgeHits(Mid(), Bump());
      |e| == 4 && e[0] == None && e[1] == Some(Sample(15.0, 5.0)) && e[2] == Some(Sample(25.0, 5.0)) && e[3] == None
  {
    var e := EdgeHits(Mid(), Bump());
    assert e[0] == None by { EdgeHitsAt(Mid(), Bump(), 0); MidEdge0(); }
    assert e[1] == Some(Sample(15.0, 5.0)) by { EdgeHitsAt(Mid(), Bump(), 1); MidEdge1(); }
    assert e[2] == Some(Sample(25.0, 5.0)) by { EdgeHitsAt(Mid(), Bump(), 2); MidEdge2(); }
    assert e[3] == None by { EdgeHitsAt(Mid(), Bump(), 3); MidEdge3(); }
  }

  /** Collecting the crossings of [None, Some(a), Some(b), None] gives [a, b]. */
  lemma SomesOfTwo(e: seq<Option<Sample>>, a: Sample, b: Sample)
    requires |e| == 4 && e[0] == None && e[1] == Some(a) && e[2] == Some(b) && e[3] == None
    ensures Somes(e) == [a, b]
  {
    assert SomesUpTo(e, 1) == [];
    assert SomesUpTo(e, 2) == [a];
    assert SomesUpTo(e, 3) == [a, b];
  }

  /** Two samples in time order are already sorted. */
  lemma SortTwo(a: Sample, b: Sample)
    requires a.rtime <= b.rtime
    ensures SortByRtime([a, b]) == [a, b]
  {
    assert [a, b][..1] == [a];
    assert [a][..0] == [];
  }

  /** The single polygon between two crossings whose stretch holds a sample above the baseline. */
  lemma OnePolygon(line: Segment, data: seq<Sample>, a: Sample, b: Sample, k: nat)
    requires k < |Within(data, a.rtime, b.rtime)| && AboveLine(Within(data, a.rtime, b.rtime)[k], line)
    ensures PolygonsOf(line, data, [a, b]) == [[a] + Within(data, a.rtime, b.rtime) + [b]]
  {
    var c := PeakCandidates(line, data, [a, b]);
    PeakCandidateAt(line, data, [a, b], 0);
    assert c == [Some([a] + Within(data, a.rtime, b.rtime) + [b])];
    assert SomesUpTo(c, 0) == [];
  }

  /** Filtering the bump to [lo, hi], built up one sample at a time. */
  lemma BumpWithin(lo: real, hi: real)
    ensures Within(Bump(), lo, hi)
         == Within([Sample(0.0, 0.0)], lo, hi) + Within([Sample(10.0, 0.0)], lo, hi)
          + Within([Sample(20.0, 10.0)], lo, hi) + Within([Sample(30.0, 0.0)], lo, hi)
          + Within([Sample(40.0, 0.0)], lo, hi)
  {
    var s0, s1, s2, s3, s4 := Sample(0.0, 0.0), Sample(10.0, 0.0), Sample(20.0, 10.0), Sample(30.0, 0.0), Sample(40.0, 0.0);
    WithinAppend([s0], [s1], lo, hi);
    WithinAppend([s0, s1], [s2], lo, hi);
    WithinAppend([s0, s1, s2], [s3], lo, hi);
    WithinAppend([s0, s1, s2, s3], [s4], lo, hi);
    assert [s0] + [s1] == [s0, s1];
    assert [s0, s1] + [s2] == [s0, s1, s2];
    assert [s0, s1, s2] + [s3] == [s0, s1, s2, s3];
    assert [s0, s1, s2, s3] + [s4] == Bump();
  }

  lemma BumpWithinFloor()
    ensures Within(Bump(), 10.0, 30.0) == [Sample(10.0, 0.0), Sample(20.0, 10.0), Sample(30.0, 0.0)]
  {
    BumpWithin(10.0, 30.0);
    WithinSingle(Sample(0.0, 0.0), 10.0, 30.0);
    WithinSingle(Sample(10.0, 0.0), 10.0, 30.0);
    WithinSingle(Sample(20.0, 10.0), 10.0, 30.0);
    WithinSingle(Sample(30.0, 0.0), 10.0, 30.0);
    WithinSingle(Sample(40.0, 0.0), 10.0, 30.0);
  }

  lemma BumpWithinMid()
    ensures Within(Bump(), 15.0, 25.0) == [Sample(20.0, 10.0)]
  {
    BumpWithin(15.0, 25.0);
    WithinSingle(Sample(0.0, 0.0), 15.0, 25.0);
    WithinSingle(Sample(10.0, 0.0), 15.0, 25.0);
    WithinSingle(Sample(20.0, 10.0), 15.0, 25.0);
    WithinSingle(Sample(30.0, 0.0), 15.0, 25.0);
    WithinSingle(Sample(40.0, 0.0), 15.0, 25.0);
  }

  /**
   * Baseline along the floor. The two flat edges are collinear with it and are skipped, so
   * the crossings are where the bump leaves and rejoins the floor.
   */
  lemma FloorHits()
    ensures Hits(Floor(), Bump()) == [Sample(10.0, 0.0), Sample(30.0, 0.0)]
  {
    FloorEdges();
    SomesOfTwo(EdgeHits(Floor(), Bump()), Sample(10.0, 0.0), Sample(30.0, 0.0));
  }

  /** Between the floor crossings the peak lies above the floor; the polygon repeats the crossing samples at its ends. */
  lemma FloorPolygons()
    ensures PolygonsOf(Floor(), Bump(), [Sample(10.0, 0.0), Sample(30.0, 0.0)])
         == [[Sample(10.0, 0.0), Sample(10.0, 0.0), Sample(20.0, 10.0), Sample(30.0, 0.0), Sample(30.0, 0.0)]]
  {
    BumpWithinFloor();
    assert AboveLine(Sample(20.0, 10.0), Floor());
    OnePolygon(Floor(), Bump(), Sample(10.0, 0.0), Sample(30.0, 0.0), 1);
    assert [Sample(10.0, 0.0)] + [Sample(10.0, 0.0), Sample(20.0, 10.0), Sample(30.0, 0.0)] + [Sample(30.0, 0.0)]
        == [Sample(10.0, 0.0), Sample(10.0, 0.0), Sample(20.0, 10.0), Sample(30.0, 0.0), Sample(30.0, 0.0)];
  }

  /** The whole pipeline along the floor yields that one polygon. */
  lemma FloorBaseline()
    ensures BuildPolygons(Floor(), Bump())
         == [[Sample(10.0, 0.0), Sample(10.0, 0.0), Sample(20.0, 10.0), Sample(30.0, 0.0), Sample(30.0, 0.0)]]
  {
    FloorHits();
    SortTwo(Sample(10.0, 0.0), Sample(30.0, 0.0));
    FloorPolygons();
  }

  /** Baseline at intensity 5: it crosses the bump's two flanks halfway up. */
  lemma MidHits()
    ensures Hits(Mid(), Bump()) == [Sample(15.0, 5.0), Sample(25.0, 5.0)]
  {
    MidEdges();
    SomesOfTwo(EdgeHits(Mid(), Bump()), Sample(15.0, 5.0), Sample(25.0, 5.0));
  }

  /** Only the peak sample lies between the two crossings, and it is above the baseline. */
  lemma MidPolygons()
    ensures PolygonsOf(Mid(), Bump(), [Sample(15.0, 5.0), Sample(25.0, 5.0)])
         == [[Sample(15.0, 5.0), Sample(20.0, 10.0), Sample(25.0, 5.0)]]
  {
    BumpWithinMid();
    assert AboveLine(Sample(20.0, 10.0), Mid());
    OnePolygon(Mid(), Bump(), Sample(15.0, 5.0), Sample(25.0, 5.0), 0);
    assert [Sample(15.0, 5.0)] + [Sample(20.0, 10.0)] + [Sample(25.0, 5.0)]
        == [Sample(15.0, 5.0), Sample(20.0, 10.0), Sample(25.0, 5.0)];
  }

  /** The whole pipeline at intensity 5 yields the triangle over the peak. */
  lemma MidBaseline()
    ensures BuildPolygons(Mid(), Bump()) == [[Sample(15.0, 5.0), Sample(20.0, 10.0), Sample(25.0, 5.0)]]
  {
    MidHits();
    SortTwo(Sample(15.0, 5.0), Sample(25.0, 5.0));
    MidPolygons();
  }

  /** A baseline below the whole curve crosses nothing and yields no polygon. */
  lemma LowBaseline()
    ensures Hits(Segment(Sample(0.0, -100.0), Sample(40.0, -100.0)), Bump()) == []
    ensures BuildPolygons(Segment(Sample(0.0, -100.0), Sample(40.0, -100.0)), Bump()) == []
  {
    var line := Segment(Sample(0.0, -100.0), Sample(40.0, -100.0));
    var data := Bump();
    forall k | 0 <= k < |data| ensures 1.0 * Orientation(line, data[k]) > 0.0 {
    }
    NoCrossingNoHits(line, data, 1.0);
  }

  /** Snapping retention time 25, equally far from 20 and 30, keeps the earlier sample. */
  lemma SnapTieKeepsEarlier()
    ensures FindNearestPoint(Bump(), 25.0) == Sample(20.0, 10.0)
  {
    NearestKeepsEarliest(Bump(), 25.0, 2);
  }
}
