/**
 * The data point shared by every chart component: a sample of the chromatogram with a
 * retention time (x) and an intensity (y). Coordinates are exact reals; the IEEE-754
 * rounding of JavaScript numbers is not modelled.
 */
module DataPoint {

  datatype Sample = Sample(rtime: real, intensity: real)

  /** True when v lies between the two bounds, in whichever order they are given. */
  predicate InSpan(v: real, a: real, b: real) {
    (a <= v <= b) || (b <= v <= a)
  }

  function Min(a: real, b: real): real { if a <= b then a else b }

  function Max(a: real, b: real): real { if a <= b then b else a }

  /**
   * The samples whose retention time lies in the closed range [lo, hi], in their original
   * order: the `filter(d => d.rtime >= lo && d.rtime <= hi)` that both chart files use.
   */
  function Within(data: seq<Sample>, lo: real, hi: real): (r: seq<Sample>)
    ensures |r| <= |data|
  {
    if data == [] then []
    else
      var rest := Within(data[..|data| - 1], lo, hi);
      var last := data[|data| - 1];
      if lo <= last.rtime <= hi then rest + [last] else rest
  }

  /** Within keeps exactly the samples whose retention time is in [lo, hi]. */
  lemma {:induction false} WithinMembership(data: seq<Sample>, lo: real, hi: real, p: Sample)
    ensures p in Within(data, lo, hi) <==> p in data && lo <= p.rtime <= hi
  {
    if data != [] {
      var init := data[..|data| - 1];
      WithinMembership(init, lo, hi, p);
      assert data == init + [data[|data| - 1]];
    }
  }

  /** Filtering distributes over concatenation: it keeps the relative order of the samples. */
  lemma {:induction false} WithinAppend(a: seq<Sample>, b: seq<Sample>, lo: real, hi: real)
    ensures Within(a + b, lo, hi) == Within(a, lo, hi) + Within(b, lo, hi)
  {
    if b == [] {
      assert a + b == a;
    } else {
      var b' := b[..|b| - 1];
      assert (a + b)[..|a + b| - 1] == a + b';
      assert b[..|b| - 1] == b';
      WithinAppend(a, b', lo, hi);
    }
  }

  /** A sample inside the range is kept, one outside is dropped. */
  lemma WithinSingle(p: Sample, lo: real, hi: real)
    ensures Within([p], lo, hi) == if lo <= p.rtime <= hi then [p] else []
  {
    assert [p][..0] == [];
  }
}
