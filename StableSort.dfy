/**
 * `Array.prototype.sort` with the comparator `(a, b) => a.rtime - b.rtime`. Since ES2019 that
 * sort is stable, and every stable sort by retention time gives the same result, so it is
 * modelled by insertion sort: once as a function (the specification) and once as the in-place
 * array algorithm proved to compute it.
 */
module StableSort {
  import opened DataPoint

  predicate Sorted(s: seq<Sample>) {
    forall i, j :: 0 <= i < j < |s| ==> s[i].rtime <= s[j].rtime
  }

  /**
   * Inserts x into t after every sample whose retention time is not greater than x's,
   * moving it left past the larger ones exactly as the in-place loop swaps it.
   */
  function Insert(t: seq<Sample>, x: Sample): (r: seq<Sample>)
    ensures |r| == |t| + 1
  {
    if t == [] then [x]
    else if t[|t| - 1].rtime > x.rtime then Insert(t[..|t| - 1], x) + [t[|t| - 1]]
    else t + [x]
  }

  /** Insert adds exactly x: the result is a permutation of t with x added. */
  lemma {:induction false} InsertPermutes(t: seq<Sample>, x: Sample)
    ensures multiset(Insert(t, x)) == multiset(t) + multiset{x}
  {
    if t != [] && t[|t| - 1].rtime > x.rtime {
      InsertPermutes(t[..|t| - 1], x);
      assert t == t[..|t| - 1] + [t[|t| - 1]];
    }
  }

  /**
   * Insert places x at position j when j is the boundary the in-place loop stops at: every
   * sample from j on is later than x, and the one just before j (if any) is not.
   */
  lemma {:induction false} InsertAt(t: seq<Sample>, x: Sample, j: nat)
    requires j <= |t|
    requires forall k :: j <= k < |t| ==> t[k].rtime > x.rtime
    requires j > 0 ==> t[j - 1].rtime <= x.rtime
    ensures Insert(t, x) == t[..j] + [x] + t[j..]
  {
    if j < |t| {
      var init := t[..|t| - 1];
      InsertAt(init, x, j);
      assert t[j..] == init[j..] + [t[|t| - 1]];
      assert t[..j] == init[..j];
    } else {
      assert t[..j] == t;
    }
  }

  /** Inserting into a sorted sequence keeps it sorted. */
  lemma {:induction false} InsertSorted(t: seq<Sample>, x: Sample)
    requires Sorted(t)
    ensures Sorted(Insert(t, x))
  {
    if t != [] && t[|t| - 1].rtime > x.rtime {
      var init, last := t[..|t| - 1], t[|t| - 1];
      InsertSorted(init, x);
      var r := Insert(t, x);
      var ins := Insert(init, x);
      assert r == ins + [last];
      InsertPermutes(init, x);
      forall i | 0 <= i < |ins| ensures ins[i].rtime <= last.rtime {
        assert ins[i] in multiset(ins);
        assert ins[i] in multiset(init) || ins[i] == x;
        if ins[i] != x {
          var k :| 0 <= k < |init| && init[k] == ins[i];
          assert t[k] == init[k];
        }
      }
    }
  }

  /** The stable sort by retention time, folding Insert over the sequence from the left. */
  function SortByRtime(s: seq<Sample>): (r: seq<Sample>)
    ensures |r| == |s|
  {
    if s == [] then [] else Insert(SortByRtime(s[..|s| - 1]), s[|s| - 1])
  }

  /** The sort neither loses nor duplicates a sample: its result is a permutation of s. */
  lemma {:induction false} SortByRtimePermutes(s: seq<Sample>)
    ensures multiset(SortByRtime(s)) == multiset(s)
  {
    if s != [] {
      SortByRtimePermutes(s[..|s| - 1]);
      InsertPermutes(SortByRtime(s[..|s| - 1]), s[|s| - 1]);
      assert s == s[..|s| - 1] + [s[|s| - 1]];
    }
  }

  /** The result of the sort is ordered by retention time. */
  lemma {:induction false} SortByRtimeSorted(s: seq<Sample>)
    ensures Sorted(SortByRtime(s))
  {
    if s != [] {
      SortByRtimeSorted(s[..|s| - 1]);
      InsertSorted(SortByRtime(s[..|s| - 1]), s[|s| - 1]);
    }
  }

  /**
   * Insert keeps x after every sample of t with the same retention time: among the samples at
   * any one retention time v, x joins at the end.
   */
  lemma {:induction false} InsertStable(t: seq<Sample>, x: Sample, v: real)
    ensures Within(Insert(t, x), v, v) == Within(t, v, v) + Within([x], v, v)
  {
    if t == [] {
      assert Insert(t, x) == [x];
      assert Within(t, v, v) == [];
    } else if t[|t| - 1].rtime > x.rtime {
      var init, last := t[..|t| - 1], t[|t| - 1];
      var ins := Insert(init, x);
      assert Insert(t, x) == ins + [last];
      assert t == init + [last];
      InsertStable(init, x, v);
      WithinAppend(ins, [last], v, v);
      WithinAppend(init, [last], v, v);
      WithinSingle(x, v, v);
      WithinSingle(last, v, v);
      if x.rtime == v {
        assert Within([last], v, v) == [];
      } else {
        assert Within([x], v, v) == [];
      }
    } else {
      assert Insert(t, x) == t + [x];
      WithinAppend(t, [x], v, v);
    }
  }

  /** The samples at exactly retention time v, in their order in s. */
  function AtRtime(s: seq<Sample>, v: real): seq<Sample> {
    Within(s, v, v)
  }

  /**
   * The sort is stable: the samples sharing any one retention time come out in the order they
   * went in. With Sorted and SortByRtimePermutes this determines the result completely.
   */
  lemma {:induction false} SortByRtimeStable(s: seq<Sample>, v: real)
    ensures AtRtime(SortByRtime(s), v) == AtRtime(s, v)
  {
    if s != [] {
      var init, last := s[..|s| - 1], s[|s| - 1];
      SortByRtimeStable(init, v);
      InsertStable(SortByRtime(init), last, v);
      WithinAppend(init, [last], v, v);
      assert s == init + [last];
    }
  }

  /** Sorting a sequence that is already sorted leaves it as it is, so sorting twice is sorting once. */
  lemma {:induction false} SortSortedIsIdentity(s: seq<Sample>)
    requires Sorted(s)
    ensures SortByRtime(s) == s
  {
    if s != [] {
      var init, last := s[..|s| - 1], s[|s| - 1];
      assert Sorted(init) by {
        forall i, j | 0 <= i < j < |init| ensures init[i].rtime <= init[j].rtime {
          assert init[i] == s[i] && init[j] == s[j];
        }
      }
      SortSortedIsIdentity(init);
      assert SortByRtime(s) == Insert(init, last);
      if init != [] {
        assert init[|init| - 1].rtime <= last.rtime;
      }
      assert Insert(init, last) == init + [last];
      assert s == init + [last];
    }
  }

  lemma SortIdempotent(s: seq<Sample>)
    ensures SortByRtime(SortByRtime(s)) == SortByRtime(s)
  {
    SortByRtimeSorted(s);
    SortSortedIsIdentity(SortByRtime(s));
  }

  /** Sorts the array in place by retention time, keeping equal retention times in their old order. */
  method SortInPlace(a: array<Sample>)
    modifies a
    ensures a[..] == SortByRtime(old(a[..]))
  {
    ghost var orig := a[..];
    var i := 0;
    while i < a.Length
      invariant 0 <= i <= a.Length
      invariant a[..i] == SortByRtime(orig[..i])
      invariant a[i..] == orig[i..]
    {
      ghost var done := a[..i];
      assert a[i] == orig[i] by { assert a[i] == a[i..][0]; }
      InsertLast(a, i);
      assert orig[..i + 1][..i] == orig[..i];
      assert a[..i + 1] == Insert(done, orig[i]) == SortByRtime(orig[..i + 1]);
      assert a[i + 1..] == orig[i + 1..] by { assert orig[i + 1..] == orig[i..][1..]; }
      i := i + 1;
    }
    assert a[..] == a[..a.Length];
    assert orig == orig[..a.Length];
  }

  /** One pass of insertion sort: swaps a[i] left into the sorted prefix a[..i]. */
  method InsertLast(a: array<Sample>, i: nat)
    requires i < a.Length
    modifies a
    ensures a[..i + 1] == Insert(old(a[..i]), old(a[i]))
    ensures a[i + 1..] == old(a[i + 1..])
  {
    ghost var sorted := a[..i];
    ghost var x := a[i];
    var j := i;
    while j > 0 && a[j - 1].rtime > a[j].rtime
      invariant 0 <= j <= i
      invariant a[j] == x
      invariant forall k :: 0 <= k < j ==> a[k] == sorted[k]
      invariant forall k :: j < k <= i ==> a[k] == sorted[k - 1]
      invariant forall k :: i < k < a.Length ==> a[k] == old(a[k])
      invariant forall k :: j <= k < i ==> sorted[k].rtime > x.rtime
    {
      a[j - 1], a[j] := a[j], a[j - 1];
      j := j - 1;
    }
    InsertAt(sorted, x, j);
    assert a[..i + 1] == sorted[..j] + [x] + sorted[j..];
  }

  /** Sorts a copy of the samples, as the source sorts the array it has just built. */
  method SortSamples(s: seq<Sample>) returns (r: seq<Sample>)
    ensures r == SortByRtime(s)
  {
    var a := new Sample[|s|](i requires 0 <= i < |s| => s[i]);
    assert a[..] == s;
    SortInPlace(a);
    r := a[..];
  }
}
