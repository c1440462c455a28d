/**
 * The line-chart page: the curve it holds, the ranges and pending points of the two-click
 * connect mode, the index picked in adjust mode, and the three mutually exclusive edit modes.
 * Each React state variable is a field; each handler is a method that updates them in the
 * order the handler's setters run.
 */
module LineChartPage {
  import opened Wrappers
  import opened DataPoint
  import opened StableSort

  /** The samples between two clicked points, whichever of the two comes first in time. */
  function GetPointsBetween(data: seq<Sample>, point1: Sample, point2: Sample): (r: seq<Sample>) {
    Within(data, Min(point1.rtime, point2.rtime), Max(point1.rtime, point2.rtime))
  }

  /** The range holds exactly the samples between the two clicked retention times. */
  lemma GetPointsBetweenMembership(data: seq<Sample>, point1: Sample, point2: Sample, p: Sample)
    ensures p in GetPointsBetween(data, point1, point2) <==>
      p in data && InSpan(p.rtime, point1.rtime, point2.rtime)
  {
    WithinMembership(data, Min(point1.rtime, point2.rtime), Max(point1.rtime, point2.rtime), p);
  }

  /** Clicking the same two points in the other order selects the same range. */
  lemma GetPointsBetweenSymmetric(data: seq<Sample>, point1: Sample, point2: Sample)
    ensures GetPointsBetween(data, point1, point2) == GetPointsBetween(data, point2, point1)
  {
  }

  /**
   * `prev.filter((_, i) => i !== index)`: drops the element at position index, if there is
   * one. An index outside the array (including the NaN of an unparsable attribute) matches
   * no position and removes nothing.
   */
  function RemoveAt(s: seq<Sample>, index: int): (r: seq<Sample>)
    ensures |r| <= |s|
  {
    if s == [] then []
    else RemoveAt(s[..|s| - 1], index) + (if |s| - 1 != index then [s[|s| - 1]] else [])
  }

  /** Removing a position in range closes the gap and keeps the other samples in order. */
  lemma {:induction false} RemoveAtInRange(s: seq<Sample>, index: int)
    requires 0 <= index < |s|
    ensures RemoveAt(s, index) == s[..index] + s[index + 1..]
  {
    var init := s[..|s| - 1];
    if index < |s| - 1 {
      RemoveAtInRange(init, index);
      assert s[index + 1..] == init[index + 1..] + [s[|s| - 1]];
      assert s[..index] == init[..index];
    } else {
      RemoveAtOutOfRange(init, index);
      assert s[..index] == init;
    }
  }

  /** A position outside the sequence removes nothing. */
  lemma {:induction false} RemoveAtOutOfRange(s: seq<Sample>, index: int)
    requires index < 0 || index >= |s|
    ensures RemoveAt(s, index) == s
  {
    if s != [] {
      RemoveAtOutOfRange(s[..|s| - 1], index);
      assert s == s[..|s| - 1] + [s[|s| - 1]];
    }
  }

  /** The edit mode a toolbar button selects. */
  datatype Mode = Connect | Adjust | Delete

  /**
   * After a drag the curve keeps its length, is ordered by retention time, holds the old
   * samples with the dragged one replaced by its new position, and keeps samples that share a
   * retention time in their old relative order.
   */
  lemma DragResult(data: seq<Sample>, index: nat, p: Sample)
    requires index < |data|
    ensures |SortByRtime(data[index := p])| == |data|
    ensures Sorted(SortByRtime(data[index := p]))
    ensures multiset(SortByRtime(data[index := p])) == multiset(data) - multiset{data[index]} + multiset{p}
    ensures forall v {:trigger AtRtime(SortByRtime(data[index := p]), v)} ::
              AtRtime(SortByRtime(data[index := p]), v) == AtRtime(data[index := p], v)
  {
    forall v {:trigger AtRtime(SortByRtime(data[index := p]), v)}
      ensures AtRtime(SortByRtime(data[index := p]), v) == AtRtime(data[index := p], v)
    {
      SortByRtimeStable(data[index := p], v);
    }
    SortByRtimeSorted(data[index := p]);
    SortByRtimePermutes(data[index := p]);
    ReplacedMultiset(data, index, p);
  }

  lemma ReplacedMultiset(s: seq<Sample>, i: nat, p: Sample)
    requires i < |s|
    ensures multiset(s[i := p]) == multiset(s) - multiset{s[i]} + multiset{p}
  {
    assert s == s[..i] + [s[i]] + s[i + 1..];
    assert s[i := p] == s[..i] + [p] + s[i + 1..];
  }

  class LineChart {
    var data: seq<Sample>
    var selectedRanges: seq<seq<Sample>>
    var manuallySelectedPoints: seq<Sample>
    var connectMode: bool
    var adjustMode: bool
    var deleteMode: bool
    var selectedIndex: Option<int>

    /** At most one edit mode is on, and at most one connect click is pending. */
    ghost predicate Valid()
      reads this
    {
      |manuallySelectedPoints| <= 1
      && !(connectMode && adjustMode)
      && !(connectMode && deleteMode)
      && !(adjustMode && deleteMode)
    }

    /** The initial state of every `useState`. */
    constructor()
      ensures Valid()
      ensures data == [] && selectedRanges == [] && manuallySelectedPoints == []
      ensures !connectMode && !adjustMode && !deleteMode
      ensures selectedIndex == None
    {
      data := [];
      selectedRanges := [];
      manuallySelectedPoints := [];
      connectMode := false;
      adjustMode := false;
      deleteMode := false;
      selectedIndex := None;
    }

    /** `setData(points)` at mount, with the points supplied by the caller. */
    method LoadData(points: seq<Sample>)
      requires Valid()
      modifies this
      ensures Valid()
      ensures data == points
      ensures selectedRanges == old(selectedRanges) && manuallySelectedPoints == old(manuallySelectedPoints)
      ensures connectMode == old(connectMode) && adjustMode == old(adjustMode) && deleteMode == old(deleteMode)
      ensures selectedIndex == old(selectedIndex)
    {
      data := points;
    }

    /**
     * handlePointClick for the clicked sample d at position index: in delete mode removes the
     * sample unless only two remain, and stops there; otherwise a connect click accumulates
     * the point and turns two of them into a range, and an adjust click toggles the selection.
     */
    method HandlePointClick(d: Sample, index: int)
      requires Valid()
      modifies this
      ensures Valid()
      ensures connectMode == old(connectMode) && adjustMode == old(adjustMode) && deleteMode == old(deleteMode)
      // delete mode
      ensures old(deleteMode) && |old(data)| <= 2 ==> data == old(data)
      ensures old(deleteMode) && |old(data)| > 2 ==> data == RemoveAt(old(data), index)
      ensures old(deleteMode) && |old(data)| >= 2 ==> |data| >= 2
      ensures old(deleteMode) ==>
        selectedRanges == old(selectedRanges) && manuallySelectedPoints == old(manuallySelectedPoints)
        && selectedIndex == old(selectedIndex)
      ensures !old(deleteMode) ==> data == old(data)
      // connect mode
      ensures !old(deleteMode) && old(connectMode) && |old(manuallySelectedPoints)| == 1 ==>
        manuallySelectedPoints == []
        && selectedRanges == old(selectedRanges) + [GetPointsBetween(data, old(manuallySelectedPoints)[0], d)]
      ensures !old(deleteMode) && old(connectMode) && old(manuallySelectedPoints) == [] ==>
        manuallySelectedPoints == [d] && selectedRanges == old(selectedRanges)
      ensures !(!old(deleteMode) && old(connectMode)) ==>
        manuallySelectedPoints == old(manuallySelectedPoints) && selectedRanges == old(selectedRanges)
      // adjust mode
      ensures !old(deleteMode) && old(adjustMode) ==>
        selectedIndex == if old(selectedIndex) == Some(index) then None else Some(index)
      ensures !(!old(deleteMode) && old(adjustMode)) ==> selectedIndex == old(selectedIndex)
    {
      if deleteMode {
        if |data| <= 2 {
          return;
        }
        if 0 <= index < |data| {
          RemoveAtInRange(data, index);
        } else {
          RemoveAtOutOfRange(data, index);
        }
        data := RemoveAt(data, index);
        return;
      }

      if connectMode {
        var newPoints := manuallySelectedPoints + [d];
        if |newPoints| == 2 {
          selectedRanges := selectedRanges + [GetPointsBetween(data, newPoints[0], newPoints[1])];
          manuallySelectedPoints := [];
        } else {
          manuallySelectedPoints := newPoints;
        }
      }

      if adjustMode {
        selectedIndex := if selectedIndex == Some(index) then None else Some(index);
      }
    }

    /** handlePointDrag: moves the sample at index to (rtime, intensity) and re-sorts the curve in place. */
    method HandlePointDrag(index: int, rtime: real, intensity: real)
      requires Valid()
      requires 0 <= index < |data|
      modifies this
      ensures Valid()
      ensures data == SortByRtime(old(data)[index := Sample(rtime, intensity)])
      ensures selectedRanges == old(selectedRanges) && manuallySelectedPoints == old(manuallySelectedPoints)
      ensures connectMode == old(connectMode) && adjustMode == old(adjustMode) && deleteMode == old(deleteMode)
      ensures selectedIndex == old(selectedIndex)
    {
      var newData := new Sample[|data|](i requires 0 <= i < |data| reads this => data[i]);
      assert newData[..] == data;
      newData[index] := Sample(rtime, intensity);
      assert newData[..] == old(data)[index := Sample(rtime, intensity)];
      SortInPlace(newData);
      data := newData[..];
    }

    /** toggleMode: switches to exactly the named mode and drops every selection. */
    method ToggleMode(mode: Mode)
      requires Valid()
      modifies this
      ensures Valid()
      ensures connectMode == (mode == Connect) && adjustMode == (mode == Adjust) && deleteMode == (mode == Delete)
      ensures selectedRanges == [] && manuallySelectedPoints == [] && selectedIndex == None
      ensures data == old(data)
    {
      connectMode := mode == Connect;
      adjustMode := mode == Adjust;
      deleteMode := mode == Delete;
      selectedRanges := [];
      manuallySelectedPoints := [];
      selectedIndex := None;
    }

    /** clearSelection: drops every selection and keeps the curve and the mode. */
    method ClearSelection()
      requires Valid()
      modifies this
      ensures Valid()
      ensures selectedRanges == [] && manuallySelectedPoints == [] && selectedIndex == None
      ensures data == old(data)
      ensures connectMode == old(connectMode) && adjustMode == old(adjustMode) && deleteMode == old(deleteMode)
    {
      selectedRanges := [];
      manuallySelectedPoints := [];
      selectedIndex := None;
    }
  }
}
