# Peak regions of a chromatogram line chart

The chart shows a sampled curve: samples with a retention time (`rtime`, x) and an intensity (y),
ordered by retention time. The user can do four things with it:

- draw a straight baseline across the curve. The chart finds where the baseline crosses the curve,
  and outlines as a polygon every stretch between two consecutive crossings that rises above the
  baseline (a peak);
- drag either end of a stored baseline. That end snaps to the sample nearest in retention time;
- click samples. The page's edit state changes as follows:
  - delete mode removes the clicked sample, while more than two remain;
  - connect mode turns two clicks into the range of samples between them;
  - adjust mode toggles the selected sample;
- drag a sample. The curve is re-sorted afterwards.

This project models that core in Dafny and proves what it computes:

- `DataPoint`: the sample, and the retention-time range filter that both chart files use.
- `StableSort`: the stable sort by retention time that both files apply.
  - `SortByRtime` specifies it as an insertion sort on sequences.
  - `SortInPlace` is the in-place insertion sort on an array, proved equal to that function.
- `ChartComponent`: the geometry.
  - The determinant test of the baseline against each curve edge: `EdgeHit`, with the loop
    `FindIntersections` that runs it on every edge.
  - Interpolation along the baseline: `LineYAtX`.
  - The peak test and the polygon builder: `IsPeak`, `PolygonsBetween`, `CreatePolygons`, with
    the specification functions `PeakPolygon`, `PolygonsOf` and `BuildPolygons`.
  - Snapping to the nearest sample: `FindNearestPoint`.
  - Moving one end of a stored baseline in place: `AdjustEndpoint`, which keeps the aliasing of
    the shallow copy the drag handler makes.
- `LineChartPage`:
  - the pure range selection `GetPointsBetween`;
  - a class `LineChart` whose fields are the page's state variables and whose methods are its
    event handlers.
- `ChartScenarios`: the whole pipeline on a small bump-shaped curve with three horizontal
  baselines, and a tie in the snapping.

Coordinates are exact reals. The only division in the crossing test is guarded by the
determinant being non-zero. The baseline interpolation divides by the baseline's run, so for a
vertical baseline `LineYAtX` returns `None`. At the only retention time where the peak test uses
it, the code computes 0/0 = NaN, which no comparison accepts.

Along the floor, the baseline `(0,0)–(40,0)` meets the curve `(0,0),(10,0),(20,10),(30,0),(40,0)`.
The two flat edges are collinear with the baseline, so their determinant is 0 and they are
skipped. The crossings are therefore at retention times 10 and 30, not at the curve's ends, and
the one polygon is `[(10,0),(10,0),(20,10),(30,0),(30,0)]` (`ChartScenarios.FloorHits`,
`ChartScenarios.FloorBaseline`).

## Model

| member | source | states |
|---|---|---|
| ChartComponent.EdgeHit | src/app/components/ChartComponent/ChartComponent.tsx:42-57 | a crossing is reported only for a non-zero determinant, and it lies on both the finite baseline and the finite curve edge |
| ChartComponent.CrossingPoint | src/app/components/ChartComponent/ChartComponent.tsx:47-55 | the point at ua along the baseline is the point at ub along the edge, so the reported point is the crossing |
| ChartComponent.EdgeHitComplete | src/app/components/ChartComponent/ChartComponent.tsx:42-57 | conversely, any point on both finite segments of a non-parallel pair is the one the edge test reports |
| ChartComponent.SameSideNoHit | src/app/components/ChartComponent/ChartComponent.tsx:42-57 | an edge whose ends are strictly on the same side of the baseline's line yields no crossing |
| ChartComponent.Hits | src/app/components/ChartComponent/ChartComponent.tsx:38-58 | no crossings for fewer than two samples, at most one per edge otherwise |
| ChartComponent.HitsSound | src/app/components/ChartComponent/ChartComponent.tsx:38-58 | every crossing comes from some consecutive curve edge |
| ChartComponent.HitsComplete | src/app/components/ChartComponent/ChartComponent.tsx:38-58 | every edge the test accepts contributes its crossing |
| ChartComponent.HitOnBaseline | src/app/components/ChartComponent/ChartComponent.tsx:53-56 | a crossing is p1 + ua·(p2 − p1) with ua in [0, 1]: it lies on the baseline's line and between the baseline's end points in both retention time and intensity |
| ChartComponent.HitOnCurve | src/app/components/ChartComponent/ChartComponent.tsx:47-56 | because ub is in [0, 1], a crossing lies on some curve edge, between its end points' retention times and intensities |
| ChartComponent.NoCrossingNoHits | src/app/components/ChartComponent/ChartComponent.tsx:38-58 | a baseline whose line has every sample strictly on one side yields no crossing |
| ChartComponent.FindIntersections | src/app/components/ChartComponent/ChartComponent.tsx:34-61 | the loop runs the determinant test on each edge, pushes exactly the accepted crossings in edge order, and returns them sorted by retention time, as a permutation |
| ChartComponent.LineYAtX | src/app/components/ChartComponent/ChartComponent.tsx:63-66 | the interpolation has no value exactly when the baseline is vertical |
| ChartComponent.LineYAtXOnBaseline | src/app/components/ChartComponent/ChartComponent.tsx:63-66 | for a non-vertical baseline, (x, y) lies on the baseline's line if and only if y is the interpolated intensity at x |
| ChartComponent.AboveLineIsUpperSide | src/app/components/ChartComponent/ChartComponent.tsx:86-87 | a sample is above the baseline if and only if it lies strictly on the upper side of the baseline's line; never for a vertical baseline |
| ChartComponent.IsPeak | src/app/components/ChartComponent/ChartComponent.tsx:84-91 | the scan with early exit sets isPeak exactly when some sample of the stretch is strictly above the baseline |
| ChartComponent.PeakPolygon | src/app/components/ChartComponent/ChartComponent.tsx:93-99 | an emitted polygon has at least three vertices |
| ChartComponent.PolygonsOf | src/app/components/ChartComponent/ChartComponent.tsx:72-75 | no polygon for fewer than two intersections, at most one per consecutive pair otherwise |
| ChartComponent.PolygonsSound | src/app/components/ChartComponent/ChartComponent.tsx:75-100 | every polygon is [ints[i]] + the samples between ints[i] and ints[i+1] in curve order + [ints[i+1]], for a pair whose stretch has a sample above the baseline |
| ChartComponent.PolygonsComplete | src/app/components/ChartComponent/ChartComponent.tsx:75-100 | every consecutive pair whose stretch has a sample above the baseline yields that polygon |
| ChartComponent.NoSampleAboveNoPolygon | src/app/components/ChartComponent/ChartComponent.tsx:84-93 | when no sample lies strictly above the baseline, no polygon is emitted |
| ChartComponent.VerticalBaselineNoPolygon | src/app/components/ChartComponent/ChartComponent.tsx:84-93 | a vertical baseline never yields a polygon |
| ChartComponent.SortedHitInSpan | src/app/components/ChartComponent/ChartComponent.tsx:69-73 | each sorted intersection lies within the baseline's retention-time span |
| ChartComponent.VerticalBaselineTestsOnlyItsOwnTime | src/app/components/ChartComponent/ChartComponent.tsx:79-87 | for a vertical baseline, every sample the peak test examines sits at the baseline's own retention time, where the interpolation is 0/0 |
| ChartComponent.PeakPolygonVertex | src/app/components/ChartComponent/ChartComponent.tsx:79-99 | a polygon vertex is one of its two crossings or a curve sample whose retention time lies between them |
| ChartComponent.PolygonsWithinBaselineSpan | src/app/components/ChartComponent/ChartComponent.tsx:94-99 | every vertex of every polygon lies within the baseline's retention-time span |
| ChartComponent.PolygonsBetween | src/app/components/ChartComponent/ChartComponent.tsx:75-101 | the loop over consecutive pairs pushes exactly the peak polygons, in pair order |
| ChartComponent.CreatePolygons | src/app/components/ChartComponent/ChartComponent.tsx:68-105 | the result is the peak polygons of the sorted crossings; the second sort changes nothing |
| ChartComponent.FindNearestPoint | src/app/components/ChartComponent/ChartComponent.tsx:107-111 | the result is a sample of the curve at minimal distance in retention time from x |
| ChartComponent.NearestKeepsEarliest | src/app/components/ChartComponent/ChartComponent.tsx:107-111 | because the comparison is strict, the earliest of several equally near samples is returned |
| ChartComponent.AdjustEndpoint | src/app/components/ChartComponent/ChartComponent.tsx:387-395 | only the dragged end of the chosen baseline changes, to the nearest sample; the other end and every other stored baseline keep their points, and the new list holds the same arrays |
| StableSort.SortByRtimeSorted | src/app/components/ChartComponent/ChartComponent.tsx:60 | the sort by retention time yields a non-decreasing sequence |
| StableSort.SortByRtimePermutes | src/app/components/ChartComponent/ChartComponent.tsx:60 | the sort is a permutation of its input |
| StableSort.SortByRtimeStable | src/app/components/line-chart/page.tsx:76 | the sort is stable: samples sharing a retention time keep their relative order |
| StableSort.SortSortedIsIdentity | src/app/components/ChartComponent/ChartComponent.tsx:73 | sorting an already sorted sequence leaves it unchanged |
| StableSort.SortIdempotent | src/app/components/ChartComponent/ChartComponent.tsx:73 | sorting twice is sorting once |
| StableSort.SortInPlace | src/app/components/line-chart/page.tsx:76 | the in-place insertion sort leaves the array holding the sorted sequence of its old contents |
| DataPoint.WithinMembership | src/app/components/ChartComponent/ChartComponent.tsx:79-82 | the filter keeps exactly the samples whose retention time lies in the closed range |
| DataPoint.WithinAppend | src/app/components/ChartComponent/ChartComponent.tsx:79-82 | the filter distributes over concatenation, so it keeps curve order |
| LineChartPage.GetPointsBetweenMembership | src/app/components/line-chart/page.tsx:18-22 | the range holds exactly the samples whose retention time lies between the two clicked points, in either order |
| LineChartPage.GetPointsBetweenSymmetric | src/app/components/line-chart/page.tsx:18-22 | swapping the two clicked points selects the same range |
| LineChartPage.RemoveAtInRange | src/app/components/line-chart/page.tsx:51 | removing a position in range drops exactly that sample and keeps the others in order |
| LineChartPage.RemoveAtOutOfRange | src/app/components/line-chart/page.tsx:51 | an index outside the curve removes nothing |
| LineChartPage.DragResult | src/app/components/line-chart/page.tsx:73-77 | after a drag the curve keeps its length, is sorted, is the old curve with the dragged sample replaced, and keeps samples with equal retention times in their order |
| LineChartPage.LineChart.constructor | src/app/components/line-chart/page.tsx:9-15 | every state variable starts empty, off or null |
| LineChartPage.LineChart.LoadData | src/app/components/line-chart/page.tsx:41 | loading the curve replaces the data and nothing else |
| LineChartPage.LineChart.HandlePointClick | src/app/components/line-chart/page.tsx:44-71 | delete mode removes the clicked sample only while more than two remain (so at least two stay) and stops there; connect mode accumulates one pending point and turns the second into a range; adjust mode toggles the selected index; the mode flags never change |
| LineChartPage.LineChart.HandlePointDrag | src/app/components/line-chart/page.tsx:73-77 | the curve becomes the sorted old curve with the dragged sample moved; the selections and the modes are kept |
| LineChartPage.LineChart.ToggleMode | src/app/components/line-chart/page.tsx:79-86 | exactly the named mode is on afterwards, every selection is cleared, and the curve is kept |
| LineChartPage.LineChart.ClearSelection | src/app/components/line-chart/page.tsx:88-92 | every selection is cleared; the curve and the mode flags are kept |
| ChartScenarios.Parallel | src/app/components/ChartComponent/ChartComponent.tsx:45 | an edge with a zero determinant yields no crossing |
| ChartScenarios.FloorHits | src/app/components/ChartComponent/ChartComponent.tsx:38-58 | a baseline along the floor of the bump curve crosses it at retention times 10 and 30; the flat edges are skipped |
| ChartScenarios.FloorBaseline | src/app/components/ChartComponent/ChartComponent.tsx:68-105 | that baseline yields the one polygon [(10,0),(10,0),(20,10),(30,0),(30,0)] |
| ChartScenarios.MidHits | src/app/components/ChartComponent/ChartComponent.tsx:38-58 | a baseline at intensity 5 crosses the bump's flanks at (15,5) and (25,5) |
| ChartScenarios.MidBaseline | src/app/components/ChartComponent/ChartComponent.tsx:68-105 | that baseline yields the triangle [(15,5),(20,10),(25,5)] |
| ChartScenarios.LowBaseline | src/app/components/ChartComponent/ChartComponent.tsx:68-105 | a baseline below the whole curve yields no crossing and no polygon |
| ChartScenarios.SnapTieKeepsEarlier | src/app/components/ChartComponent/ChartComponent.tsx:107-111 | retention time 25, equally far from the samples at 20 and 30, snaps to the one at 20 |

## Left out

- The D3/SVG rendering is not modelled, because it is presentation only. This covers:
  - axes, legends and the info box;
  - the hover lookup through `d3.bisector` and `xScale.invert`;
  - the drag-event plumbing;
  - the pixel-to-data conversions.
- The pointer position arrives already converted to a retention time. `AdjustEndpoint` takes it
  as the parameter `x`.
- `onLineDeleted` and `onLineAdjusted` are not modelled: they are callbacks whose bodies are not
  part of this model. `AdjustEndpoint` returns the list it would pass to `onLineAdjusted`.
- `src/app/components/chart/page.tsx`, the controls and the tooltip are not part of this model.
  They are rendering and DOM handling.
- `generateData` is not modelled. It is a floating-point Gaussian sum that only makes up input.
  `LineChart.LoadData` takes the points as a parameter.
- IEEE-754 rounding is not modelled; coordinates are exact reals. Neither are the ±Infinity
  values the interpolation would give for a vertical baseline away from its own retention time.
  The peak test never meets such a sample: see
  `ChartComponent.VerticalBaselineTestsOnlyItsOwnTime`.
- `alert()` in the delete branch is not modelled, because it is I/O. The branch still returns
  without changing anything.
- React's deferred state updates are not modelled. Neither are the functional updater nested
  inside another updater, or the double calls StrictMode can make. Each handler applies its
  updates in order to the current state, as a single un-batched call would.
- LineChartPage.LineChart.HandlePointClick: the clicked position comes as an integer. The NaN
  that `parseInt` gives for a missing attribute behaves like an out-of-range index: `filter`
  removes nothing, as it does for any out-of-range integer. The model passes such an integer.
  In the adjust branch NaN never equals itself, so a repeated click on such an element selects
  NaN again instead of clearing the selection. An out-of-range integer clears it, and that
  difference is not captured.
- LineChartPage.LineChart.HandlePointDrag: requires the dragged position to be on the curve.
  Writing past the end of a JavaScript array would lengthen it with holes, which the chart never
  does.
- ChartComponent.FindNearestPoint: requires a non-empty curve. The source's `reduce` without an
  initial value throws on an empty array, and the chart draws nothing, and so drags nothing, for
  an empty curve.
- ChartComponent.AdjustEndpoint: requires the stored baseline to have two end points, which is
  how every baseline is built.
