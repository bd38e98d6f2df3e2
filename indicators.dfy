/**
  What both indicators hand back to the chart: either nothing (`false` in the
  source) or three index-aligned views of one output series.
 */
module Indicators {

  datatype Option<T> = None | Some(value: T)

  /** `{values, xData, yData}`: point pairs, bare timestamps, bare values. */
  datatype Series = Series(values: seq<(real, real)>, xData: seq<real>, yData: seq<real>)

  /** The three views have one length and agree point by point. */
  predicate Aligned(s: Series)
  {
    && |s.values| == |s.xData| == |s.yData|
    && forall k :: 0 <= k < |s.values| ==> s.values[k] == (s.xData[k], s.yData[k])
  }

  /** The empty output (no point to draw, but not a failure). */
  const Empty: Series := Series([], [], [])

  /** Pushes one point onto all three views. */
  function Push(s: Series, x: real, y: real): (r: Series)
    ensures Aligned(s) ==> Aligned(r)
    ensures |r.xData| == |s.xData| + 1 && r.xData[|s.xData|] == x
    ensures |r.yData| == |s.yData| + 1 && r.yData[|s.yData|] == y
    ensures |r.values| == |s.values| + 1 && r.values[|s.values|] == (x, y)
    ensures forall k :: 0 <= k < |s.values| ==> r.values[k] == s.values[k]
    ensures forall k :: 0 <= k < |s.xData| ==> r.xData[k] == s.xData[k]
    ensures forall k :: 0 <= k < |s.yData| ==> r.yData[k] == s.yData[k]
  {
    Series(s.values + [(x, y)], s.xData + [x], s.yData + [y])
  }
}
