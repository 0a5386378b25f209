/** The quantities the page recomputes from the component state on every
    render: the downloads gained since tracking began, the y-axis of the
    downloads chart and the three package scores. */
module Derived {
  import opened Stats
  import opened Trajectory

  /** `stats && baseDownloads ? stats.estimatedDownloads - baseDownloads : 0`.
      A zero or absent base counts as not set. The difference is not
      clamped: a falling estimate gives a negative value. */
  function IncrementalDownloads(stats: Option<Snapshot>, base: Option<int>): (r: int)
    ensures stats.Some? && base.Some? && base.value != 0 ==>
              r + base.value == stats.value.estimatedDownloads
    ensures stats.None? || base.None? || base == Some(0) ==> r == 0
    ensures r < 0 <==> stats.Some? && base.Some? && base.value != 0 &&
                       stats.value.estimatedDownloads < base.value
  {
    if stats.Some? && base.Some? && base.value != 0 then
      stats.value.estimatedDownloads - base.value
    else 0
  }

  /** `Math.min(...s)` on a non-empty list. */
  function SeqMin(s: seq<int>): (m: int)
    requires |s| > 0
    ensures m in s
    ensures forall i :: 0 <= i < |s| ==> m <= s[i]
  {
    if |s| == 1 then s[0]
    else
      var rest := SeqMin(s[1..]);
      assert forall i :: 1 <= i < |s| ==> s[i] == s[1..][i - 1];
      if s[0] <= rest then s[0] else rest
  }

  /** `Math.max(...s)` on a non-empty list. */
  function SeqMax(s: seq<int>): (m: int)
    requires |s| > 0
    ensures m in s
    ensures forall i :: 0 <= i < |s| ==> s[i] <= m
  {
    if |s| == 1 then s[0]
    else
      var rest := SeqMax(s[1..]);
      assert forall i :: 1 <= i < |s| ==> s[i] == s[1..][i - 1];
      if s[0] >= rest then s[0] else rest
  }

  /** The bottom of the downloads axis: the smallest point, 0 when empty. */
  function MinDownload(points: seq<int>): (r: int)
    ensures points == [] ==> r == 0
    ensures points != [] ==> r in points && forall i :: 0 <= i < |points| ==> r <= points[i]
  {
    if |points| > 0 then SeqMin(points) else 0
  }

  /** The largest point, 0 when empty. */
  function MaxDownload(points: seq<int>): (r: int)
    ensures points == [] ==> r == 0
    ensures points != [] ==> r in points && forall i :: 0 <= i < |points| ==> points[i] <= r
  {
    if |points| > 0 then SeqMax(points) else 0
  }

  /** Headroom above the largest point: a tenth of the spread, or 10 when
      all points are equal or there are none. */
  function Margin(lo: int, hi: int): (m: real)
    ensures m > 0.0
    ensures hi <= lo ==> m == 10.0
    ensures hi > lo ==> m * 10.0 == (hi - lo) as real
  {
    if hi - lo > 0 then (hi - lo) as real * 0.1 else 10.0
  }

  /** The top of the downloads axis, `maxDownload + margin`. */
  function AxisTop(points: seq<int>): (r: real)
    ensures r > MaxDownload(points) as real
    ensures points == [] ==> r == 10.0
  {
    MaxDownload(points) as real + Margin(MinDownload(points), MaxDownload(points))
  }

  /** Every point is drawn inside the axis: no lower than its bottom and
      strictly below its top. On an empty window the axis is [0, 10]. */
  lemma AxisHoldsWindow(points: seq<int>)
    ensures MinDownload(points) <= MaxDownload(points)
    ensures forall i :: 0 <= i < |points| ==>
              MinDownload(points) <= points[i] && (points[i] as real) < AxisTop(points)
    ensures points == [] ==> MinDownload(points) == 0 && AxisTop(points) == 10.0
  {
    if |points| > 0 {
      assert SeqMin(points) <= points[0] <= SeqMax(points);
    }
  }

  /** On a growing downloads window the axis runs from the oldest point to
      the newest, and with two or more points the margin is a tenth of
      their difference, at least 1 per retained step. */
  lemma GrowingWindowAxis(points: seq<int>)
    requires Grows(points) && |points| > 0
    ensures MinDownload(points) == points[0]
    ensures MaxDownload(points) == points[|points| - 1]
    ensures |points| > 1 ==>
              Margin(points[0], points[|points| - 1]) >= (|points| - 1) as real
  {
    var n := |points|;
    forall i | 0 <= i < n ensures points[0] <= points[i] <= points[n - 1] {
      GrowsBetween(points, 0, i);
      GrowsBetween(points, i, n - 1);
    }
    var lo, hi := SeqMin(points), SeqMax(points);
    assert lo == points[0] by {
      assert lo in points;
      assert lo <= points[0];
    }
    assert hi == points[n - 1] by {
      assert hi in points;
      assert hi >= points[n - 1];
    }
    GrowsBetween(points, 0, n - 1);
  }

  /** `x || 0` on a score field: a missing field (or a zero one) reads as 0. */
  function OrZero(x: Option<real>): (r: real)
    ensures r == (match x case Some(v) => v case None => 0.0)
  {
    if x.Some? && x.value != 0.0 then x.value else 0.0
  }

  /** The three slices of the metrics pie chart: each score as sent,
      defaulted to 0 when the event lacks it. */
  function Metrics(s: Snapshot): (r: (real, real, real))
    ensures r.0 == (if s.maintenance.Some? then s.maintenance.value else 0.0)
    ensures r.1 == (if s.popularity.Some? then s.popularity.value else 0.0)
    ensures r.2 == (if s.quality.Some? then s.quality.value else 0.0)
  {
    (OrZero(s.maintenance), OrZero(s.popularity), OrZero(s.quality))
  }
}
