/** The `App` component's state and its two handlers: the Track button
    (`trackPackage`) and the `packageUpdate` event listener. Each setter
    call of the component is an assignment to one field here; each
    functional updater is one of the pure functions of Window and
    Trajectory. The socket itself is not modelled: the request that
    `trackPackage` emits is reported as a result, and the event is a
    parameter of `PackageUpdate`. */
module Tracker {
  import opened Window
  import opened Trajectory
  import opened Stats

  /** Both charts aligned and within capacity, the downloads growing by 10
      to 14 per point, every rate in [0, 30]. */
  predicate Charts(chartLabels: seq<string>, dataPoints: seq<int>,
                   rateLabels: seq<string>, rates: seq<real>)
  {
    |chartLabels| == |dataPoints| <= Capacity &&
    |rateLabels| == |rates| <= Capacity &&
    Grows(dataPoints) &&
    RatesBounded(rates)
  }

  /** One update keeps the charts consistent. */
  lemma UpdateKeepsCharts(chartLabels: seq<string>, dataPoints: seq<int>,
                          rateLabels: seq<string>, rates: seq<real>,
                          estimated: int, chartTime: string, jitterDraw: real,
                          rateTime: string, rateDraw: real)
    requires Charts(chartLabels, dataPoints, rateLabels, rates)
    requires 0.0 <= jitterDraw < 1.0 && 0.0 <= rateDraw < 1.0
    ensures Charts(Push(chartLabels, chartTime),
                   Push(dataPoints, NextDownload(dataPoints, estimated, jitterDraw)),
                   Push(rateLabels, rateTime),
                   Push(rates, NextRate(rates, rateDraw)))
  {
    PushKeepsGrows(dataPoints, estimated, jitterDraw);
    PushKeepsRatesBounded(rates, rateDraw);
  }

  class App {
    /** The latest event (shared context state, `null` at first). */
    var stats: Option<Snapshot>
    /** The tracked package name (shared context state, `null` at first). */
    var name: Option<string>
    var loading: bool
    /** Latched once from the first event; `None` stands for `undefined`. */
    var baseDownloads: Option<int>
    /** The downloads chart: time labels and values, index-aligned. */
    var chartLabels: seq<string>
    var dataPoints: seq<int>
    /** The rate chart: time labels and rates, index-aligned. */
    var rateLabels: seq<string>
    var rates: seq<real>

    /** What every reachable state satisfies: both charts aligned and
        within capacity, the downloads growing by 10 to 14 per point, and
        every rate in [0, 30]. */
    ghost predicate Valid()
      reads this
    {
      Charts(chartLabels, dataPoints, rateLabels, rates)
    }

    /** The initial state of the component and of the shared context. */
    constructor ()
      ensures Valid()
      ensures stats == None && name == None && !loading
      ensures baseDownloads == Some(0)
      ensures chartLabels == [] && dataPoints == [] && rateLabels == [] && rates == []
    {
      stats := None;
      name := None;
      loading := false;
      baseDownloads := Some(0);
      chartLabels, dataPoints := [], [];
      rateLabels, rates := [], [];
    }

    /** The Track button. `loading` always becomes true; a non-empty name
        is recorded, emitted to the server and both charts are cleared.
        The latched base and the latest event are kept either way. */
    method TrackPackage(packageName: string) returns (emitted: bool)
      requires Valid()
      modifies this
      ensures Valid()
      ensures loading
      ensures emitted <==> packageName != ""
      ensures emitted ==> name == Some(packageName) &&
                          chartLabels == [] && dataPoints == [] &&
                          rateLabels == [] && rates == []
      ensures !emitted ==> name == old(name) &&
                           chartLabels == old(chartLabels) && dataPoints == old(dataPoints) &&
                           rateLabels == old(rateLabels) && rates == old(rates)
      ensures stats == old(stats) && baseDownloads == old(baseDownloads)
    {
      loading := true;
      emitted := packageName != "";
      if emitted {
        name := Some(packageName);
        chartLabels, dataPoints := [], [];
        rateLabels, rates := [], [];
      }
    }

    /** The `packageUpdate` listener. `chartTime` and `rateTime` are the
        two clock readings it formats, `jitterDraw` and `rateDraw` its two
        `Math.random()` draws. The event is stored, loading ends, the base
        is latched if it was still 0, and one point is pushed onto each
        chart. There is no check that the event belongs to the current
        name. */
    method PackageUpdate(data: Snapshot, chartTime: string, jitterDraw: real,
                         rateTime: string, rateDraw: real)
      requires Valid()
      requires 0.0 <= jitterDraw < 1.0 && 0.0 <= rateDraw < 1.0
      modifies this
      ensures Valid()
      ensures stats == Some(data) && !loading && name == old(name)
      ensures baseDownloads == if old(baseDownloads) == Some(0) then data.baseDownloads
                               else old(baseDownloads)
      ensures chartLabels == Push(old(chartLabels), chartTime)
      ensures dataPoints ==
                Push(old(dataPoints), NextDownload(old(dataPoints), data.estimatedDownloads, jitterDraw))
      ensures old(dataPoints) == [] ==> dataPoints == [data.estimatedDownloads]
      ensures rateLabels == Push(old(rateLabels), rateTime)
      ensures rates == Push(old(rates), NextRate(old(rates), rateDraw))
    {
      stats := Some(data);
      loading := false;
      if baseDownloads == Some(0) {
        baseDownloads := data.baseDownloads;
      }
      var download := NextDownload(dataPoints, data.estimatedDownloads, jitterDraw);
      var rate := NextRate(rates, rateDraw);
      UpdateKeepsCharts(chartLabels, dataPoints, rateLabels, rates, data.estimatedDownloads,
                        chartTime, jitterDraw, rateTime, rateDraw);
      if dataPoints == [] {
        assert Push(dataPoints, download) == [download];
      }
      chartLabels, dataPoints := Push(chartLabels, chartTime), Push(dataPoints, download);
      rateLabels, rates := Push(rateLabels, rateTime), Push(rates, rate);
    }
  }

  /** Two sessions on one component: track `first`, receive `early`,
      track `second`, then receive `late`, an event still meant for
      `first`. Because nothing guards against stale events, `late`
      becomes the anchor of the new downloads chart; because tracking does
      not reset the base, the base latched from `early` survives. */
  method RetrackSession(first: string, second: string, early: Snapshot, late: Snapshot,
                        u: real)
    returns (tracked: Option<string>, base: Option<int>, points: seq<int>)
    requires first != "" && second != ""
    requires early.baseDownloads.Some? && early.baseDownloads.value != 0
    requires 0.0 <= u < 1.0
    ensures tracked == Some(second)
    ensures base == early.baseDownloads
    ensures points == [late.estimatedDownloads]
  {
    var app := new App();
    var sent := app.TrackPackage(first);
    app.PackageUpdate(early, "t1", u, "t1", u);
    sent := app.TrackPackage(second);
    app.PackageUpdate(late, "t2", u, "t2", u);
    tracked, base, points := app.name, app.baseDownloads, app.dataPoints;
  }
}
