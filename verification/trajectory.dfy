/** How each update computes the next point of the two charts. Both points
    are synthetic: the downloads chart is anchored at the event's estimate
    and then grows by a random step; the rate chart is a rounded random
    walk that decays by a factor of 0.9. The `Math.random()` draws are
    parameters, each a real in [0, 1). */
module Trajectory {
  import opened Window

  /** `Math.floor(Math.random() * 5)` for the draw `u`. */
  function Jitter(u: real): (k: int)
    requires 0.0 <= u < 1.0
    ensures 0 <= k <= 4
  {
    (u * 5.0).Floor
  }

  /** The next downloads value: the estimate itself on an empty window,
      otherwise the last value plus 10 plus a jitter in 0..4. */
  function NextDownload(points: seq<int>, estimated: int, u: real): (r: int)
    requires 0.0 <= u < 1.0
    ensures points == [] ==> r == estimated
    ensures points != [] ==> 10 <= r - points[|points| - 1] <= 14
  {
    if |points| > 0 then points[|points| - 1] + 10 + Jitter(u) else estimated
  }

  /** Every adjacent pair of the downloads window differs by 10 to 14. */
  predicate Grows(s: seq<int>) {
    forall i :: 0 <= i < |s| - 1 ==> 10 <= s[i + 1] - s[i] <= 14
  }

  /** Points `j - i` apart differ by between 10 and 14 per step; in
      particular the window is strictly increasing. */
  lemma {:induction false} GrowsBetween(s: seq<int>, i: int, j: int)
    requires Grows(s) && 0 <= i <= j < |s|
    ensures 10 * (j - i) <= s[j] - s[i] <= 14 * (j - i)
    ensures i < j ==> s[i] < s[j]
    decreases j - i
  {
    if i < j {
      GrowsBetween(s, i, j - 1);
      assert 10 <= s[j] - s[j - 1] <= 14;
    }
  }

  /** Appending the next downloads value and evicting keeps the window
      growing. */
  lemma PushKeepsGrows(points: seq<int>, estimated: int, u: real)
    requires 0.0 <= u < 1.0
    requires Grows(points)
    ensures Grows(Push(points, NextDownload(points, estimated, u)))
  {
    var x := NextDownload(points, estimated, u);
    var r := Push(points, x);
    var d := |points| - (|r| - 1);
    forall i | 0 <= i < |r| - 1 ensures 10 <= r[i + 1] - r[i] <= 14 {
      if i + 1 < |r| - 1 {
        assert r[i] == points[d + i] && r[i + 1] == points[d + i + 1];
      } else {
        assert r[i] == points[|points| - 1];
      }
    }
  }

  /** The number of hundredths nearest to `y >= 0`, halves rounded up. */
  function Cents(y: real): (n: int)
    requires y >= 0.0
    ensures 0 <= n
    ensures n as real - 0.5 <= y * 100.0 < n as real + 0.5
  {
    (y * 100.0 + 0.5).Floor
  }

  /** `Number(x.toFixed(2))` on exact reals: round to two decimals, halves
      away from zero. The result is a whole number of hundredths, lies
      within half a hundredth of `x` and keeps its sign. */
  function Round2(x: real): (r: real)
    ensures (r * 100.0).Floor as real == r * 100.0
    ensures -0.005 <= r - x <= 0.005
    ensures x >= 0.0 ==> r >= 0.0
    ensures x < 0.0 ==> r <= 0.0
  {
    if x >= 0.0 then
      var n := Cents(x);
      assert n as real / 100.0 - x == (n as real - x * 100.0) / 100.0;
      assert (n as real / 100.0) * 100.0 == n as real;
      n as real / 100.0
    else
      var n := Cents(-x);
      assert -(n as real / 100.0) - x == -((n as real - (-x) * 100.0) / 100.0);
      assert -(n as real / 100.0) * 100.0 == (-n) as real;
      -(n as real / 100.0)
  }

  /** The bound a rate never leaves: 3 / (1 - 0.9). */
  const RateCeiling: real := 30.0

  predicate RatesBounded(rates: seq<real>) {
    forall i :: 0 <= i < |rates| ==> 0.0 <= rates[i] <= RateCeiling
  }

  /** The next rate: a draw scaled to [0, 3) plus 0.9 times the previous
      rate (0 on an empty window), rounded to two decimals. From rates in
      [0, 30] it stays in [0, 30]; the first rate of a session is at most 3. */
  function NextRate(rates: seq<real>, u: real): (r: real)
    requires 0.0 <= u < 1.0
    ensures RatesBounded(rates) ==> 0.0 <= r <= RateCeiling
    ensures rates == [] ==> 0.0 <= r <= 3.0
  {
    var lastRate := if |rates| > 0 then rates[|rates| - 1] else 0.0;
    Round2(u * 3.0 + lastRate * 0.9)
  }

  /** Appending the next rate and evicting keeps every rate in bounds. */
  lemma PushKeepsRatesBounded(rates: seq<real>, u: real)
    requires 0.0 <= u < 1.0
    requires RatesBounded(rates)
    ensures RatesBounded(Push(rates, NextRate(rates, u)))
  {
    var r := Push(rates, NextRate(rates, u));
    forall i | 0 <= i < |r| ensures 0.0 <= r[i] <= RateCeiling {
      if i < |r| - 1 {
        assert r[i] == rates[|rates| - (|r| - 1) + i];
      }
    }
  }
}
