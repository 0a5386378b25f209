/** The bounded rolling window behind both charts: every update appends one
    point and keeps only the newest `Capacity` of them, the JavaScript idiom
    `[...prev, x].slice(-30)`. */
module Window {

  /** How many points a chart keeps. */
  const Capacity: nat := 30

  function Min(a: int, b: int): int { if a <= b then a else b }

  /** `s.slice(-Capacity)`: the newest `Capacity` elements of `s`, or all of
      them when there are fewer. */
  function Newest<T>(s: seq<T>): (r: seq<T>)
    ensures |r| == Min(|s|, Capacity)
  {
    if |s| <= Capacity then s else s[|s| - Capacity..]
  }

  /** One window update: append `x` at the tail and evict from the head. */
  function Push<T>(s: seq<T>, x: T): (r: seq<T>)
    ensures |r| == Min(|s| + 1, Capacity)
    ensures r[|r| - 1] == x
    ensures forall i :: 0 <= i < |r| - 1 ==> r[i] == s[|s| - (|r| - 1) + i]
  {
    Newest(s + [x])
  }

  /** The window after a run of updates, oldest first. */
  function PushAll<T>(s: seq<T>, xs: seq<T>): seq<T>
    decreases |xs|
  {
    if xs == [] then s else PushAll(Push(s, xs[0]), xs[1..])
  }

  lemma NewestOfNewest<T>(a: seq<T>, b: seq<T>)
    ensures Newest(Newest(a) + b) == Newest(a + b)
  {
    if |a| > Capacity {
      var na := a[|a| - Capacity..];
      assert na + b == (a + b)[|a| - Capacity..];
      if |b| > 0 {
        assert (na + b)[|b|..] == (a + b)[|a| - Capacity + |b|..];
      }
    }
  }

  /** A run of updates on a window that holds at most `Capacity` points
      retains exactly the newest `Capacity` points of everything seen, in
      arrival order; everything older has been evicted. */
  lemma {:induction false} PushAllKeepsNewest<T>(s: seq<T>, xs: seq<T>)
    requires |s| <= Capacity
    ensures PushAll(s, xs) == Newest(s + xs)
    decreases |xs|
  {
    if xs == [] {
      assert s + xs == s;
    } else {
      var s' := Push(s, xs[0]);
      assert s' == Newest(s + [xs[0]]);
      PushAllKeepsNewest(s', xs[1..]);
      assert PushAll(s, xs) == PushAll(s', xs[1..]);
      NewestOfNewest(s + [xs[0]], xs[1..]);
      assert s + [xs[0]] + xs[1..] == s + xs;
    }
  }

  /** From an empty window: after N updates the window holds min(N, 30)
      points; with N <= 30 it is the whole run, and with more it is the
      last 30 of the run. */
  lemma SessionWindow<T>(xs: seq<T>)
    ensures |xs| <= Capacity ==> PushAll([], xs) == xs
    ensures |xs| > Capacity ==> PushAll([], xs) == xs[|xs| - Capacity..]
  {
    PushAllKeepsNewest([], xs);
    assert [] + xs == xs;
  }
}
