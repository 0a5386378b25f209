# Package download tracker: the update aggregator

The `App` component of the tracker page (`src/1.jsx`) subscribes to
`packageUpdate` events for one npm package and turns them into two
charts. This project models its state and handlers:

- two rolling windows of at most 30 points each, one for downloads and
  one for the rate, each a list of time labels and a list of values;
- the synthetic downloads trajectory: anchored at the event's
  `estimatedDownloads`, then growing by `10 + floor(5u)` per event;
- the rate walk `round2(3u + 0.9 * lastRate)`;
- `baseDownloads`, latched from the event's own `baseDownloads` field the
  first time the state is still 0;
- the Track button, which clears both charts only for a non-empty name;
- the derived values: incremental downloads, the downloads chart's axis
  (min, max, margin) and the three metric slices.

Modules: `Window` (the `[...prev, x].slice(-30)` window),
`Trajectory` (the next point of each chart), `Stats` (the event),
`Derived` (values recomputed on render) and `Tracker` (class `App` with
the two handlers).

Behaviour of the code that is easy to misread:
- there is no session identifier and no stale-event guard, so an event
  for the previous name lands in the new session's charts (`RetrackSession`);
- Track does not reset `baseDownloads`, and the latch reads the event's
  `baseDownloads`, not its `estimatedDownloads`;
- any non-empty name is tracked, including one made of spaces (JavaScript
  truthiness);
- `loading` becomes true even when the name is empty.

Each `Math.random()` draw is a parameter `u` with `0 <= u < 1`. Each
clock reading is a string parameter. The handler reads the clock twice,
so it gets two labels.

## Model

| member | source | states |
|---|---|---|
| `Window.Newest` | src/1.jsx:55-56 | `.slice(-30)` keeps min(n, 30) elements (which ones, the tail, is its definition; `Push` states them per index) |
| `Window.Push` | src/1.jsx:55-56 | appending keeps min(n+1, 30) points: the new point last, and before it the newest points of the old window in order |
| `Window.PushAllKeepsNewest` | src/1.jsx:65-66 | a run of events on a window of at most 30 points leaves exactly the newest 30 points of the old window plus the run, in arrival order |
| `Window.SessionWindow` | src/1.jsx:55-56 | from an empty window, N events leave all N points when N <= 30, and otherwise only the last 30 (the first N-30 are evicted) |
| `Trajectory.Jitter` | src/1.jsx:52 | `Math.floor(Math.random() * 5)` is an integer in 0..4 |
| `Trajectory.NextDownload` | src/1.jsx:51-53 | on an empty window the next value is exactly the event's estimate; otherwise it exceeds the last value by 10 to 14 |
| `Trajectory.GrowsBetween` | src/1.jsx:51-52 | in a window whose adjacent points differ by 10 to 14, points j-i apart differ by 10(j-i) to 14(j-i), so the window is strictly increasing |
| `Trajectory.PushKeepsGrows` | src/1.jsx:51-56 | appending the next download value and evicting keeps every adjacent step within 10..14 |
| `Trajectory.Cents` | src/1.jsx:66 | rounding a non-negative value to hundredths picks the nearest count of hundredths, halves up |
| `Trajectory.Round2` | src/1.jsx:66 | `toFixed(2)` yields a whole number of hundredths, within 0.005 of the input, with the input's sign |
| `Trajectory.NextRate` | src/1.jsx:62-66 | from rates in [0, 30] the next rate is in [0, 30]; the first rate of a session, from last rate 0, is in [0, 3] |
| `Trajectory.PushKeepsRatesBounded` | src/1.jsx:60-67 | appending the next rate and evicting keeps every rate in [0, 30] |
| `Derived.IncrementalDownloads` | src/1.jsx:76-77 | estimate minus base when an event is present and the base is set and non-zero, else 0; negative exactly when the estimate is below the base (no clamping) |
| `Derived.SeqMin` | src/1.jsx:80 | `Math.min` of a non-empty window is one of its points and no point is smaller |
| `Derived.SeqMax` | src/1.jsx:81 | `Math.max` of a non-empty window is one of its points and no point is larger |
| `Derived.MinDownload` | src/1.jsx:80 | 0 for an empty window; otherwise one of its points, and no point is smaller |
| `Derived.MaxDownload` | src/1.jsx:81 | 0 for an empty window; otherwise one of its points, and no point is larger |
| `Derived.Margin` | src/1.jsx:82 | the margin is positive: a tenth of the spread when max exceeds min, and 10 otherwise |
| `Derived.AxisTop` | src/1.jsx:216 | the top of the axis, `maxDownload + margin`, lies strictly above the largest point, and is 10 for an empty window |
| `Derived.AxisHoldsWindow` | src/1.jsx:214-216 | every point is at or above the axis minimum and strictly below `maxDownload + margin`; an empty window gives the axis [0, 10] |
| `Derived.GrowingWindowAxis` | src/1.jsx:80-82 | on a growing window the axis minimum is the oldest point, the maximum the newest, and the margin is at least 1 per retained step |
| `Derived.OrZero` | src/1.jsx:300 | `x \|\| 0` equals the field when present and 0 when absent |
| `Derived.Metrics` | src/1.jsx:299-303 | the three pie slices are maintenance, popularity and quality as sent, each 0 when the event lacks it |
| `Tracker.UpdateKeepsCharts` | src/1.jsx:49-68 | one event keeps both charts label/value aligned, within 30 points, growing downloads and rates in [0, 30] |
| `Tracker.App.constructor` | src/1.jsx:22-27 | the initial state: no event, no name, not loading, base 0, both charts empty |
| `Tracker.App.TrackPackage` | src/1.jsx:29-38 | loading becomes true; the request is emitted iff the name is non-empty, and then the name is set and both charts are emptied; otherwise name and charts are unchanged; the event and the base are never touched |
| `Tracker.App.PackageUpdate` | src/1.jsx:41-69 | stores the event, ends loading, latches the base only while it is 0, pushes one label and one value onto each chart (the first download point equals the estimate) and keeps the chart invariant |
| `Tracker.RetrackSession` | src/1.jsx:29-69 | track a, event, track b, late event for a: the late event anchors b's downloads chart and the base latched in session a survives |

## Left out

- The socket: connecting, `emit`, registering and removing the listener.
  `TrackPackage` returns whether it would emit; the event is a parameter.
- Rendering, Chart.js registration and options, the spinner and the
  "no data" display, and the pages in `src/Versions.jsx` and
  `src/main.jsx`. `src/StatsContext.jsx` is represented by the two
  fields `stats` and `name` of `App`.
- Floating point: download values are unbounded integers; rates, margins
  and scores are exact reals. `Round2` is decimal rounding on reals.
  It does not model binary floating-point representation error in
  `toFixed`.
- The rate walk's long-run mean of 15 is a statement about probability
  distributions. Only the deterministic bound [0, 30] is proved.
- Event fields other than the estimate, the base and the three scores.
  They are only displayed.
- Malformed numbers: `estimatedDownloads` is always an integer here, and
  `NaN` values are not modelled. A missing `baseDownloads` is modelled as
  `None` (JavaScript `undefined`); once latched, it is never replaced,
  because `undefined === 0` is false.
- `Derived.OrZero`: JavaScript's `||` also maps `NaN` to 0, which is not
  modelled.
