/** The update event the server pushes for the tracked package, reduced to
    the fields the aggregator reads. */
module Stats {

  /** A field that may be missing from the event (JavaScript `undefined`),
      or state that starts out `null`. */
  datatype Option<+T> = None | Some(value: T)

  /** One `packageUpdate` event. `baseDownloads` may be absent, and so may
      the three score fields, which are fractions in [0, 1] when present. */
  datatype Snapshot = Snapshot(
    estimatedDownloads: int,
    baseDownloads: Option<int>,
    maintenance: Option<real>,
    popularity: Option<real>,
    quality: Option<real>)
}
