/**
 * The values this system reads from a go-metrics registry. How the library
 * computes counts, rates and percentiles is not modelled: those numbers are inputs.
 */
module Metrics {

  /**
   * A Histogram or Timer snapshot: how many values were recorded and the value
   * at each quantile (for a Timer, a duration in nanoseconds).
   */
  datatype Snapshot = Snapshot(count: int, quantile: real -> real)

  /** `Snapshot.Percentiles(ps)`: one value per requested fraction, in the requested order. */
  function Percentiles(s: Snapshot, ps: seq<real>): (vs: seq<real>)
    ensures |vs| == |ps|
    ensures forall i :: 0 <= i < |ps| ==> vs[i] == s.quantile(ps[i])
  {
    seq(|ps|, i requires 0 <= i < |ps| => s.quantile(ps[i]))
  }

  /** One registered metric, by kind; `Unsupported` is any other value, with its `%#v` rendering. */
  datatype Sample =
    | Counter(count: int)
    | Gauge(value: int)
    | GaugeFloat64(floatValue: real)
    | Meter(rate1: real)
    | Histogram(snapshot: Snapshot)
    | Timer(snapshot: Snapshot)
    | Unsupported(rendering: string)

  /** A registry entry as `Registry.Each` hands it out; a registry is a sequence of them in iteration order. */
  datatype Entry = Entry(name: string, metric: Sample)
}
