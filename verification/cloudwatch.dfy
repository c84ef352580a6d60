/** The slice of the CloudWatch API both publishers talk to. */
module CloudWatchApi {
  import opened Wrappers

  const StandardUnitCount: string := "Count"
  const StandardUnitSeconds: string := "Seconds"
  const StandardUnitMilliseconds: string := "Milliseconds"
  const StandardUnitMicroseconds: string := "Microseconds"

  datatype Dimension = Dimension(name: string, value: string)

  /** A data point; a field the publisher leaves nil is `None`. Timestamps are instants in nanoseconds. */
  datatype MetricDatum = MetricDatum(
    metricName: string,
    value: real,
    unit: Option<string>,
    dimensions: seq<Dimension>,
    timestamp: int,
    storageResolution: Option<int>)

  datatype PutMetricDataInput = PutMetricDataInput(namespace: string, metricData: seq<MetricDatum>)

  /** One request per batch, in batch order, each for the same namespace. */
  function Requests(namespace: string, batches: seq<seq<MetricDatum>>): (r: seq<PutMetricDataInput>)
    ensures |r| == |batches|
    ensures forall i :: 0 <= i < |r| ==> r[i] == PutMetricDataInput(namespace, batches[i])
  {
    if batches == [] then []
    else [PutMetricDataInput(namespace, batches[0])] + Requests(namespace, batches[1..])
  }

  /**
   * The remote sink (the `CloudWatch` interface). It records every request it
   * receives; whether the n-th call fails, and with what error, is an oracle.
   */
  class CloudWatch {
    var received: seq<PutMetricDataInput>
    const outcome: nat -> Option<string>

    constructor (outcome: nat -> Option<string>)
      ensures received == [] && this.outcome == outcome
    {
      received := [];
      this.outcome := outcome;
    }

    method PutMetricData(input: PutMetricDataInput) returns (err: Option<string>)
      modifies this
      ensures received == old(received) + [input]
      ensures err == outcome(|old(received)|)
    {
      err := outcome(|received|);
      received := received + [input];
    }
  }
}
