/**
 * The publisher: on each tick it polls every registered metric into data
 * points, submits them to CloudWatch in batches of at most 20, and logs the
 * metrics it cannot handle and the batches CloudWatch rejects.
 */
module CloudMetrics {
  import opened Wrappers
  import opened Runtime
  import opened Metrics
  import opened CloudWatchApi
  import opened Logging
  import opened Batching
  import opened Datum
  import Config

  /** The most data points CloudWatch accepts in one request. */
  const BatchSize: nat := 20

  const ChunkFailure: string := "could not put chunk of metrics"
  const LastChunkFailure: string := "could not put last chunk of metrics"
  const UnexpectedMetric: string := "Received unexpected metric: "

  /** The data points one registry entry contributes when read at instant `t`. */
  function EntryData(b: Builder, e: Entry, t: int): seq<MetricDatum>
  {
    match e.metric
    case Counter(c) => b.BuildCounterData(c, e.name, t)
    case Gauge(v) => b.BuildGaugeData(v, e.name, t)
    case GaugeFloat64(v) => b.BuildGaugeFloat64Data(v, e.name, t)
    case Histogram(h) => b.HistogramData(e.name, h, t)
    case Meter(r) => b.BuildMeterData(r, e.name, t)
    case Timer(h) => b.TimerData(e.name, h, t)
    case Unsupported(_) => []
  }

  /**
   * What one poll yields: the data of every entry, in registry order; the
   * builder reads the clock itself, so entry i is stamped with `clock(i)`.
   */
  function PollData(b: Builder, registry: seq<Entry>, clock: nat -> int): seq<MetricDatum>
    decreases |registry|
  {
    if registry == [] then []
    else PollData(b, registry[..|registry| - 1], clock) + EntryData(b, registry[|registry| - 1], clock(|registry| - 1))
  }

  /** Each entry's contribution, one part per entry. */
  function EntryParts(b: Builder, registry: seq<Entry>, clock: nat -> int): (parts: seq<seq<MetricDatum>>)
    ensures |parts| == |registry|
    ensures forall i :: 0 <= i < |registry| ==> parts[i] == EntryData(b, registry[i], clock(i))
  {
    seq(|registry|, i requires 0 <= i < |registry| => EntryData(b, registry[i], clock(i)))
  }

  /** The error entries one poll logs: one per entry of a kind the builder does not handle. */
  function UnsupportedLog(registry: seq<Entry>): seq<LogEntry>
    decreases |registry|
  {
    if registry == [] then []
    else
      var e := registry[|registry| - 1];
      UnsupportedLog(registry[..|registry| - 1])
        + (if e.metric.Unsupported? then [LogEntry.Error(UnexpectedMetric + e.metric.rendering, None)] else [])
  }

  /**
   * The error entries for submitting `batches`, the first being call number
   * `call` to the sink: one per rejected batch, the final batch with its own
   * message, each carrying the sink's error.
   */
  function FailureLog(batches: seq<seq<MetricDatum>>, outcome: nat -> Option<string>, call: nat): seq<LogEntry>
    decreases |batches|
  {
    if batches == [] then []
    else
      var here := match outcome(call)
        case None => []
        case Some(e) => [LogEntry.Error(if |batches| == 1 then LastChunkFailure else ChunkFailure, Some(e))];
      here + FailureLog(batches[1..], outcome, call + 1)
  }

  lemma UnsupportedLogSnoc(registry: seq<Entry>, e: Entry)
    ensures UnsupportedLog(registry + [e]) == UnsupportedLog(registry) + UnsupportedLog([e])
  {
    assert (registry + [e])[..|registry|] == registry;
    assert [e][..0] == [];
  }

  /** Extending the walk by one entry appends that entry's data and error entry. */
  lemma PollPrefixStep(b: Builder, registry: seq<Entry>, clock: nat -> int, i: nat)
    requires i < |registry|
    ensures PollData(b, registry[..i + 1], clock) == PollData(b, registry[..i], clock) + EntryData(b, registry[i], clock(i))
    ensures UnsupportedLog(registry[..i + 1]) == UnsupportedLog(registry[..i]) + UnsupportedLog([registry[i]])
  {
    var p := registry[..i + 1];
    assert p[..|p| - 1] == registry[..i];
    UnsupportedLogSnoc(registry[..i], registry[i]);
    assert registry[..i] + [registry[i]] == p;
  }

  /** Submitting a batch that is not the last: one request, and an entry if it is rejected. */
  lemma ChunkStep(namespace: string, rest: seq<MetricDatum>, outcome: nat -> Option<string>, call: nat)
    requires |rest| > BatchSize
    ensures Requests(namespace, Batches(rest, BatchSize))
            == [PutMetricDataInput(namespace, rest[..BatchSize])] + Requests(namespace, Batches(rest[BatchSize..], BatchSize))
    ensures FailureLog(Batches(rest, BatchSize), outcome, call)
            == (if outcome(call).Some? then [LogEntry.Error(ChunkFailure, outcome(call))] else [])
               + FailureLog(Batches(rest[BatchSize..], BatchSize), outcome, call + 1)
  {
    var bs := Batches(rest, BatchSize);
    assert bs == [rest[..BatchSize]] + Batches(rest[BatchSize..], BatchSize);
    assert bs[1..] == Batches(rest[BatchSize..], BatchSize);
    assert |bs| > 1;
  }

  /** Submitting what is left after the full batches: at most one request. */
  lemma LastChunkStep(namespace: string, rest: seq<MetricDatum>, outcome: nat -> Option<string>, call: nat)
    requires |rest| <= BatchSize
    ensures Requests(namespace, Batches(rest, BatchSize))
            == if |rest| > 0 then [PutMetricDataInput(namespace, rest)] else []
    ensures FailureLog(Batches(rest, BatchSize), outcome, call)
            == if |rest| > 0 && outcome(call).Some? then [LogEntry.Error(LastChunkFailure, outcome(call))] else []
  {
    if |rest| > 0 {
      var bs := Batches(rest, BatchSize);
      assert bs == [rest];
      assert bs[1..] == [];
    }
  }

  /** A tick of the ticker with the registry as it then stands, or the context being cancelled. */
  datatype Event = Tick(registry: seq<Entry>, clock: nat -> int) | Cancel

  /** What one tick of the publishing loop did: the registry it read and the data it polled. */
  datatype TickRecord = TickRecord(registry: seq<Entry>, data: seq<MetricDatum>)

  /**
   * Whether `trace` records a run of the publishing loop over `events`: one
   * record per tick, in order, up to the first cancellation or the end of
   * the events, each holding what polling that tick's registry yields.
   */
  ghost predicate Ran(b: Builder, events: seq<Event>, trace: seq<TickRecord>)
  {
    && Polled(b, events, trace)
    && (|trace| < |events| ==> events[|trace|].Cancel?)
  }

  /** Whether `trace` records the first |trace| events, each a tick, and what polling each one yields. */
  ghost predicate Polled(b: Builder, events: seq<Event>, trace: seq<TickRecord>)
  {
    && |trace| <= |events|
    && (forall k :: 0 <= k < |trace| ==>
          events[k].Tick? && trace[k] == TickRecord(events[k].registry, PollData(b, events[k].registry, events[k].clock)))
  }

  lemma PolledSnoc(b: Builder, events: seq<Event>, trace: seq<TickRecord>, data: seq<MetricDatum>)
    requires Polled(b, events, trace) && |trace| < |events| && events[|trace|].Tick?
    requires data == PollData(b, events[|trace|].registry, events[|trace|].clock)
    ensures Polled(b, events, trace + [TickRecord(events[|trace|].registry, data)])
  {
  }

  /** The requests a run sends: each tick's data in batches, tick after tick. */
  function SendAll(namespace: string, trace: seq<TickRecord>): (r: seq<PutMetricDataInput>)
    ensures |r| == CallCount(trace)
    decreases |trace|
  {
    if trace == [] then []
    else SendAll(namespace, trace[..|trace| - 1]) + Requests(namespace, Batches(trace[|trace| - 1].data, BatchSize))
  }

  /** How many requests a run sends. */
  function CallCount(trace: seq<TickRecord>): nat
    decreases |trace|
  {
    if trace == [] then 0 else CallCount(trace[..|trace| - 1]) + |Batches(trace[|trace| - 1].data, BatchSize)|
  }

  /**
   * The error entries a run logs, its first request being call number
   * `call`: for each tick, the unsupported entries, then the rejected batches.
   */
  function LogAll(trace: seq<TickRecord>, outcome: nat -> Option<string>, call: nat): seq<LogEntry>
    decreases |trace|
  {
    if trace == [] then []
    else
      var prefix := trace[..|trace| - 1];
      var last := trace[|trace| - 1];
      LogAll(prefix, outcome, call)
        + (UnsupportedLog(last.registry) + FailureLog(Batches(last.data, BatchSize), outcome, call + CallCount(prefix)))
  }

  /** One more tick extends what a run has sent by that tick's requests. */
  lemma SendStep(namespace: string, before: seq<PutMetricDataInput>, trace: seq<TickRecord>, r: TickRecord,
                 sent: seq<PutMetricDataInput>)
    requires sent == before + SendAll(namespace, trace)
    ensures sent + Requests(namespace, Batches(r.data, BatchSize)) == before + SendAll(namespace, trace + [r])
  {
    assert (trace + [r])[..|trace|] == trace;
    AppendAssoc(before, SendAll(namespace, trace), Requests(namespace, Batches(r.data, BatchSize)));
  }

  /** One more tick extends what a run has logged by that tick's entries. */
  lemma LogStep(before: seq<LogEntry>, trace: seq<TickRecord>, r: TickRecord, outcome: nat -> Option<string>,
                call: nat, logged: seq<LogEntry>, calls: nat)
    requires logged == before + LogAll(trace, outcome, call)
    requires calls == call + CallCount(trace)
    ensures (logged + UnsupportedLog(r.registry)) + FailureLog(Batches(r.data, BatchSize), outcome, calls)
            == before + LogAll(trace + [r], outcome, call)
  {
    assert (trace + [r])[..|trace|] == trace;
    var tick := UnsupportedLog(r.registry) + FailureLog(Batches(r.data, BatchSize), outcome, calls);
    assert LogAll(trace + [r], outcome, call) == LogAll(trace, outcome, call) + tick;
    AppendAssoc(logged, UnsupportedLog(r.registry), FailureLog(Batches(r.data, BatchSize), outcome, calls));
    AppendAssoc(before, LogAll(trace, outcome, call), tick);
  }

  /** A run is determined by its events: two traces of the same run are equal. */
  lemma RanUnique(b: Builder, events: seq<Event>, t1: seq<TickRecord>, t2: seq<TickRecord>)
    requires Ran(b, events, t1) && Ran(b, events, t2)
    ensures t1 == t2
  {
    if |t1| != |t2| {
      assert false;
    }
  }

  /** The loop stops at the first cancellation: no tick after it is polled. */
  lemma RanStopsAtCancel(b: Builder, events: seq<Event>, trace: seq<TickRecord>, j: nat)
    requires Ran(b, events, trace)
    requires j < |events| && events[j].Cancel?
    ensures |trace| <= j
  {
  }

  class Publisher {
    const ctx: Context
    const namespace: string
    const client: CloudWatch
    const interval: int
    const logger: Logger
    const datumBuilder: Builder

    constructor (ctx: Context, namespace: string, client: CloudWatch, interval: int, logger: Logger,
                 datumBuilder: Builder)
      ensures this.ctx == ctx && this.namespace == namespace && this.client == client
      ensures this.interval == interval && this.logger == logger && this.datumBuilder == datumBuilder
    {
      this.ctx := ctx;
      this.namespace := namespace;
      this.client := client;
      this.interval := interval;
      this.logger := logger;
      this.datumBuilder := datumBuilder;
    }

    /** `putMetrics`: one request for this namespace, returning the sink's error, if any. */
    method PutMetrics(batch: seq<MetricDatum>) returns (err: Option<string>)
      modifies client
      ensures client.received == old(client.received) + [PutMetricDataInput(namespace, batch)]
      ensures err == client.outcome(|old(client.received)|)
    {
      err := client.PutMetricData(PutMetricDataInput(namespace, batch));
    }

    /** The body of the registry walk for one entry: its data, or an error entry if its kind is unsupported. */
    method PollEntry(e: Entry, t: int) returns (more: seq<MetricDatum>)
      modifies logger
      ensures more == EntryData(datumBuilder, e, t)
      ensures logger.entries == old(logger.entries) + UnsupportedLog([e])
    {
      assert [e][..0] == [];
      match e.metric {
        case Counter(c) => more := datumBuilder.BuildCounterData(c, e.name, t);
        case Gauge(v) => more := datumBuilder.BuildGaugeData(v, e.name, t);
        case GaugeFloat64(v) => more := datumBuilder.BuildGaugeFloat64Data(v, e.name, t);
        case Histogram(h) => more := datumBuilder.BuildHistogramData(e.name, h, t);
        case Meter(r) => more := datumBuilder.BuildMeterData(r, e.name, t);
        case Timer(h) => more := datumBuilder.BuildTimerData(e.name, h, t);
        case Unsupported(rendering) =>
          more := [];
          logger.Error(UnexpectedMetric + rendering, None);
      }
    }

    /** `pollOnce`: walks the registry, collecting data and logging unsupported entries. */
    method PollOnce(registry: seq<Entry>, clock: nat -> int) returns (data: seq<MetricDatum>)
      modifies logger
      ensures data == PollData(datumBuilder, registry, clock)
      ensures logger.entries == old(logger.entries) + UnsupportedLog(registry)
    {
      data := [];
      for i := 0 to |registry|
        invariant data == PollData(datumBuilder, registry[..i], clock)
        invariant logger.entries == old(logger.entries) + UnsupportedLog(registry[..i])
      {
        var more := PollEntry(registry[i], clock(i));
        PollPrefixStep(datumBuilder, registry, clock, i);
        data := data + more;
      }
      assert registry[..|registry|] == registry;
    }

    /**
     * `publishMetrics`: while more than a batch remains, submits the first
     * 20 points and continues with the rest; then submits whatever is left.
     * A rejected batch is logged and does not stop the following ones.
     */
    method PublishMetrics(data: seq<MetricDatum>)
      requires client != logger as object
      modifies client, logger
      ensures client.received == old(client.received) + Requests(namespace, Batches(data, BatchSize))
      ensures logger.entries == old(logger.entries) + FailureLog(Batches(data, BatchSize), client.outcome, |old(client.received)|)
    {
      var rest := data;
      while |rest| > BatchSize
        invariant old(client.received) + Requests(namespace, Batches(data, BatchSize))
                  == client.received + Requests(namespace, Batches(rest, BatchSize))
        invariant old(logger.entries) + FailureLog(Batches(data, BatchSize), client.outcome, |old(client.received)|)
                  == logger.entries + FailureLog(Batches(rest, BatchSize), client.outcome, |client.received|)
        decreases |rest|
      {
        ghost var sent := client.received;
        ghost var logged := logger.entries;
        ChunkStep(namespace, rest, client.outcome, |sent|);
        var err := PutMetrics(rest[..BatchSize]);
        if err.Some? {
          logger.Error(ChunkFailure, err);
        }
        ghost var entry := if err.Some? then [LogEntry.Error(ChunkFailure, err)] else [];
        assert logger.entries == logged + entry;
        ghost var request := PutMetricDataInput(namespace, rest[..BatchSize]);
        assert client.received == sent + [request];
        rest := rest[BatchSize..];
        AppendAssoc(sent, [request], Requests(namespace, Batches(rest, BatchSize)));
        AppendAssoc(logged, entry, FailureLog(Batches(rest, BatchSize), client.outcome, |sent| + 1));
      }
      LastChunkStep(namespace, rest, client.outcome, |client.received|);
      if |rest| > 0 {
        var err := PutMetrics(rest);
        if err.Some? {
          logger.Error(LastChunkFailure, err);
        }
      }
    }

    /**
     * `Publish`: on every tick, polls the registry and publishes what it
     * read; returns at the first cancellation. The model ends when the
     * events run out. `trace` records what each tick polled.
     */
    method Publish(events: seq<Event>) returns (ghost trace: seq<TickRecord>)
      requires client != logger as object
      modifies client, logger
      ensures Ran(datumBuilder, events, trace)
      ensures client.received == old(client.received) + SendAll(namespace, trace)
      ensures logger.entries == old(logger.entries) + LogAll(trace, client.outcome, |old(client.received)|)
    {
      trace := [];
      var i := 0;
      while i < |events|
        invariant 0 <= i <= |events| && |trace| == i
        invariant Polled(datumBuilder, events, trace)
        invariant client.received == old(client.received) + SendAll(namespace, trace)
        invariant logger.entries == old(logger.entries) + LogAll(trace, client.outcome, |old(client.received)|)
        decreases |events| - i
      {
        if events[i].Cancel? {
          return;
        }
        ghost var sent := client.received;
        ghost var logged := logger.entries;
        var data := PollOnce(events[i].registry, events[i].clock);
        PublishMetrics(data);
        ghost var r := TickRecord(events[i].registry, data);
        SendStep(namespace, old(client.received), trace, r, sent);
        LogStep(old(logger.entries), trace, r, client.outcome, |old(client.received)|, logged, |sent|);
        PolledSnoc(datumBuilder, events, trace, data);
        trace := trace + [r];
        i := i + 1;
      }
    }
  }

  /**
   * `NewPublisher`: resolves the options; a builder, client or logger given
   * as an option is used as is, and otherwise the builder is made from the
   * resolved settings and the default client and logger are used.
   */
  method NewPublisher(namespace: string, opts: seq<Config.Option>, defaultClient: CloudWatch, defaultLogger: Logger)
    returns (p: Publisher)
    ensures fresh(p)
    ensures var s := Config.Resolve(opts);
            && p.ctx == s.context && p.interval == s.interval && p.namespace == namespace
            && p.client == (if s.client != null then s.client else defaultClient)
            && p.logger == (if s.logger != null then s.logger else defaultLogger)
            && (s.datumBuilder.Some? ==> p.datumBuilder == s.datumBuilder.value)
            && (s.datumBuilder.None? ==>
                  && p.datumBuilder.units == s.units
                  && p.datumBuilder.percentiles == s.percentiles
                  && p.datumBuilder.storageResolution == s.storageResolution
                  && ListsDimensions(p.datumBuilder.dimensions, s.dimensions))
  {
    var s := Config.GetSettings(opts);
    var b: Builder;
    match s.datumBuilder {
      case Some(given) => b := given;
      case None => b := NewBuilder(s.units, s.dimensions, s.percentiles, s.storageResolution);
    }
    var c := s.client;
    if c == null {
      c := defaultClient;
    }
    var l := s.logger;
    if l == null {
      l := defaultLogger;
    }
    p := new Publisher(s.context, namespace, c, s.interval, l, b);
  }
}

/** What the publisher promises about the data it polls, the requests it sends and what it logs. */
module CloudMetricsFacts {
  import opened Wrappers
  import opened Metrics
  import opened CloudWatchApi
  import opened Logging
  import opened Batching
  import opened Datum
  import opened CloudMetrics

  /**
   * How many data points each kind of entry yields: one for a counter,
   * gauge or meter; none for an empty histogram or timer, otherwise one per
   * configured percentile plus the count; none for an unsupported value.
   * All of them carry the reading instant, the dimensions and the storage resolution.
   */
  lemma EntryDataShape(b: Builder, e: Entry, t: int)
    ensures var r := EntryData(b, e, t);
      && (e.metric.Counter? || e.metric.Gauge? || e.metric.GaugeFloat64? || e.metric.Meter? ==> |r| == 1)
      && (e.metric.Histogram? || e.metric.Timer? ==>
            |r| == if e.metric.snapshot.count == 0 then 0 else |b.percentiles| + 1)
      && (e.metric.Unsupported? ==> r == [])
      && (forall j :: 0 <= j < |r| ==>
            r[j].timestamp == t && r[j].dimensions == b.dimensions && r[j].storageResolution == Some(b.storageResolution))
  {
    match e.metric {
      case Histogram(h) => HistogramDataStamped(b, e.name, h, t);
      case Timer(h) => TimerDataStamped(b, e.name, h, t);
      case _ =>
    }
  }

  /** The data of a histogram all carry the reading instant, dimensions and storage resolution. */
  lemma HistogramDataStamped(b: Builder, name: string, h: Snapshot, t: int)
    ensures var hd := b.HistogramData(name, h, t);
      && |hd| == (if h.count == 0 then 0 else |b.percentiles| + 1)
      && forall j :: 0 <= j < |hd| ==>
           hd[j].timestamp == t && hd[j].dimensions == b.dimensions && hd[j].storageResolution == Some(b.storageResolution)
  {
    b.HistogramDataShape(name, h, t);
    var hd := b.HistogramData(name, h, t);
    forall j | 1 <= j < |hd|
      ensures hd[j].timestamp == t && hd[j].dimensions == b.dimensions && hd[j].storageResolution == Some(b.storageResolution)
    {
      b.HistogramDataAt(name, h, t, j - 1);
    }
  }

  /** The data of a timer all carry the reading instant, dimensions and storage resolution. */
  lemma TimerDataStamped(b: Builder, name: string, h: Snapshot, t: int)
    ensures var td := b.TimerData(name, h, t);
      && |td| == (if h.count == 0 then 0 else |b.percentiles| + 1)
      && forall j :: 0 <= j < |td| ==>
           td[j].timestamp == t && td[j].dimensions == b.dimensions && td[j].storageResolution == Some(b.storageResolution)
  {
    b.TimerDataShape(name, h, t);
    var td := b.TimerData(name, h, t);
    forall j | 1 <= j < |td|
      ensures td[j].timestamp == t && td[j].dimensions == b.dimensions && td[j].storageResolution == Some(b.storageResolution)
    {
      b.TimerDataAt(name, h, t, j - 1);
    }
  }

  /** A poll's data is the concatenation of every entry's data, in registry order. */
  lemma {:induction false} PollDataConcatenates(b: Builder, registry: seq<Entry>, clock: nat -> int)
    ensures PollData(b, registry, clock) == Flatten(EntryParts(b, registry, clock))
    decreases |registry|
  {
    if registry != [] {
      var n := |registry| - 1;
      PollDataConcatenates(b, registry[..n], clock);
      var parts := EntryParts(b, registry, clock);
      assert parts[..n] == EntryParts(b, registry[..n], clock);
    }
  }

  /**
   * Every data point of a poll carries the builder's dimensions and storage
   * resolution, and the instant at which one of the entries was read.
   */
  lemma {:induction false} PollDataStamped(b: Builder, registry: seq<Entry>, clock: nat -> int)
    ensures forall d :: d in PollData(b, registry, clock) ==>
              d.dimensions == b.dimensions && d.storageResolution == Some(b.storageResolution)
    ensures forall d :: d in PollData(b, registry, clock) ==> exists i :: 0 <= i < |registry| && d.timestamp == clock(i)
    decreases |registry|
  {
    if registry != [] {
      var n := |registry| - 1;
      PollDataStamped(b, registry[..n], clock);
      EntryDataShape(b, registry[n], clock(n));
      var prev := PollData(b, registry[..n], clock);
      var last := EntryData(b, registry[n], clock(n));
      forall d | d in PollData(b, registry, clock)
        ensures d.dimensions == b.dimensions && d.storageResolution == Some(b.storageResolution)
        ensures exists i :: 0 <= i < |registry| && d.timestamp == clock(i)
      {
        if d in prev {
          var i :| 0 <= i < |registry[..n]| && d.timestamp == clock(i);
          assert 0 <= i < |registry|;
        } else {
          assert d in last;
          var j :| 0 <= j < |last| && last[j] == d;
          assert d.timestamp == clock(n);
        }
      }
    }
  }

  /** When the clock reads the same instant for every entry, a poll's data share that timestamp. */
  lemma PollDataOneInstant(b: Builder, registry: seq<Entry>, clock: nat -> int, t: int)
    requires forall i :: 0 <= i < |registry| ==> clock(i) == t
    ensures forall d :: d in PollData(b, registry, clock) ==> d.timestamp == t
  {
    PollDataStamped(b, registry, clock);
    forall d | d in PollData(b, registry, clock)
      ensures d.timestamp == t
    {
      var i :| 0 <= i < |registry| && d.timestamp == clock(i);
    }
  }

  /** The entries of a registry whose kind the builder does not handle, in registry order. */
  function UnsupportedEntries(registry: seq<Entry>): (u: seq<Entry>)
    ensures |u| <= |registry|
    ensures forall e :: e in u ==> e in registry && e.metric.Unsupported?
    ensures u == [] <==> forall i :: 0 <= i < |registry| ==> !registry[i].metric.Unsupported?
    decreases |registry|
  {
    if registry == [] then []
    else
      var prefix := registry[..|registry| - 1];
      var e := registry[|registry| - 1];
      assert forall i :: 0 <= i < |prefix| ==> prefix[i] == registry[i];
      UnsupportedEntries(prefix) + (if e.metric.Unsupported? then [e] else [])
  }

  /**
   * The error entries of a poll: one "Received unexpected metric" entry per
   * unsupported entry, in registry order, each with no error value attached;
   * there are none exactly when every entry is supported.
   */
  lemma {:induction false} UnsupportedLogShape(registry: seq<Entry>)
    ensures var log := UnsupportedLog(registry);
      var u := UnsupportedEntries(registry);
      && |log| == |u| <= |registry|
      && (log == [] <==> forall i :: 0 <= i < |registry| ==> !registry[i].metric.Unsupported?)
      && (forall j :: 0 <= j < |log| ==> log[j] == LogEntry.Error(UnexpectedMetric + u[j].metric.rendering, None))
    decreases |registry|
  {
    if registry != [] {
      var n := |registry| - 1;
      var prefix := registry[..n];
      UnsupportedLogShape(prefix);
      var prev := UnsupportedLog(prefix);
      var log := UnsupportedLog(registry);
      var u := UnsupportedEntries(registry);
      assert u[..|UnsupportedEntries(prefix)|] == UnsupportedEntries(prefix);
      forall j | 0 <= j < |log|
        ensures log[j] == LogEntry.Error(UnexpectedMetric + u[j].metric.rendering, None)
      {
        if j < |prev| {
          assert log[j] == prev[j];
        } else {
          assert u[j] == registry[n];
        }
      }
    }
  }

  /** The payloads of a sequence of requests, concatenated in order. */
  function Payload(requests: seq<PutMetricDataInput>): (data: seq<MetricDatum>)
    decreases |requests|
  {
    if requests == [] then [] else Payload(requests[..|requests| - 1]) + requests[|requests| - 1].metricData
  }

  lemma {:induction false} PayloadCons(req: PutMetricDataInput, rest: seq<PutMetricDataInput>)
    ensures Payload([req] + rest) == req.metricData + Payload(rest)
    decreases |rest|
  {
    if rest != [] {
      assert ([req] + rest)[..|rest|] == [req] + rest[..|rest| - 1];
      PayloadCons(req, rest[..|rest| - 1]);
    }
  }

  /**
   * Publishing sends every data point exactly once and in order, in
   * ceil(n/20) requests of at most 20 points each, all for the publisher's namespace.
   */
  lemma {:induction false} PublishedRequests(namespace: string, data: seq<MetricDatum>)
    ensures var reqs := Requests(namespace, Batches(data, BatchSize));
      && Payload(reqs) == data
      && |reqs| == (|data| + BatchSize - 1) / BatchSize
      && (forall i :: 0 <= i < |reqs| ==>
            reqs[i].namespace == namespace && 1 <= |reqs[i].metricData| <= BatchSize)
    decreases |data|
  {
    BatchesCount(data, BatchSize);
    if |data| > BatchSize {
      PublishedRequests(namespace, data[BatchSize..]);
      var rest := Requests(namespace, Batches(data[BatchSize..], BatchSize));
      assert Requests(namespace, Batches(data, BatchSize)) == [PutMetricDataInput(namespace, data[..BatchSize])] + rest;
      PayloadCons(PutMetricDataInput(namespace, data[..BatchSize]), rest);
      assert data[..BatchSize] + data[BatchSize..] == data;
    } else if |data| > 0 {
      assert Requests(namespace, Batches(data, BatchSize)) == [PutMetricDataInput(namespace, data)];
      PayloadCons(PutMetricDataInput(namespace, data), []);
    }
  }

  /** When every call fails, each batch is logged: the last as the last chunk, the others as chunks. */
  lemma {:induction false} FailureLogAllRejected(batches: seq<seq<MetricDatum>>, outcome: nat -> Option<string>, call: nat)
    requires forall k :: call <= k < call + |batches| ==> outcome(k).Some?
    ensures var log := FailureLog(batches, outcome, call);
      && |log| == |batches|
      && (forall j :: 0 <= j < |log| ==>
            log[j] == LogEntry.Error(if j == |batches| - 1 then LastChunkFailure else ChunkFailure, outcome(call + j)))
    decreases |batches|
  {
    if batches != [] {
      FailureLogAllRejected(batches[1..], outcome, call + 1);
      var log := FailureLog(batches, outcome, call);
      var rest := FailureLog(batches[1..], outcome, call + 1);
      assert log == [LogEntry.Error(if |batches| == 1 then LastChunkFailure else ChunkFailure, outcome(call))] + rest;
      forall j | 1 <= j < |log|
        ensures log[j] == LogEntry.Error(if j == |batches| - 1 then LastChunkFailure else ChunkFailure, outcome(call + j))
      {
        assert log[j] == rest[j - 1];
      }
    }
  }

  /** When no call fails, publishing logs nothing. */
  lemma {:induction false} FailureLogAllAccepted(batches: seq<seq<MetricDatum>>, outcome: nat -> Option<string>, call: nat)
    requires forall k :: call <= k < call + |batches| ==> outcome(k).None?
    ensures FailureLog(batches, outcome, call) == []
    decreases |batches|
  {
    if batches != [] {
      FailureLogAllAccepted(batches[1..], outcome, call + 1);
    }
  }

  /**
   * One tick over supported metrics whose data fits in one request: the
   * request carries all of it, and a rejection is logged once, as the last chunk.
   */
  lemma OneTickOneRequest(namespace: string, registry: seq<Entry>, data: seq<MetricDatum>,
                          outcome: nat -> Option<string>, call: nat)
    requires forall i :: 0 <= i < |registry| ==> !registry[i].metric.Unsupported?
    requires 1 <= |data| <= BatchSize
    ensures SendAll(namespace, [TickRecord(registry, data)]) == [PutMetricDataInput(namespace, data)]
    ensures LogAll([TickRecord(registry, data)], outcome, call)
            == match outcome(call) case None => [] case Some(e) => [LogEntry.Error(LastChunkFailure, Some(e))]
  {
    UnsupportedLogShape(registry);
    var tick := [TickRecord(registry, data)];
    assert tick[..0] == [];
    assert Batches(data, BatchSize) == [data];
    assert Batches(data, BatchSize)[1..] == [];
    assert UnsupportedLog(registry) == [];
    assert LogAll(tick, outcome, call) == FailureLog([data], outcome, call + 0);
  }

  /** A counter read at instant t yields one data point named after it, in "Count" unless overridden. */
  lemma CounterPoll(b: Builder, count: int, t: int)
    requires "reqs" !in b.units
    ensures PollData(b, [Entry("reqs", Counter(count))], _ => t)
            == [MetricDatum("reqs", count as real, Some("Count"), b.dimensions, t, Some(b.storageResolution))]
  {
    assert [Entry("reqs", Counter(count))][..0] == [];
  }
}
