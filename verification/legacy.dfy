/**
 * The first-generation publisher: a registry bound at construction, options
 * given as configuration functions, a `pollOnce` that goes through a map of
 * points for Histograms and Timers, and a `publishMetrics` that ignores errors.
 */
module Legacy {
  import opened Wrappers
  import Runtime
  import Metrics
  import opened CloudWatchApi
  import opened Batching
  import opened Naming
  import Text

  const BatchSize: nat := 20
  const DefaultPercentiles: seq<real> := [0.5, 0.75, 0.95, 0.99]
  /** Timers always report these fractions, whatever the publisher is configured with. */
  const TimerPercentiles: seq<real> := [0.5, 0.75, 0.95, 0.99]

  // ---------------------------------------------------------------------
  // Datums: the ordering `sort.Sort` uses
  // ---------------------------------------------------------------------

  /** `Datums.Len` */
  function Len(d: array<MetricDatum>): nat
  {
    d.Length
  }

  /** `Datums.Less`: datums are ordered by metric name. */
  predicate Less(d: array<MetricDatum>, i: int, j: int)
    requires 0 <= i < d.Length && 0 <= j < d.Length
    reads d
  {
    Text.StringLess(d[i].metricName, d[j].metricName)
  }

  /**
   * `Less` is a strict weak ordering, as `sort.Sort` needs: two datums are
   * unordered exactly when they carry the same name.
   */
  lemma LessIsStrictWeakOrder(d: array<MetricDatum>, i: int, j: int, k: int)
    requires 0 <= i < d.Length && 0 <= j < d.Length && 0 <= k < d.Length
    ensures !Less(d, i, i)
    ensures Less(d, i, j) ==> !Less(d, j, i)
    ensures Less(d, i, j) && Less(d, j, k) ==> Less(d, i, k)
    ensures !Less(d, i, j) && !Less(d, j, i) <==> d[i].metricName == d[j].metricName
  {
    Text.StringLessIrreflexive(d[i].metricName);
    if Less(d, i, j) {
      Text.StringLessAsymmetric(d[i].metricName, d[j].metricName);
      if Less(d, j, k) {
        Text.StringLessTransitive(d[i].metricName, d[j].metricName, d[k].metricName);
      }
    }
    if d[i].metricName != d[j].metricName {
      Text.StringLessTotal(d[i].metricName, d[j].metricName);
    }
  }

  /** `Datums.Swap`: exchanges two entries and leaves the others in place. */
  method Swap(d: array<MetricDatum>, i: int, j: int)
    requires 0 <= i < d.Length && 0 <= j < d.Length
    modifies d
    ensures d[i] == old(d[j]) && d[j] == old(d[i])
    ensures forall k :: 0 <= k < d.Length && k != i && k != j ==> d[k] == old(d[k])
    ensures multiset(d[..]) == multiset(old(d[..]))
  {
    var t := d[i];
    d[i] := d[j];
    d[j] := t;
  }

  /** What `sort.Sort` promises: no datum is `Less` than one before it. */
  predicate Sorted(d: array<MetricDatum>)
    reads d
  {
    forall i, j :: 0 <= i < j < Len(d) ==> !Less(d, j, i)
  }

  /** Sorting datums named b, a, c can only give a, b, c. */
  lemma SortExample(d: array<MetricDatum>, a: MetricDatum, b: MetricDatum, c: MetricDatum)
    requires a.metricName == "a" && b.metricName == "b" && c.metricName == "c"
    requires multiset(d[..]) == multiset([b, a, c])
    requires Sorted(d)
    ensures d[..] == [a, b, c]
  {
    assert |d[..]| == |multiset([b, a, c])| == 3;
    assert d[0] in multiset(d[..]) && d[1] in multiset(d[..]) && d[2] in multiset(d[..]);
    assert !Less(d, 1, 0) && !Less(d, 2, 1) && !Less(d, 2, 0);
    assert Text.StringLess("a", "b") && Text.StringLess("b", "c") && Text.StringLess("a", "c");
  }

  // ---------------------------------------------------------------------
  // The Dimensions option's key/value list
  // ---------------------------------------------------------------------

  /** The dimensions a key/value list denotes: consecutive (name, value) pairs. */
  function DimensionPairs(keyVals: seq<string>): (dims: seq<Dimension>)
    ensures |dims| == |keyVals| / 2
    ensures forall j :: 0 <= j < |dims| ==> dims[j] == Dimension(keyVals[2 * j], keyVals[2 * j + 1])
    decreases |keyVals|
  {
    if |keyVals| < 2 then [] else [Dimension(keyVals[0], keyVals[1])] + DimensionPairs(keyVals[2..])
  }

  /** The key/value list that spells out a dimension list. */
  function KeyVals(dims: seq<Dimension>): (keyVals: seq<string>)
    ensures |keyVals| == 2 * |dims|
  {
    if dims == [] then [] else [dims[0].name, dims[0].value] + KeyVals(dims[1..])
  }

  lemma {:induction false} PairsOfKeyVals(dims: seq<Dimension>)
    ensures DimensionPairs(KeyVals(dims)) == dims
  {
    if dims != [] {
      PairsOfKeyVals(dims[1..]);
      assert KeyVals(dims)[2..] == KeyVals(dims[1..]);
    }
  }

  lemma {:induction false} KeyValsOfPairs(keyVals: seq<string>)
    requires |keyVals| % 2 == 0
    ensures KeyVals(DimensionPairs(keyVals)) == keyVals
    decreases |keyVals|
  {
    if |keyVals| >= 2 {
      KeyValsOfPairs(keyVals[2..]);
      var dims := DimensionPairs(keyVals);
      assert dims[1..] == DimensionPairs(keyVals[2..]);
      assert keyVals == [keyVals[0], keyVals[1]] + keyVals[2..];
    }
  }

  /**
   * The dimensions `Dimensions(keyVals...)` is meant to add: none for an odd
   * number of arguments, every pair otherwise.
   */
  function AddedDimensions(keyVals: seq<string>): seq<Dimension>
  {
    if |keyVals| % 2 != 0 then [] else DimensionPairs(keyVals)
  }

  /**
   * The loop of `Dimensions` as it is written: the index steps by 2 but
   * stops at half the argument count.
   */
  function DimensionsAsWrittenFrom(keyVals: seq<string>, i: nat): seq<Dimension>
    decreases |keyVals| - i
  {
    if i < |keyVals| / 2 then [Dimension(keyVals[i], keyVals[i + 1])] + DimensionsAsWrittenFrom(keyVals, i + 2)
    else []
  }

  function DimensionsAsWritten(keyVals: seq<string>): seq<Dimension>
  {
    if |keyVals| % 2 != 0 then [] else DimensionsAsWrittenFrom(keyVals, 0)
  }

  lemma {:induction false} AsWrittenFromSlice(keyVals: seq<string>, m: nat)
    requires |keyVals| % 2 == 0
    requires m <= (|keyVals| / 2 + 1) / 2
    ensures DimensionsAsWrittenFrom(keyVals, 2 * m) == DimensionPairs(keyVals)[m..(|keyVals| / 2 + 1) / 2]
    decreases (|keyVals| / 2 + 1) / 2 - m
  {
    var pairs := DimensionPairs(keyVals);
    var half := |keyVals| / 2;
    var stop := (half + 1) / 2;
    HalfRoundedUp(half, m);
    if 2 * m < half {
      AsWrittenFromSlice(keyVals, m + 1);
      SliceCons(pairs, m, stop);
      assert 2 * (m + 1) == 2 * m + 2;
    }
  }

  /** A non-empty slice is its first element followed by the rest. */
  lemma SliceCons<T>(s: seq<T>, m: nat, stop: nat)
    requires m < stop <= |s|
    ensures s[m..stop] == [s[m]] + s[m + 1..stop]
  {
  }

  /** Steps of 2 below `h` number `(h + 1) / 2`. */
  lemma HalfRoundedUp(h: nat, m: nat)
    requires m <= (h + 1) / 2
    ensures 2 * m < h ==> m + 1 <= (h + 1) / 2
    ensures 2 * m >= h ==> m == (h + 1) / 2
  {
  }

  /**
   * As written, an even-length list adds only the first half of its pairs,
   * rounded up: one pair for two or four arguments, two for six or eight.
   */
  lemma DimensionsAsWrittenKeepsFirstHalf(keyVals: seq<string>)
    requires |keyVals| % 2 == 0
    ensures DimensionsAsWritten(keyVals) == DimensionPairs(keyVals)[..(|keyVals| / 2 + 1) / 2]
  {
    AsWrittenFromSlice(keyVals, 0);
  }

  /** Two pairs in, one dimension out: the second pair is lost. */
  lemma DimensionsAsWrittenDropsPairs()
    ensures DimensionsAsWritten(["a", "1", "b", "2"]) == [Dimension("a", "1")]
    ensures AddedDimensions(["a", "1", "b", "2"]) == [Dimension("a", "1"), Dimension("b", "2")]
  {
    var kv := ["a", "1", "b", "2"];
    assert DimensionsAsWrittenFrom(kv, 2) == [];
  }

  /** The single-pair and odd-length cases both readings agree on. */
  lemma AddedDimensionsExamples()
    ensures AddedDimensions(["foo", "bar"]) == DimensionsAsWritten(["foo", "bar"]) == [Dimension("foo", "bar")]
    ensures AddedDimensions(["foo"]) == DimensionsAsWritten(["foo"]) == []
  {
    assert DimensionsAsWrittenFrom(["foo", "bar"], 2) == [];
  }

  // ---------------------------------------------------------------------
  // Configuration
  // ---------------------------------------------------------------------

  /** A configuration function passed to `newPublisher`. */
  datatype Config =
    | Interval(interval: int)
    | Dimensions(keyVals: seq<string>)
    | Percentiles(percentiles: seq<real>)
    | Client(client: CloudWatch?)
    | Context(ctx: Runtime.Context)
    | Debug

  /** The configurable part of a publisher, as a value. */
  datatype Settings = Settings(
    ctx: Runtime.Context,
    client: CloudWatch?,
    interval: int,
    percentiles: seq<real>,
    dimensions: seq<Dimension>)

  /** `newPublisher`'s starting point; the client is the one built for the detected region. */
  function Defaults(client: CloudWatch?): Settings
  {
    Settings(Runtime.Background, client, Runtime.Minute, DefaultPercentiles, [])
  }

  /**
   * The effect of one configuration function. `Dimensions` appends to the
   * list what its loop, as written, adds.
   */
  function Configured(v: Settings, c: Config): Settings
  {
    match c
    case Interval(i) => v.(interval := i)
    case Dimensions(kv) => v.(dimensions := v.dimensions + DimensionsAsWritten(kv))
    case Percentiles(ps) => v.(percentiles := ps)
    case Client(cl) => v.(client := cl)
    case Context(x) => v.(ctx := x)
    case Debug => v
  }

  /** The configuration functions applied in order. */
  function ConfigureAll(v: Settings, configs: seq<Config>): Settings
    decreases |configs|
  {
    if configs == [] then v else Configured(ConfigureAll(v, configs[..|configs| - 1]), configs[|configs| - 1])
  }

  /** What a configuration function adds to the dimension list. */
  function DimensionsOf(c: Config): seq<Dimension>
  {
    if c.Dimensions? then DimensionsAsWritten(c.keyVals) else []
  }

  /** One configuration function extends the dimension list by what it adds. */
  lemma DimensionsStep(w: Settings, c: Config)
    ensures Configured(w, c).dimensions == w.dimensions + DimensionsOf(c)
  {
  }

  /** Dimension options accumulate: the list is what every option's loop adds, in option order. */
  lemma {:induction false} ConfiguredDimensions(v: Settings, configs: seq<Config>)
    ensures ConfigureAll(v, configs).dimensions
            == v.dimensions + Flatten(seq(|configs|, i requires 0 <= i < |configs| => DimensionsOf(configs[i])))
    decreases |configs|
  {
    var all := seq(|configs|, i requires 0 <= i < |configs| => DimensionsOf(configs[i]));
    if configs != [] {
      var prefix := configs[..|configs| - 1];
      var front := seq(|prefix|, i requires 0 <= i < |prefix| => DimensionsOf(prefix[i]));
      var last := DimensionsOf(configs[|configs| - 1]);
      ConfiguredDimensions(v, prefix);
      assert ConfigureAll(v, configs).dimensions == ConfigureAll(v, prefix).dimensions + last by {
        assert configs[..|configs| - 1] == prefix;
        DimensionsStep(ConfigureAll(v, prefix), configs[|configs| - 1]);
      }
      assert all[..|all| - 1] == front;
      assert Flatten(all) == Flatten(front) + last;
      AppendAssoc(v.dimensions, Flatten(front), last);
    }
  }

  /** Which setting a configuration function writes; `Debug` writes none that is modelled. */
  function Kind(c: Config): nat
  {
    match c
    case Interval(_) => 0
    case Dimensions(_) => 1
    case Percentiles(_) => 2
    case Client(_) => 3
    case Context(_) => 4
    case Debug => 5
  }

  /** Whether a setting holds the value a scalar configuration function carries. */
  predicate Holds(v: Settings, c: Config)
  {
    match c
    case Interval(i) => v.interval == i
    case Percentiles(ps) => v.percentiles == ps
    case Client(cl) => v.client == cl
    case Context(x) => v.ctx == x
    case Dimensions(_) => true
    case Debug => true
  }

  /** For interval, percentiles, client and context the last configuration function wins. */
  lemma {:induction false} ScalarLastWins(v: Settings, configs: seq<Config>, i: nat)
    requires i < |configs| && !configs[i].Dimensions? && !configs[i].Debug?
    requires forall j :: i < j < |configs| ==> Kind(configs[j]) != Kind(configs[i])
    ensures Holds(ConfigureAll(v, configs), configs[i])
    decreases |configs|
  {
    if i < |configs| - 1 {
      ScalarLastWins(v, configs[..|configs| - 1], i);
    }
  }

  /** The dimension cases the legacy tests configure. */
  lemma DimensionsExamples(client: CloudWatch?)
    ensures ConfigureAll(Defaults(client), [Debug, Dimensions(["foo", "bar"])]).dimensions == [Dimension("foo", "bar")]
    ensures ConfigureAll(Defaults(client), [Debug, Dimensions(["foo"])]).dimensions == []
  {
    AddedDimensionsExamples();
    assert [Debug, Dimensions(["foo", "bar"])][..1] == [Debug];
    assert [Debug, Dimensions(["foo"])][..1] == [Debug];
  }

  /** A publisher configured with two pairs keeps only the first, as the loop is written. */
  lemma TwoPairsConfigured(client: CloudWatch?)
    ensures ConfigureAll(Defaults(client), [Dimensions(["a", "1", "b", "2"])]).dimensions == [Dimension("a", "1")]
  {
    DimensionsAsWrittenDropsPairs();
    assert [Dimensions(["a", "1", "b", "2"])][..0] == [];
  }

  // ---------------------------------------------------------------------
  // Points of a Histogram or Timer
  // ---------------------------------------------------------------------

  /**
   * The `points` map: the count under `<name>.count`, then each fraction's
   * value under `<name>.p<N>`; a later fraction with the same suffix
   * overwrites an earlier one.
   */
  function Points(name: string, s: Metrics.Snapshot, ps: seq<real>): map<string, real>
    decreases |ps|
  {
    if ps == [] then map[CountName(name) := s.count as real]
    else Points(name, s, ps[..|ps| - 1])[PercentileName(name, ps[|ps| - 1]) := s.quantile(ps[|ps| - 1])]
  }

  /** Fills the points map the way the sweep does. */
  method BuildPoints(name: string, s: Metrics.Snapshot, ps: seq<real>) returns (points: map<string, real>)
    ensures points == Points(name, s, ps)
  {
    var values := Metrics.Percentiles(s, ps);
    points := map[CountName(name) := s.count as real];
    for index := 0 to |values|
      invariant points == Points(name, s, ps[..index])
    {
      assert ps[..index + 1][..index] == ps[..index];
      points := points[PercentileName(name, ps[index]) := values[index]];
    }
    assert ps[..|ps|] == ps;
  }

  /** The map's names: the count name and one percentile name per fraction. */
  lemma {:induction false} PointsKeys(name: string, s: Metrics.Snapshot, ps: seq<real>, k: string)
    ensures k in Points(name, s, ps)
            <==> k == CountName(name) || exists i :: 0 <= i < |ps| && k == PercentileName(name, ps[i])
    decreases |ps|
  {
    if ps != [] {
      var prefix := ps[..|ps| - 1];
      PointsKeys(name, s, prefix, k);
      if exists i :: 0 <= i < |prefix| && k == PercentileName(name, prefix[i]) {
        var i :| 0 <= i < |prefix| && k == PercentileName(name, prefix[i]);
        assert ps[i] == prefix[i];
      }
      if exists i :: 0 <= i < |ps| && k == PercentileName(name, ps[i]) {
        var i :| 0 <= i < |ps| && k == PercentileName(name, ps[i]);
        if i < |prefix| {
          assert prefix[i] == ps[i];
        }
      }
    }
  }

  /** The count is never overwritten by a percentile. */
  lemma {:induction false} PointsCount(name: string, s: Metrics.Snapshot, ps: seq<real>)
    ensures CountName(name) in Points(name, s, ps)
    ensures Points(name, s, ps)[CountName(name)] == s.count as real
    decreases |ps|
  {
    if ps != [] {
      PointsCount(name, s, ps[..|ps| - 1]);
      CountNameIsNotPercentileName(name, ps[|ps| - 1]);
    }
  }

  /**
   * A fraction's value survives unless a later fraction has the same name,
   * which happens exactly when their hundredfolds truncate alike.
   */
  lemma {:induction false} PointsLastWins(name: string, s: Metrics.Snapshot, ps: seq<real>, i: nat)
    requires i < |ps|
    requires forall j :: i < j < |ps| ==> PercentileName(name, ps[j]) != PercentileName(name, ps[i])
    ensures PercentileName(name, ps[i]) in Points(name, s, ps)
    ensures Points(name, s, ps)[PercentileName(name, ps[i])] == s.quantile(ps[i])
    decreases |ps|
  {
    var last := |ps| - 1;
    var prefix := ps[..last];
    if i < last {
      assert prefix[i] == ps[i];
      assert forall j :: i < j < |prefix| ==> prefix[j] == ps[j];
      PointsLastWins(name, s, prefix, i);
      PointsKeep(name, s, ps, PercentileName(name, ps[i]));
    }
  }

  /** The last fraction only touches its own name. */
  lemma PointsKeep(name: string, s: Metrics.Snapshot, ps: seq<real>, k: string)
    requires ps != [] && k != PercentileName(name, ps[|ps| - 1])
    requires k in Points(name, s, ps[..|ps| - 1])
    ensures k in Points(name, s, ps) && Points(name, s, ps)[k] == Points(name, s, ps[..|ps| - 1])[k]
  {
  }

  // ---------------------------------------------------------------------
  // The publisher
  // ---------------------------------------------------------------------

  /** A data point as the sweep's `build` helper makes it: no storage resolution. */
  function Point(name: string, value: real, unit: Option<string>, dims: seq<Dimension>, now: int): MetricDatum
  {
    MetricDatum(name, value, unit, dims, now, None)
  }

  /** One datum per entry of a points map, without a unit. */
  function PointSet(points: map<string, real>, dims: seq<Dimension>, now: int): set<MetricDatum>
  {
    set n | n in points :: Point(n, points[n], None, dims, now)
  }

  /**
   * What the sweep reads from one registry entry, as a bag: the order of a
   * Histogram's or Timer's points is the map's iteration order, which Go
   * leaves unspecified. Other kinds are skipped.
   */
  function EntryBag(e: Metrics.Entry, percentiles: seq<real>, dims: seq<Dimension>, now: int): multiset<MetricDatum>
  {
    match e.metric
    case Counter(c) => multiset{Point(e.name, c as real, Some(StandardUnitCount), dims, now)}
    case Gauge(v) => multiset{Point(e.name, v as real, Some(StandardUnitCount), dims, now)}
    case GaugeFloat64(v) => multiset{Point(e.name, v, Some(StandardUnitCount), dims, now)}
    case Meter(r) => multiset{Point(e.name, r, Some(StandardUnitCount), dims, now)}
    case Histogram(s) =>
      if s.count == 0 then multiset{} else multiset(PointSet(Points(e.name, s, percentiles), dims, now))
    case Timer(s) =>
      if s.count == 0 then multiset{} else multiset(PointSet(Points(e.name, s, TimerPercentiles), dims, now))
    case Unsupported(_) => multiset{}
  }

  /** The metric names a bag of datums carries. */
  function Names(bag: multiset<MetricDatum>): set<string>
  {
    set d | d in bag :: d.metricName
  }

  /** Every datum of a sweep carries its one instant and the configured dimensions; only scalars have a unit. */
  lemma EntryBagStamped(e: Metrics.Entry, percentiles: seq<real>, dims: seq<Dimension>, now: int, d: MetricDatum)
    requires d in EntryBag(e, percentiles, dims, now)
    ensures d.timestamp == now && d.dimensions == dims && d.storageResolution == None
    ensures e.metric.Histogram? || e.metric.Timer? ==> d.unit == None
    ensures !(e.metric.Histogram? || e.metric.Timer?) ==> d.unit == Some(StandardUnitCount) && d.metricName == e.name
  {
  }

  /** A points map becomes one datum per name, each carrying that name's value. */
  lemma PointSetNames(points: map<string, real>, dims: seq<Dimension>, now: int)
    ensures Names(multiset(PointSet(points, dims, now))) == points.Keys
    ensures forall d :: d in PointSet(points, dims, now) ==> d.metricName in points && d.value == points[d.metricName]
  {
    var bag := multiset(PointSet(points, dims, now));
    forall k | k in points
      ensures k in Names(bag)
    {
      assert Point(k, points[k], None, dims, now) in bag;
    }
  }

  /**
   * A recorded Histogram is reported under its count name and one name per
   * configured fraction; the count datum holds the count.
   */
  lemma HistogramNames(e: Metrics.Entry, percentiles: seq<real>, dims: seq<Dimension>, now: int, k: string)
    requires e.metric.Histogram? && e.metric.snapshot.count != 0
    ensures k in Names(EntryBag(e, percentiles, dims, now))
            <==> k == CountName(e.name) || exists i :: 0 <= i < |percentiles| && k == PercentileName(e.name, percentiles[i])
    ensures Point(CountName(e.name), e.metric.snapshot.count as real, None, dims, now) in EntryBag(e, percentiles, dims, now)
  {
    var points := Points(e.name, e.metric.snapshot, percentiles);
    PointSetNames(points, dims, now);
    PointsKeys(e.name, e.metric.snapshot, percentiles, k);
    PointsCount(e.name, e.metric.snapshot, percentiles);
  }

  /** The name of a fraction that is a whole number of hundredths. */
  lemma WholePercentileName(name: string, p: real, n: nat, digits: string)
    requires p * 100.0 == n as real && Text.Digits(n) == digits
    ensures PercentileName(name, p) == name + (".p" + digits)
  {
    assert Text.Trunc(p * 100.0) == n;
    assert Text.FormatInt(n) == digits;
  }

  /** The name of each fixed Timer fraction. */
  lemma TimerPercentileName(name: string, i: nat)
    requires i < |TimerPercentiles|
    ensures PercentileName(name, TimerPercentiles[i]) == [name + ".p50", name + ".p75", name + ".p95", name + ".p99"][i]
  {
    if i == 0 {
      WholePercentileName(name, 0.5, 50, "50");
    } else if i == 1 {
      WholePercentileName(name, 0.75, 75, "75");
    } else if i == 2 {
      WholePercentileName(name, 0.95, 95, "95");
    } else {
      WholePercentileName(name, 0.99, 99, "99");
    }
  }

  /** The map's names, when each fraction's name is known. */
  lemma PointsNamed(name: string, s: Metrics.Snapshot, ps: seq<real>, names: seq<string>)
    requires |names| == |ps|
    requires forall i :: 0 <= i < |ps| ==> PercentileName(name, ps[i]) == names[i]
    ensures Points(name, s, ps).Keys == {CountName(name)} + set n | n in names
  {
    forall k
      ensures k in Points(name, s, ps) <==> k == CountName(name) || k in names
    {
      PointsKeys(name, s, ps, k);
      if k in names {
        var i :| 0 <= i < |names| && names[i] == k;
        assert k == PercentileName(name, ps[i]);
      }
    }
  }

  /** The points map of a Timer holds exactly the count and the four fixed percentiles. */
  lemma TimerPointsKeys(name: string, s: Metrics.Snapshot)
    ensures Points(name, s, TimerPercentiles).Keys
            == {CountName(name), name + ".p50", name + ".p75", name + ".p95", name + ".p99"}
  {
    var names := [name + ".p50", name + ".p75", name + ".p95", name + ".p99"];
    forall i | 0 <= i < 4
      ensures PercentileName(name, TimerPercentiles[i]) == names[i]
    {
      TimerPercentileName(name, i);
    }
    PointsNamed(name, s, TimerPercentiles, names);
    ElementsOfFour(names);
  }

  lemma ElementsOfFour(names: seq<string>)
    requires |names| == 4
    ensures (set n | n in names) == {names[0], names[1], names[2], names[3]}
  {
  }

  /**
   * A recorded Timer always reports the median and the 75th, 95th and 99th
   * percentiles, whatever fractions the publisher is configured with.
   */
  lemma TimerNames(e: Metrics.Entry, percentiles: seq<real>, dims: seq<Dimension>, now: int)
    requires e.metric.Timer? && e.metric.snapshot.count != 0
    ensures Names(EntryBag(e, percentiles, dims, now))
            == {CountName(e.name), e.name + ".p50", e.name + ".p75", e.name + ".p95", e.name + ".p99"}
  {
    var points := Points(e.name, e.metric.snapshot, TimerPercentiles);
    TimerPointsKeys(e.name, e.metric.snapshot);
    PointSetNames(points, dims, now);
    assert EntryBag(e, percentiles, dims, now) == multiset(PointSet(points, dims, now));
  }

  class Publisher {
    var ctx: Runtime.Context
    const registry: seq<Metrics.Entry>
    var client: CloudWatch?
    var interval: int
    var percentiles: seq<real>
    const namespace: string
    var dimensions: seq<Dimension>

    function Value(): Settings
      reads this
    {
      Settings(ctx, client, interval, percentiles, dimensions)
    }

    constructor (registry: seq<Metrics.Entry>, namespace: string, client: CloudWatch?)
      ensures this.registry == registry && this.namespace == namespace
      ensures Value() == Defaults(client)
    {
      this.ctx := Runtime.Background;
      this.registry := registry;
      this.namespace := namespace;
      this.client := client;
      this.interval := Runtime.Minute;
      this.percentiles := DefaultPercentiles;
      this.dimensions := [];
    }

    /**
     * Runs one configuration function; `Debug` changes no modelled field.
     */
    method Configure(c: Config)
      modifies this
      ensures Value() == Configured(old(Value()), c)
    {
      match c {
        case Interval(i) => interval := i;
        case Dimensions(kv) => AddDimensions(kv);
        case Percentiles(ps) => percentiles := ps;
        case Client(cl) => client := cl;
        case Context(x) => ctx := x;
        case Debug =>
      }
    }

    /**
     * The `Dimensions` option: rejects an odd argument count; otherwise its
     * loop steps by 2 up to half the argument count, appending the pair at
     * each step, which keeps the first half of the pairs, rounded up.
     */
    method AddDimensions(kv: seq<string>)
      modifies this
      ensures Value() == old(Value()).(dimensions := old(dimensions) + DimensionsAsWritten(kv))
    {
      if |kv| % 2 != 0 {
        return;
      }
      var i := 0;
      while i < |kv| / 2
        invariant Value() == old(Value()).(dimensions := dimensions)
        invariant dimensions + DimensionsAsWrittenFrom(kv, i) == old(dimensions) + DimensionsAsWritten(kv)
      {
        var d := Dimension(kv[i], kv[i + 1]);
        assert DimensionsAsWrittenFrom(kv, i) == [d] + DimensionsAsWrittenFrom(kv, i + 2);
        AppendAssoc(dimensions, [d], DimensionsAsWrittenFrom(kv, i + 2));
        dimensions := dimensions + [d];
        i := i + 2;
      }
    }

    /** Turns a points map into datums, in whatever order the map yields its names. */
    method EmitPoints(points: map<string, real>, now: int) returns (out: seq<MetricDatum>)
      ensures multiset(out) == multiset(PointSet(points, dimensions, now))
    {
      out := [];
      var pending := points.Keys;
      while pending != {}
        invariant pending <= points.Keys
        invariant multiset(out) == multiset(set n | n in points && n !in pending :: Point(n, points[n], None, dimensions, now))
        decreases pending
      {
        var k :| k in pending;
        var done := set n | n in points && n !in pending :: Point(n, points[n], None, dimensions, now);
        var d := Point(k, points[k], None, dimensions, now);
        assert d !in done;
        assert (set n | n in points && n !in pending - {k} :: Point(n, points[n], None, dimensions, now)) == done + {d};
        out := out + [d];
        pending := pending - {k};
      }
      assert (set n | n in points && n !in pending :: Point(n, points[n], None, dimensions, now)) == PointSet(points, dimensions, now);
    }

    /** The datums of one registry entry, all stamped with the sweep's single `now`. */
    method PollEntry(e: Metrics.Entry, now: int) returns (more: seq<MetricDatum>)
      ensures multiset(more) == EntryBag(e, percentiles, dimensions, now)
    {
      match e.metric {
        case Counter(c) => more := [Point(e.name, c as real, Some(StandardUnitCount), dimensions, now)];
        case Gauge(v) => more := [Point(e.name, v as real, Some(StandardUnitCount), dimensions, now)];
        case GaugeFloat64(v) => more := [Point(e.name, v, Some(StandardUnitCount), dimensions, now)];
        case Histogram(s) =>
          if s.count == 0 {
            return [];
          }
          var points := BuildPoints(e.name, s, percentiles);
          more := EmitPoints(points, now);
        case Meter(r) => more := [Point(e.name, r, Some(StandardUnitCount), dimensions, now)];
        case Timer(s) =>
          if s.count == 0 {
            return [];
          }
          var points := BuildPoints(e.name, s, TimerPercentiles);
          more := EmitPoints(points, now);
        case Unsupported(_) => more := [];
      }
    }

    /**
     * `pollOnce`: reads the time once and concatenates, in registry order,
     * each entry's datums; `parts[i]` is what entry i contributed.
     */
    method PollOnce(now: int) returns (data: seq<MetricDatum>, ghost parts: seq<seq<MetricDatum>>)
      ensures |parts| == |registry|
      ensures data == Flatten(parts)
      ensures forall i :: 0 <= i < |registry| ==> multiset(parts[i]) == EntryBag(registry[i], percentiles, dimensions, now)
    {
      data := [];
      parts := [];
      for i := 0 to |registry|
        invariant |parts| == i
        invariant data == Flatten(parts)
        invariant forall j :: 0 <= j < i ==> multiset(parts[j]) == EntryBag(registry[j], percentiles, dimensions, now)
      {
        var more := PollEntry(registry[i], now);
        FlattenAppend(parts, [more]);
        FlattenCons(more, []);
        data := data + more;
        parts := parts + [more];
      }
    }

    /** `putMetrics`: one request for the publisher's namespace carrying the batch. */
    method PutMetrics(batch: seq<MetricDatum>) returns (err: Option<string>)
      requires client != null
      modifies client
      ensures client.received == old(client.received) + [PutMetricDataInput(namespace, batch)]
      ensures err == client.outcome(|old(client.received)|)
    {
      err := client.PutMetricData(PutMetricDataInput(namespace, batch));
    }

    /**
     * `publishMetrics`: batches of 20 in order, then whatever is left;
     * errors are dropped.
     */
    method PublishMetrics(data: seq<MetricDatum>)
      requires client != null
      modifies client
      ensures client.received == old(client.received) + Requests(namespace, Batches(data, BatchSize))
    {
      var rest := data;
      while |rest| > BatchSize
        invariant old(client.received) + Requests(namespace, Batches(data, BatchSize))
                  == client.received + Requests(namespace, Batches(rest, BatchSize))
        decreases |rest|
      {
        ghost var sent := client.received;
        RequestsStep(namespace, rest);
        var _ := PutMetrics(rest[..BatchSize]);
        ghost var request := PutMetricDataInput(namespace, rest[..BatchSize]);
        rest := rest[BatchSize..];
        AppendAssoc(sent, [request], Requests(namespace, Batches(rest, BatchSize)));
      }
      if |rest| > 0 {
        var _ := PutMetrics(rest);
        assert Batches(rest, BatchSize) == [rest];
      }
    }
  }

  /** One full batch off the front. */
  lemma RequestsStep(namespace: string, rest: seq<MetricDatum>)
    requires |rest| > BatchSize
    ensures Requests(namespace, Batches(rest, BatchSize))
            == [PutMetricDataInput(namespace, rest[..BatchSize])] + Requests(namespace, Batches(rest[BatchSize..], BatchSize))
  {
    var bs := Batches(rest, BatchSize);
    assert bs == [rest[..BatchSize]] + Batches(rest[BatchSize..], BatchSize);
    assert bs[1..] == Batches(rest[BatchSize..], BatchSize);
  }

  /** `newPublisher`: the defaults, then each configuration function in order. */
  method NewPublisher(registry: seq<Metrics.Entry>, namespace: string, configs: seq<Config>, regionClient: CloudWatch?)
    returns (p: Publisher)
    ensures fresh(p)
    ensures p.registry == registry && p.namespace == namespace
    ensures p.Value() == ConfigureAll(Defaults(regionClient), configs)
  {
    p := new Publisher(registry, namespace, regionClient);
    for i := 0 to |configs|
      invariant p.registry == registry && p.namespace == namespace
      invariant p.Value() == ConfigureAll(Defaults(regionClient), configs[..i])
    {
      assert configs[..i + 1][..i] == configs[..i];
      p.Configure(configs[i]);
    }
    assert configs[..|configs|] == configs;
  }
}
