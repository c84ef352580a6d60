/**
 * The datum builder: turns one metric of each kind into an ordered sequence of
 * CloudWatch data points, resolving units, names and timer conversions.
 * Timestamps are passed in (the builder reads the clock once per call).
 */
module Datum {
  import opened Wrappers
  import opened CloudWatchApi
  import opened Metrics
  import opened Naming
  import Runtime

  /**
   * `convertDuration`, falling back to `identity`: a Timer value in
   * nanoseconds expressed in the resolved unit. Seconds, milliseconds and
   * microseconds are converted; any other unit keeps the raw value.
   */
  function ConvertDuration(unit: string, v: real): (r: real)
    ensures unit == StandardUnitSeconds ==> r * Runtime.Second as real == v
    ensures unit == StandardUnitMilliseconds ==> r * Runtime.Millisecond as real == v
    ensures unit == StandardUnitMicroseconds ==> r * Runtime.Microsecond as real == v
    ensures !IsDurationUnit(unit) ==> r == v
  {
    if unit == StandardUnitSeconds then v / Runtime.Second as real
    else if unit == StandardUnitMilliseconds then v / Runtime.Millisecond as real
    else if unit == StandardUnitMicroseconds then v / Runtime.Microsecond as real
    else v
  }

  /** The units `convertDuration` has an entry for. */
  predicate IsDurationUnit(unit: string)
  {
    unit == StandardUnitSeconds || unit == StandardUnitMilliseconds || unit == StandardUnitMicroseconds
  }

  /** Every value of `vals` converted into `unit`. */
  function ConvertAll(unit: string, vals: seq<real>): (r: seq<real>)
    ensures |r| == |vals|
    ensures forall i :: 0 <= i < |vals| ==> r[i] == ConvertDuration(unit, vals[i])
  {
    seq(|vals|, i requires 0 <= i < |vals| => ConvertDuration(unit, vals[i]))
  }

  /** Whether `dims` lists every entry of `m` exactly once, in some order. */
  ghost predicate ListsDimensions(dims: seq<Dimension>, m: map<string, string>)
  {
    && |dims| == |m|
    && (forall i :: 0 <= i < |dims| ==> dims[i].name in m && m[dims[i].name] == dims[i].value)
    && (forall i, j :: 0 <= i < j < |dims| ==> dims[i].name != dims[j].name)
    && (forall k :: k in m ==> Dimension(k, m[k]) in dims)
  }

  /** The builder's configuration, fixed at construction. */
  datatype Builder = Builder(
    units: map<string, string>,
    dimensions: seq<Dimension>,
    percentiles: seq<real>,
    storageResolution: int)
  {
    function BuildDatum(name: string, value: real, unit: string, t: int): MetricDatum
    {
      MetricDatum(name, value, Some(unit), dimensions, t, Some(storageResolution))
    }

    /** The unit configured for `name`, or the metric kind's default. */
    function MetricUnit(name: string, defaultUnit: string): (unit: string)
      ensures name in units ==> unit == units[name]
      ensures name !in units ==> unit == defaultUnit
    {
      if name in units then units[name] else defaultUnit
    }

    /** A datum of this builder for `name`, with the override for `name` or `defaultUnit`. */
    ghost predicate SingleDatum(r: seq<MetricDatum>, name: string, value: real, defaultUnit: string, t: int)
    {
      r == [MetricDatum(name, value, Some(if name in units then units[name] else defaultUnit),
                        dimensions, t, Some(storageResolution))]
    }

    /** One datum named after the counter, holding its count. */
    function BuildCounterData(count: int, name: string, t: int): (r: seq<MetricDatum>)
      ensures SingleDatum(r, name, count as real, StandardUnitCount, t)
    {
      [BuildDatum(name, count as real, MetricUnit(name, StandardUnitCount), t)]
    }

    /** One datum named after the gauge, holding its value. */
    function BuildGaugeData(value: int, name: string, t: int): (r: seq<MetricDatum>)
      ensures SingleDatum(r, name, value as real, StandardUnitCount, t)
    {
      [BuildDatum(name, value as real, MetricUnit(name, StandardUnitCount), t)]
    }

    /** One datum named after the float gauge, holding its value. */
    function BuildGaugeFloat64Data(value: real, name: string, t: int): (r: seq<MetricDatum>)
      ensures SingleDatum(r, name, value, StandardUnitCount, t)
    {
      [BuildDatum(name, value, MetricUnit(name, StandardUnitCount), t)]
    }

    /** One datum named after the meter, holding its one-minute rate. */
    function BuildMeterData(rate1: real, name: string, t: int): (r: seq<MetricDatum>)
      ensures SingleDatum(r, name, rate1, StandardUnitCount, t)
    {
      [BuildDatum(name, rate1, MetricUnit(name, StandardUnitCount), t)]
    }

    /** The data points appended by the percentile loop: one per fraction, in configured order. */
    function PercentileData(name: string, ps: seq<real>, vals: seq<real>, unit: string, t: int): (r: seq<MetricDatum>)
      requires |vals| == |ps|
      ensures |r| == |ps|
      decreases |ps|
    {
      if ps == [] then []
      else
        PercentileData(name, ps[..|ps| - 1], vals[..|vals| - 1], unit, t)
          + [BuildDatum(PercentileName(name, ps[|ps| - 1]), vals[|vals| - 1], unit, t)]
    }

    /** Element i of the loop's output is fraction i's data point, holding value i in the given unit. */
    lemma {:induction false} PercentileDataAt(name: string, ps: seq<real>, vals: seq<real>, unit: string, t: int, i: nat)
      requires |vals| == |ps| && i < |ps|
      ensures PercentileData(name, ps, vals, unit, t)[i]
                == MetricDatum(PercentileName(name, ps[i]), vals[i], Some(unit), dimensions, t, Some(storageResolution))
      decreases |ps|
    {
      var n := |ps| - 1;
      var front := PercentileData(name, ps[..n], vals[..n], unit, t);
      var last := BuildDatum(PercentileName(name, ps[n]), vals[n], unit, t);
      assert PercentileData(name, ps, vals, unit, t) == front + [last];
      if i < n {
        PercentileDataAt(name, ps[..n], vals[..n], unit, t, i);
        assert ps[..n][i] == ps[i] && vals[..n][i] == vals[i];
        assert (front + [last])[i] == front[i];
      } else {
        assert (front + [last])[i] == last;
      }
    }

    /** What BuildHistogramData returns; its shape is stated by HistogramDataShape. */
    function HistogramData(name: string, h: Snapshot, t: int): seq<MetricDatum>
    {
      if h.count == 0 then []
      else
        [BuildDatum(CountName(name), h.count as real, StandardUnitCount, t)]
          + PercentileData(name, percentiles, Percentiles(h, percentiles), MetricUnit(name, StandardUnitCount), t)
    }

    /** Fraction i's histogram data point follows the count datum. */
    lemma HistogramDataAt(name: string, h: Snapshot, t: int, i: nat)
      requires h.count != 0 && i < |percentiles|
      ensures |HistogramData(name, h, t)| == |percentiles| + 1
      ensures HistogramData(name, h, t)[i + 1]
                == MetricDatum(PercentileName(name, percentiles[i]), h.quantile(percentiles[i]),
                               Some(MetricUnit(name, StandardUnitCount)), dimensions, t, Some(storageResolution))
    {
      var vals := Percentiles(h, percentiles);
      PercentileDataAt(name, percentiles, vals, MetricUnit(name, StandardUnitCount), t, i);
      assert HistogramData(name, h, t)[i + 1] == PercentileData(name, percentiles, vals, MetricUnit(name, StandardUnitCount), t)[i];
    }

    /**
     * A histogram reports nothing while its snapshot is empty; otherwise
     * `<name>.count` (always in "Count"), then one `<name>.p<N>` per
     * configured fraction, in order, carrying the snapshot's value unchanged,
     * in the override unit for `name` or "Count".
     */
    lemma HistogramDataShape(name: string, h: Snapshot, t: int)
      ensures var r := HistogramData(name, h, t);
        && (h.count == 0 ==> r == [])
        && (h.count != 0 ==> |r| == |percentiles| + 1)
        && (h.count != 0 ==>
              r[0] == MetricDatum(CountName(name), h.count as real, Some(StandardUnitCount),
                                  dimensions, t, Some(storageResolution)))
        && (h.count != 0 ==> forall i :: 0 <= i < |percentiles| ==>
              r[i + 1] == MetricDatum(PercentileName(name, percentiles[i]), h.quantile(percentiles[i]),
                                      Some(if name in units then units[name] else StandardUnitCount),
                                      dimensions, t, Some(storageResolution)))
    {
      if h.count != 0 {
        var r := HistogramData(name, h, t);
        forall i | 0 <= i < |percentiles|
          ensures r[i + 1] == MetricDatum(PercentileName(name, percentiles[i]), h.quantile(percentiles[i]),
                                          Some(if name in units then units[name] else StandardUnitCount),
                                          dimensions, t, Some(storageResolution))
        {
          HistogramDataAt(name, h, t, i);
        }
      }
    }

    /** The unit a Timer's percentile data points carry. */
    function TimerUnit(name: string): string
    {
      MetricUnit(name, StandardUnitMilliseconds)
    }

    /** What BuildTimerData returns; its shape is stated by TimerDataShape. */
    function TimerData(name: string, h: Snapshot, t: int): seq<MetricDatum>
    {
      if h.count == 0 then []
      else
        var unit := TimerUnit(name);
        [BuildDatum(CountName(name), h.count as real, StandardUnitCount, t)]
          + PercentileData(name, percentiles, ConvertAll(unit, Percentiles(h, percentiles)), unit, t)
    }

    /** Fraction i's timer data point follows the count datum, its value converted into the unit. */
    lemma TimerDataAt(name: string, h: Snapshot, t: int, i: nat)
      requires h.count != 0 && i < |percentiles|
      ensures |TimerData(name, h, t)| == |percentiles| + 1
      ensures TimerData(name, h, t)[i + 1]
                == MetricDatum(PercentileName(name, percentiles[i]), ConvertDuration(TimerUnit(name), h.quantile(percentiles[i])),
                               Some(TimerUnit(name)), dimensions, t, Some(storageResolution))
    {
      var vals := ConvertAll(TimerUnit(name), Percentiles(h, percentiles));
      PercentileDataAt(name, percentiles, vals, TimerUnit(name), t, i);
      assert TimerData(name, h, t)[i + 1] == PercentileData(name, percentiles, vals, TimerUnit(name), t)[i];
    }

    /**
     * A timer reports as a histogram does, except that the percentile unit
     * defaults to "Milliseconds" and every percentile value is converted
     * from nanoseconds into that unit.
     */
    lemma TimerDataShape(name: string, h: Snapshot, t: int)
      ensures var r := TimerData(name, h, t);
        && (h.count == 0 ==> r == [])
        && (h.count != 0 ==> |r| == |percentiles| + 1)
        && (h.count != 0 ==>
              r[0] == MetricDatum(CountName(name), h.count as real, Some(StandardUnitCount),
                                  dimensions, t, Some(storageResolution)))
        && (h.count != 0 ==> forall i :: 0 <= i < |percentiles| ==>
              var unit := if name in units then units[name] else StandardUnitMilliseconds;
              r[i + 1] == MetricDatum(PercentileName(name, percentiles[i]),
                                      ConvertDuration(unit, h.quantile(percentiles[i])),
                                      Some(unit), dimensions, t, Some(storageResolution)))
    {
      if h.count != 0 {
        var r := TimerData(name, h, t);
        var unit := TimerUnit(name);
        forall i | 0 <= i < |percentiles|
          ensures r[i + 1] == MetricDatum(PercentileName(name, percentiles[i]),
                                          ConvertDuration(unit, h.quantile(percentiles[i])),
                                          Some(unit), dimensions, t, Some(storageResolution))
        {
          TimerDataAt(name, h, t, i);
        }
      }
    }

    /** One more turn of the percentile loop appends one data point after whatever precedes it. */
    lemma PercentileDataStep(head: seq<MetricDatum>, name: string, ps: seq<real>, vals: seq<real>, unit: string, t: int, index: nat)
      requires |vals| == |ps| && index < |ps|
      ensures head + PercentileData(name, ps[..index + 1], vals[..index + 1], unit, t)
              == (head + PercentileData(name, ps[..index], vals[..index], unit, t))
                 + [BuildDatum(PercentileName(name, ps[index]), vals[index], unit, t)]
    {
      assert ps[..index + 1][..index] == ps[..index];
      assert vals[..index + 1][..index] == vals[..index];
    }

    /** `BuildHistogramData`: the count datum, then the percentile loop. */
    method BuildHistogramData(name: string, h: Snapshot, t: int) returns (res: seq<MetricDatum>)
      ensures res == HistogramData(name, h, t)
    {
      if h.count == 0 {
        return [];
      }
      var first := BuildDatum(CountName(name), h.count as real, StandardUnitCount, t);
      res := [first];
      var unit := MetricUnit(name, StandardUnitCount);
      var vals := Percentiles(h, percentiles);
      for index := 0 to |vals|
        invariant res == [first] + PercentileData(name, percentiles[..index], vals[..index], unit, t)
      {
        PercentileDataStep([first], name, percentiles, vals, unit, t, index);
        res := res + [BuildDatum(PercentileName(name, percentiles[index]), vals[index], unit, t)];
      }
      assert percentiles[..|vals|] == percentiles && vals[..|vals|] == vals;
    }

    /** `BuildTimerData`: the count datum, then the percentile loop with unit conversion. */
    method BuildTimerData(name: string, h: Snapshot, t: int) returns (res: seq<MetricDatum>)
      ensures res == TimerData(name, h, t)
    {
      if h.count == 0 {
        return [];
      }
      var first := BuildDatum(CountName(name), h.count as real, StandardUnitCount, t);
      res := [first];
      var unit := MetricUnit(name, StandardUnitMilliseconds);
      var vals := Percentiles(h, percentiles);
      ghost var converted := ConvertAll(unit, vals);
      for index := 0 to |vals|
        invariant res == [first] + PercentileData(name, percentiles[..index], converted[..index], unit, t)
      {
        PercentileDataStep([first], name, percentiles, converted, unit, t, index);
        res := res + [BuildDatum(PercentileName(name, percentiles[index]), ConvertDuration(unit, vals[index]), unit, t)];
      }
      assert percentiles[..|vals|] == percentiles && converted[..|vals|] == converted;
    }
  }

  /**
   * `NewBuilder`: keeps units, percentiles and storage resolution as given and
   * turns the dimension map into a list holding each entry once, in the map's
   * (unspecified) iteration order; an empty map gives no dimensions.
   */
  method NewBuilder(units: map<string, string>, dimensions: map<string, string>, percentiles: seq<real>,
                    storageResolution: int) returns (b: Builder)
    ensures b.units == units && b.percentiles == percentiles && b.storageResolution == storageResolution
    ensures ListsDimensions(b.dimensions, dimensions)
  {
    var dims: seq<Dimension> := [];
    if |dimensions| > 0 {
      var pending := dimensions.Keys;
      while pending != {}
        invariant pending <= dimensions.Keys
        invariant |dims| + |pending| == |dimensions|
        invariant forall i :: 0 <= i < |dims| ==>
                    dims[i].name in dimensions.Keys - pending && dimensions[dims[i].name] == dims[i].value
        invariant forall i, j :: 0 <= i < j < |dims| ==> dims[i].name != dims[j].name
        invariant forall k :: k in dimensions.Keys - pending ==> Dimension(k, dimensions[k]) in dims
        decreases pending
      {
        var k :| k in pending;
        dims := dims + [Dimension(k, dimensions[k])];
        pending := pending - {k};
      }
    }
    b := Builder(units, dims, percentiles, storageResolution);
  }
}

/** Scenarios from the builder's own tests, and how the two percentile builders relate. */
module DatumFacts {
  import opened Wrappers
  import opened CloudWatchApi
  import opened Metrics
  import opened Naming
  import opened Datum
  import Text

  /** A timer with one recorded duration of 200ms: 200 in the default unit, 0.2 in seconds, 2e8 with "None". */
  lemma TimerDataExamples(name: string, t: int)
    ensures var h := Snapshot(1, p => 200000000.0);
            Builder(map[], [], [0.5], 30).TimerData(name, h, t)
              == [MetricDatum(name + ".count", 1.0, Some("Count"), [], t, Some(30)),
                  MetricDatum(name + ".p50", 200.0, Some("Milliseconds"), [], t, Some(30))]
    ensures var h := Snapshot(1, p => 200000000.0);
            Builder(map[name := "Seconds"], [Dimension("dim", "val")], [0.5], 30).TimerData(name, h, t)
              == [MetricDatum(name + ".count", 1.0, Some("Count"), [Dimension("dim", "val")], t, Some(30)),
                  MetricDatum(name + ".p50", 0.2, Some("Seconds"), [Dimension("dim", "val")], t, Some(30))]
    ensures var h := Snapshot(1, p => 200000000.0);
            Builder(map[name := "None"], [], [0.5], 30).TimerData(name, h, t)
              == [MetricDatum(name + ".count", 1.0, Some("Count"), [], t, Some(30)),
                  MetricDatum(name + ".p50", 200000000.0, Some("None"), [], t, Some(30))]
    ensures Builder(map[], [], [], 30).TimerData(name, Snapshot(1, p => 200000000.0), t)
              == [MetricDatum(name + ".count", 1.0, Some("Count"), [], t, Some(30))]
    ensures Builder(map[], [], [0.5], 30).TimerData(name, Snapshot(0, p => 0.0), t) == []
  {
    assert Text.Digits(50) == "50";
    assert PercentileName(name, 0.5) == name + ".p50";
  }

  /** A histogram with one recorded value of 2016 and percentiles [0.44]. */
  lemma HistogramDataExample(name: string, t: int)
    ensures Builder(map[], [], [0.44], 30).HistogramData(name, Snapshot(1, p => 2016.0), t)
              == [MetricDatum(name + ".count", 1.0, Some("Count"), [], t, Some(30)),
                  MetricDatum(name + ".p44", 2016.0, Some("Count"), [], t, Some(30))]
    ensures Builder(map[], [], [0.44], 30).HistogramData(name, Snapshot(0, p => 0.0), t) == []
  {
    assert Text.Digits(44) == "44";
    assert PercentileName(name, 0.44) == name + ".p44";
  }

  /**
   * A timer whose configured unit is not a duration unit reports exactly what
   * a histogram with the same snapshot reports.
   */
  lemma TimerWithoutConversionIsHistogram(b: Builder, name: string, h: Snapshot, t: int)
    requires name in b.units && !IsDurationUnit(b.units[name])
    ensures b.TimerData(name, h, t) == b.HistogramData(name, h, t)
  {
    b.TimerDataShape(name, h, t);
    b.HistogramDataShape(name, h, t);
    var r1 := b.TimerData(name, h, t);
    var r2 := b.HistogramData(name, h, t);
    assert |r1| == |r2|;
    forall i | 0 <= i < |r1|
      ensures r1[i] == r2[i]
    {
      if i > 0 {
        b.TimerDataAt(name, h, t, i - 1);
        b.HistogramDataAt(name, h, t, i - 1);
      }
    }
  }
}
