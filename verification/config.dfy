/**
 * The publisher's settings: defaults, the options that override them, and the
 * order in which options take effect.
 */
module Config {
  import Wrappers
  import opened Runtime
  import opened CloudWatchApi
  import opened Logging
  import opened Datum

  /** A publisher option; applying it overrides one setting. */
  datatype Option =
    | WithContext(ctx: Context)
    | WithClient(client: CloudWatch?)
    | WithInterval(interval: int)
    | WithLogger(logger: Logger?)
    | WithUnits(units: map<string, string>)
    | WithDimensions(dimensions: map<string, string>)
    | WithPercentiles(percentiles: seq<real>)
    | WithStorageResolution(storageResolution: int)
    | WithBuilder(builder: Wrappers.Option<Builder>)

  /** The settings as a value; a nil client, logger or builder is `null` / `None`. */
  datatype Values = Values(
    context: Context,
    client: CloudWatch?,
    interval: int,
    logger: Logger?,
    units: map<string, string>,
    dimensions: map<string, string>,
    percentiles: seq<real>,
    storageResolution: int,
    datumBuilder: Wrappers.Option<Builder>)

  const DefaultPercentiles: seq<real> := [0.5, 0.75, 0.95, 0.99]
  const DefaultStorageResolution: int := 60

  /** The settings before any option is applied. */
  function Defaults(): Values
  {
    Values(Background, null, Minute, null, map[], map[], DefaultPercentiles, DefaultStorageResolution, Wrappers.None)
  }

  /**
   * The effect of one option. Every option replaces its setting, except
   * `WithUnits`, which adds its entries to the units already configured.
   */
  function Applied(v: Values, o: Option): Values
  {
    match o
    case WithContext(c) => v.(context := c)
    case WithClient(c) => v.(client := c)
    case WithInterval(i) => v.(interval := i)
    case WithLogger(l) => v.(logger := l)
    case WithUnits(u) => v.(units := v.units + u)
    case WithDimensions(d) => v.(dimensions := d)
    case WithPercentiles(p) => v.(percentiles := p)
    case WithStorageResolution(r) => v.(storageResolution := r)
    case WithBuilder(b) => v.(datumBuilder := b)
  }

  /** The settings `getSettings` yields: the defaults with the options applied in order. */
  function Resolve(opts: seq<Option>): Values
    decreases |opts|
  {
    if opts == [] then Defaults() else Applied(Resolve(opts[..|opts| - 1]), opts[|opts| - 1])
  }

  /** The mutable settings record the options write into. */
  class Settings {
    var context: Context
    var client: CloudWatch?
    var interval: int
    var logger: Logger?
    var units: map<string, string>
    var dimensions: map<string, string>
    var percentiles: seq<real>
    var storageResolution: int
    var datumBuilder: Wrappers.Option<Builder>

    function Value(): Values
      reads this
    {
      Values(context, client, interval, logger, units, dimensions, percentiles, storageResolution, datumBuilder)
    }

    constructor ()
      ensures Value() == Defaults()
    {
      context := Background;
      client := null;
      interval := Minute;
      logger := null;
      units := map[];
      dimensions := map[];
      percentiles := DefaultPercentiles;
      storageResolution := DefaultStorageResolution;
      datumBuilder := Wrappers.None;
    }

    /** Runs one option against this record. */
    method Apply(o: Option)
      modifies this
      ensures Value() == Applied(old(Value()), o)
    {
      match o {
        case WithContext(c) => context := c;
        case WithClient(c) => client := c;
        case WithInterval(i) => interval := i;
        case WithLogger(l) => logger := l;
        case WithUnits(u) => MergeUnits(u);
        case WithDimensions(d) => dimensions := d;
        case WithPercentiles(p) => percentiles := p;
        case WithStorageResolution(r) => storageResolution := r;
        case WithBuilder(b) => datumBuilder := b;
      }
    }

    /** `WithUnits`: copies the given entries into the units one key at a time. */
    method MergeUnits(u: map<string, string>)
      modifies this
      ensures Value() == old(Value()).(units := old(units) + u)
    {
      var pending := u.Keys;
      while pending != {}
        invariant pending <= u.Keys
        invariant Value() == old(Value()).(units := units)
        invariant units.Keys == old(units).Keys + (u.Keys - pending)
        invariant forall k :: k in units ==> units[k] == if k in u && k !in pending then u[k] else old(units)[k]
        decreases pending
      {
        var k :| k in pending;
        units := units[k := u[k]];
        pending := pending - {k};
      }
      assert units == old(units) + u;
    }
  }

  /** Builds a fresh settings record from the defaults and the options, in order. */
  method GetSettings(opts: seq<Option>) returns (s: Settings)
    ensures fresh(s)
    ensures s.Value() == Resolve(opts)
  {
    s := new Settings();
    for i := 0 to |opts|
      invariant s.Value() == Resolve(opts[..i])
    {
      assert opts[..i + 1][..i] == opts[..i];
      s.Apply(opts[i]);
    }
    assert opts[..|opts|] == opts;
  }

  /** The setting an option overrides. */
  datatype Field =
    | ContextField | ClientField | IntervalField | LoggerField | UnitsField
    | DimensionsField | PercentilesField | StorageResolutionField | BuilderField

  function FieldOf(o: Option): Field
  {
    match o
    case WithContext(_) => ContextField
    case WithClient(_) => ClientField
    case WithInterval(_) => IntervalField
    case WithLogger(_) => LoggerField
    case WithUnits(_) => UnitsField
    case WithDimensions(_) => DimensionsField
    case WithPercentiles(_) => PercentilesField
    case WithStorageResolution(_) => StorageResolutionField
    case WithBuilder(_) => BuilderField
  }

  /** Whether two settings agree on one field. */
  predicate SameField(v: Values, w: Values, f: Field)
  {
    match f
    case ContextField => v.context == w.context
    case ClientField => v.client == w.client
    case IntervalField => v.interval == w.interval
    case LoggerField => v.logger == w.logger
    case UnitsField => v.units == w.units
    case DimensionsField => v.dimensions == w.dimensions
    case PercentilesField => v.percentiles == w.percentiles
    case StorageResolutionField => v.storageResolution == w.storageResolution
    case BuilderField => v.datumBuilder == w.datumBuilder
  }

  /** An option leaves every setting but its own as it was. */
  lemma AppliedFrame(v: Values, o: Option, f: Field)
    requires FieldOf(o) != f
    ensures SameField(Applied(v, o), v, f)
  {
  }

  /** A setting no option mentions keeps its default. */
  lemma {:induction false} ResolveUntouched(opts: seq<Option>, f: Field)
    requires forall i :: 0 <= i < |opts| ==> FieldOf(opts[i]) != f
    ensures SameField(Resolve(opts), Defaults(), f)
    decreases |opts|
  {
    if opts != [] {
      ResolveUntouched(opts[..|opts| - 1], f);
      AppliedFrame(Resolve(opts[..|opts| - 1]), opts[|opts| - 1], f);
    }
  }

  /**
   * For every option but `WithUnits`, the last option of a kind decides the
   * setting: the result holds what that option alone would have set.
   */
  lemma {:induction false} ResolveLastWins(opts: seq<Option>, i: nat)
    requires i < |opts| && !opts[i].WithUnits?
    requires forall j :: i < j < |opts| ==> FieldOf(opts[j]) != FieldOf(opts[i])
    ensures SameField(Resolve(opts), Applied(Defaults(), opts[i]), FieldOf(opts[i]))
    decreases |opts|
  {
    var prefix := opts[..|opts| - 1];
    if i < |opts| - 1 {
      ResolveLastWins(prefix, i);
      AppliedFrame(Resolve(prefix), opts[|opts| - 1], FieldOf(opts[i]));
    }
  }

  /** One option adds a unit key exactly when it is a `WithUnits` naming that metric. */
  lemma UnitsKeyStep(v: Values, o: Option, name: string)
    ensures name in Applied(v, o).units <==> name in v.units || (o.WithUnits? && name in o.units)
  {
  }

  /** A unit is configured exactly when some `WithUnits` option names its metric. */
  lemma {:induction false} ResolveUnitsKeys(opts: seq<Option>, name: string)
    ensures name in Resolve(opts).units
        <==> exists i :: 0 <= i < |opts| && opts[i].WithUnits? && name in opts[i].units
    decreases |opts|
  {
    if opts != [] {
      var prefix := opts[..|opts| - 1];
      var last := opts[|opts| - 1];
      ResolveUnitsKeys(prefix, name);
      assert Resolve(opts) == Applied(Resolve(prefix), last);
      UnitsKeyStep(Resolve(prefix), last, name);
      if name in Resolve(prefix).units {
        var i :| 0 <= i < |prefix| && prefix[i].WithUnits? && name in prefix[i].units;
        assert opts[i] == prefix[i];
      }
      if exists i :: 0 <= i < |opts| && opts[i].WithUnits? && name in opts[i].units {
        var i :| 0 <= i < |opts| && opts[i].WithUnits? && name in opts[i].units;
        if i < |opts| - 1 {
          assert prefix[i] == opts[i];
        }
      }
    }
  }

  /** Units merge across options: the last `WithUnits` that names a metric decides its unit. */
  lemma {:induction false} ResolveUnitsLastWins(opts: seq<Option>, i: nat, name: string)
    requires i < |opts| && opts[i].WithUnits? && name in opts[i].units
    requires forall j :: i < j < |opts| && opts[j].WithUnits? ==> name !in opts[j].units
    ensures name in Resolve(opts).units && Resolve(opts).units[name] == opts[i].units[name]
    decreases |opts|
  {
    if i < |opts| - 1 {
      ResolveUnitsLastWins(opts[..|opts| - 1], i, name);
    }
  }

  lemma ResolveSnoc(opts: seq<Option>, o: Option)
    ensures Resolve(opts + [o]) == Applied(Resolve(opts), o)
  {
    assert (opts + [o])[..|opts|] == opts;
  }

  /**
   * No options give the documented defaults, and a lone `WithBuilder` changes
   * the builder and nothing else.
   */
  lemma DefaultCases(b: Builder)
    ensures Resolve([]) == Values(Background, null, Minute, null, map[], map[], [0.5, 0.75, 0.95, 0.99], 60, Wrappers.None)
    ensures Resolve([WithBuilder(Wrappers.Some(b))]) == Defaults().(datumBuilder := Wrappers.Some(b))
  {
    assert [WithBuilder(Wrappers.Some(b))][..0] == [];
  }

  /** Context, client, interval and logger options, one each, set those four settings. */
  lemma ResolveScalars(ctx: Context, client: CloudWatch?, interval: int, logger: Logger?)
    ensures Resolve([WithContext(ctx), WithClient(client), WithInterval(interval), WithLogger(logger)])
         == Defaults().(context := ctx, client := client, interval := interval, logger := logger)
  {
    var s1 := [WithContext(ctx)];
    ResolveSnoc([], WithContext(ctx));
    assert [] + [WithContext(ctx)] == s1;
    var s2 := s1 + [WithClient(client)];
    ResolveSnoc(s1, WithClient(client));
    var s3 := s2 + [WithInterval(interval)];
    ResolveSnoc(s2, WithInterval(interval));
    ResolveSnoc(s3, WithLogger(logger));
    assert s3 + [WithLogger(logger)] == [WithContext(ctx), WithClient(client), WithInterval(interval), WithLogger(logger)];
  }

  /** The four scalar options followed by a units option. */
  lemma ResolveWithUnits(ctx: Context, client: CloudWatch?, interval: int, logger: Logger?,
                         units: map<string, string>)
    ensures Resolve([WithContext(ctx), WithClient(client), WithInterval(interval), WithLogger(logger),
                     WithUnits(units)])
         == Values(ctx, client, interval, logger, units, map[], DefaultPercentiles, DefaultStorageResolution, Wrappers.None)
  {
    var s4 := [WithContext(ctx), WithClient(client), WithInterval(interval), WithLogger(logger)];
    ResolveScalars(ctx, client, interval, logger);
    ResolveSnoc(s4, WithUnits(units));
    assert map[] + units == units;
    assert s4 + [WithUnits(units)]
        == [WithContext(ctx), WithClient(client), WithInterval(interval), WithLogger(logger), WithUnits(units)];
  }

  /** With every option but the builder given once, each setting holds the value its option carries. */
  lemma EveryOption(ctx: Context, client: CloudWatch?, interval: int, logger: Logger?,
                    units: map<string, string>, dimensions: map<string, string>,
                    percentiles: seq<real>, storageResolution: int)
    ensures Resolve([WithContext(ctx), WithClient(client), WithInterval(interval), WithLogger(logger),
                     WithUnits(units), WithDimensions(dimensions), WithPercentiles(percentiles),
                     WithStorageResolution(storageResolution)])
         == Values(ctx, client, interval, logger, units, dimensions, percentiles, storageResolution, Wrappers.None)
  {
    var s5 := [WithContext(ctx), WithClient(client), WithInterval(interval), WithLogger(logger), WithUnits(units)];
    ResolveWithUnits(ctx, client, interval, logger, units);
    var s6 := s5 + [WithDimensions(dimensions)];
    ResolveSnoc(s5, WithDimensions(dimensions));
    var s7 := s6 + [WithPercentiles(percentiles)];
    ResolveSnoc(s6, WithPercentiles(percentiles));
    ResolveSnoc(s7, WithStorageResolution(storageResolution));
    assert s7 + [WithStorageResolution(storageResolution)]
        == [WithContext(ctx), WithClient(client), WithInterval(interval), WithLogger(logger),
            WithUnits(units), WithDimensions(dimensions), WithPercentiles(percentiles),
            WithStorageResolution(storageResolution)];
  }
}
