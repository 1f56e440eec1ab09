/** `async_import_all_statistics`: one pass over the coordinator's snapshot
    that imports the hourly AMI series of every service point with a known
    meter (gas or electric) and the interval series of every service point
    with interval reads. The run's effect is the set of store writes it makes,
    keyed by the series each one goes to. */
module StatisticsImport {
  import opened Text
  import opened Records
  import opened Series
  import opened HourlyImport
  import opened IntervalImport

  /** A series of one service point. */
  datatype SeriesKey = SeriesKey(sp: string, kind: SeriesKind)

  /** The context the run hands to every import: the snapshot's first-refresh
      flag in place of the caller's. */
  function RunContext(data: Snapshot, ctx: Context): (c: Context)
    ensures c.isFirstRefresh == data.isFirstRefresh
    ensures c.now == ctx.now && c.store == ctx.store && c.parse == ctx.parse && c.toCcf == ctx.toCcf
  {
    ctx.(isFirstRefresh := data.isFirstRefresh)
  }

  /** `meter_data.meter.get("fuelType", "") == "Gas"`. */
  predicate IsGas(md: MeterData)
  {
    md.meter.fuelType == "Gas"
  }

  /** What the run writes to one series: the hourly series only for a service
      point with AMI readings and a meter entry, gas or electric by its fuel
      type; the return series only when a value is negative; the interval
      series for every service point with interval reads. */
  function PlannedWrite(data: Snapshot, ctx: Context, key: SeriesKey): StoreWrite
  {
    var c := RunContext(data, ctx);
    var sp := key.sp;
    match key.kind
    case GasHourly =>
      if sp in data.amiUsages && sp in data.meters && IsGas(data.meters[sp])
      then HourlyWrite(sp, data.amiUsages[sp], HourlyRunFor(c, sp, true, AllReadings))
      else NoWrite
    case ElectricHourly =>
      if sp in data.amiUsages && sp in data.meters && !IsGas(data.meters[sp])
      then HourlyWrite(sp, data.amiUsages[sp], HourlyRunFor(c, sp, false, ConsumptionOnly))
      else NoWrite
    case ElectricReturnHourly =>
      if sp in data.amiUsages && sp in data.meters && !IsGas(data.meters[sp]) && HasNegative(data.amiUsages[sp])
      then HourlyWrite(sp, data.amiUsages[sp], HourlyRunFor(c, sp, false, ReturnOnly))
      else NoWrite
    case ElectricInterval =>
      if sp in data.intervalReads
      then IntervalWrite(sp, data.intervalReads[sp], IntervalRunFor(c, sp, ConsumptionOnly))
      else NoWrite
    case ElectricIntervalReturn =>
      if sp in data.intervalReads && HasNegativeValue(data.intervalReads[sp])
      then IntervalWrite(sp, data.intervalReads[sp], IntervalRunFor(c, sp, ReturnOnly))
      else NoWrite
  }

  /** Whether the kind is one of the three hourly AMI series. */
  predicate IsHourly(kind: SeriesKind)
  {
    kind == GasHourly || kind == ElectricHourly || kind == ElectricReturnHourly
  }

  /** Every write goes to the series it is keyed by: its statistic ID is the
      key's, and it carries at least one point. */
  lemma PlannedWriteTargetsItsSeries(data: Snapshot, ctx: Context, key: SeriesKey)
    ensures var w := PlannedWrite(data, ctx, key);
      w.Write? ==> w.meta.statisticId == StatisticId(key.sp, key.kind) && w.points != []
  {
    var c := RunContext(data, ctx);
    var sp := key.sp;
    match key.kind
    case GasHourly =>
      assert HourlyKind(true, AllReadings) == GasHourly;
    case ElectricHourly =>
      assert HourlyKind(false, ConsumptionOnly) == ElectricHourly;
    case ElectricReturnHourly =>
      assert HourlyKind(false, ReturnOnly) == ElectricReturnHourly;
    case ElectricInterval =>
      assert IntervalKind(ConsumptionOnly) == ElectricInterval;
    case ElectricIntervalReturn =>
      assert IntervalKind(ReturnOnly) == ElectricIntervalReturn;
  }

  /** Two different series of a run never write to the same statistic, so no
      write of the run changes the baseline another series of the run reads. */
  lemma PlannedWritesAreDistinct(data: Snapshot, ctx: Context, k1: SeriesKey, k2: SeriesKey)
    requires k1 != k2
    requires PlannedWrite(data, ctx, k1).Write? && PlannedWrite(data, ctx, k2).Write?
    ensures PlannedWrite(data, ctx, k1).meta.statisticId != PlannedWrite(data, ctx, k2).meta.statisticId
  {
    PlannedWriteTargetsItsSeries(data, ctx, k1);
    PlannedWriteTargetsItsSeries(data, ctx, k2);
    if StatisticId(k1.sp, k1.kind) == StatisticId(k2.sp, k2.kind) {
      StatisticIdInjective(k1.sp, k1.kind, k2.sp, k2.kind);
    }
  }

  /** AMI readings of a service point without a meter entry write nothing,
      and a gas meter gets no electric hourly series and an electric one no
      gas series. */
  lemma HourlyNeedsMeter(data: Snapshot, ctx: Context, key: SeriesKey)
    requires IsHourly(key.kind)
    ensures PlannedWrite(data, ctx, key).Write? ==> key.sp in data.amiUsages && key.sp in data.meters
    ensures PlannedWrite(data, ctx, key).Write? && key.kind == GasHourly ==> IsGas(data.meters[key.sp])
    ensures PlannedWrite(data, ctx, key).Write? && key.kind != GasHourly ==> !IsGas(data.meters[key.sp])
  {
  }

  /** The `has_negative` guards change nothing: each return series writes
      what an unguarded call would. */
  lemma ReturnGuardsChangeNothing(data: Snapshot, ctx: Context, sp: string)
    ensures var c := RunContext(data, ctx);
      sp in data.amiUsages && sp in data.meters && !IsGas(data.meters[sp]) ==>
        PlannedWrite(data, ctx, SeriesKey(sp, ElectricReturnHourly))
          == HourlyWrite(sp, data.amiUsages[sp], HourlyRunFor(c, sp, false, ReturnOnly))
    ensures var c := RunContext(data, ctx);
      sp in data.intervalReads ==>
        PlannedWrite(data, ctx, SeriesKey(sp, ElectricIntervalReturn))
          == IntervalWrite(sp, data.intervalReads[sp], IntervalRunFor(c, sp, ReturnOnly))
  {
    var c := RunContext(data, ctx);
    if sp in data.amiUsages {
      ReturnWriteNeedsNegative(sp, data.amiUsages[sp], HourlyRunFor(c, sp, false, ReturnOnly));
    }
    if sp in data.intervalReads {
      ReturnIntervalWriteNeedsNegative(sp, data.intervalReads[sp], IntervalRunFor(c, sp, ReturnOnly));
    }
  }

  /** The planned write of every series, as one function value. */
  function Plan(data: Snapshot, ctx: Context): SeriesKey -> StoreWrite
  {
    key => PlannedWrite(data, ctx, key)
  }

  /** The writes recorded once the AMI loop has done the service points
      `amiDone` and the interval loop those of `intervalDone`: exactly the
      planned ones of those series. */
  ghost predicate WritesSoFar(plan: SeriesKey -> StoreWrite, writes: map<SeriesKey, StoreWrite>,
                              amiDone: set<string>, intervalDone: set<string>)
  {
    (forall key :: key in writes <==>
      plan(key).Write? && (if IsHourly(key.kind) then key.sp in amiDone else key.sp in intervalDone))
    && forall key :: key in writes ==> writes[key] == plan(key)
  }

  /** Records the store call an import made, if it made one. */
  function Record(writes: map<SeriesKey, StoreWrite>, key: SeriesKey, w: StoreWrite): map<SeriesKey, StoreWrite>
  {
    if w.Write? then writes[key := w] else writes
  }

  /** One step of the AMI loop keeps the loop's invariant. */
  lemma AmiStep(plan: SeriesKey -> StoreWrite, writes: map<SeriesKey, StoreWrite>, amiDone: set<string>,
                sp: string, gas: StoreWrite, cons: StoreWrite, ret: StoreWrite)
    requires WritesSoFar(plan, writes, amiDone, {}) && sp !in amiDone
    requires gas == plan(SeriesKey(sp, GasHourly))
    requires cons == plan(SeriesKey(sp, ElectricHourly))
    requires ret == plan(SeriesKey(sp, ElectricReturnHourly))
    ensures WritesSoFar(plan,
      Record(Record(Record(writes, SeriesKey(sp, GasHourly), gas), SeriesKey(sp, ElectricHourly), cons),
             SeriesKey(sp, ElectricReturnHourly), ret),
      amiDone + {sp}, {})
  {
  }

  /** One step of the interval loop keeps the loop's invariant. */
  lemma IntervalStep(plan: SeriesKey -> StoreWrite, writes: map<SeriesKey, StoreWrite>, amiDone: set<string>,
                     intervalDone: set<string>, sp: string, cons: StoreWrite, ret: StoreWrite)
    requires WritesSoFar(plan, writes, amiDone, intervalDone) && sp !in intervalDone
    requires cons == plan(SeriesKey(sp, ElectricInterval))
    requires ret == plan(SeriesKey(sp, ElectricIntervalReturn))
    ensures WritesSoFar(plan,
      Record(Record(writes, SeriesKey(sp, ElectricInterval), cons), SeriesKey(sp, ElectricIntervalReturn), ret),
      amiDone, intervalDone + {sp})
  {
  }

  /** The body of the AMI loop for one service point: skipped without a
      meter entry, the gas series for a gas meter, the electric series
      otherwise. */
  method ImportAmiOf(data: Snapshot, ctx: Context, sp: string) returns (gas: StoreWrite, cons: StoreWrite, ret: StoreWrite)
    requires sp in data.amiUsages
    ensures gas == Plan(data, ctx)(SeriesKey(sp, GasHourly))
    ensures cons == Plan(data, ctx)(SeriesKey(sp, ElectricHourly))
    ensures ret == Plan(data, ctx)(SeriesKey(sp, ElectricReturnHourly))
  {
    var c := RunContext(data, ctx);
    var readings := data.amiUsages[sp];
    gas, cons, ret := NoWrite, NoWrite, NoWrite;
    if sp in data.meters {
      if IsGas(data.meters[sp]) {
        gas := ImportHourlyStats(sp, readings, c, true, AllReadings);
      } else {
        cons, ret := ImportHourlyStatsElectric(sp, readings, c);
      }
    }
  }

  /** The planned interval write of a service point with interval reads. */
  lemma IntervalPlan(data: Snapshot, ctx: Context, sp: string)
    requires sp in data.intervalReads
    ensures PlannedWrite(data, ctx, SeriesKey(sp, ElectricInterval))
      == IntervalWrite(sp, data.intervalReads[sp], IntervalRunFor(RunContext(data, ctx), sp, ConsumptionOnly))
  {
  }

  /** The planned interval-return write of a service point with interval reads. */
  lemma IntervalReturnPlan(data: Snapshot, ctx: Context, sp: string)
    requires sp in data.intervalReads
    ensures PlannedWrite(data, ctx, SeriesKey(sp, ElectricIntervalReturn))
      == if HasNegativeValue(data.intervalReads[sp])
         then IntervalWrite(sp, data.intervalReads[sp], IntervalRunFor(RunContext(data, ctx), sp, ReturnOnly))
         else NoWrite
  {
  }

  /** The body of the interval loop for one service point. */
  method ImportIntervalOf(data: Snapshot, ctx: Context, sp: string) returns (cons: StoreWrite, ret: StoreWrite)
    requires sp in data.intervalReads
    ensures cons == Plan(data, ctx)(SeriesKey(sp, ElectricInterval))
    ensures ret == Plan(data, ctx)(SeriesKey(sp, ElectricIntervalReturn))
  {
    cons, ret := ImportIntervalStatsElectric(sp, data.intervalReads[sp], RunContext(data, ctx));
    IntervalPlan(data, ctx, sp);
    IntervalReturnPlan(data, ctx, sp);
  }

  /** The AMI loop: every service point with readings, in some order. */
  method ImportAmiSeries(data: Snapshot, ctx: Context) returns (writes: map<SeriesKey, StoreWrite>)
    ensures WritesSoFar(Plan(data, ctx), writes, data.amiUsages.Keys, {})
  {
    writes := map[];
    var todo := data.amiUsages.Keys;
    while todo != {}
      invariant todo <= data.amiUsages.Keys
      invariant WritesSoFar(Plan(data, ctx), writes, data.amiUsages.Keys - todo, {})
      decreases |todo|
    {
      var sp :| sp in todo;
      var gas, cons, ret := ImportAmiOf(data, ctx, sp);
      AmiStep(Plan(data, ctx), writes, data.amiUsages.Keys - todo, sp, gas, cons, ret);
      writes := Record(Record(Record(writes, SeriesKey(sp, GasHourly), gas), SeriesKey(sp, ElectricHourly), cons),
                       SeriesKey(sp, ElectricReturnHourly), ret);
      assert data.amiUsages.Keys - (todo - {sp}) == (data.amiUsages.Keys - todo) + {sp};
      todo := todo - {sp};
    }
  }

  /** The interval loop: every service point with interval reads, in some
      order, added to the AMI loop's writes. */
  method ImportIntervalSeries(data: Snapshot, ctx: Context, amiWrites: map<SeriesKey, StoreWrite>)
    returns (writes: map<SeriesKey, StoreWrite>)
    requires WritesSoFar(Plan(data, ctx), amiWrites, data.amiUsages.Keys, {})
    ensures WritesSoFar(Plan(data, ctx), writes, data.amiUsages.Keys, data.intervalReads.Keys)
  {
    writes := amiWrites;
    var todo := data.intervalReads.Keys;
    while todo != {}
      invariant todo <= data.intervalReads.Keys
      invariant WritesSoFar(Plan(data, ctx), writes, data.amiUsages.Keys, data.intervalReads.Keys - todo)
      decreases |todo|
    {
      var sp :| sp in todo;
      var cons, ret := ImportIntervalOf(data, ctx, sp);
      IntervalStep(Plan(data, ctx), writes, data.amiUsages.Keys, data.intervalReads.Keys - todo, sp, cons, ret);
      writes := Record(Record(writes, SeriesKey(sp, ElectricInterval), cons), SeriesKey(sp, ElectricIntervalReturn), ret);
      assert data.intervalReads.Keys - (todo - {sp}) == (data.intervalReads.Keys - todo) + {sp};
      todo := todo - {sp};
    }
  }

  /** `async_import_all_statistics`: nothing without data; otherwise exactly
      the planned write of every series that has one. */
  method ImportAllStatistics(data: Option<Snapshot>, ctx: Context) returns (writes: map<SeriesKey, StoreWrite>)
    ensures data.None? ==> writes == map[]
    ensures data.Some? ==> forall key :: key in writes <==> PlannedWrite(data.value, ctx, key).Write?
    ensures data.Some? ==> forall key :: key in writes ==> writes[key] == PlannedWrite(data.value, ctx, key)
  {
    if data.None? {
      return map[];
    }
    var amiWrites := ImportAmiSeries(data.value, ctx);
    writes := ImportIntervalSeries(data.value, ctx, amiWrites);
    forall key | PlannedWrite(data.value, ctx, key).Write?
      ensures key in writes
    {
      if IsHourly(key.kind) {
        HourlyNeedsMeter(data.value, ctx, key);
      } else {
        assert key.sp in data.value.intervalReads;
      }
    }
  }
}
