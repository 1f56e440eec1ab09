/** The interval import (`_import_interval_stats` and its electric wrapper):
    fold the 15-minute reads that pass the direction filter and parse into
    top-of-hour buckets, then give every bucket after the stored hour, in
    ascending hour order, a running sum that starts at the stored sum. */
module IntervalImport {
  import opened Text
  import opened Records
  import opened Series

  /** One call of `_import_interval_stats`: the run's context, the direction
      flags and the baseline read back for the call's series. The interval
      path reads neither the first-refresh flag nor the clock. */
  datatype IntervalRun = IntervalRun(ctx: Context, filter: SignFilter, base: Baseline)

  /** The series a call writes. */
  function IntervalKind(filter: SignFilter): (k: SeriesKind)
    ensures k == ElectricIntervalReturn <==> filter.ReturnOnly?
    ensures k == ElectricInterval || k == ElectricIntervalReturn
  {
    if filter.ReturnOnly? then ElectricIntervalReturn else ElectricInterval
  }

  /** The metadata of the series: its identifier, its display name and kWh. */
  function IntervalMeta(sp: string, filter: SignFilter): SeriesMeta
  {
    SeriesMeta(
      StatisticId(sp, IntervalKind(filter)),
      if filter.ReturnOnly? then sp + " Electric Interval Return Usage" else sp + " Electric Interval Usage",
      KilowattHour)
  }

  /** The identifier and name each direction gets. */
  lemma IntervalMetaSpelled(sp: string, filter: SignFilter)
    ensures var m := IntervalMeta(sp, filter);
      (filter.ReturnOnly? ==>
         (m.statisticId == Domain + ":" + sp + "_electric_interval_return_usage"
          && m.name == sp + " Electric Interval Return Usage"))
      && (!filter.ReturnOnly? ==>
         (m.statisticId == Domain + ":" + sp + "_electric_interval_usage"
          && m.name == sp + " Electric Interval Usage"))
      && m.unit == KilowattHour
  {
  }

  /** The call as `_import_interval_stats` sets it up: its baseline is the store's last row
      for the call's own statistic ID. */
  function IntervalRunFor(ctx: Context, sp: string, filter: SignFilter): IntervalRun
  {
    IntervalRun(ctx, filter, BaselineOf(ctx.store(StatisticId(sp, IntervalKind(filter)))))
  }

  /** What one read adds to a bucket, checked in the loop's order: a
      non-empty start time, the direction filter (return reads as
      magnitudes), a start time that parses; the bucket is the top of its
      hour. */
  function ReadEntry(r: IntervalRead, run: IntervalRun): Option<Entry>
  {
    if r.startTime == "" then None
    else
      match SignedValue(r.value, run.filter)
      case None => None
      case Some(v) =>
        match run.ctx.parse(r.startTime)
        case None => None
        case Some(t) => Some(Entry(TopOfHour(t), v))
  }

  /** A read is bucketed exactly when its start time is non-empty and
      parses and it passes the direction filter. Its entry is the top of the
      hour its start time parses to, carrying the read's signed value. */
  lemma ReadEntryFacts(r: IntervalRead, run: IntervalRun)
    ensures ReadEntry(r, run).Some? <==>
      r.startTime != "" && SignedValue(r.value, run.filter).Some? && run.ctx.parse(r.startTime).Some?
    ensures var e := ReadEntry(r, run);
      e.Some? ==>
        r.startTime != "" && run.ctx.parse(r.startTime).Some?
        && e.value.start == TopOfHour(run.ctx.parse(r.startTime).value)
        && e.value.start % HourSeconds == 0
        && SignedValue(r.value, run.filter) == Some(e.value.value)
  {
  }

  /** The run's per-read decision as a function value. */
  function ReadKeep(run: IntervalRun): IntervalRead -> Option<Entry>
  {
    r => ReadEntry(r, run)
  }

  /** Read `r` goes into the bucket of hour `h`. */
  predicate InHour(r: IntervalRead, run: IntervalRun, h: int)
  {
    ReadEntry(r, run).Some? && ReadEntry(r, run).value.start == h
  }

  /** What read `r` contributes to hour `h`. */
  function HourShare(r: IntervalRead, run: IntervalRun, h: int): real
  {
    if InHour(r, run, h) then ReadEntry(r, run).value.value else 0.0
  }

  /** The total of the reads that fall into hour `h`: the value
      `_import_interval_stats` means a bucket to hold, defined read by read without any map. */
  function HourUsage(rs: seq<IntervalRead>, run: IntervalRun, h: int): real
    decreases |rs|
  {
    if rs == [] then 0.0
    else HourUsage(rs[..|rs| - 1], run, h) + HourShare(rs[|rs| - 1], run, h)
  }

  /** `hourly_buckets[hour_start] = hourly_buckets.get(hour_start, 0.0) + value`. */
  function AddToBucket(b: map<int, real>, e: Entry): map<int, real>
  {
    b[e.start := (if e.start in b then b[e.start] else 0.0) + e.value]
  }

  /** The bucket map after the entries were added in order. */
  function Buckets(es: seq<Entry>): map<int, real>
    decreases |es|
  {
    if es == [] then map[] else AddToBucket(Buckets(es[..|es| - 1]), es[|es| - 1])
  }

  /** The bucket map the first loop leaves. */
  function ReadBuckets(rs: seq<IntervalRead>, run: IntervalRun): map<int, real>
  {
    Buckets(FilterMap(rs, ReadKeep(run)))
  }

  /** The second loop's decision for one bucket: skipped unless it is after
      the stored hour. */
  function HourKeep(b: map<int, real>, lastTs: int): int -> Option<Entry>
  {
    h => if h in b && h > lastTs then Some(Entry(h, b[h])) else None
  }

  /** The hours the second loop keeps, with their totals, in ascending order. */
  function HourEntries(rs: seq<IntervalRead>, run: IntervalRun): seq<Entry>
  {
    var b := ReadBuckets(rs, run);
    FilterMap(SortedKeys(b.Keys), HourKeep(b, run.base.lastTs))
  }

  /** The points the import would write. */
  function IntervalPoints(rs: seq<IntervalRead>, run: IntervalRun): seq<StatPoint>
  {
    Accumulate(HourEntries(rs, run), run.base.lastSum)
  }

  /** The store call the import makes: none when nothing is new. */
  function IntervalWrite(sp: string, rs: seq<IntervalRead>, run: IntervalRun): (w: StoreWrite)
    ensures w.NoWrite? <==> IntervalPoints(rs, run) == []
    ensures w.Write? ==> w.meta == IntervalMeta(sp, run.filter) && w.points == IntervalPoints(rs, run)
  {
    var pts := IntervalPoints(rs, run);
    if pts == [] then NoWrite else Write(IntervalMeta(sp, run.filter), pts)
  }

  lemma BucketsSnoc(es: seq<Entry>, e: Entry)
    ensures Buckets(es + [e]) == AddToBucket(Buckets(es), e)
  {
    assert (es + [e])[..|es|] == es;
  }

  /** The buckets after one more read. */
  lemma ReadBucketsStep(rs: seq<IntervalRead>, run: IntervalRun)
    requires rs != []
    ensures var b0 := ReadBuckets(rs[..|rs| - 1], run);
      ReadBuckets(rs, run)
        == (match ReadEntry(rs[|rs| - 1], run)
            case None => b0
            case Some(e) => AddToBucket(b0, e))
  {
    var n := |rs| - 1;
    FilterMapStep(rs, n, ReadKeep(run));
    assert rs[..n + 1] == rs;
    var es0 := FilterMap(rs[..n], ReadKeep(run));
    match ReadEntry(rs[n], run)
    case None =>
      assert es0 + [] == es0;
    case Some(e) =>
      BucketsSnoc(es0, e);
  }

  lemma {:induction false} HourUsageOfNone(rs: seq<IntervalRead>, run: IntervalRun, h: int)
    requires forall r :: r in rs ==> !InHour(r, run, h)
    ensures HourUsage(rs, run, h) == 0.0
    decreases |rs|
  {
    if rs != [] {
      var n := |rs| - 1;
      assert rs[n] in rs;
      forall r | r in rs[..n]
        ensures !InHour(r, run, h)
      {
        assert r in rs;
      }
      HourUsageOfNone(rs[..n], run, h);
    }
  }

  /** What adding one entry does to the bucket of hour `h`. */
  lemma AddToBucketAt(b: map<int, real>, e: Entry, h: int)
    ensures h in AddToBucket(b, e) <==> h in b || h == e.start
    ensures h in AddToBucket(b, e) ==>
      AddToBucket(b, e)[h] == (if h in b then b[h] else 0.0) + (if h == e.start then e.value else 0.0)
  {
  }

  /** Some read of `rs` falls into hour `h`. */
  predicate SomeInHour(rs: seq<IntervalRead>, run: IntervalRun, h: int)
  {
    exists r :: r in rs && InHour(r, run, h)
  }

  lemma SomeInHourSnoc(rs: seq<IntervalRead>, run: IntervalRun, h: int)
    requires rs != []
    ensures SomeInHour(rs, run, h) <==> SomeInHour(rs[..|rs| - 1], run, h) || InHour(rs[|rs| - 1], run, h)
  {
    var n := |rs| - 1;
    if SomeInHour(rs, run, h) {
      var r :| r in rs && InHour(r, run, h);
      var k :| 0 <= k < |rs| && rs[k] == r;
      if k < n {
        assert rs[..n][k] == r;
      }
    }
    if SomeInHour(rs[..n], run, h) {
      var r :| r in rs[..n] && InHour(r, run, h);
      var k :| 0 <= k < n && rs[..n][k] == r;
      assert rs[k] == r;
    }
  }

  /** Hour `h` has a bucket exactly when some read falls into it, and the
      bucket holds the total of those reads. */
  lemma {:induction false} BucketAt(rs: seq<IntervalRead>, run: IntervalRun, h: int)
    ensures h in ReadBuckets(rs, run) <==> SomeInHour(rs, run, h)
    ensures h in ReadBuckets(rs, run) ==> ReadBuckets(rs, run)[h] == HourUsage(rs, run, h)
    decreases |rs|
  {
    if rs != [] {
      var n := |rs| - 1;
      var prev, last := rs[..n], rs[n];
      BucketAt(prev, run, h);
      ReadBucketsStep(rs, run);
      SomeInHourSnoc(rs, run, h);
      if !SomeInHour(prev, run, h) {
        forall r | r in prev
          ensures !InHour(r, run, h)
        {
        }
        HourUsageOfNone(prev, run, h);
      }
      var b0 := ReadBuckets(prev, run);
      assert HourUsage(rs, run, h) == HourUsage(prev, run, h) + HourShare(last, run, h);
      match ReadEntry(last, run)
      case None =>
        assert ReadBuckets(rs, run) == b0;
      case Some(e) =>
        assert ReadBuckets(rs, run) == AddToBucket(b0, e);
        AddToBucketAt(b0, e, h);
    }
  }

  /** The bucket map holds exactly the hours some read falls into, and each
      bucket holds the total of those reads. */
  lemma BucketsMatchReads(rs: seq<IntervalRead>, run: IntervalRun)
    ensures forall h :: h in ReadBuckets(rs, run) <==> SomeInHour(rs, run, h)
    ensures forall h :: h in ReadBuckets(rs, run) ==> ReadBuckets(rs, run)[h] == HourUsage(rs, run, h)
  {
    forall h
      ensures h in ReadBuckets(rs, run) <==> SomeInHour(rs, run, h)
      ensures h in ReadBuckets(rs, run) ==> ReadBuckets(rs, run)[h] == HourUsage(rs, run, h)
    {
      BucketAt(rs, run, h);
    }
  }

  /** Strictly ascending integers. */
  predicate Ascending(xs: seq<int>)
  {
    forall i, j :: 0 <= i < j < |xs| ==> xs[i] < xs[j]
  }

  /** Entries in strictly ascending hour order. */
  predicate StartsAscending(es: seq<Entry>)
  {
    forall i, j :: 0 <= i < j < |es| ==> es[i].start < es[j].start
  }

  /** Keeping or skipping each of a strictly ascending list of hours, where a
      kept hour keeps its own start, leaves the entries in strictly
      ascending order. */
  lemma {:induction false} FilterMapAscending(xs: seq<int>, keep: int -> Option<Entry>)
    requires Ascending(xs)
    requires forall h :: keep(h).Some? ==> keep(h).value.start == h
    ensures StartsAscending(FilterMap(xs, keep))
    decreases |xs|
  {
    if xs != [] {
      var n := |xs| - 1;
      var prev := xs[..n];
      assert Ascending(prev) by {
        forall i, j | 0 <= i < j < |prev|
          ensures prev[i] < prev[j]
        {
          assert prev[i] == xs[i] && prev[j] == xs[j];
        }
      }
      FilterMapAscending(prev, keep);
      FilterMapMembers(prev, keep);
      var es0 := FilterMap(prev, keep);
      match keep(xs[n])
      case None =>
        assert FilterMap(xs, keep) == es0 + [];
      case Some(e) =>
        var es := es0 + [e];
        assert FilterMap(xs, keep) == es;
        forall i, j | 0 <= i < j < |es|
          ensures es[i].start < es[j].start
        {
          if j == |es| - 1 {
            assert es[i] in es0;
            var x :| x in prev && keep(x) == Some(es[i]);
            var k :| 0 <= k < n && prev[k] == x;
            assert xs[k] < xs[n];
          } else {
            assert es[i] == es0[i] && es[j] == es0[j];
          }
        }
    }
  }

  /** The points come in strictly ascending hour order, so no hour gets two
      points. */
  lemma IntervalPointsAscending(rs: seq<IntervalRead>, run: IntervalRun)
    ensures var pts := IntervalPoints(rs, run);
      forall i, j :: 0 <= i < j < |pts| ==> pts[i].start < pts[j].start
  {
    var b := ReadBuckets(rs, run);
    var hours := SortedKeys(b.Keys);
    var es := HourEntries(rs, run);
    assert Ascending(hours);
    FilterMapAscending(hours, HourKeep(b, run.base.lastTs));
    AccumulateCarriesEntries(es, run.base.lastSum);
  }

  /** Each point is an hour after the stored one that some read falls into,
      and its state is the total of the reads of that hour. */
  lemma IntervalPointsAreHourTotals(rs: seq<IntervalRead>, run: IntervalRun)
    ensures var pts := IntervalPoints(rs, run);
      forall i :: 0 <= i < |pts| ==>
        pts[i].start > run.base.lastTs && pts[i].start % HourSeconds == 0
        && (exists r :: r in rs && InHour(r, run, pts[i].start))
        && pts[i].state == HourUsage(rs, run, pts[i].start)
  {
    var b := ReadBuckets(rs, run);
    var keep := HourKeep(b, run.base.lastTs);
    var hours := SortedKeys(b.Keys);
    var es := HourEntries(rs, run);
    var pts := IntervalPoints(rs, run);
    AccumulateCarriesEntries(es, run.base.lastSum);
    FilterMapMembers(hours, keep);
    BucketsMatchReads(rs, run);
    forall i | 0 <= i < |pts|
      ensures pts[i].start > run.base.lastTs && pts[i].start % HourSeconds == 0
      ensures exists r :: r in rs && InHour(r, run, pts[i].start)
      ensures pts[i].state == HourUsage(rs, run, pts[i].start)
    {
      assert es[i] in es;
      var h :| h in hours && keep(h) == Some(es[i]);
      var r :| r in rs && InHour(r, run, h);
      ReadEntryFacts(r, run);
    }
  }

  /** Every read that falls into an hour after the stored one shows up as a
      point of that hour. */
  lemma IntervalPointsCoverNewHours(rs: seq<IntervalRead>, run: IntervalRun)
    ensures var pts := IntervalPoints(rs, run);
      forall r :: r in rs && ReadEntry(r, run).Some? && ReadEntry(r, run).value.start > run.base.lastTs ==>
        exists i :: 0 <= i < |pts| && pts[i].start == ReadEntry(r, run).value.start
  {
    var b := ReadBuckets(rs, run);
    var keep := HourKeep(b, run.base.lastTs);
    var hours := SortedKeys(b.Keys);
    var es := HourEntries(rs, run);
    var pts := IntervalPoints(rs, run);
    AccumulateCarriesEntries(es, run.base.lastSum);
    FilterMapMembers(hours, keep);
    BucketsMatchReads(rs, run);
    forall r | r in rs && ReadEntry(r, run).Some? && ReadEntry(r, run).value.start > run.base.lastTs
      ensures exists i :: 0 <= i < |pts| && pts[i].start == ReadEntry(r, run).value.start
    {
      var h := ReadEntry(r, run).value.start;
      assert InHour(r, run, h);
      assert h in b && h in hours;
      assert keep(h) == Some(Entry(h, b[h]));
      var k :| 0 <= k < |es| && es[k] == Entry(h, b[h]);
      assert pts[k].start == h;
    }
  }

  /** With a direction filter every read adds a magnitude, so no hour total
      is negative. */
  lemma {:induction false} HourUsageNonNegative(rs: seq<IntervalRead>, run: IntervalRun, h: int)
    requires !run.filter.AllReadings?
    ensures HourUsage(rs, run, h) >= 0.0
    decreases |rs|
  {
    if rs != [] {
      HourUsageNonNegative(rs[..|rs| - 1], run, h);
      ReadEntryFacts(rs[|rs| - 1], run);
    }
  }

  /** Every state of a consumption or return series is at least zero. */
  lemma IntervalStatesNonNegative(rs: seq<IntervalRead>, run: IntervalRun)
    requires !run.filter.AllReadings?
    ensures var pts := IntervalPoints(rs, run);
      forall i :: 0 <= i < |pts| ==> pts[i].state >= 0.0
  {
    var pts := IntervalPoints(rs, run);
    IntervalPointsAreHourTotals(rs, run);
    forall i | 0 <= i < |pts|
      ensures pts[i].state >= 0.0
    {
      HourUsageNonNegative(rs, run, pts[i].start);
    }
  }

  /** A read is new when it lands in a bucket after the stored hour. */
  predicate NewRead(r: IntervalRead, run: IntervalRun)
  {
    ReadEntry(r, run).Some? && ReadEntry(r, run).value.start > run.base.lastTs
  }

  /** The import writes nothing exactly when no read is new. */
  lemma IntervalNoWriteIffNothingNew(sp: string, rs: seq<IntervalRead>, run: IntervalRun)
    ensures IntervalWrite(sp, rs, run).NoWrite? <==> forall r :: r in rs ==> !NewRead(r, run)
  {
    var pts := IntervalPoints(rs, run);
    if pts != [] {
      assert pts[0].start > run.base.lastTs && exists r :: r in rs && InHour(r, run, pts[0].start) by {
        IntervalPointsAreHourTotals(rs, run);
      }
      var r :| r in rs && InHour(r, run, pts[0].start);
      assert NewRead(r, run);
    } else {
      forall r | r in rs
        ensures !NewRead(r, run)
      {
        IntervalPointsCoverNewHours(rs, run);
      }
    }
  }

  /** Reads with an empty or unparseable start time are skipped, so a list
      of only such reads writes nothing. */
  lemma IntervalBadTimesWriteNothing(sp: string, rs: seq<IntervalRead>, run: IntervalRun)
    requires forall r :: r in rs ==> r.startTime == "" || run.ctx.parse(r.startTime).None?
    ensures IntervalWrite(sp, rs, run).NoWrite?
  {
    IntervalNoWriteIffNothingNew(sp, rs, run);
  }

  /** Every new read falls in an hour no later than the last point written. */
  lemma NewReadsEndAtLastPoint(rs: seq<IntervalRead>, run: IntervalRun, r: IntervalRead)
    requires IntervalPoints(rs, run) != []
    requires r in rs && NewRead(r, run)
    ensures var pts := IntervalPoints(rs, run);
      ReadEntry(r, run).value.start <= pts[|pts| - 1].start
  {
    var pts := IntervalPoints(rs, run);
    IntervalPointsAscending(rs, run);
    IntervalPointsCoverNewHours(rs, run);
    var i :| 0 <= i < |pts| && pts[i].start == ReadEntry(r, run).value.start;
    assert i == |pts| - 1 || pts[i].start < pts[|pts| - 1].start;
  }

  /** Replaying the same reads after their points were stored writes
      nothing: once the stored row is the last point written, no bucket is
      after it. */
  lemma IntervalReplayWritesNothing(sp: string, rs: seq<IntervalRead>, run1: IntervalRun, run2: IntervalRun)
    requires var pts1 := IntervalPoints(rs, run1);
      pts1 != [] && run2.ctx == run1.ctx && run2.filter == run1.filter
      && run2.base.lastTs >= pts1[|pts1| - 1].start
    ensures IntervalWrite(sp, rs, run2).NoWrite?
  {
    var pts1 := IntervalPoints(rs, run1);
    assert run1.base.lastTs < run2.base.lastTs by {
      IntervalPointsAreHourTotals(rs, run1);
    }
    forall r | r in rs
      ensures !NewRead(r, run2)
    {
      assert ReadEntry(r, run2) == ReadEntry(r, run1);
      if NewRead(r, run1) {
        NewReadsEndAtLastPoint(rs, run1, r);
        assert ReadEntry(r, run1).value.start <= run2.base.lastTs;
      }
    }
    IntervalNoWriteIffNothingNew(sp, rs, run2);
  }

  /** `any(float(r.get("value", 0)) < 0 for r in reads)`. */
  function HasNegativeValue(rs: seq<IntervalRead>): (b: bool)
    ensures b <==> exists i :: 0 <= i < |rs| && rs[i].value < 0.0
    decreases |rs|
  {
    if rs == [] then false
    else rs[0].value < 0.0 || HasNegativeValue(rs[1..])
  }

  /** The `has_negative` guard only skips calls that would write nothing. */
  lemma ReturnIntervalWriteNeedsNegative(sp: string, rs: seq<IntervalRead>, run: IntervalRun)
    requires run.filter == ReturnOnly
    ensures IntervalWrite(sp, rs, run).Write? ==> HasNegativeValue(rs)
  {
    IntervalNoWriteIffNothingNew(sp, rs, run);
    if IntervalWrite(sp, rs, run).Write? {
      var r :| r in rs && NewRead(r, run);
      var i :| 0 <= i < |rs| && rs[i] == r;
    }
  }

  /** The body of the bucket loop of `_import_interval_stats`: its checks in
      their order, each `continue` an early `None`. */
  method IntervalReadEntry(read: IntervalRead, run: IntervalRun) returns (entry: Option<Entry>)
    ensures entry == ReadEntry(read, run)
  {
    if read.startTime == "" {
      return None;
    }
    var value := read.value;
    if run.filter.ConsumptionOnly? && value < 0.0 {
      return None;
    }
    if run.filter.ReturnOnly? && value >= 0.0 {
      return None;
    }
    if run.filter.ReturnOnly? {
      value := Abs(value);
    }
    var parsed := run.ctx.parse(read.startTime);
    if parsed.None? {
      return None;
    }
    return Some(Entry(TopOfHour(parsed.value), value));
  }

  /** The first loop: fold every read that passes into its hour's bucket. */
  method BucketReads(rs: seq<IntervalRead>, run: IntervalRun) returns (buckets: map<int, real>)
    ensures buckets == ReadBuckets(rs, run)
  {
    buckets := map[];
    ghost var kept: seq<Entry> := [];
    for i := 0 to |rs|
      invariant kept == FilterMap(rs[..i], ReadKeep(run))
      invariant buckets == Buckets(kept)
    {
      var entry := IntervalReadEntry(rs[i], run);
      FilterMapStep(rs, i, ReadKeep(run));
      if entry.Some? {
        var hourStart := entry.value.start;
        BucketsSnoc(kept, entry.value);
        buckets := buckets[hourStart := (if hourStart in buckets then buckets[hourStart] else 0.0) + entry.value.value];
        kept := kept + [entry.value];
      } else {
        assert kept + [] == kept;
      }
    }
    assert rs[..|rs|] == rs;
  }

  /** The second loop, over the bucket hours in ascending order: the hours
      after the stored one, each with its running sum. */
  method AccumulateHours(hours: seq<int>, buckets: map<int, real>, base: Baseline) returns (stats: seq<StatPoint>)
    requires forall i :: 0 <= i < |hours| ==> hours[i] in buckets
    ensures stats == Accumulate(FilterMap(hours, HourKeep(buckets, base.lastTs)), base.lastSum)
  {
    stats := [];
    var running := base.lastSum;
    ghost var kept: seq<Entry> := [];
    for i := 0 to |hours|
      invariant kept == FilterMap(hours[..i], HourKeep(buckets, base.lastTs))
      invariant stats == Accumulate(kept, base.lastSum)
      invariant running == base.lastSum + Total(kept)
    {
      var hourStart := hours[i];
      ghost var entry := HourKeep(buckets, base.lastTs)(hourStart);
      LoopStep(hours, i, HourKeep(buckets, base.lastTs), entry, kept, stats, base.lastSum, running);
      if hourStart > base.lastTs {
        var hourTotal := buckets[hourStart];
        running := running + hourTotal;
        stats := stats + [StatPoint(hourStart, hourTotal, running)];
        kept := kept + [Entry(hourStart, hourTotal)];
      }
    }
    assert hours[..|hours|] == hours;
  }

  /** `_import_interval_stats`. */
  method ImportIntervalStats(sp: string, rs: seq<IntervalRead>, ctx: Context, filter: SignFilter)
    returns (w: StoreWrite)
    ensures w == IntervalWrite(sp, rs, IntervalRunFor(ctx, sp, filter))
  {
    var base := BaselineOf(ctx.store(StatisticId(sp, IntervalKind(filter))));
    var run := IntervalRun(ctx, filter, base);
    var buckets := BucketReads(rs, run);
    var hours := SortedKeys(buckets.Keys);
    var stats := AccumulateHours(hours, buckets, base);
    if stats == [] {
      return NoWrite;
    }
    w := Write(IntervalMeta(sp, filter), stats);
  }

  /** `_import_interval_stats_electric`: the consumption series always, the
      return series when some read is negative; the guard changes nothing. */
  method ImportIntervalStatsElectric(sp: string, rs: seq<IntervalRead>, ctx: Context)
    returns (consumption: StoreWrite, ret: StoreWrite)
    ensures consumption == IntervalWrite(sp, rs, IntervalRunFor(ctx, sp, ConsumptionOnly))
    ensures ret == (if HasNegativeValue(rs) then IntervalWrite(sp, rs, IntervalRunFor(ctx, sp, ReturnOnly)) else NoWrite)
    ensures ret == IntervalWrite(sp, rs, IntervalRunFor(ctx, sp, ReturnOnly))
  {
    consumption := ImportIntervalStats(sp, rs, ctx, ConsumptionOnly);
    ret := NoWrite;
    if HasNegativeValue(rs) {
      ret := ImportIntervalStats(sp, rs, ctx, ReturnOnly);
    }
    ReturnIntervalWriteNeedsNegative(sp, rs, IntervalRunFor(ctx, sp, ReturnOnly));
  }

  /** Two distinct hours sort into ascending order. */
  lemma SortedKeysTwo(a: int, b: int)
    requires a < b
    ensures SortedKeys({a, b}) == [a, b]
  {
    assert SetMin({a, b}) == a && {a, b} - {a} == {b};
    assert SetMin({b}) == b && {b} - {b} == {};
    assert SortedKeys({b}) == [b] + SortedKeys({}) == [b];
    assert SortedKeys({a, b}) == [a] + SortedKeys({b});
  }

  /** The buckets of three entries, added in order. */
  lemma BucketsThree(e1: Entry, e2: Entry, e3: Entry)
    ensures Buckets([e1, e2, e3]) == AddToBucket(AddToBucket(AddToBucket(map[], e1), e2), e3)
  {
    BucketsSnoc([], e1);
    BucketsSnoc([e1], e2);
    BucketsSnoc([e1, e2], e3);
    assert [] + [e1] == [e1] && [e1] + [e2] == [e1, e2] && [e1, e2] + [e3] == [e1, e2, e3];
  }

  /** Reads at 10:00, 10:15 and 11:00 worth 0.25, 0.30 and 0.50 fill two
      buckets, 0.55 and 0.50. */
  lemma ExampleQuarterHourBuckets(ctx: Context, t1: string, t2: string, t3: string)
    requires t1 != "" && t2 != "" && t3 != ""
    requires ctx.parse(t1) == Some(1736935200) && ctx.parse(t2) == Some(1736936100)
    requires ctx.parse(t3) == Some(1736938800)
    ensures ReadBuckets([IntervalRead(t1, 0.25), IntervalRead(t2, 0.30), IntervalRead(t3, 0.50)],
                        IntervalRun(ctx, ConsumptionOnly, BaselineOf(None)))
      == map[1736935200 := 0.55, 1736938800 := 0.50]
  {
    var r1, r2, r3 := IntervalRead(t1, 0.25), IntervalRead(t2, 0.30), IntervalRead(t3, 0.50);
    var run := IntervalRun(ctx, ConsumptionOnly, BaselineOf(None));
    var e1, e2, e3 := Entry(1736935200, 0.25), Entry(1736935200, 0.30), Entry(1736938800, 0.50);
    assert ReadEntry(r1, run) == Some(e1);
    assert ReadEntry(r2, run) == Some(e2);
    assert ReadEntry(r3, run) == Some(e3);
    assert [r1, r2, r3] == [r1] + [r2, r3];
    FilterMapCons(r1, [r2, r3], ReadKeep(run));
    FilterMapTwo([r2, r3], ReadKeep(run));
    assert KeptOf(r1, ReadKeep(run)) == [e1];
    assert FilterMap([r1, r2, r3], ReadKeep(run)) == [e1, e2, e3];
    BucketsThree(e1, e2, e3);
  }

  /** The same reads give two hourly points, 0.55 and 0.50, summing to
      1.05. */
  lemma ExampleQuarterHoursFold(ctx: Context, t1: string, t2: string, t3: string)
    requires t1 != "" && t2 != "" && t3 != ""
    requires ctx.parse(t1) == Some(1736935200) && ctx.parse(t2) == Some(1736936100)
    requires ctx.parse(t3) == Some(1736938800)
    ensures IntervalPoints([IntervalRead(t1, 0.25), IntervalRead(t2, 0.30), IntervalRead(t3, 0.50)],
                           IntervalRun(ctx, ConsumptionOnly, BaselineOf(None)))
      == [StatPoint(1736935200, 0.55, 0.55), StatPoint(1736938800, 0.50, 1.05)]
  {
    ExampleQuarterHourBuckets(ctx, t1, t2, t3);
    var b := map[1736935200 := 0.55, 1736938800 := 0.50];
    assert b.Keys == {1736935200, 1736938800};
    SortedKeysTwo(1736935200, 1736938800);
    var h1, h2 := Entry(1736935200, 0.55), Entry(1736938800, 0.50);
    FilterMapTwo([1736935200, 1736938800], HourKeep(b, 0));
    AccumulateSnoc([], h1, 0.0);
    AccumulateSnoc([h1], h2, 0.0);
    assert [] + [h1] == [h1] && [h1] + [h2] == [h1, h2];
  }

  /** A stored row at 10:00 with sum 5.0: the 10:00 read is skipped and the
      11:00 read continues the sum to 5.5. */
  lemma ExampleContinuesStoredSum(ctx: Context, t1: string, t2: string)
    requires t1 != "" && t2 != ""
    requires ctx.parse(t1) == Some(1736935200) && ctx.parse(t2) == Some(1736938800)
    ensures IntervalPoints([IntervalRead(t1, 0.25), IntervalRead(t2, 0.50)],
                           IntervalRun(ctx, ConsumptionOnly, Baseline(5.0, 1736935200)))
      == [StatPoint(1736938800, 0.50, 5.5)]
  {
    var r1, r2 := IntervalRead(t1, 0.25), IntervalRead(t2, 0.50);
    var run := IntervalRun(ctx, ConsumptionOnly, Baseline(5.0, 1736935200));
    var e1, e2 := Entry(1736935200, 0.25), Entry(1736938800, 0.50);
    assert ReadEntry(r1, run) == Some(e1);
    assert ReadEntry(r2, run) == Some(e2);
    FilterMapTwo([r1, r2], ReadKeep(run));
    BucketsSnoc([], e1);
    BucketsSnoc([e1], e2);
    assert [] + [e1] == [e1] && [e1] + [e2] == [e1, e2];
    var b := map[1736935200 := 0.25, 1736938800 := 0.50];
    assert ReadBuckets([r1, r2], run) == b;
    assert b.Keys == {1736935200, 1736938800};
    SortedKeysTwo(1736935200, 1736938800);
    FilterMapTwo([1736935200, 1736938800], HourKeep(b, 1736935200));
    AccumulateSnoc([], e2, 5.0);
    assert [] + [e2] == [e2];
  }
}
