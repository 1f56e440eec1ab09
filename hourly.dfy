/** The hourly AMI import (`_import_hourly_stats` and its electric wrapper):
    sort the readings by their date string, drop the ones the direction filter,
    the parser, the stored baseline or the 48-hour window rule out, truncate
    the rest to the top of the hour and give each a running sum that starts
    at the stored sum. */
module HourlyImport {
  import opened Text
  import opened Records
  import opened Series

  /** `timedelta(hours=48)`, in seconds. */
  const CutoffSeconds: int := 48 * HourSeconds

  /** `sorted(..., key=lambda r: str(r.get("date", "")))` leaves the readings
      in this order. */
  predicate SortedByDate(rs: seq<AmiReading>)
  {
    forall i, j :: 0 <= i < j < |rs| ==> StrLe(rs[i].date, rs[j].date)
  }

  /** Puts `r` after every reading whose date is not later than its own, so
      readings with equal dates keep their original order. */
  function InsertByDate(r: AmiReading, rs: seq<AmiReading>): seq<AmiReading>
    decreases |rs|
  {
    if rs == [] then [r]
    else if StrLt(r.date, rs[0].date) then [r] + rs
    else [rs[0]] + InsertByDate(r, rs[1..])
  }

  /** Inserting adds `r` and nothing else. */
  lemma {:induction false} InsertPermutes(r: AmiReading, rs: seq<AmiReading>)
    ensures multiset(InsertByDate(r, rs)) == multiset(rs) + multiset{r}
    decreases |rs|
  {
    if rs != [] && !StrLt(r.date, rs[0].date) {
      InsertPermutes(r, rs[1..]);
      assert rs == [rs[0]] + rs[1..];
    }
  }

  /** Every reading of `rs` is dated `d` or later. */
  predicate NoneBefore(d: string, rs: seq<AmiReading>)
  {
    forall y :: y in rs ==> StrLe(d, y.date)
  }

  lemma ConsKeepsSorted(x: AmiReading, rs: seq<AmiReading>)
    requires SortedByDate(rs) && NoneBefore(x.date, rs)
    ensures SortedByDate([x] + rs)
  {
    var out := [x] + rs;
    forall i, j | 0 <= i < j < |out|
      ensures StrLe(out[i].date, out[j].date)
    {
      if i == 0 {
        assert out[j] == rs[j - 1] && rs[j - 1] in rs;
      } else {
        assert out[i] == rs[i - 1] && out[j] == rs[j - 1];
      }
    }
  }

  lemma SortedHeadFirst(d: string, rs: seq<AmiReading>)
    requires SortedByDate(rs) && rs != [] && StrLe(d, rs[0].date)
    ensures NoneBefore(d, rs)
  {
    forall y | y in rs
      ensures StrLe(d, y.date)
    {
      var k :| 0 <= k < |rs| && rs[k] == y;
      if k > 0 {
        StrLeTransitive(d, rs[0].date, y.date);
      }
    }
  }

  lemma InsertNoneBefore(d: string, r: AmiReading, rs: seq<AmiReading>)
    requires NoneBefore(d, rs) && StrLe(d, r.date)
    ensures NoneBefore(d, InsertByDate(r, rs))
  {
    var out := InsertByDate(r, rs);
    InsertPermutes(r, rs);
    forall y | y in out
      ensures StrLe(d, y.date)
    {
      assert y in multiset(out);
      if y != r {
        assert y in multiset(rs);
      }
    }
  }

  lemma {:induction false} InsertKeepsSorted(r: AmiReading, rs: seq<AmiReading>)
    requires SortedByDate(rs)
    ensures SortedByDate(InsertByDate(r, rs))
    decreases |rs|
  {
    if rs == [] {
    } else if StrLt(r.date, rs[0].date) {
      SortedHeadFirst(r.date, rs);
      ConsKeepsSorted(r, rs);
    } else {
      var rest := rs[1..];
      assert SortedByDate(rest) by {
        forall i, j | 0 <= i < j < |rest|
          ensures StrLe(rest[i].date, rest[j].date)
        {
          assert rest[i] == rs[i + 1] && rest[j] == rs[j + 1];
        }
      }
      InsertKeepsSorted(r, rest);
      StrLtTotal(r.date, rs[0].date);
      if rest != [] {
        assert StrLe(rs[0].date, rest[0].date) by {
          assert rest[0] == rs[1];
        }
        SortedHeadFirst(rs[0].date, rest);
      }
      InsertNoneBefore(rs[0].date, r, rest);
      ConsKeepsSorted(rs[0], InsertByDate(r, rest));
    }
  }

  /** Python's `sorted` by date string: a stable insertion sort. */
  function SortByDate(rs: seq<AmiReading>): seq<AmiReading>
    decreases |rs|
  {
    if rs == [] then [] else InsertByDate(rs[|rs| - 1], SortByDate(rs[..|rs| - 1]))
  }

  /** The sort reorders the readings and does nothing else. */
  lemma {:induction false} SortByDatePermutes(rs: seq<AmiReading>)
    ensures multiset(SortByDate(rs)) == multiset(rs)
    decreases |rs|
  {
    if rs != [] {
      var n := |rs| - 1;
      SortByDatePermutes(rs[..n]);
      InsertPermutes(rs[n], SortByDate(rs[..n]));
      assert rs == rs[..n] + [rs[n]];
    }
  }

  /** The sort leaves the readings in date order. */
  lemma {:induction false} SortByDateSorted(rs: seq<AmiReading>)
    ensures SortedByDate(SortByDate(rs))
    decreases |rs|
  {
    if rs != [] {
      var n := |rs| - 1;
      SortByDateSorted(rs[..n]);
      InsertKeepsSorted(rs[n], SortByDate(rs[..n]));
    }
  }

  /** One call of `_import_hourly_stats`: the run's context, `is_gas`, the
      direction flags, and the baseline read back for the call's series. */
  datatype HourlyRun = HourlyRun(ctx: Context, isGas: bool, filter: SignFilter, base: Baseline)

  /** The series a call writes: gas takes precedence over the return flag. */
  function HourlyKind(isGas: bool, filter: SignFilter): (k: SeriesKind)
    ensures isGas <==> k == GasHourly
    ensures !isGas ==> (k == ElectricReturnHourly <==> filter.ReturnOnly?)
    ensures k == GasHourly || k == ElectricHourly || k == ElectricReturnHourly
  {
    if isGas then GasHourly
    else if filter.ReturnOnly? then ElectricReturnHourly
    else ElectricHourly
  }

  /** The metadata of the series: its identifier, its display name (here the
      return flag takes precedence over gas) and its unit. */
  function HourlyMeta(sp: string, isGas: bool, filter: SignFilter): SeriesMeta
  {
    SeriesMeta(
      StatisticId(sp, HourlyKind(isGas, filter)),
      if filter.ReturnOnly? then sp + " Electric Return Hourly Usage"
      else if isGas then sp + " Gas Hourly Usage"
      else sp + " Electric Hourly Usage",
      if isGas then Ccf else KilowattHour)
  }

  /** The identifier, name and unit each combination of flags gets. */
  lemma HourlyMetaSpelled(sp: string, isGas: bool, filter: SignFilter)
    ensures var m := HourlyMeta(sp, isGas, filter);
      (isGas ==> m.statisticId == Domain + ":" + sp + "_gas_hourly_usage")
      && (!isGas && filter.ReturnOnly? ==> m.statisticId == Domain + ":" + sp + "_electric_return_hourly_usage")
      && (!isGas && !filter.ReturnOnly? ==> m.statisticId == Domain + ":" + sp + "_electric_hourly_usage")
      && (filter.ReturnOnly? ==> m.name == sp + " Electric Return Hourly Usage")
      && (!filter.ReturnOnly? && isGas ==> m.name == sp + " Gas Hourly Usage")
      && (!filter.ReturnOnly? && !isGas ==> m.name == sp + " Electric Hourly Usage")
      && m.unit == (if isGas then Ccf else KilowattHour)
  {
  }

  /** The call as `_import_hourly_stats` sets it up: its baseline is the store's last row
      for the call's own statistic ID. */
  function HourlyRunFor(ctx: Context, sp: string, isGas: bool, filter: SignFilter): HourlyRun
  {
    HourlyRun(ctx, isGas, filter, BaselineOf(ctx.store(StatisticId(sp, HourlyKind(isGas, filter)))))
  }

  /** What one reading contributes, checked in the loop's order: a non-empty
      date, the direction filter (return readings as magnitudes), a date that
      parses, an hour after the stored one, the 48-hour window when this is
      not the first refresh; the value is converted to CCF for gas. */
  function HourlyEntry(r: AmiReading, run: HourlyRun): Option<Entry>
  {
    if r.date == "" then None
    else
      match SignedValue(r.quantity, run.filter)
      case None => None
      case Some(q) =>
        match run.ctx.parse(r.date)
        case None => None
        case Some(t) =>
          var h := TopOfHour(t);
          if h <= run.base.lastTs then None
          else if !run.ctx.isFirstRefresh && h < run.ctx.now - CutoffSeconds then None
          else Some(Entry(h, if run.isGas then run.ctx.toCcf(q) else q))
  }

  /** A reading is kept exactly when its date is non-empty and parses, it
      passes the direction filter, its hour is after the stored hour and,
      unless this is the first refresh, within 48 hours of now. A kept
      reading's entry is that hour with the reading's signed value,
      converted to CCF for gas. */
  lemma HourlyEntryFacts(r: AmiReading, run: HourlyRun)
    ensures HourlyEntry(r, run).Some? <==>
      r.date != "" && SignedValue(r.quantity, run.filter).Some? && run.ctx.parse(r.date).Some?
      && TopOfHour(run.ctx.parse(r.date).value) > run.base.lastTs
      && (run.ctx.isFirstRefresh || TopOfHour(run.ctx.parse(r.date).value) >= run.ctx.now - CutoffSeconds)
    ensures var e := HourlyEntry(r, run);
      e.Some? ==>
        r.date != "" && run.ctx.parse(r.date).Some?
        && e.value.start == TopOfHour(run.ctx.parse(r.date).value)
        && e.value.start > run.base.lastTs && e.value.start % HourSeconds == 0
        && (!run.ctx.isFirstRefresh ==> e.value.start >= run.ctx.now - CutoffSeconds)
        && SignedValue(r.quantity, run.filter).Some?
        && e.value.value == (if run.isGas then run.ctx.toCcf(SignedValue(r.quantity, run.filter).value)
                             else SignedValue(r.quantity, run.filter).value)
  {
  }

  /** On the first refresh no cutoff applies: whether and how a reading is
      kept does not depend on the current time. */
  lemma FirstRefreshIgnoresClock(r: AmiReading, run: HourlyRun, later: int)
    requires run.ctx.isFirstRefresh
    ensures HourlyEntry(r, run) == HourlyEntry(r, run.(ctx := run.ctx.(now := later)))
  {
  }

  /** The run's per-reading decision as a function value. */
  function Keep(run: HourlyRun): AmiReading -> Option<Entry>
  {
    r => HourlyEntry(r, run)
  }

  /** The points the import would write: the kept entries of the sorted
      readings, accumulated from the stored sum. */
  function HourlyPoints(rs: seq<AmiReading>, run: HourlyRun): seq<StatPoint>
  {
    Accumulate(FilterMap(SortByDate(rs), Keep(run)), run.base.lastSum)
  }

  /** The store call the import makes: none when nothing is new. */
  function HourlyWrite(sp: string, rs: seq<AmiReading>, run: HourlyRun): (w: StoreWrite)
    ensures w.NoWrite? <==> HourlyPoints(rs, run) == []
    ensures w.Write? ==> w.meta == HourlyMeta(sp, run.isGas, run.filter) && w.points == HourlyPoints(rs, run)
  {
    var pts := HourlyPoints(rs, run);
    if pts == [] then NoWrite else Write(HourlyMeta(sp, run.isGas, run.filter), pts)
  }

  lemma ConsEntries(x: AmiReading, xs: seq<AmiReading>, keep: AmiReading -> Option<Entry>)
    ensures multiset(FilterMap([x] + xs, keep)) == multiset(KeptOf(x, keep)) + multiset(FilterMap(xs, keep))
  {
    FilterMapCons(x, xs, keep);
  }

  lemma InsertStep(r: AmiReading, rs: seq<AmiReading>)
    requires rs != [] && !StrLt(r.date, rs[0].date)
    ensures InsertByDate(r, rs) == [rs[0]] + InsertByDate(r, rs[1..])
  {
  }

  lemma UnionShift(h: multiset<Entry>, a: multiset<Entry>, b: multiset<Entry>, k: multiset<Entry>)
    requires a == b + k
    ensures h + a == (h + b) + k
  {
  }

  lemma {:induction false} InsertKeepsEntries(r: AmiReading, rs: seq<AmiReading>, keep: AmiReading -> Option<Entry>)
    ensures multiset(FilterMap(InsertByDate(r, rs), keep)) == multiset(FilterMap(rs, keep)) + multiset(KeptOf(r, keep))
    decreases |rs|, 1
  {
    if rs == [] {
      ConsEntries(r, [], keep);
    } else if StrLt(r.date, rs[0].date) {
      ConsEntries(r, rs, keep);
    } else {
      InsertLaterKeepsEntries(r, rs, keep);
    }
  }

  lemma HeadTailEntries(xs: seq<AmiReading>, keep: AmiReading -> Option<Entry>)
    requires xs != []
    ensures multiset(FilterMap(xs, keep)) == multiset(KeptOf(xs[0], keep)) + multiset(FilterMap(xs[1..], keep))
  {
    assert xs == [xs[0]] + xs[1..];
    ConsEntries(xs[0], xs[1..], keep);
  }

  lemma {:induction false} InsertLaterKeepsEntries(r: AmiReading, rs: seq<AmiReading>, keep: AmiReading -> Option<Entry>)
    requires rs != [] && !StrLt(r.date, rs[0].date)
    ensures multiset(FilterMap(InsertByDate(r, rs), keep)) == multiset(FilterMap(rs, keep)) + multiset(KeptOf(r, keep))
    decreases |rs|, 0
  {
    var rest := rs[1..];
    var inserted := InsertByDate(r, rest);
    InsertStep(r, rs);
    InsertKeepsEntries(r, rest, keep);
    ConsEntries(rs[0], inserted, keep);
    HeadTailEntries(rs, keep);
    UnionShift(multiset(KeptOf(rs[0], keep)), multiset(FilterMap(inserted, keep)),
      multiset(FilterMap(rest, keep)), multiset(KeptOf(r, keep)));
  }

  /** Sorting neither adds nor loses an entry: the entries of the sorted
      readings are those of the readings in their original order. */
  lemma {:induction false} SortKeepsEntries(rs: seq<AmiReading>, keep: AmiReading -> Option<Entry>)
    ensures multiset(FilterMap(SortByDate(rs), keep)) == multiset(FilterMap(rs, keep))
    decreases |rs|
  {
    if rs != [] {
      var n := |rs| - 1;
      var prefix := SortByDate(rs[..n]);
      assert SortByDate(rs) == InsertByDate(rs[n], prefix);
      SortKeepsEntries(rs[..n], keep);
      InsertKeepsEntries(rs[n], prefix, keep);
      assert FilterMap(rs, keep) == FilterMap(rs[..n], keep) + KeptOf(rs[n], keep);
      assert multiset(FilterMap(rs, keep)) == multiset(FilterMap(rs[..n], keep)) + multiset(KeptOf(rs[n], keep));
    }
  }

  /** The entries of the sorted readings are those of the readings as given:
      the same members, as many of them. */
  lemma SortedEntriesAreKept(rs: seq<AmiReading>, keep: AmiReading -> Option<Entry>)
    ensures forall e :: e in FilterMap(SortByDate(rs), keep) <==> exists r :: r in rs && keep(r) == Some(e)
    ensures |FilterMap(SortByDate(rs), keep)| == |FilterMap(rs, keep)|
  {
    var es := FilterMap(SortByDate(rs), keep);
    var es0 := FilterMap(rs, keep);
    SortKeepsEntries(rs, keep);
    FilterMapMembers(rs, keep);
    forall e
      ensures e in es <==> e in es0
    {
      assert e in es <==> e in multiset(es);
      assert e in es0 <==> e in multiset(es0);
    }
    assert |multiset(es)| == |multiset(es0)|;
  }

  /** The points are exactly the readings the loop keeps: each point carries a
      kept reading's hour and value, every kept reading gives a point, and
      there are as many points as kept readings. */
  lemma HourlyPointsAreKeptReadings(rs: seq<AmiReading>, run: HourlyRun)
    ensures var pts := HourlyPoints(rs, run);
      forall i :: 0 <= i < |pts| ==>
        exists r :: r in rs && HourlyEntry(r, run) == Some(Entry(pts[i].start, pts[i].state))
    ensures var pts := HourlyPoints(rs, run);
      forall r :: r in rs && HourlyEntry(r, run).Some? ==>
        exists i :: 0 <= i < |pts| && Entry(pts[i].start, pts[i].state) == HourlyEntry(r, run).value
    ensures |HourlyPoints(rs, run)| == |FilterMap(rs, Keep(run))|
  {
    var es := FilterMap(SortByDate(rs), Keep(run));
    var pts := HourlyPoints(rs, run);
    SortedEntriesAreKept(rs, Keep(run));
    AccumulateCarriesEntries(es, run.base.lastSum);
    forall i | 0 <= i < |pts|
      ensures exists r :: r in rs && HourlyEntry(r, run) == Some(Entry(pts[i].start, pts[i].state))
    {
      assert es[i] == Entry(pts[i].start, pts[i].state);
      assert es[i] in es;
      var r :| r in rs && Keep(run)(r) == Some(es[i]);
    }
    forall r | r in rs && HourlyEntry(r, run).Some?
      ensures exists i :: 0 <= i < |pts| && Entry(pts[i].start, pts[i].state) == HourlyEntry(r, run).value
    {
      var e := HourlyEntry(r, run).value;
      assert Keep(run)(r) == Some(e);
      assert e in es;
      var i :| 0 <= i < |es| && es[i] == e;
      assert Entry(pts[i].start, pts[i].state) == e;
    }
  }

  /** Every written point is a top-of-hour timestamp strictly after the
      stored one; after the first refresh it is no older than 48 hours; in an
      electric consumption or return series its state is never negative. */
  lemma HourlyPointsInWindow(rs: seq<AmiReading>, run: HourlyRun)
    ensures var pts := HourlyPoints(rs, run);
      forall i :: 0 <= i < |pts| ==>
        pts[i].start > run.base.lastTs && pts[i].start % HourSeconds == 0
        && (!run.ctx.isFirstRefresh ==> pts[i].start >= run.ctx.now - CutoffSeconds)
        && (!run.isGas && !run.filter.AllReadings? ==> pts[i].state >= 0.0)
  {
    var pts := HourlyPoints(rs, run);
    HourlyPointsAreKeptReadings(rs, run);
    forall i | 0 <= i < |pts|
      ensures pts[i].start > run.base.lastTs && pts[i].start % HourSeconds == 0
        && (!run.ctx.isFirstRefresh ==> pts[i].start >= run.ctx.now - CutoffSeconds)
        && (!run.isGas && !run.filter.AllReadings? ==> pts[i].state >= 0.0)
    {
      var r :| r in rs && HourlyEntry(r, run) == Some(Entry(pts[i].start, pts[i].state));
      HourlyEntryFacts(r, run);
    }
  }

  /** No store call happens exactly when no reading survives the loop's
      checks (an empty list, only empty or unparseable dates, only readings
      of the other direction, only hours already stored or too old). */
  lemma HourlyNoWriteIffNothingKept(sp: string, rs: seq<AmiReading>, run: HourlyRun)
    ensures HourlyWrite(sp, rs, run).NoWrite? <==> forall r :: r in rs ==> HourlyEntry(r, run).None?
  {
    HourlyPointsAreKeptReadings(rs, run);
    FilterMapEmpty(rs, Keep(run));
    assert forall r :: Keep(run)(r) == HourlyEntry(r, run);
  }

  /** Readings whose dates are all empty or unparseable write nothing. */
  lemma HourlyBadDatesWriteNothing(sp: string, rs: seq<AmiReading>, run: HourlyRun)
    requires forall r :: r in rs ==> r.date == "" || run.ctx.parse(r.date).None?
    ensures HourlyWrite(sp, rs, run) == NoWrite
  {
    HourlyNoWriteIffNothingKept(sp, rs, run);
  }

  /** A reading a second call keeps was kept by the first call too, with
      the same hour, when the second call's checks are no looser. */
  lemma ReplayKeepsLess(r: AmiReading, run1: HourlyRun, run2: HourlyRun)
    requires run2.ctx.parse == run1.ctx.parse && run2.isGas == run1.isGas && run2.filter == run1.filter
    requires run1.base.lastTs <= run2.base.lastTs
    requires run1.ctx.now <= run2.ctx.now
    requires run2.ctx.isFirstRefresh ==> run1.ctx.isFirstRefresh
    ensures HourlyEntry(r, run2).Some? ==>
      HourlyEntry(r, run1).Some? && HourlyEntry(r, run1).value.start == HourlyEntry(r, run2).value.start
  {
  }

  /** Replaying readings that were already imported writes nothing: once the
      store's last hour is at or after every hour a first call wrote, a
      second call over the same readings, no earlier and with no wider window,
      keeps none of them. */
  lemma HourlyReplayWritesNothing(sp: string, rs: seq<AmiReading>, run1: HourlyRun, run2: HourlyRun)
    requires run2.ctx.parse == run1.ctx.parse && run2.isGas == run1.isGas && run2.filter == run1.filter
    requires run1.base.lastTs <= run2.base.lastTs
    requires run1.ctx.now <= run2.ctx.now
    requires run2.ctx.isFirstRefresh ==> run1.ctx.isFirstRefresh
    requires forall p :: p in HourlyPoints(rs, run1) ==> p.start <= run2.base.lastTs
    ensures HourlyWrite(sp, rs, run2) == NoWrite
  {
    var pts1 := HourlyPoints(rs, run1);
    HourlyPointsAreKeptReadings(rs, run1);
    forall r | r in rs
      ensures HourlyEntry(r, run2).None?
    {
      ReplayKeepsLess(r, run1, run2);
      HourlyEntryFacts(r, run2);
      if HourlyEntry(r, run1).Some? {
        var i :| 0 <= i < |pts1| && Entry(pts1[i].start, pts1[i].state) == HourlyEntry(r, run1).value;
        assert pts1[i] in pts1;
      }
    }
    HourlyNoWriteIffNothingKept(sp, rs, run2);
  }

  /** `any(float(r.get("quantity", 0)) < 0 for r in readings)`. */
  function HasNegative(rs: seq<AmiReading>): (b: bool)
    ensures b <==> exists i :: 0 <= i < |rs| && rs[i].quantity < 0.0
    decreases |rs|
  {
    if rs == [] then false
    else rs[0].quantity < 0.0 || HasNegative(rs[1..])
  }

  /** The `has_negative` guard only skips calls that would write nothing: a
      return series with something to write needs a negative reading. */
  lemma ReturnWriteNeedsNegative(sp: string, rs: seq<AmiReading>, run: HourlyRun)
    requires run.filter == ReturnOnly
    ensures HourlyWrite(sp, rs, run).Write? ==> HasNegative(rs)
  {
    HourlyNoWriteIffNothingKept(sp, rs, run);
    if HourlyWrite(sp, rs, run).Write? {
      var r :| r in rs && HourlyEntry(r, run).Some?;
      var i :| 0 <= i < |rs| && rs[i] == r;
    }
  }

  /** The body of the reading loop of `_import_hourly_stats`: its checks in
      their order, each `continue` an early `None`. */
  method HourlyReadingEntry(reading: AmiReading, run: HourlyRun, cutoff: int) returns (entry: Option<Entry>)
    requires !run.ctx.isFirstRefresh ==> cutoff == run.ctx.now - CutoffSeconds
    ensures entry == HourlyEntry(reading, run)
  {
    if reading.date == "" {
      return None;
    }
    var quantity := reading.quantity;
    if run.filter.ConsumptionOnly? && quantity < 0.0 {
      return None;
    }
    if run.filter.ReturnOnly? && quantity >= 0.0 {
      return None;
    }
    if run.filter.ReturnOnly? {
      quantity := Abs(quantity);
    }
    var parsed := run.ctx.parse(reading.date);
    if parsed.None? {
      return None;
    }
    var dt := TopOfHour(parsed.value);
    if dt <= run.base.lastTs {
      return None;
    }
    if !run.ctx.isFirstRefresh && dt < cutoff {
      return None;
    }
    var value := if run.isGas then run.ctx.toCcf(quantity) else quantity;
    return Some(Entry(dt, value));
  }

  /** The reading loop of `_import_hourly_stats` over the sorted readings:
      the kept entries, each with its running sum. */
  method AccumulateReadings(sorted: seq<AmiReading>, run: HourlyRun, cutoff: int) returns (stats: seq<StatPoint>)
    requires !run.ctx.isFirstRefresh ==> cutoff == run.ctx.now - CutoffSeconds
    ensures stats == Accumulate(FilterMap(sorted, Keep(run)), run.base.lastSum)
  {
    stats := [];
    var running := run.base.lastSum;
    ghost var kept: seq<Entry> := [];
    for i := 0 to |sorted|
      invariant kept == FilterMap(sorted[..i], Keep(run))
      invariant stats == Accumulate(kept, run.base.lastSum)
      invariant running == run.base.lastSum + Total(kept)
    {
      var entry := HourlyReadingEntry(sorted[i], run, cutoff);
      LoopStep(sorted, i, Keep(run), entry, kept, stats, run.base.lastSum, running);
      if entry.Some? {
        var e := entry.value;
        running := running + e.value;
        stats := stats + [StatPoint(e.start, e.value, running)];
        kept := kept + [e];
      }
    }
    assert sorted[..|sorted|] == sorted;
  }

  /** `_import_hourly_stats`. */
  method ImportHourlyStats(sp: string, readings: seq<AmiReading>, ctx: Context, isGas: bool, filter: SignFilter)
    returns (w: StoreWrite)
    ensures w == HourlyWrite(sp, readings, HourlyRunFor(ctx, sp, isGas, filter))
  {
    var cutoff := 0;
    if !ctx.isFirstRefresh {
      cutoff := ctx.now - CutoffSeconds;
    }
    var base := BaselineOf(ctx.store(StatisticId(sp, HourlyKind(isGas, filter))));
    var run := HourlyRun(ctx, isGas, filter, base);
    var sorted := SortByDate(readings);
    var stats := AccumulateReadings(sorted, run, cutoff);
    if stats == [] {
      return NoWrite;
    }
    w := Write(HourlyMeta(sp, isGas, filter), stats);
  }

  /** `_import_hourly_stats_electric`: the consumption series always, the
      return series when some reading is negative; the guard changes nothing,
      since without a negative reading the return series has nothing to
      write. */
  method ImportHourlyStatsElectric(sp: string, readings: seq<AmiReading>, ctx: Context)
    returns (consumption: StoreWrite, ret: StoreWrite)
    ensures consumption == HourlyWrite(sp, readings, HourlyRunFor(ctx, sp, false, ConsumptionOnly))
    ensures ret == (if HasNegative(readings) then HourlyWrite(sp, readings, HourlyRunFor(ctx, sp, false, ReturnOnly)) else NoWrite)
    ensures ret == HourlyWrite(sp, readings, HourlyRunFor(ctx, sp, false, ReturnOnly))
  {
    consumption := ImportHourlyStats(sp, readings, ctx, false, ConsumptionOnly);
    ret := NoWrite;
    if HasNegative(readings) {
      ret := ImportHourlyStats(sp, readings, ctx, false, ReturnOnly);
    }
    ReturnWriteNeedsNegative(sp, readings, HourlyRunFor(ctx, sp, false, ReturnOnly));
  }

  /** Two readings already in date order stay in that order. */
  lemma TwoInOrder(a: AmiReading, b: AmiReading)
    requires StrLt(a.date, b.date)
    ensures SortByDate([a, b]) == [a, b]
  {
    StrLtAsymmetric(a.date, b.date);
    assert [a, b][..1] == [a] && [a][..0] == [];
    assert SortByDate([a]) == [a];
    assert InsertByDate(b, [a]) == [a] + InsertByDate(b, []);
  }

  /** Two readings an hour apart whose dates sort in time order (as
      "2025-01-15T10:00:00.000Z" and "2025-01-15T11:00:00.000Z" do), the first
      at the stored hour: only the second is written, and its sum continues
      from the stored 10.0. This needs a first refresh, or a clock within 48
      hours of the second reading. */
  lemma ExampleContinuesStoredSum(ctx: Context, d1: string, d2: string)
    requires ctx.isFirstRefresh || ctx.now <= 1736938800 + CutoffSeconds
    requires d1 != "" && d2 != "" && StrLt(d1, d2)
    requires ctx.parse(d1) == Some(1736935200) && ctx.parse(d2) == Some(1736938800)
    ensures var run := HourlyRun(ctx, false, ConsumptionOnly, Baseline(10.0, 1736935200));
      HourlyPoints([AmiReading(d1, 5.0), AmiReading(d2, 3.0)], run) == [StatPoint(1736938800, 3.0, 13.0)]
  {
    var first, second := AmiReading(d1, 5.0), AmiReading(d2, 3.0);
    var run := HourlyRun(ctx, false, ConsumptionOnly, Baseline(10.0, 1736935200));
    var e := Entry(1736938800, 3.0);
    TwoInOrder(first, second);
    assert FilterMap([first, second], Keep(run)) == [e] by {
      assert HourlyEntry(first, run) == None;
      assert HourlyEntry(second, run) == Some(e);
      FilterMapTwo([first, second], Keep(run));
    }
    assert Accumulate([e], 10.0) == [StatPoint(1736938800, 3.0, 13.0)] by {
      AccumulateSnoc([], e, 10.0);
      assert [] + [e] == [e];
    }
  }

  /** Two new readings on an empty series: states 5.0 and 3.0, sums 5.0 and
      8.0. This needs a first refresh, or a clock within 48 hours of the first
      reading. */
  lemma ExampleFreshSeries(ctx: Context, d1: string, d2: string)
    requires ctx.isFirstRefresh || ctx.now <= 1736935200 + CutoffSeconds
    requires d1 != "" && d2 != "" && StrLt(d1, d2)
    requires ctx.parse(d1) == Some(1736935200) && ctx.parse(d2) == Some(1736938800)
    ensures var run := HourlyRun(ctx, false, ConsumptionOnly, BaselineOf(None));
      HourlyPoints([AmiReading(d1, 5.0), AmiReading(d2, 3.0)], run)
        == [StatPoint(1736935200, 5.0, 5.0), StatPoint(1736938800, 3.0, 8.0)]
  {
    var first, second := AmiReading(d1, 5.0), AmiReading(d2, 3.0);
    var run := HourlyRun(ctx, false, ConsumptionOnly, BaselineOf(None));
    TwoInOrder(first, second);
    assert HourlyEntry(first, run) == Some(Entry(1736935200, 5.0));
    assert HourlyEntry(second, run) == Some(Entry(1736938800, 3.0));
    FilterMapTwo([first, second], Keep(run));
    var e1, e2 := Entry(1736935200, 5.0), Entry(1736938800, 3.0);
    AccumulateSnoc([], e1, 0.0);
    AccumulateSnoc([e1], e2, 0.0);
    assert [] + [e1] == [e1] && [e1] + [e2] == [e1, e2];
  }

  /** The same two readings on an incremental refresh that runs more than 48
      hours after them: both fall before the cutoff and nothing is written. */
  lemma ExampleStaleClockWritesNothing(ctx: Context, d1: string, d2: string)
    requires !ctx.isFirstRefresh && ctx.now > 1736938800 + CutoffSeconds
    requires ctx.parse(d1) == Some(1736935200) && ctx.parse(d2) == Some(1736938800)
    ensures var run := HourlyRun(ctx, false, ConsumptionOnly, BaselineOf(None));
      HourlyWrite("SP1", [AmiReading(d1, 5.0), AmiReading(d2, 3.0)], run) == NoWrite
  {
    var first, second := AmiReading(d1, 5.0), AmiReading(d2, 3.0);
    var run := HourlyRun(ctx, false, ConsumptionOnly, BaselineOf(None));
    assert HourlyEntry(first, run) == None;
    assert HourlyEntry(second, run) == None;
    HourlyNoWriteIffNothingKept("SP1", [first, second], run);
  }
}
