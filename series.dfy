/** What the statistics importer shares between its hourly (AMI) and interval
    paths: the external statistic series it writes, their identifiers, the
    baseline read back from the statistics store, and the running cumulative
    sum that turns a list of (hour, value) entries into statistic points. */
module Series {
  import opened Text

  const Domain: string := "national_grid"
  const HourSeconds: int := 3600

  /** The five series the importer writes per service point. */
  datatype SeriesKind =
    | GasHourly
    | ElectricHourly
    | ElectricReturnHourly
    | ElectricInterval
    | ElectricIntervalReturn

  /** Which readings a series keeps: every reading (gas), the non-negative
      ones (`consumption_only`) or the negative ones, as magnitudes
      (`return_only`). */
  datatype SignFilter = AllReadings | ConsumptionOnly | ReturnOnly

  datatype Unit = Ccf | KilowattHour

  /** `StatisticMetaData` apart from its constant parts (`has_mean=False`,
      `has_sum=True`, `source=DOMAIN`). */
  datatype SeriesMeta = SeriesMeta(statisticId: string, name: string, unit: Unit)

  /** `StatisticData`: the hour it starts (epoch seconds), the value of that
      hour, and the cumulative sum up to and including it. */
  datatype StatPoint = StatPoint(start: int, state: real, sum: real)

  /** One hour's value before it is given its cumulative sum. */
  datatype Entry = Entry(start: int, value: real)

  /** The last row `get_last_statistics` returns for a series; either column
      may be missing. */
  datatype StoredRow = StoredRow(sum: Option<real>, start: Option<int>)

  /** What one import run sees from outside: whether the coordinator is on its
      first refresh, the current time (`datetime.now`, epoch seconds), the
      statistics store's last row per statistic ID (`get_last_statistics`),
      the ISO 8601 parser (`datetime.fromisoformat` followed by `timestamp()`,
      None where it raises `ValueError`) and `therms_to_ccf`. */
  datatype Context = Context(
    isFirstRefresh: bool,
    now: int,
    store: string -> Option<StoredRow>,
    parse: string -> Option<int>,
    toCcf: real -> real)

  /** `(last_sum, last_ts)`. */
  datatype Baseline = Baseline(lastSum: real, lastTs: int)

  /** The effect of one import call on the store: no call at all, or one
      `async_add_external_statistics(hass, metadata, stats)`. */
  datatype StoreWrite = NoWrite | Write(meta: SeriesMeta, points: seq<StatPoint>)

  function Suffix(kind: SeriesKind): string
  {
    match kind
    case GasHourly => "_gas_hourly_usage"
    case ElectricHourly => "_electric_hourly_usage"
    case ElectricReturnHourly => "_electric_return_hourly_usage"
    case ElectricInterval => "_electric_interval_usage"
    case ElectricIntervalReturn => "_electric_interval_return_usage"
  }

  /** `f"{DOMAIN}:{service_point}_…_usage"`. */
  function StatisticId(servicePoint: string, kind: SeriesKind): string
  {
    Domain + ":" + servicePoint + Suffix(kind)
  }

  lemma SuffixOfEqualConcat(x: string, a: string, y: string, b: string)
    requires x + a == y + b && |a| <= |b|
    ensures b[|b| - |a|..] == a
  {
    var n := |x + a|;
    assert (x + a)[n - |a|..] == a;
    assert (y + b)[n - |a|..] == b[|b| - |a|..];
  }

  lemma NotSuffixAt(a: string, b: string, j: int)
    requires |a| <= |b| && 0 <= j < |a| && b[|b| - |a| + j] != a[j]
    ensures b[|b| - |a|..] != a
  {
    assert b[|b| - |a|..][j] == b[|b| - |a| + j];
  }

  lemma SuffixLength(kind: SeriesKind)
    ensures |Suffix(kind)| == match kind
      case GasHourly => 17
      case ElectricHourly => 22
      case ElectricReturnHourly => 29
      case ElectricInterval => 24
      case ElectricIntervalReturn => 31
  {
  }

  /** No longer series suffix ends with `_gas_hourly_usage`. */
  lemma GasSuffixEndsNoOther(k1: SeriesKind, k2: SeriesKind)
    requires k1 == GasHourly && k2 != GasHourly
    ensures |Suffix(k1)| <= |Suffix(k2)| && Suffix(k2)[|Suffix(k2)| - |Suffix(k1)|..] != Suffix(k1)
  {
    var a, b := Suffix(k1), Suffix(k2);
    match k2 {
      case ElectricHourly => NotSuffixAt(a, b, 3);
      case ElectricReturnHourly => NotSuffixAt(a, b, 3);
      case ElectricInterval => NotSuffixAt(a, b, 10);
      case ElectricIntervalReturn => NotSuffixAt(a, b, 10);
    }
  }

  /** No longer series suffix ends with `_electric_hourly_usage`. */
  lemma ElectricHourlySuffixEndsNoOther(k1: SeriesKind, k2: SeriesKind)
    requires k1 == ElectricHourly && k2 != GasHourly && k2 != ElectricHourly
    ensures |Suffix(k1)| <= |Suffix(k2)| && Suffix(k2)[|Suffix(k2)| - |Suffix(k1)|..] != Suffix(k1)
  {
    var a, b := Suffix(k1), Suffix(k2);
    match k2 {
      case ElectricReturnHourly => NotSuffixAt(a, b, 8);
      case ElectricInterval => NotSuffixAt(a, b, 15);
      case ElectricIntervalReturn => NotSuffixAt(a, b, 15);
    }
  }

  /** Neither longer series suffix ends with `_electric_interval_usage`. */
  lemma ElectricIntervalSuffixEndsNoOther(k1: SeriesKind, k2: SeriesKind)
    requires k1 == ElectricInterval && (k2 == ElectricReturnHourly || k2 == ElectricIntervalReturn)
    ensures |Suffix(k1)| <= |Suffix(k2)| && Suffix(k2)[|Suffix(k2)| - |Suffix(k1)|..] != Suffix(k1)
  {
    NotSuffixAt(Suffix(k1), Suffix(k2), 17);
  }

  /** `_electric_interval_return_usage` does not end with
      `_electric_return_hourly_usage`. */
  lemma ElectricReturnHourlySuffixEndsNoOther(k1: SeriesKind, k2: SeriesKind)
    requires k1 == ElectricReturnHourly && k2 == ElectricIntervalReturn
    ensures |Suffix(k1)| <= |Suffix(k2)| && Suffix(k2)[|Suffix(k2)| - |Suffix(k1)|..] != Suffix(k1)
  {
    NotSuffixAt(Suffix(k1), Suffix(k2), 22);
  }

  /** No series suffix ends another one. */
  lemma SuffixesAreSuffixFree(k1: SeriesKind, k2: SeriesKind)
    requires k1 != k2 && |Suffix(k1)| <= |Suffix(k2)|
    ensures Suffix(k2)[|Suffix(k2)| - |Suffix(k1)|..] != Suffix(k1)
  {
    SuffixLength(k1);
    SuffixLength(k2);
    match k1 {
      case GasHourly => GasSuffixEndsNoOther(k1, k2);
      case ElectricHourly => ElectricHourlySuffixEndsNoOther(k1, k2);
      case ElectricInterval => ElectricIntervalSuffixEndsNoOther(k1, k2);
      case ElectricReturnHourly => ElectricReturnHourlySuffixEndsNoOther(k1, k2);
      case ElectricIntervalReturn =>
    }
  }

  /** Two (service point, series) pairs never share a statistic ID, so every
      series the importer writes in one run is a different series of the
      store, and no write of a run can change what another series of that run
      read back as its baseline. */
  lemma StatisticIdInjective(sp1: string, k1: SeriesKind, sp2: string, k2: SeriesKind)
    requires StatisticId(sp1, k1) == StatisticId(sp2, k2)
    ensures sp1 == sp2 && k1 == k2
  {
    StripPrefix(Domain + ":", sp1, Suffix(k1), sp2, Suffix(k2));
    if k1 != k2 {
      DistinctSuffixes(sp1, k1, sp2, k2);
    } else {
      StripSuffix(sp1, sp2, Suffix(k1));
    }
  }

  lemma StripPrefix(p: string, x1: string, y1: string, x2: string, y2: string)
    requires p + x1 + y1 == p + x2 + y2
    ensures x1 + y1 == x2 + y2
  {
    assert p + x1 + y1 == p + (x1 + y1);
    assert p + x2 + y2 == p + (x2 + y2);
    assert (p + (x1 + y1))[|p|..] == x1 + y1;
    assert (p + (x2 + y2))[|p|..] == x2 + y2;
  }

  lemma StripSuffix(x1: string, x2: string, y: string)
    requires x1 + y == x2 + y
    ensures x1 == x2
  {
    assert (x1 + y)[..|x1|] == x1;
    assert (x2 + y)[..|x2|] == x2;
  }

  lemma DistinctSuffixes(sp1: string, k1: SeriesKind, sp2: string, k2: SeriesKind)
    requires k1 != k2
    ensures sp1 + Suffix(k1) != sp2 + Suffix(k2)
  {
    var a, b := Suffix(k1), Suffix(k2);
    if |a| <= |b| {
      SuffixesAreSuffixFree(k1, k2);
      ConcatsDifferBySuffix(sp1, a, sp2, b);
    } else {
      SuffixesAreSuffixFree(k2, k1);
      ConcatsDifferBySuffix(sp2, b, sp1, a);
    }
  }

  /** Strings ending in different tails of those lengths differ. */
  lemma ConcatsDifferBySuffix(x: string, a: string, y: string, b: string)
    requires |a| <= |b| && b[|b| - |a|..] != a
    ensures x + a != y + b
  {
    if x + a == y + b {
      SuffixOfEqualConcat(x, a, y, b);
    }
  }

  /** `last_sum = row.get("sum") or 0.0`, `last_ts = row.get("start") or 0.0`,
      both 0 when the series has no row yet. */
  function BaselineOf(row: Option<StoredRow>): (b: Baseline)
    ensures row.None? ==> b == Baseline(0.0, 0)
    ensures row.Some? && row.value.sum.Some? ==> b.lastSum == row.value.sum.value
    ensures row.Some? && row.value.start.Some? ==> b.lastTs == row.value.start.value
    ensures row.Some? && row.value.sum.None? ==> b.lastSum == 0.0
    ensures row.Some? && row.value.start.None? ==> b.lastTs == 0
  {
    match row
    case None => Baseline(0.0, 0)
    case Some(r) =>
      Baseline(
        match r.sum case Some(s) => s case None => 0.0,
        match r.start case Some(t) => t case None => 0)
  }

  /** `dt.replace(minute=0, second=0, microsecond=0)` on a UTC timestamp. */
  function TopOfHour(t: int): (h: int)
    ensures h <= t < h + HourSeconds
    ensures h % HourSeconds == 0
  {
    t - t % HourSeconds
  }

  function Abs(q: real): (r: real)
    ensures r >= 0.0 && (r == q || r == -q)
  {
    if q < 0.0 then -q else q
  }

  /** The value a reading contributes under a direction filter, or None when
      the filter drops it. */
  function SignedValue(q: real, filter: SignFilter): (v: Option<real>)
    ensures filter.AllReadings? ==> v == Some(q)
    ensures filter.ConsumptionOnly? ==> (v.Some? <==> q >= 0.0)
    ensures filter.ReturnOnly? ==> (v.Some? <==> q < 0.0)
    ensures v.Some? && !filter.AllReadings? ==> v.value >= 0.0 && v.value == Abs(q)
  {
    if filter.ConsumptionOnly? && q < 0.0 then None
    else if filter.ReturnOnly? && q >= 0.0 then None
    else if filter.ReturnOnly? then Some(Abs(q))
    else Some(q)
  }

  /** One item's contribution to a loop that appends an entry or skips it. */
  function KeptOf<T>(x: T, keep: T -> Option<Entry>): seq<Entry>
  {
    match keep(x)
    case Some(e) => [e]
    case None => []
  }

  /** The entries such a loop appends while it visits `xs` in order. */
  function FilterMap<T>(xs: seq<T>, keep: T -> Option<Entry>): seq<Entry>
    decreases |xs|
  {
    if xs == [] then [] else FilterMap(xs[..|xs| - 1], keep) + KeptOf(xs[|xs| - 1], keep)
  }

  /** One more iteration appends the item's contribution. */
  lemma FilterMapStep<T>(xs: seq<T>, i: int, keep: T -> Option<Entry>)
    requires 0 <= i < |xs|
    ensures FilterMap(xs[..i + 1], keep) == FilterMap(xs[..i], keep) + KeptOf(xs[i], keep)
  {
    assert xs[..i + 1][..i] == xs[..i];
  }

  lemma {:induction false} FilterMapAppend<T>(a: seq<T>, b: seq<T>, keep: T -> Option<Entry>)
    ensures FilterMap(a + b, keep) == FilterMap(a, keep) + FilterMap(b, keep)
    decreases |b|
  {
    if b == [] {
      assert a + b == a;
    } else {
      var n := |b| - 1;
      FilterMapAppend(a, b[..n], keep);
      assert (a + b)[..|a + b| - 1] == a + b[..n];
      assert (a + b)[|a + b| - 1] == b[n];
    }
  }

  lemma FilterMapCons<T>(x: T, xs: seq<T>, keep: T -> Option<Entry>)
    ensures FilterMap([x] + xs, keep) == KeptOf(x, keep) + FilterMap(xs, keep)
  {
    FilterMapAppend([x], xs, keep);
    assert [x][..0] == [];
  }

  /** The entries kept from a two-item list. */
  lemma FilterMapTwo<T>(xs: seq<T>, keep: T -> Option<Entry>)
    requires |xs| == 2
    ensures FilterMap(xs, keep) == KeptOf(xs[0], keep) + KeptOf(xs[1], keep)
  {
    var first := xs[..1];
    assert first[..0] == [] && first[0] == xs[0];
    assert FilterMap(first, keep) == FilterMap([], keep) + KeptOf(xs[0], keep);
    assert xs[..|xs| - 1] == first;
  }

  /** An entry comes from an item that produces it, and every such item
      contributes one. */
  lemma {:induction false} FilterMapMembers<T>(xs: seq<T>, keep: T -> Option<Entry>)
    ensures forall e :: e in FilterMap(xs, keep) <==> exists x :: x in xs && keep(x) == Some(e)
    decreases |xs|
  {
    if xs != [] {
      var n := |xs| - 1;
      FilterMapMembers(xs[..n], keep);
      assert xs == xs[..n] + [xs[n]];
      forall e | e in FilterMap(xs, keep)
        ensures exists x :: x in xs && keep(x) == Some(e)
      {
        if e in FilterMap(xs[..n], keep) {
          var x :| x in xs[..n] && keep(x) == Some(e);
          assert x in xs;
        } else {
          assert xs[n] in xs;
        }
      }
      forall e | exists x :: x in xs && keep(x) == Some(e)
        ensures e in FilterMap(xs, keep)
      {
        var x :| x in xs && keep(x) == Some(e);
        if x != xs[n] {
          assert x in xs[..n];
        }
      }
    }
  }

  /** The loop appends nothing exactly when it skips every item. */
  lemma FilterMapEmpty<T>(xs: seq<T>, keep: T -> Option<Entry>)
    ensures FilterMap(xs, keep) == [] <==> forall x :: x in xs ==> keep(x).None?
  {
    FilterMapMembers(xs, keep);
    if FilterMap(xs, keep) != [] {
      assert FilterMap(xs, keep)[0] in FilterMap(xs, keep);
    }
  }

  /** The sum of the entries' values. */
  function Total(es: seq<Entry>): real
    decreases |es|
  {
    if es == [] then 0.0 else Total(es[..|es| - 1]) + es[|es| - 1].value
  }

  /** The sum of the points' states. */
  function StateTotal(ps: seq<StatPoint>): real
    decreases |ps|
  {
    if ps == [] then 0.0 else StateTotal(ps[..|ps| - 1]) + ps[|ps| - 1].state
  }

  /** The running-sum loop: each entry becomes a point whose sum is the
      baseline plus every value up to and including its own. */
  function Accumulate(es: seq<Entry>, base: real): seq<StatPoint>
    decreases |es|
  {
    if es == [] then []
    else Accumulate(es[..|es| - 1], base) + [StatPoint(es[|es| - 1].start, es[|es| - 1].value, base + Total(es))]
  }

  /** Appending one entry appends one point; the loops rely on this step. */
  lemma AccumulateSnoc(es: seq<Entry>, e: Entry, base: real)
    ensures Total(es + [e]) == Total(es) + e.value
    ensures Accumulate(es + [e], base) == Accumulate(es, base) + [StatPoint(e.start, e.value, base + Total(es) + e.value)]
  {
    assert (es + [e])[..|es|] == es;
  }

  /** One point per entry. */
  lemma {:induction false} AccumulateLength(es: seq<Entry>, base: real)
    ensures |Accumulate(es, base)| == |es|
    decreases |es|
  {
    if es != [] {
      AccumulateLength(es[..|es| - 1], base);
    }
  }

  /** The loop step: appending the next entry's point to the points so far,
      with the running sum advanced by its value, gives the points of the
      longer list. */
  lemma AccumulateStep(es: seq<Entry>, e: Entry, base: real, points: seq<StatPoint>, running: real)
    requires points == Accumulate(es, base) && running == base + Total(es)
    ensures points + [StatPoint(e.start, e.value, running + e.value)] == Accumulate(es + [e], base)
    ensures running + e.value == base + Total(es + [e])
  {
    AccumulateSnoc(es, e, base);
  }

  /** One iteration of an accumulating loop over `xs`: the item's entry, if
      any, extends the kept entries, the points and the running sum. */
  lemma LoopStep<T>(xs: seq<T>, i: int, keep: T -> Option<Entry>, entry: Option<Entry>,
                    kept: seq<Entry>, points: seq<StatPoint>, base: real, running: real)
    requires 0 <= i < |xs| && entry == keep(xs[i])
    requires kept == FilterMap(xs[..i], keep)
    requires points == Accumulate(kept, base) && running == base + Total(kept)
    ensures entry.None? ==> FilterMap(xs[..i + 1], keep) == kept
    ensures entry.Some? ==> FilterMap(xs[..i + 1], keep) == kept + [entry.value]
    ensures entry.Some? ==>
      points + [StatPoint(entry.value.start, entry.value.value, running + entry.value.value)]
        == Accumulate(kept + [entry.value], base)
    ensures entry.Some? ==> running + entry.value.value == base + Total(kept + [entry.value])
  {
    if entry.Some? {
      assert FilterMap(xs[..i + 1], keep) == kept + [entry.value] by {
        FilterMapStep(xs, i, keep);
        assert KeptOf(xs[i], keep) == [entry.value];
      }
      AccumulateStep(kept, entry.value, base, points, running);
    } else {
      assert FilterMap(xs[..i + 1], keep) == kept by {
        FilterMapStep(xs, i, keep);
        assert KeptOf(xs[i], keep) == [];
        assert kept + [] == kept;
      }
    }
  }

  /** Point i carries entry i's hour and value. */
  lemma {:induction false} AccumulateCarriesEntries(es: seq<Entry>, base: real)
    ensures |Accumulate(es, base)| == |es|
    ensures forall i :: 0 <= i < |es| ==>
      Accumulate(es, base)[i].start == es[i].start && Accumulate(es, base)[i].state == es[i].value
    decreases |es|
  {
    AccumulateLength(es, base);
    if es != [] {
      AccumulateCarriesEntries(es[..|es| - 1], base);
      AccumulateLength(es[..|es| - 1], base);
    }
  }

  /** The states of the points add up to the values of the entries. */
  lemma {:induction false} StateTotalOfAccumulate(es: seq<Entry>, base: real)
    ensures StateTotal(Accumulate(es, base)) == Total(es)
    decreases |es|
  {
    if es != [] {
      var ps := Accumulate(es, base);
      StateTotalOfAccumulate(es[..|es| - 1], base);
      assert ps[..|ps| - 1] == Accumulate(es[..|es| - 1], base);
    }
  }

  /** The sums are cumulative: point i's sum is the baseline plus the states
      of points 0..i, and so the last point's sum is the baseline plus the
      states of all the points. */
  lemma {:induction false} SumsAreCumulative(es: seq<Entry>, base: real)
    ensures var ps := Accumulate(es, base);
      forall i :: 0 <= i < |ps| ==> ps[i].sum == base + StateTotal(ps[..i + 1])
    ensures var ps := Accumulate(es, base);
      ps != [] ==> ps[|ps| - 1].sum == base + StateTotal(ps)
    decreases |es|
  {
    var ps := Accumulate(es, base);
    if es != [] {
      var es0 := es[..|es| - 1];
      var ps0 := Accumulate(es0, base);
      SumsAreCumulative(es0, base);
      StateTotalOfAccumulate(es0, base);
      assert ps == ps0 + [ps[|ps| - 1]];
      forall i | 0 <= i < |ps|
        ensures ps[i].sum == base + StateTotal(ps[..i + 1])
      {
        if i < |ps0| {
          assert ps[..i + 1] == ps0[..i + 1];
        } else {
          assert ps[..i + 1] == ps;
          assert ps[..i + 1][..i] == ps0;
        }
      }
      assert ps[..|ps|] == ps;
    }
  }

  /** A set with no elements is the empty set. */
  lemma NoElementMeansEmpty(s: set<int>)
    ensures (forall x :: x !in s) ==> s == {}
  {
    if forall x :: x !in s {
      assert s == {};
    }
  }

  /** The smallest element of a non-empty finite set of integers. */
  lemma {:induction false} HasMinimum(s: set<int>)
    requires s != {}
    ensures exists m :: m in s && forall y :: y in s ==> m <= y
    decreases |s|
  {
    NoElementMeansEmpty(s);
    var x :| x in s;
    var rest := s - {x};
    if rest != {} {
      HasMinimum(rest);
      var m :| m in rest && forall y :: y in rest ==> m <= y;
      var least := if x < m then x else m;
      forall y | y in s
        ensures least <= y
      {
        if y != x {
          assert y in rest;
        }
      }
      assert least in s;
    } else {
      assert s == {x};
    }
  }

  function SetMin(s: set<int>): (m: int)
    requires s != {}
    ensures m in s && forall y :: y in s ==> m <= y
  {
    HasMinimum(s);
    var m :| m in s && forall y :: y in s ==> m <= y;
    m
  }

  /** `sorted(hourly_buckets)`: the keys in ascending order. */
  function SortedKeys(s: set<int>): (r: seq<int>)
    ensures forall x :: x in s <==> x in r
    ensures forall i, j :: 0 <= i < j < |r| ==> r[i] < r[j]
    decreases |s|
  {
    if s == {} then []
    else
      var m := SetMin(s);
      [m] + SortedKeys(s - {m})
  }
}
