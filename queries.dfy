/** The coordinator's read-only queries over its snapshot: `get_meter_data`,
    `get_latest_usage`, `get_latest_cost`, `get_all_usages`, `get_all_costs`
    and `get_latest_ami_usage`. Each reads `self.data`, which is `None`
    before the first successful refresh. The filters are Python list
    comprehensions and the "latest" queries are Python's `max` with a key,
    which returns the first of several maximal elements. */
module Queries {
  import opened Text
  import opened Records

  /** `get_meter_data`. */
  function MeterDataFor(data: Option<Snapshot>, sp: string): (r: Option<MeterData>)
    ensures r.Some? <==> data.Some? && sp in data.value.meters
    ensures r.Some? ==> r.value == data.value.meters[sp]
  {
    if data.Some? && sp in data.value.meters then Some(data.value.meters[sp]) else None
  }

  // ---------------------------------------------------------------------------
  // Filtering and maxima

  /** `[x for x in xs if p(x)]`. */
  function Filter<T>(xs: seq<T>, p: T -> bool): seq<T>
    decreases |xs|
  {
    if xs == [] then []
    else if p(xs[0]) then [xs[0]] + Filter(xs[1..], p)
    else Filter(xs[1..], p)
  }

  /** `a` is `b` with some elements left out, the others in their order. */
  predicate IsSubsequence<T(==)>(a: seq<T>, b: seq<T>)
    decreases |b|
  {
    if a == [] then true
    else if b == [] then false
    else if a[0] == b[0] then IsSubsequence(a[1..], b[1..])
    else IsSubsequence(a, b[1..])
  }

  /** A filter keeps exactly the elements that pass, in their order, each as
      often as it occurs. */
  lemma {:induction false} FilterKeepsExactlyMatches<T>(xs: seq<T>, p: T -> bool)
    ensures var r := Filter(xs, p);
      IsSubsequence(r, xs)
      && (forall i :: 0 <= i < |r| ==> p(r[i]))
      && (forall i :: 0 <= i < |xs| && p(xs[i]) ==> xs[i] in r)
      && (forall x :: multiset(r)[x] == if p(x) then multiset(xs)[x] else 0)
    decreases |xs|
  {
    if xs != [] {
      FilterKeepsExactlyMatches(xs[1..], p);
      var rest := Filter(xs[1..], p);
      assert xs == [xs[0]] + xs[1..];
      assert multiset(xs) == multiset{xs[0]} + multiset(xs[1..]);
      if p(xs[0]) {
        assert multiset([xs[0]] + rest) == multiset{xs[0]} + multiset(rest);
        assert ([xs[0]] + rest)[1..] == rest;
        forall i | 0 <= i < |xs| && p(xs[i])
          ensures xs[i] in [xs[0]] + rest
        {
          if i > 0 { assert xs[i] == xs[1..][i - 1]; }
        }
      } else {
        if rest != [] {
          assert p(rest[0]);
        }
        forall i | 0 <= i < |xs| && p(xs[i])
          ensures xs[i] in rest
        {
          assert i > 0 && xs[i] == xs[1..][i - 1];
        }
      }
    }
  }

  /** The index Python's `max(xs, key=key)` returns: a maximal key, and the
      first such. */
  function FirstMaxIndex<T>(xs: seq<T>, key: T -> int): (k: nat)
    requires xs != []
    ensures k < |xs|
    ensures forall i :: 0 <= i < |xs| ==> key(xs[i]) <= key(xs[k])
    ensures forall j :: 0 <= j < k ==> key(xs[j]) < key(xs[k])
    decreases |xs|
  {
    if |xs| == 1 then 0
    else
      var k := FirstMaxIndex(xs[..|xs| - 1], key);
      if key(xs[|xs| - 1]) > key(xs[k]) then |xs| - 1 else k
  }

  /** The index Python's `max(rs, key=lambda r: r.get("date", ""))` returns,
      comparing dates as strings. */
  function LatestDateIndex(rs: seq<AmiReading>): (k: nat)
    requires rs != []
    ensures k < |rs|
    decreases |rs|
  {
    if |rs| == 1 then 0
    else
      var k := LatestDateIndex(rs[..|rs| - 1]);
      if StrLt(rs[k].date, rs[|rs| - 1].date) then |rs| - 1 else k
  }

  /** No reading has a later date than the one chosen, and every reading
      before it has an earlier one. */
  lemma {:induction false} LatestDateIndexIsLatest(rs: seq<AmiReading>)
    requires rs != []
    ensures var k := LatestDateIndex(rs);
      (forall i :: 0 <= i < |rs| ==> StrLe(rs[i].date, rs[k].date))
      && (forall j :: 0 <= j < k ==> StrLt(rs[j].date, rs[k].date))
    decreases |rs|
  {
    if |rs| > 1 {
      var front := rs[..|rs| - 1];
      var last := rs[|rs| - 1];
      LatestDateIndexIsLatest(front);
      var k := LatestDateIndex(front);
      if StrLt(rs[k].date, last.date) {
        forall i | 0 <= i < |rs| - 1
          ensures StrLt(rs[i].date, last.date)
        {
          assert front[i] == rs[i];
          if rs[i].date != rs[k].date {
            StrLtTransitive(rs[i].date, rs[k].date, last.date);
          }
        }
      } else {
        StrLtTotal(rs[k].date, last.date);
        assert StrLe(last.date, rs[k].date);
        forall i | 0 <= i < |rs|
          ensures StrLe(rs[i].date, rs[k].date)
        {
          if i < |rs| - 1 { assert front[i] == rs[i]; }
        }
        forall j | 0 <= j < k
          ensures StrLt(rs[j].date, rs[k].date)
        {
          assert front[j] == rs[j];
        }
      }
    }
  }

  // ---------------------------------------------------------------------------
  // The usage queries

  /** `data.usages.get(account_id, [])`, or nothing without data. */
  function UsagesOf(data: Option<Snapshot>, account: string): seq<EnergyUsage>
  {
    if data.Some? && account in data.value.usages then data.value.usages[account] else []
  }

  /** `data.costs.get(account_id, [])`, or nothing without data. */
  function CostsOf(data: Option<Snapshot>, account: string): seq<EnergyUsageCost>
  {
    if data.Some? && account in data.value.costs then data.value.costs[account] else []
  }

  /** Whether `if fuel_type:` takes the filtering branch. */
  predicate Filters(fuel: Option<string>)
  {
    fuel.Some? && fuel.value != ""
  }

  /** `usage_type_map.get(fuel_type, fuel_type.upper())`. */
  function UsageTypeFor(fuel: string, ops: TextOps): (t: string)
    ensures fuel == "Electric" ==> t == "TOTAL_KWH"
    ensures fuel == "Gas" ==> t == "THERMS"
    ensures fuel != "Electric" && fuel != "Gas" ==> t == ops.upper(fuel)
  {
    if fuel == "Electric" then "TOTAL_KWH"
    else if fuel == "Gas" then "THERMS"
    else ops.upper(fuel)
  }

  /** The usage filter: the record's `usageType` is the fuel's usage type. */
  function UsageMatches(fuel: string, ops: TextOps): EnergyUsage -> bool
  {
    (u: EnergyUsage) => u.usageType == UsageTypeFor(fuel, ops)
  }

  /** The cost filter: the record's `fuelType` is the fuel type as given or
      upper-cased. */
  function CostMatches(fuel: string, ops: TextOps): EnergyUsageCost -> bool
  {
    (c: EnergyUsageCost) => c.fuelType == fuel || c.fuelType == ops.upper(fuel)
  }

  /** `get_all_usages`: the stored list without a filter; with one, the
      matching records in their stored order. */
  function AllUsages(data: Option<Snapshot>, account: string, fuel: Option<string>, ops: TextOps): (r: seq<EnergyUsage>)
    ensures !Filters(fuel) ==> r == UsagesOf(data, account)
    ensures Filters(fuel) ==>
      var us := UsagesOf(data, account);
      IsSubsequence(r, us)
      && (forall i :: 0 <= i < |r| ==> r[i].usageType == UsageTypeFor(fuel.value, ops))
      && (forall i :: 0 <= i < |us| && us[i].usageType == UsageTypeFor(fuel.value, ops) ==> us[i] in r)
      && (forall u :: multiset(r)[u] == if u.usageType == UsageTypeFor(fuel.value, ops) then multiset(us)[u] else 0)
  {
    var us := UsagesOf(data, account);
    if us == [] then []
    else if Filters(fuel) then
      FilterKeepsExactlyMatches(us, UsageMatches(fuel.value, ops));
      Filter(us, UsageMatches(fuel.value, ops))
    else us
  }

  /** `get_all_costs`: the stored list without a filter; with one, the
      matching records in their stored order. */
  function AllCosts(data: Option<Snapshot>, account: string, fuel: Option<string>, ops: TextOps): (r: seq<EnergyUsageCost>)
    ensures !Filters(fuel) ==> r == CostsOf(data, account)
    ensures Filters(fuel) ==>
      var cs := CostsOf(data, account);
      IsSubsequence(r, cs)
      && (forall i :: 0 <= i < |r| ==> r[i].fuelType == fuel.value || r[i].fuelType == ops.upper(fuel.value))
      && (forall i :: 0 <= i < |cs| && (cs[i].fuelType == fuel.value || cs[i].fuelType == ops.upper(fuel.value)) ==> cs[i] in r)
      && (forall c :: multiset(r)[c] == if c.fuelType == fuel.value || c.fuelType == ops.upper(fuel.value) then multiset(cs)[c] else 0)
  {
    var cs := CostsOf(data, account);
    if cs == [] then []
    else if Filters(fuel) then
      FilterKeepsExactlyMatches(cs, CostMatches(fuel.value, ops));
      Filter(cs, CostMatches(fuel.value, ops))
    else cs
  }

  /** `get_latest_usage`: none when nothing matches; otherwise a matching
      record with the greatest `usageYearMonth`, the first of several. */
  function LatestUsage(data: Option<Snapshot>, account: string, fuel: Option<string>, ops: TextOps): (r: Option<EnergyUsage>)
    ensures var f := AllUsages(data, account, fuel, ops);
      (r.None? <==> f == [])
      && (r.Some? ==> exists k :: (0 <= k < |f| && f[k] == r.value
            && (forall j :: 0 <= j < k ==> f[j].usageYearMonth < r.value.usageYearMonth)))
      && (r.Some? ==> forall i :: 0 <= i < |f| ==> f[i].usageYearMonth <= r.value.usageYearMonth)
  {
    var f := AllUsages(data, account, fuel, ops);
    if f == [] then None
    else
      var k := FirstMaxIndex(f, (u: EnergyUsage) => u.usageYearMonth);
      Some(f[k])
  }

  /** `get_latest_cost`: none when nothing matches; otherwise a matching
      record with the greatest `month`, the first of several. */
  function LatestCost(data: Option<Snapshot>, account: string, fuel: Option<string>, ops: TextOps): (r: Option<EnergyUsageCost>)
    ensures var f := AllCosts(data, account, fuel, ops);
      (r.None? <==> f == [])
      && (r.Some? ==> exists k :: (0 <= k < |f| && f[k] == r.value
            && (forall j :: 0 <= j < k ==> f[j].month < r.value.month)))
      && (r.Some? ==> forall i :: 0 <= i < |f| ==> f[i].month <= r.value.month)
  {
    var f := AllCosts(data, account, fuel, ops);
    if f == [] then None
    else
      var k := FirstMaxIndex(f, (c: EnergyUsageCost) => c.month);
      Some(f[k])
  }

  /** `get_latest_ami_usage`: none without readings; otherwise a reading with
      the greatest date string, the first of several. */
  function LatestAmiUsage(data: Option<Snapshot>, sp: string): (r: Option<AmiReading>)
    ensures var rs := if data.Some? && sp in data.value.amiUsages then data.value.amiUsages[sp] else [];
      (r.None? <==> rs == [])
      && (r.Some? ==> r.value in rs && forall i :: 0 <= i < |rs| ==> StrLe(rs[i].date, r.value.date))
      && (r.Some? ==> exists k :: (0 <= k < |rs| && rs[k] == r.value
            && (forall j :: 0 <= j < k ==> StrLt(rs[j].date, r.value.date))))
  {
    var rs := if data.Some? && sp in data.value.amiUsages then data.value.amiUsages[sp] else [];
    if rs == [] then None
    else
      LatestDateIndexIsLatest(rs);
      Some(rs[LatestDateIndex(rs)])
  }
}
