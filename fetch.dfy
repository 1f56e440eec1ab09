/** The coordinator's fetch pipeline (`_fetch_all_data` and the helpers it
    calls): seed a snapshot from the previous one, then for every selected
    account fetch the billing account, register its meters, fetch its monthly
    usages and costs, and fetch the smart-meter readings and interval reads of
    its AMI meters. The utility client is an oracle: each call either returns
    data or fails with one of the client's exception kinds. Each stage is a
    specification function; the imperative methods that walk the meters and
    the accounts are proved equal to them. */
module Fetch {
  import opened Text
  import opened Calendar
  import opened Records

  /** The exceptions a client call can raise. `InvalidAuthError` is a
      `NationalGridError`, so every handler that names `NationalGridError`
      also catches it. */
  datatype Fault =
    | InvalidAuth
    | CannotConnect
    | RetryExhausted
    | ProviderError   // any other NationalGridError
    | BadValue        // ValueError
    | Unexpected      // any exception no handler names

  /** Caught by a `(CannotConnectError, RetryExhaustedError, NationalGridError)` handler. */
  predicate IsLibraryError(e: Fault)
  {
    e != BadValue && e != Unexpected
  }

  datatype Result<+T> = Ok(value: T) | Err(fault: Fault)

  /** `AmiMeterIdentifier`. */
  datatype AmiMeterIdentifier = AmiMeterIdentifier(
    meterNumber: string, premiseNumber: string, servicePointNumber: string, meterPointNumber: string)

  /** The utility client's five queries, as total functions of their
      arguments. The interval query's start is an instant in epoch seconds. */
  datatype Api = Api(
    billingAccount: string -> Result<BillingAccount>,
    energyUsages: (string, int) -> Result<seq<EnergyUsage>>,
    energyUsageCosts: (string, Date, string) -> Result<seq<EnergyUsageCost>>,
    amiEnergyUsages: (AmiMeterIdentifier, Date, Date) -> Result<seq<AmiReading>>,
    intervalReads: (string, string, int) -> Result<seq<IntervalRead>>)

  const DaySeconds := 86400

  // ---------------------------------------------------------------------------
  // Lookback windows

  /** `from_month` for the usage query: the month of the day 465 days back on
      the first refresh, otherwise the same month one year back. */
  function FromMonth(today: Date, first: bool): (m: int)
    requires ValidDate(today)
    ensures 1 <= m % 100 <= 12
    ensures first ==> exists d: Date :: ValidDate(d) && Ordinal(d) == Ordinal(today) - 465 && m == YearMonth(d)
    ensures !first ==> m / 100 == today.year - 1 && m % 100 == today.month
    ensures !first ==> (m / 100) * 12 + m % 100 == today.year * 12 + today.month - 12
  {
    if first then
      var d := MinusDays(today, 465);
      MinusDaysOrdinal(today, 465);
      YearMonth(d)
    else
      (today.year - 1) * 100 + today.month
  }

  /** The `[date_from, date_to]` range of the AMI query. */
  datatype Window = Window(from: Date, to: Date)

  /** Five years back to three days back on the first refresh, otherwise the
      last two days up to today. */
  function AmiWindow(today: Date, first: bool): (w: Window)
    requires ValidDate(today)
    ensures ValidDate(w.from) && ValidDate(w.to)
    ensures Ordinal(today) - Ordinal(w.to) == (if first then 3 else 0)
    ensures Ordinal(w.to) - Ordinal(w.from) == (if first then 1822 else 2)
  {
    if first then
      MinusDaysOrdinal(today, 3);
      MinusDaysOrdinal(today, 1825);
      Window(MinusDays(today, 1825), MinusDays(today, 3))
    else
      MinusDaysOrdinal(today, 2);
      Window(MinusDays(today, 2), today)
  }

  /** The start of the interval query: five years back on the first
      refresh, otherwise 24 hours back. */
  function IntervalStart(now: int, first: bool): (start: int)
    ensures first ==> now - start == 1825 * DaySeconds
    ensures !first ==> now - start == 24 * 3600
  {
    if first then now - 1825 * DaySeconds else now - 24 * 3600
  }

  // ---------------------------------------------------------------------------
  // Seeding, usages and costs

  /** `_seed_from_previous`: copies of the previous six maps, or all empty;
      `is_first_refresh` is the dataclass default either way. */
  function SeedFromPrevious(prev: Option<Snapshot>): (s: Snapshot)
    ensures prev.None? ==> s == EmptySnapshot()
    ensures prev.Some? ==> (s.accounts == prev.value.accounts && s.amiUsages == prev.value.amiUsages
      && s.costs == prev.value.costs && s.intervalReads == prev.value.intervalReads
      && s.meters == prev.value.meters && s.usages == prev.value.usages)
    ensures !s.isFirstRefresh
  {
    match prev
    case None => EmptySnapshot()
    case Some(p) => p.(isFirstRefresh := false)
  }

  /** The handler of `_fetch_usages` and `_fetch_costs`: a client error or a
      `ValueError` gives the empty list; anything else propagates. */
  function Degraded<T>(r: Result<seq<T>>): (d: Result<seq<T>>)
    ensures d.Err? <==> r == Err(Unexpected)
    ensures r.Ok? ==> d == r
    ensures r.Err? && r.fault != Unexpected ==> d == Ok([])
  {
    match r
    case Ok(_) => r
    case Err(e) => if e == Unexpected then r else Ok([])
  }

  /** `_fetch_usages`. */
  function FetchUsages(api: Api, account: string, fromMonth: int): Result<seq<EnergyUsage>>
  {
    Degraded(api.energyUsages(account, fromMonth))
  }

  /** `_fetch_costs`: no query at all when the account has no region. */
  function FetchCosts(api: Api, account: string, today: Date, ba: BillingAccount): (r: Result<seq<EnergyUsageCost>>)
    ensures ba.region == "" ==> r == Ok([])
  {
    if ba.region == "" then Ok([])
    else Degraded(api.energyUsageCosts(account, today, ba.region))
  }

  // ---------------------------------------------------------------------------
  // Meter registration

  /** The meter loop of `_fetch_account_data`: each node with a service point
      number is stored under it, a later node overwriting an earlier one. */
  function RegisterMeters(meters: map<string, MeterData>, nodes: seq<Meter>, account: string, ba: BillingAccount): map<string, MeterData>
    decreases |nodes|
  {
    if nodes == [] then meters
    else
      var m := RegisterMeters(meters, nodes[..|nodes| - 1], account, ba);
      var n := nodes[|nodes| - 1];
      if n.servicePointNumber != "" then m[n.servicePointNumber := MeterData(n, account, ba)] else m
  }

  predicate HasNodeFor(nodes: seq<Meter>, sp: string)
  {
    exists i :: 0 <= i < |nodes| && nodes[i].servicePointNumber == sp
  }

  /** The index of the last node with service point `sp`. */
  function LastNodeFor(nodes: seq<Meter>, sp: string): (i: nat)
    requires HasNodeFor(nodes, sp)
    ensures i < |nodes| && nodes[i].servicePointNumber == sp
    ensures forall j :: i < j < |nodes| ==> nodes[j].servicePointNumber != sp
    decreases |nodes|
  {
    if nodes[|nodes| - 1].servicePointNumber == sp then |nodes| - 1
    else
      var front := nodes[..|nodes| - 1];
      assert HasNodeFor(front, sp) by {
        var k :| 0 <= k < |nodes| && nodes[k].servicePointNumber == sp;
        assert front[k].servicePointNumber == sp;
      }
      LastNodeFor(front, sp)
  }

  /** What registration leaves under one service point: the last node with
      that number, tagged with this account, when the number is non-empty and
      some node carries it; otherwise the previous entry, or none. */
  lemma {:induction false} RegisteredEntry(meters: map<string, MeterData>, nodes: seq<Meter>, account: string, ba: BillingAccount, sp: string)
    ensures var r := RegisterMeters(meters, nodes, account, ba);
      if sp != "" && HasNodeFor(nodes, sp)
      then sp in r && r[sp] == MeterData(nodes[LastNodeFor(nodes, sp)], account, ba)
      else (sp in r <==> sp in meters) && (sp in meters ==> r[sp] == meters[sp])
    decreases |nodes|
  {
    if nodes != [] {
      var front := nodes[..|nodes| - 1];
      var n := nodes[|nodes| - 1];
      RegisteredEntry(meters, front, account, ba, sp);
      if n.servicePointNumber != sp {
        assert HasNodeFor(nodes, sp) ==> HasNodeFor(front, sp) by {
          if HasNodeFor(nodes, sp) {
            var k :| 0 <= k < |nodes| && nodes[k].servicePointNumber == sp;
            assert front[k].servicePointNumber == sp;
          }
        }
        assert HasNodeFor(front, sp) ==> HasNodeFor(nodes, sp) by {
          if HasNodeFor(front, sp) {
            var k :| 0 <= k < |front| && front[k].servicePointNumber == sp;
            assert nodes[k].servicePointNumber == sp;
          }
        }
      } else {
        assert HasNodeFor(nodes, sp);
      }
    }
  }

  // ---------------------------------------------------------------------------
  // Smart-meter readings and interval reads

  /** The AMI query's meter identifier. */
  function AmiQuery(ba: BillingAccount, m: Meter): AmiMeterIdentifier
  {
    AmiMeterIdentifier(m.meterNumber, ba.premiseNumber, m.servicePointNumber, m.meterPointNumber)
  }

  /** A query failure that no handler of `_fetch_ami_data` catches. */
  predicate Escapes<T>(q: Result<T>)
  {
    q.Err? && !IsLibraryError(q.fault)
  }

  /** One meter of `_fetch_ami_data`. A meter without AMI or without a service
      point is skipped. A client error leaves that service point's previous
      entry; any other exception propagates. Gas meters get no interval
      query. */
  function AmiStep(api: Api, ba: BillingAccount, m: Meter, today: Date, now: int, d: Snapshot): (r: Result<Snapshot>)
    requires ValidDate(today)
    ensures r.Ok? ==> (r.value.accounts == d.accounts && r.value.meters == d.meters && r.value.usages == d.usages
      && r.value.costs == d.costs && r.value.isFirstRefresh == d.isFirstRefresh)
    ensures r.Err? ==> !IsLibraryError(r.fault)
    ensures r.Ok? && r.value.amiUsages != d.amiUsages ==>
      var w := AmiWindow(today, d.isFirstRefresh);
      var q := api.amiEnergyUsages(AmiQuery(ba, m), w.from, w.to);
      m.hasAmiSmartMeter && m.servicePointNumber != "" && q.Ok?
      && r.value.amiUsages == d.amiUsages[m.servicePointNumber := q.value]
    ensures r.Ok? && r.value.intervalReads != d.intervalReads ==>
      var q := api.intervalReads(ba.premiseNumber, m.servicePointNumber, IntervalStart(now, d.isFirstRefresh));
      m.hasAmiSmartMeter && m.servicePointNumber != "" && m.fuelType != "Gas" && q.Ok?
      && r.value.intervalReads == d.intervalReads[m.servicePointNumber := q.value]
  {
    var sp := m.servicePointNumber;
    if !m.hasAmiSmartMeter || sp == "" then Ok(d)
    else
      var w := AmiWindow(today, d.isFirstRefresh);
      var q := api.amiEnergyUsages(AmiQuery(ba, m), w.from, w.to);
      if Escapes(q) then Err(q.fault)
      else
        var d1 := if q.Ok? then d.(amiUsages := d.amiUsages[sp := q.value]) else d;
        if m.fuelType == "Gas" then Ok(d1)
        else
          var ir := api.intervalReads(ba.premiseNumber, sp, IntervalStart(now, d.isFirstRefresh));
          if Escapes(ir) then Err(ir.fault)
          else Ok(if ir.Ok? then d1.(intervalReads := d1.intervalReads[sp := ir.value]) else d1)
  }

  /** Exactly what one meter's step does: it fails exactly when the AMI
      query, or for a meter other than gas the interval query, fails with an
      exception no handler catches; and a successful query of an AMI meter
      with a service point is always stored under that service point. */
  lemma AmiStepFacts(api: Api, ba: BillingAccount, m: Meter, today: Date, now: int, d: Snapshot)
    requires ValidDate(today)
    ensures var r := AmiStep(api, ba, m, today, now, d);
      var sp := m.servicePointNumber;
      var w := AmiWindow(today, d.isFirstRefresh);
      var q := api.amiEnergyUsages(AmiQuery(ba, m), w.from, w.to);
      var ir := api.intervalReads(ba.premiseNumber, sp, IntervalStart(now, d.isFirstRefresh));
      var queried := m.hasAmiSmartMeter && sp != "";
      (r.Err? <==> queried && (Escapes(q) || (m.fuelType != "Gas" && Escapes(ir))))
      && (r.Err? ==> r.fault == (if Escapes(q) then q.fault else ir.fault))
      && (r.Ok? ==> r.value.amiUsages == (if queried && q.Ok? then d.amiUsages[sp := q.value] else d.amiUsages))
      && (r.Ok? ==>
            r.value.intervalReads
              == (if queried && m.fuelType != "Gas" && ir.Ok? then d.intervalReads[sp := ir.value] else d.intervalReads))
  {
  }

  /** `_fetch_ami_data`: the meters in order, stopping at the first exception
      that propagates. */
  function AmiResult(api: Api, ba: BillingAccount, nodes: seq<Meter>, today: Date, now: int, d: Snapshot): Result<Snapshot>
    requires ValidDate(today)
    decreases |nodes|
  {
    if nodes == [] then Ok(d)
    else
      match AmiStep(api, ba, nodes[0], today, now, d)
      case Err(e) => Err(e)
      case Ok(d1) => AmiResult(api, ba, nodes[1..], today, now, d1)
  }

  /** Whether some node is an AMI meter with service point `sp`. */
  predicate HasAmiNodeFor(nodes: seq<Meter>, sp: string)
  {
    exists i :: 0 <= i < |nodes| && nodes[i].hasAmiSmartMeter && nodes[i].servicePointNumber == sp
  }

  /** Whether some node is an AMI meter other than gas with service point `sp`. */
  predicate HasIntervalNodeFor(nodes: seq<Meter>, sp: string)
  {
    exists i :: 0 <= i < |nodes| && nodes[i].hasAmiSmartMeter && nodes[i].fuelType != "Gas"
      && nodes[i].servicePointNumber == sp
  }

  /** The AMI stage touches only the two service-point maps and raises only
      what no handler catches. */
  lemma {:induction false} AmiResultFrame(api: Api, ba: BillingAccount, nodes: seq<Meter>, today: Date, now: int, d: Snapshot)
    requires ValidDate(today)
    ensures var r := AmiResult(api, ba, nodes, today, now, d);
      (r.Err? ==> !IsLibraryError(r.fault))
      && (r.Ok? ==> (r.value.accounts == d.accounts && r.value.meters == d.meters && r.value.usages == d.usages
          && r.value.costs == d.costs && r.value.isFirstRefresh == d.isFirstRefresh))
    decreases |nodes|
  {
    if nodes != [] {
      var s := AmiStep(api, ba, nodes[0], today, now, d);
      if s.Ok? {
        AmiResultFrame(api, ba, nodes[1..], today, now, s.value);
      }
    }
  }

  /** The AMI entry of a service point with no AMI meter among the nodes is
      left as it was. */
  lemma {:induction false} AmiResultKeepsAmiEntry(api: Api, ba: BillingAccount, nodes: seq<Meter>, today: Date, now: int, d: Snapshot, sp: string)
    requires ValidDate(today)
    requires !HasAmiNodeFor(nodes, sp)
    ensures var r := AmiResult(api, ba, nodes, today, now, d);
      r.Ok? ==> ((sp in r.value.amiUsages <==> sp in d.amiUsages)
        && (sp in d.amiUsages ==> r.value.amiUsages[sp] == d.amiUsages[sp]))
    decreases |nodes|
  {
    if nodes != [] {
      var s := AmiStep(api, ba, nodes[0], today, now, d);
      if s.Ok? {
        assert !(nodes[0].hasAmiSmartMeter && nodes[0].servicePointNumber == sp);
        assert !HasAmiNodeFor(nodes[1..], sp) by {
          forall k | 0 <= k < |nodes[1..]|
            ensures !(nodes[1..][k].hasAmiSmartMeter && nodes[1..][k].servicePointNumber == sp)
          {
            assert nodes[1..][k] == nodes[k + 1];
          }
        }
        AmiResultKeepsAmiEntry(api, ba, nodes[1..], today, now, s.value, sp);
      }
    }
  }

  /** The interval entry of a service point with no AMI meter other than gas
      among the nodes is left as it was. */
  lemma {:induction false} AmiResultKeepsIntervalEntry(api: Api, ba: BillingAccount, nodes: seq<Meter>, today: Date, now: int, d: Snapshot, sp: string)
    requires ValidDate(today)
    requires !HasIntervalNodeFor(nodes, sp)
    ensures var r := AmiResult(api, ba, nodes, today, now, d);
      r.Ok? ==> ((sp in r.value.intervalReads <==> sp in d.intervalReads)
        && (sp in d.intervalReads ==> r.value.intervalReads[sp] == d.intervalReads[sp]))
    decreases |nodes|
  {
    if nodes != [] {
      var s := AmiStep(api, ba, nodes[0], today, now, d);
      if s.Ok? {
        assert !(nodes[0].hasAmiSmartMeter && nodes[0].fuelType != "Gas" && nodes[0].servicePointNumber == sp);
        assert !HasIntervalNodeFor(nodes[1..], sp) by {
          forall k | 0 <= k < |nodes[1..]|
            ensures !(nodes[1..][k].hasAmiSmartMeter && nodes[1..][k].fuelType != "Gas" && nodes[1..][k].servicePointNumber == sp)
          {
            assert nodes[1..][k] == nodes[k + 1];
          }
        }
        AmiResultKeepsIntervalEntry(api, ba, nodes[1..], today, now, s.value, sp);
      }
    }
  }

  // ---------------------------------------------------------------------------
  // One account, all accounts

  /** `_fetch_account_data`. Any exception of the billing-account query
      propagates with nothing recorded; after it, the account, its meters, its
      usages and its costs are recorded in that order, and then the AMI stage
      runs with the snapshot's first-refresh flag. */
  function AccountResult(api: Api, account: string, today: Date, now: int, fromMonth: int, d: Snapshot): Result<Snapshot>
    requires ValidDate(today)
  {
    match api.billingAccount(account)
    case Err(e) => Err(e)
    case Ok(ba) =>
      var d1 := d.(accounts := d.accounts[account := ba], meters := RegisterMeters(d.meters, ba.meters, account, ba));
      match FetchUsages(api, account, fromMonth)
      case Err(e) => Err(e)
      case Ok(us) =>
        match FetchCosts(api, account, today, ba)
        case Err(e) => Err(e)
        case Ok(cs) => AmiResult(api, ba, ba.meters, today, now, d1.(usages := d1.usages[account := us], costs := d1.costs[account := cs]))
  }

  /** What one account's fetch records: the billing account, the meters it
      lists, the usages and costs (the empty list after a handled error),
      and nothing else under account keys. A client error can only come from
      the billing-account query. */
  lemma AccountResultRecords(api: Api, account: string, today: Date, now: int, fromMonth: int, d: Snapshot)
    requires ValidDate(today)
    ensures var r := AccountResult(api, account, today, now, fromMonth, d);
      var b := api.billingAccount(account);
      (r.Err? && IsLibraryError(r.fault) ==> b == Err(r.fault))
      && (r.Ok? ==> (b.Ok?
          && r.value.accounts == d.accounts[account := b.value]
          && r.value.meters == RegisterMeters(d.meters, b.value.meters, account, b.value)
          && r.value.usages == d.usages[account := FetchUsages(api, account, fromMonth).value]
          && r.value.costs == d.costs[account := FetchCosts(api, account, today, b.value).value]
          && r.value.isFirstRefresh == d.isFirstRefresh))
  {
    var b := api.billingAccount(account);
    if b.Ok? {
      var ba := b.value;
      var us := FetchUsages(api, account, fromMonth);
      var cs := FetchCosts(api, account, today, ba);
      if us.Ok? && cs.Ok? {
        var d1 := d.(accounts := d.accounts[account := ba], meters := RegisterMeters(d.meters, ba.meters, account, ba));
        AmiResultFrame(api, ba, ba.meters, today, now,
          d1.(usages := d1.usages[account := us.value], costs := d1.costs[account := cs.value]));
      }
    }
  }

  /** The account loop of `_fetch_all_data`: an auth error, or an exception
      no handler catches, ends the fetch; any other client error skips the
      account and keeps what the snapshot had. */
  function AccountsResult(api: Api, accounts: seq<string>, today: Date, now: int, fromMonth: int, d: Snapshot): Result<Snapshot>
    requires ValidDate(today)
    decreases |accounts|
  {
    if accounts == [] then Ok(d)
    else
      match AccountResult(api, accounts[0], today, now, fromMonth, d)
      case Ok(d1) => AccountsResult(api, accounts[1..], today, now, fromMonth, d1)
      case Err(e) =>
        if e == InvalidAuth then Err(e)
        else if IsLibraryError(e) then AccountsResult(api, accounts[1..], today, now, fromMonth, d)
        else Err(e)
  }

  /** `_fetch_all_data` given the previous snapshot and the first-refresh flag. */
  function RefreshResult(api: Api, prev: Option<Snapshot>, accounts: seq<string>, first: bool, today: Date, now: int): Result<Snapshot>
    requires ValidDate(today)
  {
    AccountsResult(api, accounts, today, now, FromMonth(today, first), SeedFromPrevious(prev).(isFirstRefresh := first))
  }

  /** Only an auth error or an exception no handler catches ever leaves the
      account loop: connection, retry and other client errors are absorbed
      per account. A completed loop keeps the snapshot's first-refresh flag. */
  lemma {:induction false} AccountsResultFaults(api: Api, accounts: seq<string>, today: Date, now: int, fromMonth: int, d: Snapshot)
    requires ValidDate(today)
    ensures var r := AccountsResult(api, accounts, today, now, fromMonth, d);
      (r.Err? ==> r.fault == InvalidAuth || !IsLibraryError(r.fault))
      && (r.Ok? ==> r.value.isFirstRefresh == d.isFirstRefresh)
    decreases |accounts|
  {
    if accounts != [] {
      var a := AccountResult(api, accounts[0], today, now, fromMonth, d);
      AccountResultRecords(api, accounts[0], today, now, fromMonth, d);
      if a.Ok? {
        AccountsResultFaults(api, accounts[1..], today, now, fromMonth, a.value);
      } else {
        AccountsResultFaults(api, accounts[1..], today, now, fromMonth, d);
      }
    }
  }

  /** An account outside the selection keeps its seeded entries, and the
      snapshot keeps its first-refresh flag. */
  lemma {:induction false} AccountsResultKeepsOthers(api: Api, accounts: seq<string>, today: Date, now: int, fromMonth: int, d: Snapshot, other: string)
    requires ValidDate(today)
    requires other !in accounts
    ensures var r := AccountsResult(api, accounts, today, now, fromMonth, d);
      r.Ok? ==> (r.value.isFirstRefresh == d.isFirstRefresh
        && (other in r.value.accounts <==> other in d.accounts)
        && (other in d.accounts ==> r.value.accounts[other] == d.accounts[other])
        && (other in r.value.usages <==> other in d.usages)
        && (other in d.usages ==> r.value.usages[other] == d.usages[other])
        && (other in r.value.costs <==> other in d.costs)
        && (other in d.costs ==> r.value.costs[other] == d.costs[other]))
    decreases |accounts|
  {
    if accounts != [] {
      var a := AccountResult(api, accounts[0], today, now, fromMonth, d);
      assert other !in accounts[1..];
      AccountResultRecords(api, accounts[0], today, now, fromMonth, d);
      if a.Ok? {
        AccountsResultKeepsOthers(api, accounts[1..], today, now, fromMonth, a.value, other);
      } else {
        AccountsResultKeepsOthers(api, accounts[1..], today, now, fromMonth, d, other);
      }
    }
  }

  /** An account whose billing query fails with a connection, retry or
      other client error is skipped: the loop ends as if the account had not
      been selected, so every other account's entries are as they would be
      without it and the failure is not raised. */
  lemma {:induction false} UnreachableAccountIsSkipped(api: Api, accounts: seq<string>, i: nat, today: Date, now: int, fromMonth: int, d: Snapshot)
    requires ValidDate(today)
    requires i < |accounts|
    requires api.billingAccount(accounts[i]) in {Err(CannotConnect), Err(RetryExhausted), Err(ProviderError)}
    ensures AccountsResult(api, accounts, today, now, fromMonth, d)
      == AccountsResult(api, accounts[..i] + accounts[i + 1..], today, now, fromMonth, d)
    decreases i
  {
    var rest := accounts[..i] + accounts[i + 1..];
    if i == 0 {
      assert rest == accounts[1..];
      assert api.billingAccount(accounts[0]).Err?;
    } else {
      var tail := accounts[1..];
      assert rest[0] == accounts[0];
      assert rest[1..] == tail[..i - 1] + tail[i..];
      assert tail[i - 1] == accounts[i];
      match AccountResult(api, accounts[0], today, now, fromMonth, d) {
        case Ok(d1) =>
          UnreachableAccountIsSkipped(api, tail, i - 1, today, now, fromMonth, d1);
        case Err(e) =>
          if e != InvalidAuth && IsLibraryError(e) {
            UnreachableAccountIsSkipped(api, tail, i - 1, today, now, fromMonth, d);
          }
      }
    }
  }

  /** When every selected account's billing query fails with a connection,
      retry or other client error, the fetch still succeeds and returns the
      seeded snapshot unchanged. */
  lemma {:induction false} AllAccountsUnreachable(api: Api, accounts: seq<string>, today: Date, now: int, fromMonth: int, d: Snapshot)
    requires ValidDate(today)
    requires forall i :: 0 <= i < |accounts| ==>
      api.billingAccount(accounts[i]) in {Err(CannotConnect), Err(RetryExhausted), Err(ProviderError)}
    ensures AccountsResult(api, accounts, today, now, fromMonth, d) == Ok(d)
    decreases |accounts|
  {
    if accounts != [] {
      assert api.billingAccount(accounts[0]).Err?;
      AllAccountsUnreachable(api, accounts[1..], today, now, fromMonth, d);
    }
  }

  // ---------------------------------------------------------------------------
  // A client that fails only with client errors

  /** Every failure of every query is one the client library raises
      (`CannotConnectError`, `RetryExhaustedError`, `NationalGridError` or
      `InvalidAuthError`): the handlers of the fetch pipeline catch them all. */
  ghost predicate ClientErrorsOnly(api: Api)
  {
    (forall a :: !Escapes(api.billingAccount(a)))
    && (forall a, from :: !Escapes(api.energyUsages(a, from)))
    && (forall a, t, region :: !Escapes(api.energyUsageCosts(a, t, region)))
    && (forall id, from, to :: !Escapes(api.amiEnergyUsages(id, from, to)))
    && (forall premise, sp, start :: !Escapes(api.intervalReads(premise, sp, start)))
  }

  /** With such a client the AMI stage always completes. */
  lemma {:induction false} AmiResultSucceeds(api: Api, ba: BillingAccount, nodes: seq<Meter>, today: Date, now: int, d: Snapshot)
    requires ValidDate(today) && ClientErrorsOnly(api)
    ensures AmiResult(api, ba, nodes, today, now, d).Ok?
    decreases |nodes|
  {
    if nodes != [] {
      AmiStepFacts(api, ba, nodes[0], today, now, d);
      var s := AmiStep(api, ba, nodes[0], today, now, d);
      AmiResultSucceeds(api, ba, nodes[1..], today, now, s.value);
    }
  }

  /** With such a client an account's fetch fails exactly when its
      billing-account query does, and with that query's error. */
  lemma AccountResultSucceeds(api: Api, account: string, today: Date, now: int, fromMonth: int, d: Snapshot)
    requires ValidDate(today) && ClientErrorsOnly(api)
    ensures var r := AccountResult(api, account, today, now, fromMonth, d);
      var b := api.billingAccount(account);
      (r.Err? <==> b.Err?) && (r.Err? ==> r.fault == b.fault)
  {
    var b := api.billingAccount(account);
    if b.Ok? {
      var ba := b.value;
      assert !Escapes(api.energyUsages(account, fromMonth));
      assert ba.region != "" ==> !Escapes(api.energyUsageCosts(account, today, ba.region));
      var us := FetchUsages(api, account, fromMonth);
      var cs := FetchCosts(api, account, today, ba);
      var d1 := d.(accounts := d.accounts[account := ba], meters := RegisterMeters(d.meters, ba.meters, account, ba));
      AmiResultSucceeds(api, ba, ba.meters, today, now, d1.(usages := d1.usages[account := us.value], costs := d1.costs[account := cs.value]));
    }
  }

  /** Some selected account's billing-account query fails with an auth error. */
  ghost predicate SomeAuthFailure(api: Api, accounts: seq<string>)
  {
    exists i :: 0 <= i < |accounts| && api.billingAccount(accounts[i]) == Err(InvalidAuth)
  }

  lemma SomeAuthFailureCons(api: Api, accounts: seq<string>)
    requires accounts != []
    ensures SomeAuthFailure(api, accounts)
      <==> api.billingAccount(accounts[0]) == Err(InvalidAuth) || SomeAuthFailure(api, accounts[1..])
  {
    if SomeAuthFailure(api, accounts) && api.billingAccount(accounts[0]) != Err(InvalidAuth) {
      var i :| 0 <= i < |accounts| && api.billingAccount(accounts[i]) == Err(InvalidAuth);
      assert accounts[1..][i - 1] == accounts[i];
    }
    if SomeAuthFailure(api, accounts[1..]) {
      var i :| 0 <= i < |accounts[1..]| && api.billingAccount(accounts[1..][i]) == Err(InvalidAuth);
      assert accounts[i + 1] == accounts[1..][i];
    }
  }

  /** What the account loop fetched, as the snapshot it returns: with a
      client that fails only with client errors, the loop fails exactly when
      some account's billing query is refused for authentication, and then
      with that error; otherwise every selected account whose billing query
      succeeds has its billing account, its usages and its costs recorded
      (the empty list after a handled error). */
  lemma {:induction false} AccountsResultRecordsFetched(api: Api, accounts: seq<string>, today: Date, now: int, fromMonth: int, d: Snapshot)
    requires ValidDate(today) && ClientErrorsOnly(api)
    ensures var r := AccountsResult(api, accounts, today, now, fromMonth, d);
      (r.Err? <==> SomeAuthFailure(api, accounts))
      && (r.Err? ==> r.fault == InvalidAuth)
      && (r.Ok? ==> forall a :: a in accounts && api.billingAccount(a).Ok? ==>
            (a in r.value.accounts && Ok(r.value.accounts[a]) == api.billingAccount(a)
             && a in r.value.usages && Ok(r.value.usages[a]) == FetchUsages(api, a, fromMonth)
             && a in r.value.costs && Ok(r.value.costs[a]) == FetchCosts(api, a, today, api.billingAccount(a).value)))
    decreases |accounts|
  {
    if accounts != [] {
      var a0, tail := accounts[0], accounts[1..];
      assert forall a :: a in accounts <==> a == a0 || a in tail;
      SomeAuthFailureCons(api, accounts);
      AccountResultSucceeds(api, a0, today, now, fromMonth, d);
      var r0 := AccountResult(api, a0, today, now, fromMonth, d);
      if r0.Ok? {
        AccountResultRecords(api, a0, today, now, fromMonth, d);
        AccountsResultRecordsFetched(api, tail, today, now, fromMonth, r0.value);
        if a0 !in tail {
          AccountsResultKeepsOthers(api, tail, today, now, fromMonth, r0.value, a0);
        }
      } else if r0.fault != InvalidAuth {
        AccountsResultRecordsFetched(api, tail, today, now, fromMonth, d);
      }
    }
  }

  /** `_fetch_all_data` with such a client: it raises only an auth error,
      and only when some account's billing query is refused; otherwise it
      returns the fetched billing accounts, usages and costs of every
      reachable selected account. */
  lemma RefreshRecordsFetched(api: Api, prev: Option<Snapshot>, accounts: seq<string>, first: bool, today: Date, now: int)
    requires ValidDate(today) && ClientErrorsOnly(api)
    ensures var r := RefreshResult(api, prev, accounts, first, today, now);
      (r.Err? <==> SomeAuthFailure(api, accounts))
      && (r.Err? ==> r.fault == InvalidAuth)
      && (r.Ok? ==> r.value.isFirstRefresh == first)
      && (r.Ok? ==> forall a :: a in accounts && api.billingAccount(a).Ok? ==>
            (a in r.value.accounts && Ok(r.value.accounts[a]) == api.billingAccount(a)
             && a in r.value.usages && Ok(r.value.usages[a]) == FetchUsages(api, a, FromMonth(today, first))
             && a in r.value.costs && Ok(r.value.costs[a]) == FetchCosts(api, a, today, api.billingAccount(a).value)))
  {
    var seed := SeedFromPrevious(prev).(isFirstRefresh := first);
    AccountsResultRecordsFetched(api, accounts, today, now, FromMonth(today, first), seed);
    AccountsResultFaults(api, accounts, today, now, FromMonth(today, first), seed);
  }

  // ---------------------------------------------------------------------------
  // The imperative stages

  /** The body of the meter loop of `_fetch_ami_data`. */
  method FetchMeterData(api: Api, ba: BillingAccount, m: Meter, today: Date, now: int, d: Snapshot) returns (r: Result<Snapshot>)
    requires ValidDate(today)
    ensures r == AmiStep(api, ba, m, today, now, d)
  {
    var sp := m.servicePointNumber;
    if !m.hasAmiSmartMeter || sp == "" {
      return Ok(d);
    }
    var amiUsages := d.amiUsages;
    var intervalReads := d.intervalReads;
    var w := AmiWindow(today, d.isFirstRefresh);
    var q := api.amiEnergyUsages(AmiMeterIdentifier(m.meterNumber, ba.premiseNumber, sp, m.meterPointNumber), w.from, w.to);
    match q {
      case Ok(readings) => amiUsages := amiUsages[sp := readings];
      case Err(e) => if !IsLibraryError(e) { return Err(e); }
    }
    if m.fuelType == "Gas" {
      return Ok(d.(amiUsages := amiUsages));
    }
    var ir := api.intervalReads(ba.premiseNumber, sp, IntervalStart(now, d.isFirstRefresh));
    match ir {
      case Ok(got) => intervalReads := intervalReads[sp := got];
      case Err(e) => if !IsLibraryError(e) { return Err(e); }
    }
    r := Ok(d.(amiUsages := amiUsages, intervalReads := intervalReads));
  }

  /** `_fetch_ami_data`: the meter loop. */
  method FetchAmiData(api: Api, ba: BillingAccount, nodes: seq<Meter>, today: Date, now: int, d: Snapshot) returns (r: Result<Snapshot>)
    requires ValidDate(today)
    ensures r == AmiResult(api, ba, nodes, today, now, d)
  {
    var cur := d;
    var i := 0;
    while i < |nodes|
      invariant 0 <= i <= |nodes|
      invariant AmiResult(api, ba, nodes[i..], today, now, cur) == AmiResult(api, ba, nodes, today, now, d)
      decreases |nodes| - i
    {
      var s := FetchMeterData(api, ba, nodes[i], today, now, cur);
      assert nodes[i..][0] == nodes[i] && nodes[i..][1..] == nodes[i + 1..];
      if s.Err? {
        return s;
      }
      cur := s.value;
      i := i + 1;
    }
    r := Ok(cur);
  }

  /** `_fetch_account_data`. */
  method FetchAccountData(api: Api, account: string, today: Date, now: int, fromMonth: int, d: Snapshot) returns (r: Result<Snapshot>)
    requires ValidDate(today)
    ensures r == AccountResult(api, account, today, now, fromMonth, d)
  {
    var b := api.billingAccount(account);
    if b.Err? {
      return Err(b.fault);
    }
    var ba := b.value;
    var data := d.(accounts := d.accounts[account := ba]);
    var meters := data.meters;
    for i := 0 to |ba.meters|
      invariant meters == RegisterMeters(d.meters, ba.meters[..i], account, ba)
    {
      var node := ba.meters[i];
      assert ba.meters[..i + 1][..i] == ba.meters[..i];
      if node.servicePointNumber != "" {
        meters := meters[node.servicePointNumber := MeterData(node, account, ba)];
      }
    }
    assert ba.meters[..|ba.meters|] == ba.meters;
    data := data.(meters := meters);
    var us := FetchUsages(api, account, fromMonth);
    if us.Err? {
      return Err(us.fault);
    }
    data := data.(usages := data.usages[account := us.value]);
    var cs := FetchCosts(api, account, today, ba);
    if cs.Err? {
      return Err(cs.fault);
    }
    data := data.(costs := data.costs[account := cs.value]);
    r := FetchAmiData(api, ba, ba.meters, today, now, data);
  }
}
