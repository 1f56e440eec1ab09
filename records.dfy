/** The typed-dictionary records the utility API returns, the per-meter record
    the coordinator keeps, and the coordinator's snapshot
    (`NationalGridCoordinatorData`). A key missing from an API dictionary is
    the default the coordinator and entity code pass to `.get`: "" for strings, 0 for numbers,
    false for flags. */
module Records {

  datatype Meter = Meter(
    servicePointNumber: string,
    meterNumber: string,
    meterPointNumber: string,
    fuelType: string,
    hasAmiSmartMeter: bool,
    isSmartMeter: bool,
    deviceCode: string)

  datatype BillingAccount = BillingAccount(
    billingAccountId: string,
    region: string,
    regionAbbreviation: string,
    premiseNumber: string,
    customerNumber: string,
    serviceAddress: string,     // serviceAddress.serviceAddressCompressed
    customerType: string,       // customerInfo.customerType
    meters: seq<Meter>)         // meter.nodes

  /** Monthly usage; `usageYearMonth` is YYYYMM. */
  datatype EnergyUsage = EnergyUsage(usageType: string, usageYearMonth: int, usage: real)

  /** Monthly cost; `month` is YYYYMM. */
  datatype EnergyUsageCost = EnergyUsageCost(fuelType: string, month: int, amount: real)

  /** An hourly smart-meter reading: ISO 8601 `date`, signed `quantity`
      (negative is energy returned to the grid). */
  datatype AmiReading = AmiReading(date: string, quantity: real)

  /** A 15-minute interval read: ISO 8601 `startTime`, signed `value`. */
  datatype IntervalRead = IntervalRead(startTime: string, value: real)

  /** `MeterData`: a meter, the account it was found under, and that account. */
  datatype MeterData = MeterData(meter: Meter, accountId: string, billingAccount: BillingAccount)

  /** `NationalGridCoordinatorData`. Account-keyed: accounts, usages, costs.
      Service-point-keyed: meters, amiUsages, intervalReads. */
  datatype Snapshot = Snapshot(
    accounts: map<string, BillingAccount>,
    amiUsages: map<string, seq<AmiReading>>,
    costs: map<string, seq<EnergyUsageCost>>,
    intervalReads: map<string, seq<IntervalRead>>,
    meters: map<string, MeterData>,
    usages: map<string, seq<EnergyUsage>>,
    isFirstRefresh: bool)

  /** `NationalGridCoordinatorData(accounts={})`: every map empty and the
      dataclass default `is_first_refresh=False`. */
  function EmptySnapshot(): Snapshot
  {
    Snapshot(map[], map[], map[], map[], map[], map[], false)
  }
}
