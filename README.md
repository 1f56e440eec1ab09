# National Grid integration: statistics import, coordinator and device info

This project is a Dafny model of the `national_grid` Home Assistant
integration, covering three parts of it:

- **Statistics importer** (`statistics.py`). It turns hourly smart-meter (AMI)
  readings and 15-minute interval reads into external statistic series for the
  recorder. Each series is a list of hourly points with a state and a running
  sum. The sum continues from the last row stored for that series, and only
  hours after that row are written.
- **Update coordinator** (`coordinator.py`). It holds:
  - the first-refresh flag and the health flag;
  - the lookback windows (`from_month`, the AMI date range, the interval start);
  - the snapshot, seeded from the previous one so a failed account keeps its data;
  - the account and meter loops that fill the snapshot from the utility API;
  - the error handling of an update;
  - the read-only queries over the snapshot.
- **Device entity** (`entity.py`). It builds the device record for a service
  point and exposes lookups into the coordinator's meter data.

## Module layout

| module (file) | models |
|---|---|
| `Text` (text.dfy) | `" \| ".join`, `str.split(",")[0]`, and Python's lexicographic string order |
| `Calendar` (calendar.dfy) | civil dates, `date - timedelta(days=k)`, and `year * 100 + month` |
| `Records` (records.dfy) | the API's typed dictionaries, `MeterData` and `NationalGridCoordinatorData` (`Snapshot`) |
| `Series` (series.dfy) | statistic IDs, the stored baseline, sign filtering, hour truncation, and the running sum |
| `HourlyImport` (hourly.dfy) | `_import_hourly_stats` and `_import_hourly_stats_electric` |
| `IntervalImport` (interval.dfy) | `_import_interval_stats` and `_import_interval_stats_electric` |
| `StatisticsImport` (statistics.dfy) | `async_import_all_statistics` |
| `Fetch` (fetch.dfy) | `_seed_from_previous`, `_fetch_usages`, `_fetch_costs`, `_fetch_ami_data`, `_fetch_account_data`, and the account loop |
| `UpdateCoordinator` (coordinator.dfy) | the coordinator class: `_fetch_all_data`, `_async_update_data`, `reset_to_first_refresh` |
| `Queries` (queries.dfy) | `get_meter_data`, `get_latest_usage`, `get_latest_cost`, `get_all_usages`, `get_all_costs`, `get_latest_ami_usage` |
| `DeviceEntity` (entity.dfy) | `_build_device_info` and the entity's three properties |

The imperative code keeps its shape:

- Each importer loop is a `method` with a `for` loop. It is proved equal to a
  specification function (`HourlyPoints`, `ReadBuckets`, `IntervalPoints`), and
  the lemmas state what the Python code promises about those functions.
- The coordinator's flags are fields of a `class`, updated by its methods.
- The fetch loops are methods proved equal to recursive functions over the
  snapshot.
- `_async_update_data` has an `UpdateFailed` branch for library errors. It can
  never be taken (`RefreshNeverFailsUpdate`), because `_fetch_all_data`
  absorbs those errors per account and goes on to the next one.

Things outside the integration are inputs:

- the utility API, as an `Api` value of total functions returning
  `Ok(data)` or `Err(fault)`;
- the recorder's last stored row per statistic, ISO 8601 parsing,
  `therms_to_ccf`, the clock, and `str.title`/`upper`/`strip`.

A store write is returned as a value: `NoWrite`, or one
`Write(metadata, points)`.

## Model

| member | source | states |
|---|---|---|
| Calendar.PrevDay | custom_components/national_grid/coordinator.py:139 | the day before a valid date is a valid date |
| Calendar.MinusDays | custom_components/national_grid/coordinator.py:139 | `date - timedelta(days=k)` of a valid date is a valid date |
| Calendar.MinusDaysOrdinal | custom_components/national_grid/coordinator.py:139 | going back k days lowers the day number by exactly k |
| Calendar.OrdinalMonotone | custom_components/national_grid/coordinator.py:139 | a date earlier on the calendar has a smaller day number |
| Calendar.OrdinalInjective | custom_components/national_grid/coordinator.py:139 | two valid dates have the same day number exactly when they are the same date |
| Calendar.MinusDaysIsUnique | custom_components/national_grid/coordinator.py:139 | `date - timedelta(days=k)` is the one valid date whose day number is k lower |
| Calendar.YearMonth | custom_components/national_grid/coordinator.py:140 | `year * 100 + month` keeps the year in the hundreds and the month in the last two digits |
| Text.JoinStartsWithFirst | custom_components/national_grid/entity.py:127-128 | a non-empty join begins with its first part, and a single part is joined to itself |
| Text.JoinThree | custom_components/national_grid/entity.py:127-128 | three parts are joined in their order with the separator between neighbours |
| Text.BeforeFirstComma | custom_components/national_grid/entity.py:110-115 | the first comma-separated part is the prefix up to the first comma |
| Series.StatisticIdInjective | custom_components/national_grid/statistics.py:175-186 | two series share a statistic ID only if they have the same service point and the same kind |
| Series.BaselineOf | custom_components/national_grid/statistics.py:196-211 | the baseline is the stored row's sum and start, with 0 for a missing row or a missing column |
| Series.TopOfHour | custom_components/national_grid/statistics.py:244 | the truncated instant is an hour boundary no later than the instant and less than an hour before it |
| Series.SignedValue | custom_components/national_grid/statistics.py:227-236 | gas keeps every reading; consumption keeps exactly the non-negative ones; return keeps exactly the negative ones, and stores their magnitude |
| Series.AccumulateCarriesEntries | custom_components/national_grid/statistics.py:259-266 | there is one point per kept entry, with that entry's hour and value |
| Series.StateTotalOfAccumulate | custom_components/national_grid/statistics.py:259-266 | the points' states add up to the kept values' total |
| Series.SumsAreCumulative | custom_components/national_grid/statistics.py:206-266 | point i's sum is the stored sum plus the states of points 0..i, and the last sum is the stored sum plus all states |
| Series.SortedKeys | custom_components/national_grid/statistics.py:461 | `sorted(hourly_buckets)` lists exactly the bucket hours, strictly ascending |
| HourlyImport.SortByDatePermutes | custom_components/national_grid/statistics.py:214 | sorting by date reorders the readings and does nothing else |
| HourlyImport.SortByDateSorted | custom_components/national_grid/statistics.py:214 | after sorting, the date strings are in non-decreasing order |
| HourlyImport.HourlyKind | custom_components/national_grid/statistics.py:175-186 | gas maps to the gas series; electric maps to the return series exactly when the filter is `return_only` |
| HourlyImport.HourlyMetaSpelled | custom_components/national_grid/statistics.py:175-186 | the statistic IDs `national_grid:<sp>_gas_hourly_usage`, `_electric_return_hourly_usage` and `_electric_hourly_usage`; the names; ccf for gas and kWh for electric |
| HourlyImport.HourlyEntryFacts | custom_components/national_grid/statistics.py:220-258 | a reading is kept exactly when its date is non-empty and parses, it passes the sign filter, its top of hour lies after the baseline, and it passes the 48-hour cutoff unless this is a first refresh; a kept reading sits on that hour, and gas values go through `therms_to_ccf` |
| HourlyImport.FirstRefreshIgnoresClock | custom_components/national_grid/statistics.py:253-256 | on a first refresh the clock plays no part in which readings are kept or what they become |
| HourlyImport.HourlyWrite | custom_components/national_grid/statistics.py:284-305 | the store is written exactly when some point remains, with the series' metadata and those points |
| HourlyImport.HourlyPointsAreKeptReadings | custom_components/national_grid/statistics.py:214-266 | every point comes from a kept reading; every kept reading gives a point; there are as many points as kept readings |
| HourlyImport.HourlyPointsInWindow | custom_components/national_grid/statistics.py:250-256 | every point is strictly after the stored start and on an hour boundary; it is within 48 hours of now on an incremental run; it is non-negative in an electric series |
| HourlyImport.HourlyNoWriteIffNothingKept | custom_components/national_grid/statistics.py:284-286 | no write happens exactly when no reading passes the filters |
| HourlyImport.HourlyBadDatesWriteNothing | custom_components/national_grid/statistics.py:223-247 | readings whose dates are all empty or unparseable are skipped and cause no write |
| HourlyImport.HourlyReplayWritesNothing | custom_components/national_grid/statistics.py:250-251 | once the store holds the run's last hour, re-importing the same readings writes nothing |
| HourlyImport.HasNegative | custom_components/national_grid/statistics.py:135 | `any(quantity < 0)` |
| HourlyImport.ReturnWriteNeedsNegative | custom_components/national_grid/statistics.py:135-144 | a return series is written only if some reading is negative, so the `has_negative` guard skips only a series that would not be written |
| HourlyImport.HourlyReadingEntry | custom_components/national_grid/statistics.py:220-258 | the loop body's filter chain, in source order, yields the specified entry |
| HourlyImport.AccumulateReadings | custom_components/national_grid/statistics.py:214-266 | the reading loop builds the running-sum points of the kept readings |
| HourlyImport.ImportHourlyStats | custom_components/national_grid/statistics.py:147-320 | the whole hourly import yields the specified write |
| HourlyImport.ImportHourlyStatsElectric | custom_components/national_grid/statistics.py:103-144 | a consumption series always, and a return series only when some reading is negative |
| HourlyImport.ExampleFreshSeries | tests/test_statistics.py:49-70 | readings of 5 and 3 with nothing stored give states 5 and 3 with sums 5 and 8, on a first refresh or with the clock within 48 hours of the first reading |
| HourlyImport.ExampleStaleClockWritesNothing | custom_components/national_grid/statistics.py:253-256 | the same readings on an incremental refresh more than 48 hours later are all cut off, and nothing is written |
| HourlyImport.ExampleContinuesStoredSum | tests/test_statistics.py:134-162 | with sum 10 stored at the first hour, only the second hour is written, with sum 13, on a first refresh or with the clock within 48 hours of the second reading |
| IntervalImport.IntervalKind | custom_components/national_grid/statistics.py:391-396 | the interval return series exactly for `return_only` |
| IntervalImport.IntervalMetaSpelled | custom_components/national_grid/statistics.py:391-396 | the IDs `national_grid:<sp>_electric_interval_return_usage` and `_electric_interval_usage`, their names, and kWh |
| IntervalImport.ReadEntryFacts | custom_components/national_grid/statistics.py:420-447 | a read is bucketed exactly when its start time is non-empty and parses and it passes the sign filter; a bucketed read lands on its top of hour |
| IntervalImport.IntervalWrite | custom_components/national_grid/statistics.py:475-488 | the store is written exactly when some hour remains, with the series' metadata and those points |
| IntervalImport.BucketsMatchReads | custom_components/national_grid/statistics.py:420-447 | a bucket exists for exactly the hours some read lands in, and holds the sum of those reads |
| IntervalImport.IntervalPointsAscending | custom_components/national_grid/statistics.py:461 | the points' hours are strictly ascending, so there is one point per hour |
| IntervalImport.IntervalPointsAreHourTotals | custom_components/national_grid/statistics.py:458-473 | every point is an hour after the stored start, has a read in it, and its state is that hour's total |
| IntervalImport.IntervalPointsCoverNewHours | custom_components/national_grid/statistics.py:458-473 | every hour with a read after the stored start has a point |
| IntervalImport.IntervalStatesNonNegative | custom_components/national_grid/statistics.py:427-436 | consumption and return states are never negative |
| IntervalImport.IntervalNoWriteIffNothingNew | custom_components/national_grid/statistics.py:475-477 | no write happens exactly when no read lands after the stored start |
| IntervalImport.IntervalBadTimesWriteNothing | custom_components/national_grid/statistics.py:420-441 | reads whose start times are all empty or unparseable cause no write |
| IntervalImport.IntervalReplayWritesNothing | custom_components/national_grid/statistics.py:462-463 | once the store holds the run's last hour, re-importing the same reads writes nothing |
| IntervalImport.HasNegativeValue | custom_components/national_grid/statistics.py:354 | `any(value < 0)` |
| IntervalImport.ReturnIntervalWriteNeedsNegative | custom_components/national_grid/statistics.py:354-362 | an interval return series is written only if some read is negative |
| IntervalImport.IntervalReadEntry | custom_components/national_grid/statistics.py:420-447 | the bucket loop body yields the specified entry |
| IntervalImport.BucketReads | custom_components/national_grid/statistics.py:420-447 | the bucket loop fills `hourly_buckets` as specified |
| IntervalImport.AccumulateHours | custom_components/national_grid/statistics.py:458-473 | the loop over sorted hours builds the running-sum points of the hours after the baseline |
| IntervalImport.ImportIntervalStats | custom_components/national_grid/statistics.py:365-488 | the whole interval import yields the specified write |
| IntervalImport.ImportIntervalStatsElectric | custom_components/national_grid/statistics.py:323-362 | a consumption series always, and a return series only when some read is negative |
| IntervalImport.ExampleQuarterHourBuckets | tests/test_statistics.py:96-114 | reads of 0.25 and 0.30 in one hour and 0.50 in the next make buckets 0.55 and 0.50 |
| IntervalImport.ExampleQuarterHoursFold | tests/test_statistics.py:96-114 | those reads give points 0.55 and 0.50 with sums 0.55 and 1.05 |
| IntervalImport.ExampleContinuesStoredSum | tests/test_statistics.py:205-229 | with sum 5 stored at the first hour, only the second hour is written, with sum 5.5 |
| StatisticsImport.RunContext | custom_components/national_grid/statistics.py:66 | every import run of a pass uses the snapshot's first-refresh flag |
| StatisticsImport.PlannedWriteTargetsItsSeries | custom_components/national_grid/statistics.py:175-186 | a planned write goes to its own series' ID and carries at least one point |
| StatisticsImport.PlannedWritesAreDistinct | custom_components/national_grid/statistics.py:45-100 | two different series never write to the same statistic ID |
| StatisticsImport.HourlyNeedsMeter | custom_components/national_grid/statistics.py:69-74 | an hourly series is written only for a service point that has readings and a meter entry, and the meter's fuel picks the gas or the electric series |
| StatisticsImport.ReturnGuardsChangeNothing | custom_components/national_grid/statistics.py:135-144 | skipping the return series when nothing is negative gives the same write as running it |
| StatisticsImport.IntervalPlan | custom_components/national_grid/statistics.py:99-100 | every service point with interval reads gets an interval consumption import |
| StatisticsImport.IntervalReturnPlan | custom_components/national_grid/statistics.py:354-362 | the interval return import runs only on negative reads |
| StatisticsImport.ImportAmiOf | custom_components/national_grid/statistics.py:69-95 | one service point's AMI step yields its three planned hourly writes |
| StatisticsImport.ImportIntervalOf | custom_components/national_grid/statistics.py:99-100 | one service point's interval step yields its two planned writes |
| StatisticsImport.ImportAmiSeries | custom_components/national_grid/statistics.py:69-95 | the AMI loop records the planned writes of every service point with readings |
| StatisticsImport.ImportIntervalSeries | custom_components/national_grid/statistics.py:99-100 | the interval loop adds the planned writes of every service point with interval reads |
| StatisticsImport.ImportAllStatistics | custom_components/national_grid/statistics.py:45-100 | no snapshot means no writes; otherwise exactly the planned series are written, each with its planned points |
| Fetch.FromMonth | custom_components/national_grid/coordinator.py:136-143 | the first refresh uses the month of the day 465 days back; otherwise the same month one year back, which is exactly twelve months earlier |
| Fetch.IntervalStart | custom_components/national_grid/coordinator.py:431-443 | interval reads start 1825 days back on the first refresh and 24 hours back otherwise |
| Fetch.AmiWindow | custom_components/national_grid/coordinator.py:354-367 | the window is [today-1825d, today-3d] on the first refresh and [today-2d, today] otherwise |
| Fetch.SeedFromPrevious | custom_components/national_grid/coordinator.py:181-193 | copies of the previous six maps, or all empty, with the dataclass default flag |
| Fetch.Degraded | custom_components/national_grid/coordinator.py:260-283 | a client error or a `ValueError` becomes `[]`; any other exception propagates; success passes through |
| Fetch.FetchCosts | custom_components/national_grid/coordinator.py:293-296 | with no region, the result is `[]` and no query is made |
| Fetch.RegisteredEntry | custom_components/national_grid/coordinator.py:215-223 | the last node with a non-empty service point is registered under it with this account; other keys keep their previous entry |
| Fetch.AmiStep | custom_components/national_grid/coordinator.py:341-482 | one meter touches only its own AMI and interval entries, only after a successful query, only for an AMI meter with a service point, never for interval reads of gas; only an exception no handler names escapes |
| Fetch.AmiResultFrame | custom_components/national_grid/coordinator.py:342-482 | the AMI stage changes neither accounts, meters, usages, costs nor the flag; a client error never escapes it |
| Fetch.AmiResultKeepsAmiEntry | custom_components/national_grid/coordinator.py:387-419 | a service point without an AMI node keeps its previous AMI readings |
| Fetch.AmiResultKeepsIntervalEntry | custom_components/national_grid/coordinator.py:422-482 | a service point without an electric AMI node keeps its previous interval reads |
| Fetch.AmiStepFacts | custom_components/national_grid/coordinator.py:341-482 | one meter's step fails exactly when its AMI query, or for a meter other than gas its interval query, raises an exception no handler names, with that exception; otherwise a successful AMI query of an AMI meter with a service point is always stored under it, and so is a successful interval query of such a meter other than gas, and nothing else changes those entries |
| Fetch.AmiResultSucceeds | custom_components/national_grid/coordinator.py:322-482 | when every failure is a client error, the AMI stage always completes |
| Fetch.AccountResultSucceeds | custom_components/national_grid/coordinator.py:195-246 | when every failure is a client error, an account's fetch fails exactly when its billing query does, with that error |
| Fetch.AccountsResultRecordsFetched | custom_components/national_grid/coordinator.py:147-161 | when every failure is a client error, the account loop fails exactly when some billing query is refused for authentication, and then with that error; otherwise every selected account with a billing account has it, its usages and its costs recorded |
| Fetch.RefreshRecordsFetched | custom_components/national_grid/coordinator.py:125-161 | when every failure is a client error, `_fetch_all_data` raises only an auth error, exactly when some billing query is refused; otherwise it returns every reachable selected account's billing account, usages and costs under the run's first-refresh flag |
| Fetch.AccountResultRecords | custom_components/national_grid/coordinator.py:195-246 | an account's fetch records its billing account, its meters, and its usages and costs; a client error can come only from the billing query |
| Fetch.AccountsResultFaults | custom_components/national_grid/coordinator.py:147-161 | the account loop ends early only on an auth error or an unhandled exception, and otherwise keeps the snapshot's flag |
| Fetch.AccountsResultKeepsOthers | custom_components/national_grid/coordinator.py:147-161 | an account outside the selection keeps its accounts, usages and costs entries |
| Fetch.UnreachableAccountIsSkipped | custom_components/national_grid/coordinator.py:147-161 | a connection, retry or other client error on one account makes the loop's result that of the other accounts |
| Fetch.AllAccountsUnreachable | custom_components/national_grid/coordinator.py:147-161 | if every account is unreachable, the seeded snapshot is returned unchanged |
| Fetch.FetchMeterData | custom_components/national_grid/coordinator.py:342-482 | the body of the meter loop yields the specified step |
| Fetch.FetchAmiData | custom_components/national_grid/coordinator.py:322-482 | `_fetch_ami_data` yields the specified result |
| Fetch.FetchAccountData | custom_components/national_grid/coordinator.py:195-246 | `_fetch_account_data` yields the specified result |
| UpdateCoordinator.OutcomeOf | custom_components/national_grid/coordinator.py:96-115 | success passes the snapshot on; an auth error becomes `ConfigEntryAuthFailed`; other client errors become `UpdateFailed`; the rest propagate |
| UpdateCoordinator.RefreshNeverFailsUpdate | custom_components/national_grid/coordinator.py:102-110 | a refresh never ends in `UpdateFailed`, because the account loop absorbs those errors |
| UpdateCoordinator.UnreachableAccountsKeepPreviousData | custom_components/national_grid/coordinator.py:124-161 | when every account is unreachable, the refresh still succeeds with the previous data |
| UpdateCoordinator.UnreachableAccountChangesNothingElse | custom_components/national_grid/coordinator.py:147-161 | one unreachable account leaves the refresh as if it were not selected |
| UpdateCoordinator.RefreshKeepsUnselectedAccounts | custom_components/national_grid/coordinator.py:124-161 | a successful refresh carries its starting flag and keeps an unselected account's previous entries |
| UpdateCoordinator.Coordinator.constructor | custom_components/national_grid/coordinator.py:93-94 | a new coordinator has no data, is on its first refresh, and is healthy |
| UpdateCoordinator.Coordinator.FetchAllData | custom_components/national_grid/coordinator.py:117-179 | `_fetch_all_data` returns the specified refresh, stamps it with the starting flag, and clears the flag only when it returns normally |
| UpdateCoordinator.Coordinator.HandleFetchResult | custom_components/national_grid/coordinator.py:96-115 | the health flag drops on `UpdateFailed` and rises on success; the warning and the recovery line are written only on a change |
| UpdateCoordinator.Coordinator.AsyncUpdateData | custom_components/national_grid/coordinator.py:96-115 | the update's outcome and flags, which never include `UpdateFailed` or its warning |
| UpdateCoordinator.Coordinator.Refresh | custom_components/national_grid/coordinator.py:96-115 | a successful update replaces the data; a failed one keeps it |
| UpdateCoordinator.Coordinator.ResetToFirstRefresh | custom_components/national_grid/coordinator.py:602-615 | the next refresh is a first refresh again |
| Queries.MeterDataFor | custom_components/national_grid/coordinator.py:484-488 | the meter data is present exactly when there is a snapshot with that service point |
| Queries.FilterKeepsExactlyMatches | custom_components/national_grid/coordinator.py:509 | a comprehension filter keeps every matching element, in order, each as often as it occurs, and nothing else |
| Queries.FirstMaxIndex | custom_components/national_grid/coordinator.py:521 | `max` with a key picks an element of maximal key, the first such |
| Queries.LatestDateIndexIsLatest | custom_components/national_grid/coordinator.py:600 | the chosen reading has the greatest date string, and every earlier reading a smaller one |
| Queries.UsageTypeFor | custom_components/national_grid/coordinator.py:504-508 | Electric becomes TOTAL_KWH and Gas becomes THERMS; anything else is upper-cased |
| Queries.AllUsages | custom_components/national_grid/coordinator.py:551-570 | without a filter, the stored list; with one, exactly the records of the mapped usage type, in order, each as often as stored |
| Queries.AllCosts | custom_components/national_grid/coordinator.py:572-591 | without a filter, the stored list; with one, exactly the records whose fuel type is the filter as given or upper-cased, in order, each as often as stored |
| Queries.LatestUsage | custom_components/national_grid/coordinator.py:490-521 | None exactly when nothing matches; otherwise the first matching record of greatest `usageYearMonth` |
| Queries.LatestCost | custom_components/national_grid/coordinator.py:523-549 | None exactly when nothing matches; otherwise the first matching record of greatest `month` |
| Queries.LatestAmiUsage | custom_components/national_grid/coordinator.py:593-600 | None exactly when there are no readings; otherwise the first reading with the greatest date string |
| DeviceEntity.NoMeterDataDevice | custom_components/national_grid/entity.py:46-52 | without meter data, only the identifiers, serial `sp`, name `Meter <sp>` and the manufacturer are set |
| DeviceEntity.NameSerialAndModel | custom_components/national_grid/entity.py:57-77 | the name and serial with their fallbacks; the model by AMI, then smart, then standard, prefixed by the fuel |
| DeviceEntity.SuggestedAreaBeforeFirstComma | custom_components/national_grid/entity.py:110-115 | an area exists exactly when the address has a comma; it is the stripped, title-cased text before the first comma |
| DeviceEntity.SoftwareVersionParts | custom_components/national_grid/entity.py:119-128 | `sw_version` exists exactly when one of its three parts does, and starts with the first part present |
| DeviceEntity.SoftwareVersionInOrder | custom_components/national_grid/entity.py:119-128 | with all three parts present: device code, then region, then customer type, separated by ` \| ` |
| DeviceEntity.HardwareVersionLeadsWithServicePoint | custom_components/national_grid/entity.py:131-139 | `hw_version` always exists and begins with `SP: <sp>`, which is all of it when there is no meter point and no premise |
| DeviceEntity.HardwareVersionInOrder | custom_components/national_grid/entity.py:131-139 | with both optional parts present: service point, then meter point, then premise |
| DeviceEntity.BuildDeviceInfo | custom_components/national_grid/entity.py:33-141 | the step-by-step builder returns the specified record |
| DeviceEntity.BuildSuggestedArea | custom_components/national_grid/entity.py:110-115 | the address step yields the specified area |
| DeviceEntity.BuildVersionParts | custom_components/national_grid/entity.py:119-126 | the appended parts are the specified version parts |
| DeviceEntity.BuildHardwareParts | custom_components/national_grid/entity.py:131-137 | the appended parts are the specified hardware parts |
| DeviceEntity.Entity.constructor | custom_components/national_grid/entity.py:23-31 | the entity keeps its coordinator and service point, and builds its device record from the meter data |
| DeviceEntity.Entity.AccountId | custom_components/national_grid/entity.py:143-147 | None exactly when there is no meter data; otherwise its account ID |
| DeviceEntity.Entity.Meter | custom_components/national_grid/entity.py:149-153 | None exactly when there is no meter data; otherwise its meter |
| DeviceEntity.Entity.BillingAccount | custom_components/national_grid/entity.py:155-159 | None exactly when there is no meter data; otherwise its billing account |

## Left out

- **I/O and foreign code.** The utility client (`aionatgrid`), the recorder
  (`get_last_statistics`, `async_add_external_statistics`), the aiohttp
  session, and Home Assistant's `DataUpdateCoordinator`/`CoordinatorEntity`
  machinery are inputs and outputs of the model:
  - the API is a value of total query functions;
  - the recorder is a function from statistic ID to its last row, plus the
    returned write;
  - the framework is `Coordinator.Refresh`.
- **The clock.** It is a parameter: `today` and `now` are read once per
  refresh or statistics pass. The Python code calls `datetime.now` again for
  each meter's interval query. It also calls it once per
  `_import_hourly_stats` call to set that import's cutoff, while the model
  gives every import of one pass the same `now` (`StatisticsImport.RunContext`).
- **Date and time handling.** Parsing is a parameter from ISO 8601 text to
  epoch seconds, absent where `fromisoformat` raises. Timezones and `strftime`
  formats are not modelled. The interval query gets its start as an instant,
  not as text.
- **Numbers and text.** Quantities are reals:
  - `float()` coercion and floating-point rounding are not modelled;
  - `therms_to_ccf` is a parameter, so its rounding to two places is not
    modelled;
  - `str.title`, `str.upper` and `str.strip` are parameters.
- **Logging.** Logging, and the `skipped_old`/`skipped_filtered` counters that
  only feed log lines, are left out. The health warning and the recovery line
  are modelled as `HealthLog`.
- **Async execution.** `await` and scheduling are not modelled. The code has
  no concurrent access to its own state.
- **Dictionary order.** The order of dictionary iteration and of statistics
  writes is not modelled. The snapshot's maps are Dafny maps, and
  `ImportAllStatistics` returns a map from series to write.
  - Each series is written at most once per pass, and distinct series have
    distinct IDs (`StatisticsImport.PlannedWritesAreDistinct`).
  - So the store row each import reads back is the one from before the pass.
- **Field defaults.** A key missing from an API dictionary is the default the
  Python code passes to `.get`. A missing billing account field is the empty
  string, so "no billing account" and "a billing account with empty fields"
  coincide.
- **Exception hierarchy.** `InvalidAuthError` is taken to be a kind of
  `NationalGridError`. So the usage, cost, AMI and interval handlers absorb it,
  and only the billing query passes it on to the account loop.
  `aionatgrid` is not part of this model.
- **Nested exceptions.** An exception raised inside a handler, or by
  `str()`/`.get` on malformed records, is not modelled.
- **The interval import flag.** The interval import receives
  `is_first_refresh` but does not use it, and neither does the model.
- **Equal timestamps.** Several hourly readings in the same hour each become a
  point in date order, as the Python code does. The model does not say how the
  recorder merges them.
- HourlyImport.SortByDate: the sort is modelled as a stable insertion
  sort. For readings with equal date strings it gives the order Python's
  stable `sorted` does, but that equality of order is not stated as a lemma.
- DeviceEntity.SoftwareVersionInOrder: the full `sw_version` string is
  stated only when all three parts are present. With one part it is that part,
  and with two parts only its first part is stated
  (`DeviceEntity.SoftwareVersionParts`).
- DeviceEntity.HardwareVersionInOrder: the full `hw_version` string is
  stated only when both optional parts are present, or when neither is. With
  one optional part only its leading `SP: <sp>` is stated.
- **The integration's other files.** The `nationalgrid` package (config flow,
  setup, switch, constants) and `data.py` are not part of this model.
- **IDs and names the tests expect.**
  - `tests/test_statistics.py` expects the IDs `<sp>_hourly_usage` and
    `<sp>_interval_usage`, but the code builds `_electric_hourly_usage` and
    `_electric_interval_usage`. The model follows the code.
  - The two "existing sum" tests store their mocked row under those test IDs,
    which the code never looks up. Under the code those tests therefore see no
    stored row and write both hours. The `ExampleContinuesStoredSum` examples
    instead give the stored row (sum 10.0, or 5.0, at the first hour) directly
    as the baseline of the series' own ID.
  - `tests/test_entity.py` expects the name to be the meter number, but the
    code names an electric meter "Electric Meter". The model follows the code.
  - The hourly tests in `tests/test_statistics.py` build their snapshot
    without setting `is_first_refresh`, so it keeps its default `False`. The
    code then applies the 48-hour cutoff against the wall clock, which the
    tests do not fix. The tests' numbers follow only on a first refresh or
    with the clock within 48 hours of the readings, and the examples state
    that condition. `ExampleStaleClockWritesNothing` shows that with a later
    clock the code writes nothing.
  - `tests/test_coordinator.py` targets a different client API and is not
    modelled.
