/** `NationalGridDataUpdateCoordinator`: the two flags it keeps between
    refreshes (first refresh, last update succeeded), the account loop of
    `_fetch_all_data`, the error handling of `_async_update_data`, and
    `reset_to_first_refresh`. The snapshot it holds is what the update
    framework stored after the last successful refresh. */
module UpdateCoordinator {
  import opened Text
  import opened Calendar
  import opened Records
  import opened Fetch

  /** How `_async_update_data` ends: with the new snapshot, with
      `ConfigEntryAuthFailed`, with `UpdateFailed`, or with an exception it
      does not handle. */
  datatype UpdateOutcome =
    | Updated(snapshot: Snapshot)
    | AuthFailed
    | UpdateFailed(cause: Fault)
    | Raised(exception: Fault)

  /** The log line `_async_update_data` writes about the service's health. */
  datatype HealthLog = Quiet | WarnUnavailable | InfoRecovered

  /** The outcome for a fetch result: success passes the snapshot on, an auth
      error becomes `ConfigEntryAuthFailed`, any other client error
      `UpdateFailed`, and anything else propagates. */
  function OutcomeOf(r: Result<Snapshot>): (o: UpdateOutcome)
    ensures o.Updated? <==> r.Ok?
    ensures o.Updated? ==> o.snapshot == r.value
    ensures o == AuthFailed <==> r == Err(InvalidAuth)
    ensures o.UpdateFailed? <==> r.Err? && r.fault != InvalidAuth && IsLibraryError(r.fault)
    ensures o.UpdateFailed? ==> o.cause == r.fault
    ensures o.Raised? ==> o.exception == r.fault
  {
    match r
    case Ok(s) => Updated(s)
    case Err(e) =>
      if e == InvalidAuth then AuthFailed
      else if IsLibraryError(e) then UpdateFailed(e)
      else Raised(e)
  }

  /** A refresh never ends in `UpdateFailed`: every error the handler would
      turn into one is absorbed inside the account loop. */
  lemma RefreshNeverFailsUpdate(api: Api, prev: Option<Snapshot>, accounts: seq<string>, first: bool, today: Date, now: int)
    requires ValidDate(today)
    ensures !OutcomeOf(RefreshResult(api, prev, accounts, first, today, now)).UpdateFailed?
  {
    AccountsResultFaults(api, accounts, today, now, FromMonth(today, first), SeedFromPrevious(prev).(isFirstRefresh := first));
  }

  /** A refresh whose selected accounts all fail with connection, retry or
      other client errors still succeeds, with the previous snapshot's
      data under the new first-refresh flag. */
  lemma UnreachableAccountsKeepPreviousData(api: Api, prev: Option<Snapshot>, accounts: seq<string>, first: bool, today: Date, now: int)
    requires ValidDate(today)
    requires forall i :: 0 <= i < |accounts| ==>
      api.billingAccount(accounts[i]) in {Err(CannotConnect), Err(RetryExhausted), Err(ProviderError)}
    ensures RefreshResult(api, prev, accounts, first, today, now) == Ok(SeedFromPrevious(prev).(isFirstRefresh := first))
  {
    AllAccountsUnreachable(api, accounts, today, now, FromMonth(today, first), SeedFromPrevious(prev).(isFirstRefresh := first));
  }

  /** One selected account failing with a connection, retry or other client
      error changes nothing about the refresh except that account's own
      fetch: the outcome is the refresh of the other accounts. */
  lemma UnreachableAccountChangesNothingElse(api: Api, prev: Option<Snapshot>, accounts: seq<string>, i: nat, first: bool, today: Date, now: int)
    requires ValidDate(today)
    requires i < |accounts|
    requires api.billingAccount(accounts[i]) in {Err(CannotConnect), Err(RetryExhausted), Err(ProviderError)}
    ensures RefreshResult(api, prev, accounts, first, today, now)
      == RefreshResult(api, prev, accounts[..i] + accounts[i + 1..], first, today, now)
  {
    UnreachableAccountIsSkipped(api, accounts, i, today, now, FromMonth(today, first), SeedFromPrevious(prev).(isFirstRefresh := first));
  }

  /** A successful refresh carries the first-refresh flag it started with and
      keeps, for every account outside the selection, the previous
      snapshot's entries. */
  lemma RefreshKeepsUnselectedAccounts(api: Api, prev: Option<Snapshot>, accounts: seq<string>, first: bool, today: Date, now: int, other: string)
    requires ValidDate(today)
    requires other !in accounts
    ensures var r := RefreshResult(api, prev, accounts, first, today, now);
      var s := SeedFromPrevious(prev);
      r.Ok? ==> (r.value.isFirstRefresh == first
        && (other in r.value.accounts <==> other in s.accounts)
        && (other in s.accounts ==> r.value.accounts[other] == s.accounts[other])
        && (other in r.value.usages <==> other in s.usages)
        && (other in s.usages ==> r.value.usages[other] == s.usages[other])
        && (other in r.value.costs <==> other in s.costs)
        && (other in s.costs ==> r.value.costs[other] == s.costs[other]))
  {
    AccountsResultKeepsOthers(api, accounts, today, now, FromMonth(today, first), SeedFromPrevious(prev).(isFirstRefresh := first), other);
  }

  class Coordinator {
    /** The snapshot of the last successful refresh (`self.data`). */
    var data: Option<Snapshot>
    /** `_is_first_refresh`. */
    var isFirstRefresh: bool
    /** `_last_update_success`. */
    var lastUpdateSuccess: bool
    /** The config entry's `selected_accounts`. */
    const selectedAccounts: seq<string>

    /** A new coordinator has no data, is due a full historical import and
        counts as healthy. */
    constructor (selectedAccounts: seq<string>)
      ensures data == None && isFirstRefresh && lastUpdateSuccess
      ensures this.selectedAccounts == selectedAccounts
    {
      this.selectedAccounts := selectedAccounts;
      data := None;
      isFirstRefresh := true;
      lastUpdateSuccess := true;
    }

    /** `_fetch_all_data`. The snapshot is seeded from the previous one and
        marked with the first-refresh flag; the flag is cleared only when the
        account loop completes. */
    method FetchAllData(api: Api, today: Date, now: int) returns (r: Result<Snapshot>)
      requires ValidDate(today)
      modifies this`isFirstRefresh
      ensures r == RefreshResult(api, data, selectedAccounts, old(isFirstRefresh), today, now)
      ensures isFirstRefresh == (old(isFirstRefresh) && r.Err?)
      ensures r.Ok? ==> r.value.isFirstRefresh == old(isFirstRefresh)
    {
      var first := isFirstRefresh;
      var cur := SeedFromPrevious(data).(isFirstRefresh := first);
      var fromMonth := FromMonth(today, first);
      ghost var seed := cur;
      var accounts := selectedAccounts;
      var i := 0;
      while i < |accounts|
        invariant 0 <= i <= |accounts|
        invariant isFirstRefresh == first
        invariant AccountsResult(api, accounts[i..], today, now, fromMonth, cur)
          == AccountsResult(api, accounts, today, now, fromMonth, seed)
        decreases |accounts| - i
      {
        var a := FetchAccountData(api, accounts[i], today, now, fromMonth, cur);
        assert accounts[i..][0] == accounts[i] && accounts[i..][1..] == accounts[i + 1..];
        match a {
          case Ok(next) => cur := next;
          case Err(e) =>
            if e == InvalidAuth || !IsLibraryError(e) {
              return Err(e);
            }
        }
        i := i + 1;
      }
      AccountsResultFaults(api, accounts, today, now, fromMonth, seed);
      isFirstRefresh := false;
      r := Ok(cur);
    }

    /** The handlers of `_async_update_data` given the fetch result. The
        health flag drops on `UpdateFailed` and rises on success; the warning
        and the recovery line are written only when it changes. */
    method HandleFetchResult(r: Result<Snapshot>) returns (o: UpdateOutcome, log: HealthLog)
      modifies this`lastUpdateSuccess
      ensures o == OutcomeOf(r)
      ensures lastUpdateSuccess == (if o.Updated? then true else if o.UpdateFailed? then false else old(lastUpdateSuccess))
      ensures log == WarnUnavailable <==> old(lastUpdateSuccess) && o.UpdateFailed?
      ensures log == InfoRecovered <==> !old(lastUpdateSuccess) && o.Updated?
    {
      log := Quiet;
      match r {
        case Ok(s) =>
          if !lastUpdateSuccess {
            log := InfoRecovered;
          }
          lastUpdateSuccess := true;
          o := Updated(s);
        case Err(e) =>
          if e == InvalidAuth {
            o := AuthFailed;
          } else if IsLibraryError(e) {
            if lastUpdateSuccess {
              log := WarnUnavailable;
            }
            lastUpdateSuccess := false;
            o := UpdateFailed(e);
          } else {
            o := Raised(e);
          }
      }
    }

    /** `_async_update_data`. */
    method AsyncUpdateData(api: Api, today: Date, now: int) returns (o: UpdateOutcome, log: HealthLog)
      requires ValidDate(today)
      modifies this`isFirstRefresh, this`lastUpdateSuccess
      ensures o == OutcomeOf(RefreshResult(api, data, selectedAccounts, old(isFirstRefresh), today, now))
      ensures !o.UpdateFailed? && log != WarnUnavailable
      ensures isFirstRefresh == (old(isFirstRefresh) && !o.Updated?)
      ensures lastUpdateSuccess == (old(lastUpdateSuccess) || o.Updated?)
      ensures log == InfoRecovered <==> !old(lastUpdateSuccess) && o.Updated?
    {
      ghost var first := isFirstRefresh;
      var r := FetchAllData(api, today, now);
      RefreshNeverFailsUpdate(api, data, selectedAccounts, first, today, now);
      o, log := HandleFetchResult(r);
    }

    /** One refresh as the update framework runs it: the snapshot of a
        successful update replaces the coordinator's data; otherwise the data
        is kept. */
    method Refresh(api: Api, today: Date, now: int) returns (o: UpdateOutcome, log: HealthLog)
      requires ValidDate(today)
      modifies this
      ensures o == OutcomeOf(RefreshResult(api, old(data), selectedAccounts, old(isFirstRefresh), today, now))
      ensures data == (if o.Updated? then Some(o.snapshot) else old(data))
      ensures isFirstRefresh == (old(isFirstRefresh) && !o.Updated?)
      ensures lastUpdateSuccess == (old(lastUpdateSuccess) || o.Updated?)
    {
      o, log := AsyncUpdateData(api, today, now);
      if o.Updated? {
        data := Some(o.snapshot);
      }
    }

    /** `reset_to_first_refresh`: the next refresh imports the full history
        again; nothing else changes. */
    method ResetToFirstRefresh()
      modifies this`isFirstRefresh
      ensures isFirstRefresh
    {
      isFirstRefresh := true;
    }
  }
}
