/** The dashboard page: loads the items, falls back to the sample list on any HTTP error,
    and keeps summary counts (src/app/dashboard/dashboard.component.ts). */
module DashboardPage {
  import opened Http
  import opened DashboardData

  /** The page's own `getDashboardData()`, given the reply to `GET /api/dashboard`, the
      date parser and the current time: the items with parsed dates on success, the
      sample list on any error. It never fails. */
  function LoadDashboard(reply: HttpReply<seq<DashboardItem<string>>>, parseDate: string -> int, now: int): (r: seq<DashboardItem<int>>)
    ensures reply.Failure? ==> r == MockData(now)
    ensures reply.Success? ==> r == WithDates(reply.body, parseDate)
  {
    match reply
    case Success(items) => WithDates(items, parseDate)
    case Failure(_) => MockData(now)
  }

  class DashboardComponent {
    var dashboardItems: seq<DashboardItem<int>>
    var loading: bool
    var error: bool
    var totalItems: nat
    var activeItems: nat
    var warningItems: nat
    var errorItems: nat

    /** The summary counts describe the items shown. */
    ghost predicate Valid()
      reads this
    {
      && totalItems == |dashboardItems|
      && activeItems == CountStatus(dashboardItems, Active)
      && warningItems == CountStatus(dashboardItems, Warning)
      && errorItems == CountStatus(dashboardItems, ErrorStatus)
    }

    constructor()
      ensures Valid() && dashboardItems == [] && loading && !error
    {
      dashboardItems := [];
      loading, error := true, false;
      totalItems, activeItems, warningItems, errorItems := 0, 0, 0, 0;
    }

    method CalculateStats()
      modifies this`totalItems, this`activeItems, this`warningItems, this`errorItems
      ensures Valid()
      ensures activeItems + warningItems + errorItems <= totalItems
    {
      totalItems := |dashboardItems|;
      activeItems := CountStatus(dashboardItems, Active);
      warningItems := CountStatus(dashboardItems, Warning);
      errorItems := CountStatus(dashboardItems, ErrorStatus);
      CountsWithinTotal(dashboardItems);
    }

    /** `fetchDashboardData()` once the request has been answered: the `next` callback
        with what `getDashboardData()` delivers for `reply`. After an error the page shows
        the five sample items and their counts, and `error` stays as it was. */
    method FetchDashboardData(reply: HttpReply<seq<DashboardItem<string>>>, parseDate: string -> int, now: int)
      modifies this
      ensures Valid() && !loading && error == old(error)
      ensures dashboardItems == LoadDashboard(reply, parseDate, now)
      ensures reply.Failure? ==> totalItems == 5 && activeItems == 2 && warningItems == 1 && errorItems == 1
      ensures reply.Success? ==>
        && totalItems == |reply.body|
        && activeItems == CountStatus(reply.body, Active)
        && warningItems == CountStatus(reply.body, Warning)
        && errorItems == CountStatus(reply.body, ErrorStatus)
    {
      dashboardItems := LoadDashboard(reply, parseDate, now);
      CalculateStats();
      loading := false;
      if reply.Failure? {
        MockCounts(now);
      } else {
        CountWithDates(reply.body, parseDate, Active);
        CountWithDates(reply.body, parseDate, Warning);
        CountWithDates(reply.body, parseDate, ErrorStatus);
      }
    }

    /** The subscription's `error` callback. `LoadDashboard` never fails, so the page
        itself never takes this path. */
    method OnFetchError()
      requires Valid()
      modifies this`error, this`loading
      ensures Valid() && error && !loading
    {
      error := true;
      loading := false;
    }

    /** Marks the page as loading; `FetchDashboardData` completes the new request. */
    method RefreshData()
      requires Valid()
      modifies this`loading
      ensures Valid() && loading
    {
      loading := true;
    }
  }
}
