/** What the dashboard component and the dashboard service share: the item record, the
    built-in sample list, the per-status counts and the status-to-CSS-class rule
    (src/app/dashboard/dashboard.component.ts; the service repeats the same item type
    and sample list). */
module DashboardData {

  const Active := "active"
  const Inactive := "inactive"
  const Warning := "warning"
  const ErrorStatus := "error"

  /** `lastUpdated` is the date text the API sends (`D = string`) or the parsed date as
      milliseconds since the epoch (`D = int`). */
  datatype DashboardItem<D> = DashboardItem(id: int, title: string, description: string, status: string, lastUpdated: D)

  const DayMillis := 86400000

  /** `getMockData()` at the time `now`: five items, ids 1 to 5, the first two fresh, the
      others one, two and three days old. */
  function MockData(now: int): (items: seq<DashboardItem<int>>)
    ensures |items| == 5
    ensures forall i :: 0 <= i < 5 ==> items[i].id == i + 1
    ensures forall i :: 0 <= i < 5 ==> items[i].lastUpdated == now - (if i < 2 then 0 else (i - 1) * DayMillis)
    ensures [items[0].status, items[1].status, items[2].status, items[3].status, items[4].status]
         == [Active, Active, Warning, ErrorStatus, Inactive]
  {
    [ DashboardItem(1, "System Status", "Overall system health check", Active, now),
      DashboardItem(2, "Database Connection", "Database connectivity status", Active, now),
      DashboardItem(3, "API Services", "External API service status", Warning, now - 86400000),
      DashboardItem(4, "Storage Usage", "Server storage capacity", ErrorStatus, now - 172800000),
      DashboardItem(5, "User Activity", "Recent user login activity", Inactive, now - 259200000) ]
  }

  /** The success mapping `{ ...item, lastUpdated: new Date(item.lastUpdated) }`, with
      `parseDate` standing for the date parser: same length and order, every field but
      the date copied. */
  function WithDates(items: seq<DashboardItem<string>>, parseDate: string -> int): (r: seq<DashboardItem<int>>)
    ensures |r| == |items|
    ensures forall i :: 0 <= i < |items| ==>
      && r[i].id == items[i].id && r[i].title == items[i].title
      && r[i].description == items[i].description && r[i].status == items[i].status
      && r[i].lastUpdated == parseDate(items[i].lastUpdated)
  {
    seq(|items|, i requires 0 <= i < |items| =>
      var item := items[i];
      DashboardItem(item.id, item.title, item.description, item.status, parseDate(item.lastUpdated)))
  }

  /** `items.filter(item => item.status === status).length` */
  function CountStatus<D>(items: seq<DashboardItem<D>>, status: string): (n: nat)
    ensures n <= |items|
    ensures n == 0 <==> forall i :: 0 <= i < |items| ==> items[i].status != status
    decreases |items|
  {
    if items == [] then 0
    else (if items[0].status == status then 1 else 0) + CountStatus(items[1..], status)
  }

  /** The active, warning and error counts never add up to more than the total. */
  lemma {:induction false} CountsWithinTotal<D>(items: seq<DashboardItem<D>>)
    ensures CountStatus(items, Active) + CountStatus(items, Warning) + CountStatus(items, ErrorStatus) <= |items|
    decreases |items|
  {
    if items != [] {
      CountsWithinTotal(items[1..]);
    }
  }

  /** Parsing the dates does not change any count. */
  lemma {:induction false} CountWithDates(items: seq<DashboardItem<string>>, parseDate: string -> int, status: string)
    ensures CountStatus(WithDates(items, parseDate), status) == CountStatus(items, status)
    decreases |items|
  {
    if items != [] {
      var r := WithDates(items, parseDate);
      assert r[1..] == WithDates(items[1..], parseDate);
      CountWithDates(items[1..], parseDate, status);
    }
  }

  function Indicator(b: bool): nat { if b then 1 else 0 }

  lemma CountFive<D>(items: seq<DashboardItem<D>>, status: string)
    requires |items| == 5
    ensures CountStatus(items, status) ==
      Indicator(items[0].status == status) + Indicator(items[1].status == status)
      + Indicator(items[2].status == status) + Indicator(items[3].status == status)
      + Indicator(items[4].status == status)
  {
    var t4 := items[4..];
    assert CountStatus(t4[1..], status) == 0;
    assert CountStatus(items[3..], status) == Indicator(items[3].status == status) + CountStatus(t4, status) by {
      assert items[3..][1..] == t4;
    }
    assert CountStatus(items[2..], status) == Indicator(items[2].status == status) + CountStatus(items[3..], status) by {
      assert items[2..][1..] == items[3..];
    }
    assert CountStatus(items[1..], status) == Indicator(items[1].status == status) + CountStatus(items[2..], status) by {
      assert items[1..][1..] == items[2..];
    }
  }

  /** The sample list counts two active items, one warning, one error and one inactive. */
  lemma MockCounts(now: int)
    ensures CountStatus(MockData(now), Active) == 2
    ensures CountStatus(MockData(now), Warning) == 1
    ensures CountStatus(MockData(now), ErrorStatus) == 1
    ensures CountStatus(MockData(now), Inactive) == 1
  {
    var m := MockData(now);
    assert Active[0] != Warning[0] && Active[0] != ErrorStatus[0] && Warning[0] != ErrorStatus[0];
    assert Inactive[0] != Active[0] && Inactive[0] != Warning[0] && Inactive[0] != ErrorStatus[0];
    CountFive(m, Active);
    CountFive(m, Warning);
    CountFive(m, ErrorStatus);
    CountFive(m, Inactive);
  }

  predicate IsKnownStatus(status: string) {
    status == Active || status == Inactive || status == Warning || status == ErrorStatus
  }

  /** `getStatusClass`: "status-" followed by the status for the four known ones, and
      no class for anything else. */
  function StatusClass(status: string): (r: string)
    ensures IsKnownStatus(status) ==> r == "status-" + status
    ensures !IsKnownStatus(status) ==> r == ""
  {
    match status
    case "active" => "status-active"
    case "inactive" => "status-inactive"
    case "warning" => "status-warning"
    case "error" => "status-error"
    case _ => ""
  }
}
