/** The dashboard home page (app/dashboard/page.tsx): it loads the tenant's
    report once, then derives "this month" figures from the report's daily
    metric points. Dates are instants as integers and the first instant of
    the current month is a parameter, so no clock is read. */
module DashboardHome {
  import opened Http
  import ReportApi

  const NoTenantMessage := "No tenant ID found in session"
  const LoadFailure := "Failed to load dashboard data"
  const SessionKey := "tenantName"
  /** The window the page asks for, passed explicitly. */
  const PageWindow := 30

  /** One daily observation of a report. */
  datatype MetricPoint = MetricPoint(date: int, users: int, trips: int, storageGB: real)

  /** The parts of a tenant report the page reads; a missing total or a
      missing `metrics` array is `None`. */
  datatype Report = Report(
    activeUsers: Option<int>,
    totalTrips: Option<int>,
    totalStorageGB: Option<real>,
    monthlyCost: Option<real>,
    metrics: Option<seq<MetricPoint>>)

  // ---- the month window ----

  /** `metrics.filter(m => m.date >= startOfMonth)`. */
  function ThisMonth(metrics: seq<MetricPoint>, startOfMonth: int): (w: seq<MetricPoint>)
    ensures |w| <= |metrics|
    ensures forall i :: 0 <= i < |w| ==> w[i].date >= startOfMonth
    ensures forall m :: m in w <==> m in metrics && m.date >= startOfMonth
  {
    if metrics == [] then []
    else
      var rest := ThisMonth(metrics[1..], startOfMonth);
      if metrics[0].date >= startOfMonth then [metrics[0]] + rest else rest
  }

  /** Filtering distributes over concatenation: the window keeps the
      original order of the points it keeps. */
  lemma {:induction false} ThisMonthAppend(a: seq<MetricPoint>, b: seq<MetricPoint>, startOfMonth: int)
    ensures ThisMonth(a + b, startOfMonth) == ThisMonth(a, startOfMonth) + ThisMonth(b, startOfMonth)
  {
    if a == [] {
      assert a + b == b;
    } else {
      assert (a + b)[0] == a[0];
      assert (a + b)[1..] == a[1..] + b;
      ThisMonthAppend(a[1..], b, startOfMonth);
    }
  }

  /** A point dated before the month start is dropped, one dated on or after
      it is kept. */
  lemma ThisMonthSingle(m: MetricPoint, startOfMonth: int)
    ensures ThisMonth([m], startOfMonth) == if m.date >= startOfMonth then [m] else []
  {
    assert [m][1..] == [];
  }

  predicate SortedByDate(metrics: seq<MetricPoint>) {
    forall i, j :: 0 <= i < j < |metrics| ==> metrics[i].date <= metrics[j].date
  }

  lemma SortedTail(metrics: seq<MetricPoint>)
    requires metrics != [] && SortedByDate(metrics)
    ensures SortedByDate(metrics[1..])
  {
    var rest := metrics[1..];
    forall i, j | 0 <= i < j < |rest| ensures rest[i].date <= rest[j].date {
      assert rest[i] == metrics[i + 1] && rest[j] == metrics[j + 1];
    }
  }

  /** On a date-ordered sequence the window is a suffix: everything from the
      first point dated on or after the month start; every point before it
      is dated before the month start. */
  lemma {:induction false} ThisMonthOfSortedIsSuffix(metrics: seq<MetricPoint>, startOfMonth: int)
    requires SortedByDate(metrics)
    ensures |ThisMonth(metrics, startOfMonth)| <= |metrics|
    ensures ThisMonth(metrics, startOfMonth) == metrics[|metrics| - |ThisMonth(metrics, startOfMonth)|..]
    ensures forall i :: 0 <= i < |metrics| - |ThisMonth(metrics, startOfMonth)| ==>
              metrics[i].date < startOfMonth
  {
    if metrics != [] {
      var w := ThisMonth(metrics, startOfMonth);
      if metrics[0].date >= startOfMonth {
        AllInMonthKept(metrics, startOfMonth);
      } else {
        var rest := metrics[1..];
        SortedTail(metrics);
        ThisMonthOfSortedIsSuffix(rest, startOfMonth);
        assert w == ThisMonth(rest, startOfMonth);
        var k := |metrics| - |w|;
        assert metrics[k..] == rest[k - 1..];
        forall i | 0 <= i < k ensures metrics[i].date < startOfMonth {
          if i > 0 { assert metrics[i] == rest[i - 1]; }
        }
      }
    }
  }

  /** When every point is in the month, the window is the whole sequence. */
  lemma {:induction false} AllInMonthKept(metrics: seq<MetricPoint>, startOfMonth: int)
    requires forall i :: 0 <= i < |metrics| ==> metrics[i].date >= startOfMonth
    ensures ThisMonth(metrics, startOfMonth) == metrics
  {
    if metrics != [] {
      AllInMonthKept(metrics[1..], startOfMonth);
    }
  }

  // ---- deltas ----

  function Users(ms: seq<MetricPoint>): (xs: seq<int>)
    ensures |xs| == |ms| && forall i :: 0 <= i < |ms| ==> xs[i] == ms[i].users
  {
    seq(|ms|, i requires 0 <= i < |ms| => ms[i].users)
  }

  function Trips(ms: seq<MetricPoint>): (xs: seq<int>)
    ensures |xs| == |ms| && forall i :: 0 <= i < |ms| ==> xs[i] == ms[i].trips
  {
    seq(|ms|, i requires 0 <= i < |ms| => ms[i].trips)
  }

  function Storage(ms: seq<MetricPoint>): (xs: seq<real>)
    ensures |xs| == |ms| && forall i :: 0 <= i < |ms| ==> xs[i] == ms[i].storageGB
  {
    seq(|ms|, i requires 0 <= i < |ms| => ms[i].storageGB)
  }

  /** `xs.length > 0 ? xs[xs.length - 1] - (xs[0] || 0) : 0` for counters.
      Every counter here is present, and for a present counter the `|| 0`
      guard changes nothing (a present 0 is already 0), so it is left out. */
  function LastMinusFirst(xs: seq<int>): int {
    if |xs| > 0 then xs[|xs| - 1] - xs[0] else 0
  }

  /** The same for the real-valued storage figure. */
  function LastMinusFirstReal(xs: seq<real>): real {
    if |xs| > 0 then xs[|xs| - 1] - xs[0] else 0.0
  }

  /** An independent reading of a delta: the sum of the day-to-day changes. */
  function SumOfSteps(xs: seq<int>): int
    decreases |xs|
  {
    if |xs| < 2 then 0 else SumOfSteps(xs[..|xs| - 1]) + (xs[|xs| - 1] - xs[|xs| - 2])
  }

  /** Last-minus-first is the total of the daily changes it spans. */
  lemma {:induction false} DeltaTelescopes(xs: seq<int>)
    ensures LastMinusFirst(xs) == SumOfSteps(xs)
  {
    if |xs| >= 2 {
      var init := xs[..|xs| - 1];
      DeltaTelescopes(init);
      assert init[|init| - 1] == xs[|xs| - 2] && init[0] == xs[0];
    }
  }

  /** A counter that never decreases from day to day has a non-negative delta. */
  lemma {:induction false} NonDecreasingDeltaNonNegative(xs: seq<int>)
    requires forall i :: 0 < i < |xs| ==> xs[i - 1] <= xs[i]
    ensures LastMinusFirst(xs) >= 0
  {
    DeltaTelescopes(xs);
    StepsNonNegative(xs);
  }

  lemma {:induction false} StepsNonNegative(xs: seq<int>)
    requires forall i :: 0 < i < |xs| ==> xs[i - 1] <= xs[i]
    ensures SumOfSteps(xs) >= 0
  {
    if |xs| >= 2 {
      StepsNonNegative(xs[..|xs| - 1]);
    }
  }

  /** Splitting a sequence at a shared point splits its delta. */
  lemma StorageDeltaSplits(xs: seq<real>, k: nat)
    requires k < |xs|
    ensures LastMinusFirstReal(xs) == LastMinusFirstReal(xs[..k + 1]) + LastMinusFirstReal(xs[k..])
  {
  }

  function MetricsOrEmpty(report: Report): (ms: seq<MetricPoint>)
    ensures report.metrics.None? ==> ms == []
    ensures report.metrics.Some? ==> ms == report.metrics.value
  {
    if report.metrics.Some? then report.metrics.value else []
  }

  /** `newUsersThisMonth`: the user delta over the month window. */
  function NewUsersThisMonth(report: Report, startOfMonth: int): (d: int)
    ensures var w := ThisMonth(MetricsOrEmpty(report), startOfMonth);
            (w == [] ==> d == 0) &&
            (w != [] ==> d == w[|w| - 1].users - w[0].users) &&
            (|w| == 1 ==> d == 0)
  {
    LastMinusFirst(Users(ThisMonth(MetricsOrEmpty(report), startOfMonth)))
  }

  /** `tripsThisMonth`: the trip delta over the same window. */
  function TripsThisMonth(report: Report, startOfMonth: int): (d: int)
    ensures var w := ThisMonth(MetricsOrEmpty(report), startOfMonth);
            (w == [] ==> d == 0) &&
            (w != [] ==> d == w[|w| - 1].trips - w[0].trips) &&
            (|w| == 1 ==> d == 0)
  {
    LastMinusFirst(Trips(ThisMonth(MetricsOrEmpty(report), startOfMonth)))
  }

  /** `mediaThisMonth`: the storage delta over the WHOLE metrics sequence,
      not the month window; it does not depend on the month start. */
  function MediaThisMonth(report: Report): (d: real)
    ensures var ms := MetricsOrEmpty(report);
            (ms == [] ==> d == 0.0) &&
            (ms != [] ==> d == ms[|ms| - 1].storageGB - ms[0].storageGB)
  {
    LastMinusFirstReal(Storage(MetricsOrEmpty(report)))
  }

  /** On a date-ordered report whose window is non-empty, the storage figure
      is the window's own storage delta plus the growth from the first point
      of the report up to the first point of the window. */
  lemma MediaIncludesPreWindowGrowth(report: Report, startOfMonth: int)
    requires SortedByDate(MetricsOrEmpty(report))
    requires ThisMonth(MetricsOrEmpty(report), startOfMonth) != []
    ensures var ms := MetricsOrEmpty(report);
            var w := ThisMonth(ms, startOfMonth);
            var k := |ms| - |w|;
            MediaThisMonth(report) ==
              LastMinusFirstReal(Storage(w)) + (ms[k].storageGB - ms[0].storageGB)
  {
    var ms := MetricsOrEmpty(report);
    var w := ThisMonth(ms, startOfMonth);
    ThisMonthOfSortedIsSuffix(ms, startOfMonth);
    var k := |ms| - |w|;
    StorageDeltaSplits(Storage(ms), k);
    assert Storage(ms)[k..] == Storage(w);
  }

  /** A report with no point in the month still shows storage growth when
      its earlier points grew: the three deltas disagree about "this month". */
  lemma StorageCountsOutsideTheMonth()
    ensures var r := Report(None, None, None, None,
                            Some([MetricPoint(1, 5, 2, 1.0), MetricPoint(2, 5, 2, 3.5)]));
            NewUsersThisMonth(r, 10) == 0 && TripsThisMonth(r, 10) == 0 &&
            MediaThisMonth(r) == 2.5
  {
    var ms := [MetricPoint(1, 5, 2, 1.0), MetricPoint(2, 5, 2, 3.5)];
    assert ThisMonth(ms[1..], 10) == [] by { ThisMonthSingle(ms[1], 10); }
  }

  // ---- rendering ----

  function OrZero(x: Option<int>): (n: int)
    ensures x.None? ==> n == 0
    ensures x.Some? ==> n == x.value
  {
    if x.Some? then x.value else 0
  }

  function OrZeroReal(x: Option<real>): (n: real)
    ensures x.None? ==> n == 0.0
    ensures x.Some? ==> n == x.value
  {
    if x.Some? then x.value else 0.0
  }

  /** The four stat cards, as numbers (their locale formatting is not
      modelled). */
  datatype Overview = Overview(
    activeUsers: int, newUsersThisMonth: int,
    totalTrips: int, tripsThisMonth: int,
    totalStorageGB: real, mediaThisMonth: real,
    monthlyCost: real)

  datatype HomeView = Spinner | ErrorBanner(message: string) | NoData | Cards(overview: Overview)

  /** What the page renders: the spinner while loading, then a non-empty
      error, then "No data available" without a report, then the cards. */
  function Render(loading: bool, error: Option<string>, report: Option<Report>, startOfMonth: int): (v: HomeView)
    ensures loading <==> v.Spinner?
    ensures !loading && Truthy(error) ==> v == ErrorBanner(error.value)
    ensures !loading && !Truthy(error) && report.None? ==> v.NoData?
    ensures !loading && !Truthy(error) && report.Some? ==> v.Cards?
    ensures v.Cards? ==> report.Some? && !Truthy(error)
    ensures v.Cards? ==>
              var r := report.value;
              v.overview.activeUsers == OrZero(r.activeUsers) &&
              v.overview.totalTrips == OrZero(r.totalTrips) &&
              v.overview.totalStorageGB == OrZeroReal(r.totalStorageGB) &&
              v.overview.monthlyCost == OrZeroReal(r.monthlyCost) &&
              v.overview.newUsersThisMonth == NewUsersThisMonth(r, startOfMonth) &&
              v.overview.tripsThisMonth == TripsThisMonth(r, startOfMonth) &&
              v.overview.mediaThisMonth == MediaThisMonth(r)
  {
    if loading then Spinner
    else if Truthy(error) then ErrorBanner(error.value)
    else if report.None? then NoData
    else
      var r := report.value;
      Cards(Overview(
        OrZero(r.activeUsers), NewUsersThisMonth(r, startOfMonth),
        OrZero(r.totalTrips), TripsThisMonth(r, startOfMonth),
        OrZeroReal(r.totalStorageGB), MediaThisMonth(r),
        OrZeroReal(r.monthlyCost)))
  }

  /** Missing totals are shown as 0. */
  lemma MissingTotalsShowZero(startOfMonth: int)
    ensures var v := Render(false, None, Some(Report(None, None, None, None, None)), startOfMonth);
            v == Cards(Overview(0, 0, 0, 0, 0.0, 0.0, 0.0))
  {
  }

  /** The page's state and the `fetchData` effect. `requests` records the
      paths handed to `fetch`. The payload a getter resolves to is an
      `Option<Report>`: `None` stands for a falsy JSON value (`null`, `0`,
      `false`, `""`), which `setReport` stores and `!report` then reads as
      no report. */
  class HomePage {
    var report: Option<Report>
    var loading: bool
    var error: Option<string>
    var requests: seq<string>

    constructor ()
      ensures report == None && loading && error == None && requests == []
    {
      report := None;
      loading := true;
      error := None;
      requests := [];
    }

    /** `fetchData`: read the tenant from the session; without one, show the
        missing-tenant error and fetch nothing; with one, fetch its 30-day
        report through `getTenantReport` and keep either the report or the
        error's message. `loading` is false on every path. */
    method FetchData(session: map<string, string>, outcome: HttpOutcome<Option<Report>>)
      modifies this
      ensures !loading
      ensures var tenantId := Get(session, SessionKey);
              !Truthy(tenantId) ==>
                error == Some(NoTenantMessage) && report == old(report) && requests == old(requests)
      ensures var tenantId := Get(session, SessionKey);
              Truthy(tenantId) ==>
                requests == old(requests) +
                  [ReportApi.RequestPath(ReportApi.TenantReport, tenantId.value, Some(PageWindow))] &&
                match ReportApi.Fetch(ReportApi.TenantReport, outcome)
                case Ok(data) => report == data && error == old(error)
                case Err(msg) => error == Some(msg) && report == old(report)
    {
      var tenantId := Get(session, SessionKey);
      if !Truthy(tenantId) {
        error := Some(NoTenantMessage);
        loading := false;
        return;
      }
      requests := requests + [ReportApi.RequestPath(ReportApi.TenantReport, tenantId.value, Some(PageWindow))];
      var result := ReportApi.Fetch(ReportApi.TenantReport, outcome);
      match result {
        case Ok(data) =>
          report := data;
        case Err(msg) =>
          // every rejection of getTenantReport is an Error instance
          error := Some(CaughtMessage(ErrorInstance(msg), LoadFailure));
      }
      loading := false;
    }
  }

  /** From a fresh page, `fetchData` with no tenant in the session ends on
      the missing-tenant banner. */
  method FirstLoadWithoutSession(outcome: HttpOutcome<Option<Report>>, startOfMonth: int) returns (v: HomeView)
    ensures v == ErrorBanner(NoTenantMessage)
  {
    var page := new HomePage();
    page.FetchData(map[], outcome);
    v := Render(page.loading, page.error, page.report, startOfMonth);
  }

  /** From a fresh page, a successful load shows the cards of the loaded
      report, whatever its fields. */
  method FirstLoadWithReport(tenantId: string, data: Report, fields: map<string, string>, startOfMonth: int)
    returns (v: HomeView)
    requires tenantId != ""
    ensures v.Cards? && v == Render(false, None, Some(data), startOfMonth)
  {
    var page := new HomePage();
    page.FetchData(map[SessionKey := tenantId], Reply(200, "OK", Parsed(Some(data), fields)));
    v := Render(page.loading, page.error, page.report, startOfMonth);
  }

  /** From a fresh page, an ok reply whose JSON is falsy (`null`, say) is
      stored as the report and shows "No data available", not an error. */
  method FirstLoadWithFalsyReport(tenantId: string, fields: map<string, string>, startOfMonth: int)
    returns (v: HomeView)
    requires tenantId != ""
    ensures v == NoData
  {
    var page := new HomePage();
    page.FetchData(map[SessionKey := tenantId], Reply(200, "OK", Parsed(None, fields)));
    v := Render(page.loading, page.error, page.report, startOfMonth);
  }
}
