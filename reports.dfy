/**
 * The row reshapers of the report builders (the `rows.map(...)` that turns
 * each Data API row into an output record) and the response both handler
 * copies return: `{ type, data }` or `{ type, error }`.
 */
module Reports {
  import opened Analytics
  import opened CompanyAggregation
  import opened CompanyFilter

  // ---------------------------------------------------------------------
  // overview, overview-by-url, realtime: the metrics of the first row.
  // ---------------------------------------------------------------------

  datatype OverviewCounts = OverviewCounts(activeUsers: nat, sessions: nat, pageViews: nat)

  /** `response.rows?.[0]?.metricValues || []`, then metrics 0, 1 and 2. */
  function OverviewOf(rows: seq<Row>): (o: OverviewCounts)
    ensures rows == [] ==> o == OverviewCounts(0, 0, 0)
    ensures rows != [] ==> o == OverviewCounts(MetricOr0(rows[0], 0), MetricOr0(rows[0], 1), MetricOr0(rows[0], 2))
  {
    if rows == [] then OverviewCounts(0, 0, 0)
    else OverviewCounts(MetricOr0(rows[0], 0), MetricOr0(rows[0], 1), MetricOr0(rows[0], 2))
  }

  /** `response.rows?.[0]?.metricValues?.[0]?.value || 0` */
  function RealtimeTotal(rows: seq<Row>): (n: nat)
    ensures rows == [] ==> n == 0
    ensures rows != [] ==> n == MetricOr0(rows[0], 0)
  {
    if rows == [] then 0 else MetricOr0(rows[0], 0)
  }

  // ---------------------------------------------------------------------
  // daily-trend
  // ---------------------------------------------------------------------

  /** `YYYYMMDD` becomes `MM/DD`; a string of any other length is kept. */
  function FormatDate(s: string): (r: string)
    ensures |s| == 8 ==> |r| == 5 && r[..2] == s[4..6] && r[2] == '/' && r[3..] == s[6..8]
    ensures |s| != 8 ==> r == s
  {
    if |s| == 8 then s[4..6] + "/" + s[6..8] else s
  }

  datatype DayPoint = DayPoint(date: string, pv: nat, sessions: nat, users: nat)

  function DayPointOf(row: Row): DayPoint
  {
    DayPoint(FormatDate(DimensionOr(row, 0, "")), MetricOr0(row, 0), MetricOr0(row, 1), MetricOr0(row, 2))
  }

  function DayPoints(rows: seq<Row>): (ps: seq<DayPoint>)
    ensures |ps| == |rows|
    ensures forall i :: 0 <= i < |rows| ==> ps[i] == DayPointOf(rows[i])
  {
    seq(|rows|, i requires 0 <= i < |rows| => DayPointOf(rows[i]))
  }

  /** Each point's date is the row's `YYYYMMDD` date as `MM/DD`, the row's
      date unchanged when it is not 8 characters long, or "" when missing. */
  lemma DailyTrendDates(rows: seq<Row>, i: nat)
    requires i < |rows|
    ensures var d := DayPoints(rows)[i].date;
      && (!HasDimension(rows[i], 0) ==> d == "")
      && (HasDimension(rows[i], 0) && |rows[i].dimensionValues[0].value| == 8 ==>
            var s := rows[i].dimensionValues[0].value; d == s[4..6] + "/" + s[6..8] && |d| == 5)
      && (HasDimension(rows[i], 0) && |rows[i].dimensionValues[0].value| != 8 ==>
            d == rows[i].dimensionValues[0].value)
  {
  }

  // ---------------------------------------------------------------------
  // Shares of total sessions (regions, devices).
  // ---------------------------------------------------------------------

  /** The sum of the first metric (sessions) over the rows. */
  function TotalSessions(rows: seq<Row>): nat
  {
    if rows == [] then 0 else MetricOr0(rows[0], 0) + TotalSessions(rows[1..])
  }

  /** `total || 1`: the divisor used for shares, never zero. */
  function Divisor(total: nat): (d: nat)
    ensures d >= 1
    ensures total > 0 ==> d == total
    ensures total == 0 ==> d == 1
  {
    if total == 0 then 1 else total
  }

  lemma {:induction false} SessionsWithinTotal(rows: seq<Row>, i: nat)
    requires i < |rows|
    ensures MetricOr0(rows[i], 0) <= TotalSessions(rows)
  {
    if i > 0 {
      assert rows[1..][i - 1] == rows[i];
      SessionsWithinTotal(rows[1..], i - 1);
    }
  }

  // regions: the share is kept as the exact fraction num / den of a hundred
  // per cent; `toFixed(1)` is not modelled.

  datatype Percent = Percent(num: nat, den: nat)

  datatype Region = Region(name: string, sessions: nat, users: nat, pageViews: nat, percent: Percent)

  function RegionOf(row: Row, divisor: nat): Region
  {
    var sessions := MetricOr0(row, 0);
    Region(DimensionOr(row, 0, "(not set)"), sessions, MetricOr0(row, 1), MetricOr0(row, 2), Percent(100 * sessions, divisor))
  }

  function RegionsWith(rows: seq<Row>, divisor: nat): (rs: seq<Region>)
    ensures |rs| == |rows|
    ensures forall i :: 0 <= i < |rows| ==> rs[i] == RegionOf(rows[i], divisor)
  {
    seq(|rows|, i requires 0 <= i < |rows| => RegionOf(rows[i], divisor))
  }

  /**
   * One region per row, in row order: the region name (`(not set)` when
   * missing), its sessions, users and page views, and its share of the
   * rows' total sessions (1 when that total is 0).
   */
  function RegionRows(rows: seq<Row>): (rs: seq<Region>)
    ensures |rs| == |rows|
    ensures forall i :: 0 <= i < |rows| ==>
      rs[i] == Region(DimensionOr(rows[i], 0, "(not set)"), MetricOr0(rows[i], 0), MetricOr0(rows[i], 1),
                      MetricOr0(rows[i], 2), Percent(100 * MetricOr0(rows[i], 0), Divisor(TotalSessions(rows))))
  {
    RegionsWith(rows, Divisor(TotalSessions(rows)))
  }

  function PercentSum(rs: seq<Region>): nat
  {
    if rs == [] then 0 else rs[0].percent.num + PercentSum(rs[1..])
  }

  lemma {:induction false} PercentSumIsSessions(rows: seq<Row>, divisor: nat)
    ensures PercentSum(RegionsWith(rows, divisor)) == 100 * TotalSessions(rows)
  {
    if rows != [] {
      PercentSumIsSessions(rows[1..], divisor);
      assert RegionsWith(rows, divisor)[1..] == RegionsWith(rows[1..], divisor);
    }
  }

  /**
   * Every region share is 100 times its sessions over the one common
   * divisor; the shares never divide by zero, each lies between 0 and 100 per
   * cent, all are 0 when there are no sessions, and otherwise they add up to
   * exactly 100 per cent.
   */
  lemma RegionShares(rows: seq<Row>)
    ensures forall i :: 0 <= i < |rows| ==>
      RegionRows(rows)[i].percent == Percent(100 * MetricOr0(rows[i], 0), Divisor(TotalSessions(rows)))
    ensures forall i :: 0 <= i < |rows| ==>
      var p := RegionRows(rows)[i].percent;
      p.den >= 1 && p.num <= 100 * p.den && (TotalSessions(rows) == 0 ==> p.num == 0)
    ensures TotalSessions(rows) > 0 ==> PercentSum(RegionRows(rows)) == 100 * Divisor(TotalSessions(rows))
  {
    var d := Divisor(TotalSessions(rows));
    forall i | 0 <= i < |rows|
      ensures var p := RegionRows(rows)[i].percent;
        p.den >= 1 && p.num <= 100 * p.den && (TotalSessions(rows) == 0 ==> p.num == 0)
    {
      SessionsWithinTotal(rows, i);
    }
    PercentSumIsSessions(rows, d);
  }

  // devices

  const DesktopColor := "#8b5cf6"
  const MobileColor := "#22c55e"
  const TabletColor := "#f97316"
  const DefaultColor := "#94a3b8"

  /** The display label: case-sensitive, unknown categories pass through. */
  function DeviceLabel(name: string): (shown: string)
    ensures name == "desktop" ==> shown == "PC"
    ensures name == "mobile" ==> shown == "Mobile"
    ensures name == "tablet" ==> shown == "Tablet"
    ensures name != "desktop" && name != "mobile" && name != "tablet" ==> shown == name
  {
    if name == "desktop" then "PC"
    else if name == "mobile" then "Mobile"
    else if name == "tablet" then "Tablet"
    else name
  }

  /** `deviceColors[name.toLowerCase()] || '#94a3b8'` */
  function DeviceColor(name: string): (color: string)
    ensures Lower(name) == "desktop" ==> color == DesktopColor
    ensures Lower(name) == "mobile" ==> color == MobileColor
    ensures Lower(name) == "tablet" ==> color == TabletColor
    ensures color == DefaultColor <==> Lower(name) !in {"desktop", "mobile", "tablet"}
  {
    var key := Lower(name);
    if key == "desktop" then DesktopColor
    else if key == "mobile" then MobileColor
    else if key == "tablet" then TabletColor
    else DefaultColor
  }

  lemma {:induction false} LowerIdempotent(s: string)
    ensures Lower(Lower(s)) == Lower(s)
  {
    forall i | 0 <= i < |s| ensures Lower(Lower(s))[i] == Lower(s)[i] {
    }
  }

  /**
   * The label comparison sees case and the colour lookup does not: every
   * spelling of a name gets the colour of its lower-case form, while only
   * the exact lower-case `desktop` is relabelled `PC`; "Desktop", say,
   * keeps its name but gets the PC colour.
   */
  lemma LabelSeesCaseColourDoesNot(name: string)
    ensures DeviceColor(name) == DeviceColor(Lower(name))
    ensures DeviceLabel(name) == "PC" ==> name == "desktop" || name == "PC"
    ensures DeviceLabel("Desktop") == "Desktop" && DeviceColor("Desktop") == DesktopColor
  {
    LowerIdempotent(name);
    assert Lower("Desktop") == "desktop";
  }

  lemma MulMonotone(b: nat, x: nat, y: nat)
    requires x <= y
    ensures b * x <= b * y
  {
    assert b * y == b * x + b * (y - x);
  }

  lemma RoundingBounds(part: nat, divisor: nat)
    requires divisor >= 1
    ensures var q := (200 * part + divisor) / (2 * divisor);
      && 2 * divisor * q <= 200 * part + divisor < 2 * divisor * (q + 1)
      && (part <= divisor ==> q <= 100)
      && (part == 0 ==> q == 0)
  {
    var a, b := 200 * part + divisor, 2 * divisor;
    var q := a / b;
    assert a == b * q + a % b && 0 <= a % b < b;
    assert b * (q + 1) == b * q + b;
    if part <= divisor && q > 100 {
      MulMonotone(b, 101, q);
    }
    if part == 0 && q > 0 {
      MulMonotone(b, 1, q);
    }
  }

  /** `Math.round(part / total * 100)` in exact arithmetic: round half up. */
  function RoundedPercent(part: nat, divisor: nat): (p: nat)
    requires divisor >= 1
    ensures 2 * divisor * p <= 200 * part + divisor < 2 * divisor * (p + 1)
    ensures part <= divisor ==> p <= 100
    ensures part == 0 ==> p == 0
  {
    RoundingBounds(part, divisor);
    (200 * part + divisor) / (2 * divisor)
  }

  datatype Device = Device(name: string, value: nat, color: string, sessions: nat)

  function DeviceOf(row: Row, divisor: nat): Device
    requires divisor >= 1
  {
    var name := DimensionOr(row, 0, "other");
    var sessions := MetricOr0(row, 0);
    Device(DeviceLabel(name), RoundedPercent(sessions, divisor), DeviceColor(name), sessions)
  }

  function DeviceRows(rows: seq<Row>): (ds: seq<Device>)
    ensures |ds| == |rows|
    ensures forall i :: 0 <= i < |rows| ==> ds[i] == DeviceOf(rows[i], Divisor(TotalSessions(rows)))
  {
    var d := Divisor(TotalSessions(rows));
    seq(|rows|, i requires 0 <= i < |rows| => DeviceOf(rows[i], d))
  }

  /** Device shares never divide by zero, lie between 0 and 100, and are all
      0 when there are no sessions. */
  lemma DeviceShares(rows: seq<Row>, i: nat)
    requires i < |rows|
    ensures DeviceRows(rows)[i].value <= 100
    ensures TotalSessions(rows) == 0 ==> DeviceRows(rows)[i].value == 0
  {
    SessionsWithinTotal(rows, i);
  }

  // ---------------------------------------------------------------------
  // companies, pages, company-detail, subpages.
  // ---------------------------------------------------------------------

  datatype CompanyRow = CompanyRow(
    name: string, prefecture: string, industry: string, employees: string,
    activeUsers: nat, sessions: nat, pageViews: nat)

  function CompanyRowOf(row: Row): (c: CompanyRow)
    ensures c.name != "" && c.name == CompanyOf(row)
    ensures !HasDimension(row, 0) ==> c.name == UnknownCompany
    ensures !HasDimension(row, 1) ==> c.prefecture == ""
    ensures !HasDimension(row, 2) ==> c.industry == ""
    ensures !HasDimension(row, 3) ==> c.employees == ""
    ensures HasDimension(row, 1) ==> c.prefecture == row.dimensionValues[1].value
    ensures HasDimension(row, 2) ==> c.industry == row.dimensionValues[2].value
    ensures HasDimension(row, 3) ==> c.employees == row.dimensionValues[3].value
    ensures c.activeUsers == MetricOr0(row, 0) && c.sessions == MetricOr0(row, 1) && c.pageViews == MetricOr0(row, 2)
  {
    CompanyRow(CompanyOf(row), DimensionOr(row, 1, ""), DimensionOr(row, 2, ""), DimensionOr(row, 3, ""),
               MetricOr0(row, 0), MetricOr0(row, 1), MetricOr0(row, 2))
  }

  /** One record per row, in row order. */
  function CompanyRows(rows: seq<Row>): (cs: seq<CompanyRow>)
    ensures |cs| == |rows|
    ensures forall i :: 0 <= i < |rows| ==> cs[i] == CompanyRowOf(rows[i])
  {
    seq(|rows|, i requires 0 <= i < |rows| => CompanyRowOf(rows[i]))
  }

  datatype Page = Page(path: string, title: string, pageViews: nat, users: nat)

  function PageRows(rows: seq<Row>): (ps: seq<Page>)
    ensures |ps| == |rows|
    ensures forall i :: 0 <= i < |rows| ==>
      ps[i] == Page(DimensionOr(rows[i], 0, ""), DimensionOr(rows[i], 1, ""), MetricOr0(rows[i], 0), MetricOr0(rows[i], 1))
  {
    seq(|rows|, i requires 0 <= i < |rows| =>
      Page(DimensionOr(rows[i], 0, ""), DimensionOr(rows[i], 1, ""), MetricOr0(rows[i], 0), MetricOr0(rows[i], 1)))
  }

  datatype Visit = Visit(date: string, sessions: nat, pageViews: nat)

  function VisitRows(rows: seq<Row>): (vs: seq<Visit>)
    ensures |vs| == |rows|
    ensures forall i :: 0 <= i < |rows| ==>
      vs[i] == Visit(DimensionOr(rows[i], 0, ""), MetricOr0(rows[i], 0), MetricOr0(rows[i], 1))
  {
    seq(|rows|, i requires 0 <= i < |rows| =>
      Visit(DimensionOr(rows[i], 0, ""), MetricOr0(rows[i], 0), MetricOr0(rows[i], 1)))
  }

  datatype DetailPage = DetailPage(path: string, title: string, pageViews: nat)

  function DetailPageRows(rows: seq<Row>): (ps: seq<DetailPage>)
    ensures |ps| == |rows|
    ensures forall i :: 0 <= i < |rows| ==>
      ps[i] == DetailPage(DimensionOr(rows[i], 0, ""), DimensionOr(rows[i], 1, ""), MetricOr0(rows[i], 0))
  {
    seq(|rows|, i requires 0 <= i < |rows| =>
      DetailPage(DimensionOr(rows[i], 0, ""), DimensionOr(rows[i], 1, ""), MetricOr0(rows[i], 0)))
  }

  datatype Subpage = Subpage(path: string, title: string, pageViews: nat, sessions: nat, activeUsers: nat)

  function SubpageRows(rows: seq<Row>): (ps: seq<Subpage>)
    ensures |ps| == |rows|
    ensures forall i :: 0 <= i < |rows| ==>
      ps[i] == Subpage(DimensionOr(rows[i], 0, ""), DimensionOr(rows[i], 1, ""),
                       MetricOr0(rows[i], 0), MetricOr0(rows[i], 1), MetricOr0(rows[i], 2))
  {
    seq(|rows|, i requires 0 <= i < |rows| =>
      Subpage(DimensionOr(rows[i], 0, ""), DimensionOr(rows[i], 1, ""),
              MetricOr0(rows[i], 0), MetricOr0(rows[i], 1), MetricOr0(rows[i], 2)))
  }

  // ---------------------------------------------------------------------
  // The response.
  // ---------------------------------------------------------------------

  /** The filter values the companies report echoes back. */
  datatype FilterEcho = FilterEcho(
    urlFilter: Option<string>, prefectureFilter: Option<string>,
    industryFilter: Option<string>, employeesFilter: Option<string>)

  datatype ReportData =
    | OverviewData(counts: OverviewCounts)
    | DailyTrendData(points: seq<DayPoint>)
    | RegionsData(regions: seq<Region>)
    | DevicesData(devices: seq<Device>)
    | CompaniesData(companies: seq<CompanyRow>, filters: FilterEcho)
    | PagesData(pages: seq<Page>)
    | RealtimeData(totalActiveUsers: nat, activeCompanies: seq<CompanyRow>)
    | CompanyDetailData(companyName: string, visits: seq<Visit>, detailPages: seq<DetailPage>)
    | CompaniesByUrlData(urlPath: string, aggregates: seq<CompanyAggregate>)
    | SubpagesData(parentPath: string, subpages: seq<Subpage>)

  datatype Body = Data(data: ReportData) | Error(error: string)

  /** `{ type, data }` or `{ type, error }` (the companies report's `filters`
      sit beside `data` in the JSON and inside it here). */
  datatype Response = Response(reportType: string, body: Body)

  // ---------------------------------------------------------------------
  // The reports both handler copies share. Each has the list of calls it
  // makes on the client and the response it builds from their answers.
  // ---------------------------------------------------------------------

  function OverviewRequest(dr: DateRange): Request
  {
    Request([dr], [], ["activeUsers", "sessions", "screenPageViews", "averageSessionDuration", "bounceRate"], None, [], None)
  }

  function OverviewCalls(dr: DateRange): seq<Call>
  {
    [RunReport(OverviewRequest(dr))]
  }

  function OverviewReport(dr: DateRange, c: Client): Response
  {
    Response("overview", Data(OverviewData(OverviewOf(c.runReport(OverviewRequest(dr))))))
  }

  const RealtimeRequest := Request([], [], ["activeUsers"], None, [], None)

  const RealtimeCalls := [RunRealtimeReport(RealtimeRequest)]

  /** The realtime report: the total active users and never any company. */
  function RealtimeReport(c: Client): (r: Response)
    ensures r.reportType == "realtime" && r.body.Data? && r.body.data.RealtimeData?
    ensures r.body.data.activeCompanies == []
    ensures var rows := c.runRealtimeReport(RealtimeRequest);
      r.body.data.totalActiveUsers == (if rows == [] then 0 else MetricOr0(rows[0], 0))
  {
    Response("realtime", Data(RealtimeData(RealtimeTotal(c.runRealtimeReport(RealtimeRequest)), [])))
  }

  function CompaniesCalls(dr: DateRange, f: CompanyFilters, urlMatch: MatchType): seq<Call>
  {
    [RunReport(CompaniesRequest(dr, f, urlMatch))]
  }

  /**
   * One company row per row of the answer, in the answer's order, and the
   * filters echoed as they were given.
   */
  function CompaniesReport(dr: DateRange, f: CompanyFilters, urlMatch: MatchType, c: Client): (r: Response)
    ensures r.reportType == "companies" && r.body.Data? && r.body.data.CompaniesData?
    ensures var rows := c.runReport(CompaniesRequest(dr, f, urlMatch));
      && |r.body.data.companies| == |rows|
      && (forall i :: 0 <= i < |rows| ==> r.body.data.companies[i] == CompanyRowOf(rows[i]))
    ensures var e := r.body.data.filters;
      e.urlFilter == f.url && e.prefectureFilter == f.prefecture
      && e.industryFilter == f.industry && e.employeesFilter == f.employees
  {
    var rows := c.runReport(CompaniesRequest(dr, f, urlMatch));
    Response("companies", Data(CompaniesData(CompanyRows(rows), FilterEcho(f.url, f.prefecture, f.industry, f.employees))))
  }

  function PagesRequest(dr: DateRange, company: Option<string>): Request
  {
    Request([dr], [PagePath, PageTitle], ["screenPageViews", "activeUsers", "averageSessionDuration"],
            if Truthy(company) then Some(CompanyNameFilter(company.value)) else None,
            [OrderBy(MetricKey("screenPageViews"), true)], Some(50))
  }

  function PagesCalls(dr: DateRange, company: Option<string>): seq<Call>
  {
    [RunReport(PagesRequest(dr, company))]
  }

  function PagesReport(dr: DateRange, company: Option<string>, c: Client): Response
  {
    Response("pages", Data(PagesData(PageRows(c.runReport(PagesRequest(dr, company))))))
  }

  function VisitsRequest(dr: DateRange, company: string): Request
  {
    Request([dr], ["date"], ["sessions", "screenPageViews"], Some(CompanyNameFilter(company)),
            [OrderBy(DimensionKey("date"), true)], None)
  }

  function ViewedPagesRequest(dr: DateRange, company: string): Request
  {
    Request([dr], [PagePath, PageTitle], ["screenPageViews"], Some(CompanyNameFilter(company)),
            [OrderBy(MetricKey("screenPageViews"), true)], Some(20))
  }

  function CompanyDetailCalls(dr: DateRange, company: Option<string>): seq<Call>
  {
    if Truthy(company) then [RunReport(VisitsRequest(dr, company.value)), RunReport(ViewedPagesRequest(dr, company.value))]
    else []
  }

  function CompanyDetailReport(dr: DateRange, company: Option<string>, c: Client): Response
  {
    if !Truthy(company) then Response("company-detail", Error("Company name required"))
    else
      var name := company.value;
      Response("company-detail", Data(CompanyDetailData(name,
        VisitRows(c.runReport(VisitsRequest(dr, name))), DetailPageRows(c.runReport(ViewedPagesRequest(dr, name))))))
  }

  function CompaniesByUrlRequest(dr: DateRange, url: string): Request
  {
    Request([dr], [CompanyNameField, PrefectureField, IndustryField, EmployeesField, PagePath],
            ["screenPageViews", "sessions"], Some(Leaf(PagePath, url, Contains)),
            [OrderBy(MetricKey("screenPageViews"), true)], Some(100))
  }

  function CompaniesByUrlCalls(dr: DateRange, url: Option<string>): seq<Call>
  {
    if Truthy(url) then [RunReport(CompaniesByUrlRequest(dr, url.value))] else []
  }

  function CompaniesByUrlReport(dr: DateRange, url: Option<string>, c: Client): Response
  {
    if !Truthy(url) then Response("companies-by-url", Error("URL path required"))
    else Response("companies-by-url", Data(CompaniesByUrlData(url.value,
           RankCompanies(c.runReport(CompaniesByUrlRequest(dr, url.value))))))
  }

  /**
   * With a URL, the companies-by-url report asks for rows whose page path
   * contains it and answers one record per company seen in those rows, each
   * with the first row's descriptive fields and the sums of that company's
   * page views and sessions and its pages in row order; the records are
   * ordered by page views, highest first, and keep the rows' page-view total.
   */
  lemma CompaniesByUrlReportSpec(dr: DateRange, url: Option<string>, c: Client)
    requires Truthy(url)
    ensures var rows := c.runReport(CompaniesByUrlRequest(dr, url.value));
      var r := CompaniesByUrlReport(dr, url, c);
      && CompaniesByUrlCalls(dr, url) == [RunReport(CompaniesByUrlRequest(dr, url.value))]
      && (forall rec: Record :: Admits(CompaniesByUrlRequest(dr, url.value).dimensionFilter, rec) <==>
            PagePath in rec && Occurs(Lower(url.value), Lower(rec[PagePath])))
      && r.body.Data? && r.body.data.CompaniesByUrlData? && r.body.data.urlPath == url.value
      && var cs := r.body.data.aggregates;
      && SortedByPageViews(cs)
      && DistinctNames(cs)
      && TotalPageViews(cs) == RowPageViews(rows)
      && (forall k :: Seen(rows, k) <==> exists i :: 0 <= i < |cs| && cs[i].name == k)
      && (forall i :: 0 <= i < |cs| ==> Seen(rows, cs[i].name) && cs[i] == Expected(rows, cs[i].name))
  {
    var rows := c.runReport(CompaniesByUrlRequest(dr, url.value));
    CompaniesByUrlOrder(rows);
    CompaniesByUrlRecords(rows);
  }
}
