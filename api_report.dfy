/**
 * The serverless handler in api/ga4-report.js: eleven report types chosen
 * by the `type` parameter, overview for any other, and a `urlMatchType`
 * parameter that picks how the page-path condition matches.
 */
module ApiReport {
  import opened Analytics
  import opened CompanyAggregation
  import opened CompanyFilter
  import opened Reports

  datatype ReportKind =
    | Overview | OverviewByUrl | DailyTrend | Regions | Devices | Companies
    | Pages | Realtime | CompanyDetail | CompaniesByUrl | Subpages

  /** The `type` value that selects a report, and the `type` it answers with. */
  function TypeName(k: ReportKind): string
  {
    match k
    case Overview => "overview"
    case OverviewByUrl => "overview-by-url"
    case DailyTrend => "daily-trend"
    case Regions => "regions"
    case Devices => "devices"
    case Companies => "companies"
    case Pages => "pages"
    case Realtime => "realtime"
    case CompanyDetail => "company-detail"
    case CompaniesByUrl => "companies-by-url"
    case Subpages => "subpages"
  }

  const TypeNames: set<string> := {
    "overview", "overview-by-url", "daily-trend", "regions", "devices", "companies",
    "pages", "realtime", "company-detail", "companies-by-url", "subpages" }

  /** The switch on the report type; the default case runs the overview. */
  function KindOf(name: string): (k: ReportKind)
    ensures name in TypeNames ==> TypeName(k) == name
    ensures name !in TypeNames ==> k == Overview
  {
    if name == "overview-by-url" then OverviewByUrl
    else if name == "daily-trend" then DailyTrend
    else if name == "regions" then Regions
    else if name == "devices" then Devices
    else if name == "companies" then Companies
    else if name == "pages" then Pages
    else if name == "realtime" then Realtime
    else if name == "company-detail" then CompanyDetail
    else if name == "companies-by-url" then CompaniesByUrl
    else if name == "subpages" then Subpages
    else Overview
  }

  /** Every report type is selected by its own name and by no other. */
  lemma KindOfTypeName(k: ReportKind, name: string)
    ensures KindOf(TypeName(k)) == k
    ensures TypeName(k) in TypeNames
    ensures name in TypeNames ==> (KindOf(name) == k <==> name == TypeName(k))
  {
  }

  /** `urlMatchType` (default `contains`) as the Data API's match type. */
  function GaMatchType(urlMatchType: Option<string>): (m: MatchType)
    ensures m == Exact <==> OrElse(urlMatchType, "contains") == "exact"
    ensures m == BeginsWith <==> OrElse(urlMatchType, "contains") == "prefix"
    ensures m == Contains <==> OrElse(urlMatchType, "contains") !in {"exact", "prefix"}
  {
    var t := OrElse(urlMatchType, "contains");
    if t == "exact" then Exact else if t == "prefix" then BeginsWith else Contains
  }

  // The reports only this copy has. Each takes the optional page-path
  // condition.

  function OverviewByUrlRequest(dr: DateRange, url: Option<string>, m: MatchType): Request
  {
    Request([dr], [], ["activeUsers", "sessions", "screenPageViews", "averageSessionDuration"],
            PagePathFilter(url, m), [], None)
  }

  function DailyTrendRequest(dr: DateRange, url: Option<string>, m: MatchType): Request
  {
    Request([dr], ["date"], ["screenPageViews", "sessions", "activeUsers"],
            PagePathFilter(url, m), [OrderBy(DimensionKey("date"), false)], None)
  }

  function RegionsRequest(dr: DateRange, url: Option<string>, m: MatchType): Request
  {
    Request([dr], ["region"], ["sessions", "activeUsers", "screenPageViews"],
            PagePathFilter(url, m), [OrderBy(MetricKey("sessions"), true)], Some(20))
  }

  function DevicesRequest(dr: DateRange, url: Option<string>, m: MatchType): Request
  {
    Request([dr], ["deviceCategory"], ["sessions", "activeUsers"],
            PagePathFilter(url, m), [OrderBy(MetricKey("sessions"), true)], None)
  }

  function SubpagesRequest(dr: DateRange, parent: string): Request
  {
    Request([dr], [PagePath, PageTitle], ["screenPageViews", "sessions", "activeUsers"],
            Some(Leaf(PagePath, parent, BeginsWith)), [OrderBy(MetricKey("screenPageViews"), true)], Some(100))
  }

  function SubpagesReport(dr: DateRange, parent: Option<string>, c: Client): Response
  {
    if !Truthy(parent) then Response("subpages", Error("Parent path required"))
    else Response("subpages", Data(SubpagesData(parent.value, SubpageRows(c.runReport(SubpagesRequest(dr, parent.value))))))
  }

  /** The report the query selects. */
  function KindOfQuery(q: Query): ReportKind
  {
    KindOf(OrElse(q.reportType, "overview"))
  }

  /** The calls on the client the handler makes for `q`, in order. */
  function Calls(q: Query): seq<Call>
  {
    var dr := DateRangeOf(q);
    var url := Given(q.url);
    var m := GaMatchType(q.urlMatchType);
    match KindOfQuery(q)
    case Overview => OverviewCalls(dr)
    case OverviewByUrl => [RunReport(OverviewByUrlRequest(dr, url, m))]
    case DailyTrend => [RunReport(DailyTrendRequest(dr, url, m))]
    case Regions => [RunReport(RegionsRequest(dr, url, m))]
    case Devices => [RunReport(DevicesRequest(dr, url, m))]
    case Companies => CompaniesCalls(dr, FiltersOf(q), m)
    case Pages => PagesCalls(dr, Given(q.company))
    case Realtime => RealtimeCalls
    case CompanyDetail => CompanyDetailCalls(dr, Given(q.company))
    case CompaniesByUrl => CompaniesByUrlCalls(dr, url)
    case Subpages => if Truthy(url) then [RunReport(SubpagesRequest(dr, url.value))] else []
  }

  /** The handler's JSON answer to `q` when the client is `c`. */
  function Handle(q: Query, c: Client): Response
  {
    var dr := DateRangeOf(q);
    var url := Given(q.url);
    var m := GaMatchType(q.urlMatchType);
    match KindOfQuery(q)
    case Overview => OverviewReport(dr, c)
    case OverviewByUrl =>
      Response("overview-by-url", Data(OverviewData(OverviewOf(c.runReport(OverviewByUrlRequest(dr, url, m))))))
    case DailyTrend =>
      Response("daily-trend", Data(DailyTrendData(DayPoints(c.runReport(DailyTrendRequest(dr, url, m))))))
    case Regions =>
      Response("regions", Data(RegionsData(RegionRows(c.runReport(RegionsRequest(dr, url, m))))))
    case Devices =>
      Response("devices", Data(DevicesData(DeviceRows(c.runReport(DevicesRequest(dr, url, m))))))
    case Companies => CompaniesReport(dr, FiltersOf(q), m, c)
    case Pages => PagesReport(dr, Given(q.company), c)
    case Realtime => RealtimeReport(c)
    case CompanyDetail => CompanyDetailReport(dr, Given(q.company), c)
    case CompaniesByUrl => CompaniesByUrlReport(dr, url, c)
    case Subpages => SubpagesReport(dr, url, c)
  }

  /**
   * The answer is determined by the answers to the handler's own calls: two
   * clients that answer those alike give the same response.
   */
  lemma ResponseDependsOnlyOnCalls(q: Query, c1: Client, c2: Client)
    requires SameAnswers(c1, c2, Calls(q))
    ensures Handle(q, c1) == Handle(q, c2)
  {
    var calls := Calls(q);
    if KindOfQuery(q) == CompanyDetail {
      if |calls| == 2 {
        assert Answer(c1, calls[0]) == Answer(c2, calls[0]);
        assert Answer(c1, calls[1]) == Answer(c2, calls[1]);
      }
    } else if |calls| > 0 {
      assert Answer(c1, calls[0]) == Answer(c2, calls[0]);
    }
  }

  /** The response names the report that ran: the requested type when it is
      one of the eleven, `overview` otherwise. */
  lemma ResponseType(q: Query, c: Client)
    ensures var name := OrElse(q.reportType, "overview");
      && (name in TypeNames ==> Handle(q, c).reportType == name)
      && (name !in TypeNames ==> Handle(q, c).reportType == "overview")
  {
  }

  /** A missing, empty or unknown type runs the overview report. */
  lemma DispatchFallback(q: Query, c: Client)
    requires !Truthy(q.reportType) || q.reportType.value !in TypeNames
    ensures Handle(q, c) == OverviewReport(DateRangeOf(q), c)
    ensures Calls(q) == OverviewCalls(DateRangeOf(q))
  {
  }

  /**
   * company-detail without a company, companies-by-url without a URL and
   * subpages without a parent path make no call and answer a fixed error.
   */
  lemma RequiredParameters(q: Query, c: Client)
    ensures KindOfQuery(q) == CompanyDetail && !Truthy(q.company) ==>
      Calls(q) == [] && Handle(q, c) == Response("company-detail", Error("Company name required"))
    ensures KindOfQuery(q) == CompaniesByUrl && !Truthy(q.url) ==>
      Calls(q) == [] && Handle(q, c) == Response("companies-by-url", Error("URL path required"))
    ensures KindOfQuery(q) == Subpages && !Truthy(q.url) ==>
      Calls(q) == [] && Handle(q, c) == Response("subpages", Error("Parent path required"))
  {
  }

  /**
   * overview-by-url, daily-trend, regions and devices send one request; it
   * selects every row when no URL is given, and otherwise the rows whose
   * page path matches the URL as `urlMatchType` says.
   */
  lemma UrlFilteredReports(q: Query, rec: Record)
    requires KindOfQuery(q) in {OverviewByUrl, DailyTrend, Regions, Devices}
    ensures |Calls(q)| == 1 && Calls(q)[0].RunReport?
    ensures Admits(Calls(q)[0].request.dimensionFilter, rec) <==>
      (!Truthy(q.url) || (PagePath in rec && StringMatches(GaMatchType(q.urlMatchType), rec[PagePath], q.url.value)))
  {
  }

  /** subpages with a parent path asks for the pages that begin with it. */
  lemma SubpagesFilter(q: Query, rec: Record)
    requires KindOfQuery(q) == Subpages && Truthy(q.url)
    ensures |Calls(q)| == 1 && Calls(q)[0].RunReport?
    ensures Admits(Calls(q)[0].request.dimensionFilter, rec) <==>
      (PagePath in rec && Lower(q.url.value) <= Lower(rec[PagePath]))
  {
  }

  /**
   * The companies report sends one request that selects exactly the rows
   * meeting every given condition: the URL as `urlMatchType` says,
   * prefecture and employee band exactly, industry as a substring.
   */
  lemma CompaniesFilterApplied(q: Query, rec: Record)
    requires KindOfQuery(q) == Companies
    ensures Calls(q) == [RunReport(CompaniesRequest(DateRangeOf(q), FiltersOf(q), GaMatchType(q.urlMatchType)))]
    ensures Admits(Calls(q)[0].request.dimensionFilter, rec) <==>
      ConditionsHold(FiltersOf(q), GaMatchType(q.urlMatchType), rec)
  {
    CompaniesFilter(DateRangeOf(q), FiltersOf(q), GaMatchType(q.urlMatchType), rec);
  }

  /**
   * The companies answer: one company row per row the client returns, and
   * each filter echoed as given, or null when it was missing or empty.
   */
  lemma CompaniesAnswer(q: Query, c: Client)
    requires KindOfQuery(q) == Companies
    ensures var rows := c.runReport(CompaniesRequest(DateRangeOf(q), FiltersOf(q), GaMatchType(q.urlMatchType)));
      var r := Handle(q, c);
      && r.reportType == "companies" && r.body.Data? && r.body.data.CompaniesData?
      && |r.body.data.companies| == |rows|
      && (forall i :: 0 <= i < |rows| ==> r.body.data.companies[i] == CompanyRowOf(rows[i]))
      && (r.body.data.filters.urlFilter.None? <==> !Truthy(q.url))
      && (Truthy(q.url) ==> r.body.data.filters.urlFilter == q.url)
      && (r.body.data.filters.prefectureFilter.None? <==> !Truthy(q.prefecture))
      && (Truthy(q.prefecture) ==> r.body.data.filters.prefectureFilter == q.prefecture)
      && (r.body.data.filters.industryFilter.None? <==> !Truthy(q.industry))
      && (Truthy(q.industry) ==> r.body.data.filters.industryFilter == q.industry)
      && (r.body.data.filters.employeesFilter.None? <==> !Truthy(q.employees))
      && (Truthy(q.employees) ==> r.body.data.filters.employeesFilter == q.employees)
  {
  }

  /** The realtime report makes one realtime call and lists no company. */
  lemma RealtimeAnswer(q: Query, c: Client)
    requires KindOfQuery(q) == Realtime
    ensures Calls(q) == [RunRealtimeReport(RealtimeRequest)]
    ensures Handle(q, c).body.Data? && Handle(q, c).body.data.RealtimeData?
    ensures Handle(q, c).body.data.activeCompanies == []
  {
  }
}
