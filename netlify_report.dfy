/**
 * The Netlify function in evort-analytics/netlify/functions/ga4-report.js:
 * six report types chosen by the `type` parameter, overview for any other,
 * and a page-path condition that always matches as a substring.
 */
module NetlifyReport {
  import opened Analytics
  import opened CompanyFilter
  import opened Reports

  datatype ReportKind = Overview | Companies | Pages | Realtime | CompanyDetail | CompaniesByUrl

  function TypeName(k: ReportKind): string
  {
    match k
    case Overview => "overview"
    case Companies => "companies"
    case Pages => "pages"
    case Realtime => "realtime"
    case CompanyDetail => "company-detail"
    case CompaniesByUrl => "companies-by-url"
  }

  const TypeNames: set<string> := {"overview", "companies", "pages", "realtime", "company-detail", "companies-by-url"}

  /** The switch on the report type; the default case runs the overview. */
  function KindOf(name: string): (k: ReportKind)
    ensures name in TypeNames ==> TypeName(k) == name
    ensures name !in TypeNames ==> k == Overview
  {
    if name == "companies" then Companies
    else if name == "pages" then Pages
    else if name == "realtime" then Realtime
    else if name == "company-detail" then CompanyDetail
    else if name == "companies-by-url" then CompaniesByUrl
    else Overview
  }

  function KindOfQuery(q: Query): ReportKind
  {
    KindOf(OrElse(q.reportType, "overview"))
  }

  /** The calls on the client the handler makes for `q`, in order. */
  function Calls(q: Query): seq<Call>
  {
    var dr := DateRangeOf(q);
    match KindOfQuery(q)
    case Overview => OverviewCalls(dr)
    case Companies => CompaniesCalls(dr, FiltersOf(q), Contains)
    case Pages => PagesCalls(dr, Given(q.company))
    case Realtime => RealtimeCalls
    case CompanyDetail => CompanyDetailCalls(dr, Given(q.company))
    case CompaniesByUrl => CompaniesByUrlCalls(dr, Given(q.url))
  }

  /** The function's JSON answer to `q` when the client is `c`. */
  function Handle(q: Query, c: Client): Response
  {
    var dr := DateRangeOf(q);
    match KindOfQuery(q)
    case Overview => OverviewReport(dr, c)
    case Companies => CompaniesReport(dr, FiltersOf(q), Contains, c)
    case Pages => PagesReport(dr, Given(q.company), c)
    case Realtime => RealtimeReport(c)
    case CompanyDetail => CompanyDetailReport(dr, Given(q.company), c)
    case CompaniesByUrl => CompaniesByUrlReport(dr, Given(q.url), c)
  }

  lemma ResponseDependsOnlyOnCalls(q: Query, c1: Client, c2: Client)
    requires SameAnswers(c1, c2, Calls(q))
    ensures Handle(q, c1) == Handle(q, c2)
  {
    var calls := Calls(q);
    if KindOfQuery(q) == CompanyDetail {
      if |calls| == 2 {
        assert Answer(c1, calls[0]) == Answer(c2, calls[0]);
        assert Answer(c1, calls[1]) == Answer(c2, calls[1]);
      }
    } else if |calls| > 0 {
      assert Answer(c1, calls[0]) == Answer(c2, calls[0]);
    }
  }

  /**
   * A missing, empty or unknown type runs the overview report.
   */
  lemma DispatchFallback(q: Query, c: Client)
    requires !Truthy(q.reportType) || q.reportType.value !in TypeNames
    ensures Handle(q, c) == OverviewReport(DateRangeOf(q), c)
    ensures Calls(q) == OverviewCalls(DateRangeOf(q))
  {
  }

  /** The report types served only by the other copy run the overview here. */
  lemma OtherCopyTypesFallBack(q: Query, c: Client)
    requires q.reportType.Some?
    requires q.reportType.value in {"overview-by-url", "daily-trend", "regions", "devices", "subpages"}
    ensures KindOfQuery(q) == Overview
    ensures Handle(q, c) == OverviewReport(DateRangeOf(q), c)
  {
  }

  /** The response names the report that ran. */
  lemma ResponseType(q: Query, c: Client)
    ensures var name := OrElse(q.reportType, "overview");
      && (name in TypeNames ==> Handle(q, c).reportType == name)
      && (name !in TypeNames ==> Handle(q, c).reportType == "overview")
  {
  }

  /** company-detail without a company and companies-by-url without a URL
      make no call and answer a fixed error. */
  lemma RequiredParameters(q: Query, c: Client)
    ensures KindOfQuery(q) == CompanyDetail && !Truthy(q.company) ==>
      Calls(q) == [] && Handle(q, c) == Response("company-detail", Error("Company name required"))
    ensures KindOfQuery(q) == CompaniesByUrl && !Truthy(q.url) ==>
      Calls(q) == [] && Handle(q, c) == Response("companies-by-url", Error("URL path required"))
  {
  }

  /**
   * The companies report sends one request that selects exactly the rows
   * meeting every given condition, the URL always as a substring whatever
   * `urlMatchType` says.
   */
  lemma CompaniesFilterApplied(q: Query, rec: Record)
    requires KindOfQuery(q) == Companies
    ensures Calls(q) == [RunReport(CompaniesRequest(DateRangeOf(q), FiltersOf(q), Contains))]
    ensures Admits(Calls(q)[0].request.dimensionFilter, rec) <==> ConditionsHold(FiltersOf(q), Contains, rec)
    ensures Truthy(q.url) ==> (Admits(Calls(q)[0].request.dimensionFilter, rec) ==>
      PagePath in rec && Occurs(Lower(q.url.value), Lower(rec[PagePath])))
  {
    CompaniesFilter(DateRangeOf(q), FiltersOf(q), Contains, rec);
  }

  /**
   * The companies answer: one company row per row the client returns, and
   * each filter echoed as given, or null when it was missing or empty.
   */
  lemma CompaniesAnswer(q: Query, c: Client)
    requires KindOfQuery(q) == Companies
    ensures var rows := c.runReport(CompaniesRequest(DateRangeOf(q), FiltersOf(q), Contains));
      var r := Handle(q, c);
      && r.reportType == "companies" && r.body.Data? && r.body.data.CompaniesData?
      && |r.body.data.companies| == |rows|
      && (forall i :: 0 <= i < |rows| ==> r.body.data.companies[i] == CompanyRowOf(rows[i]))
      && (r.body.data.filters.urlFilter.None? <==> !Truthy(q.url))
      && (Truthy(q.url) ==> r.body.data.filters.urlFilter == q.url)
      && (r.body.data.filters.prefectureFilter.None? <==> !Truthy(q.prefecture))
      && (Truthy(q.prefecture) ==> r.body.data.filters.prefectureFilter == q.prefecture)
      && (r.body.data.filters.industryFilter.None? <==> !Truthy(q.industry))
      && (Truthy(q.industry) ==> r.body.data.filters.industryFilter == q.industry)
      && (r.body.data.filters.employeesFilter.None? <==> !Truthy(q.employees))
      && (Truthy(q.employees) ==> r.body.data.filters.employeesFilter == q.employees)
  {
  }

  /** The realtime report makes one realtime call and lists no company. */
  lemma RealtimeAnswer(q: Query, c: Client)
    requires KindOfQuery(q) == Realtime
    ensures Calls(q) == [RunRealtimeReport(RealtimeRequest)]
    ensures Handle(q, c).body.Data? && Handle(q, c).body.data.RealtimeData?
    ensures Handle(q, c).body.data.activeCompanies == []
  {
  }
}
