/**
 * The values both copies of the GA4 report handler work with: the query
 * parameters of an incoming request, the rows the Data API returns, the
 * report request sent to it (with its dimension-filter expression and what
 * that filter selects), and the client capability that runs a request.
 */
module Analytics {

  datatype Option<+T> = None | Some(value: T)

  // ---------------------------------------------------------------------
  // Query parameters. JavaScript's `p || d` treats a missing parameter and
  // the empty string alike.
  // ---------------------------------------------------------------------

  /** True when `p` is a non-empty string, i.e. truthy in JavaScript. */
  predicate Truthy(p: Option<string>)
  {
    p.Some? && p.value != ""
  }

  /** `p || d` for a string parameter. */
  function OrElse(p: Option<string>, d: string): (r: string)
    ensures Truthy(p) ==> r == p.value
    ensures !Truthy(p) ==> r == d
  {
    if Truthy(p) then p.value else d
  }

  /** `p || null`: an empty parameter becomes no parameter. */
  function Given(p: Option<string>): (r: Option<string>)
    ensures r.None? <==> !Truthy(p)
    ensures r.Some? ==> r == p && r.value != ""
  {
    if Truthy(p) then p else None
  }

  /** The query string of an incoming report request (`req.query`). */
  datatype Query = Query(
    reportType: Option<string>,
    startDate: Option<string>,
    endDate: Option<string>,
    company: Option<string>,
    url: Option<string>,
    urlMatchType: Option<string>,
    prefecture: Option<string>,
    industry: Option<string>,
    employees: Option<string>)

  datatype DateRange = DateRange(startDate: string, endDate: string)

  /** The date range every report uses: `30daysAgo` to `today` unless given. */
  function DateRangeOf(q: Query): (d: DateRange)
    ensures d.startDate == (if Truthy(q.startDate) then q.startDate.value else "30daysAgo")
    ensures d.endDate == (if Truthy(q.endDate) then q.endDate.value else "today")
  {
    DateRange(OrElse(q.startDate, "30daysAgo"), OrElse(q.endDate, "today"))
  }

  // ---------------------------------------------------------------------
  // Result rows. A dimension value that is absent or empty falls back to the
  // caller's default; a metric value is parsed as a natural number, 0 when
  // absent.
  // ---------------------------------------------------------------------

  datatype Row = Row(dimensionValues: seq<Option<string>>, metricValues: seq<Option<nat>>)

  /** The row has a non-empty value for dimension `i`. */
  predicate HasDimension(row: Row, i: nat)
  {
    i < |row.dimensionValues| && Truthy(row.dimensionValues[i])
  }

  /** `row.dimensionValues[i]?.value || d` */
  function DimensionOr(row: Row, i: nat, d: string): (r: string)
    ensures HasDimension(row, i) ==> r == row.dimensionValues[i].value
    ensures !HasDimension(row, i) ==> r == d
  {
    if i < |row.dimensionValues| then OrElse(row.dimensionValues[i], d) else d
  }

  /** `parseInt(row.metricValues[i]?.value || 0)` */
  function MetricOr0(row: Row, i: nat): (r: nat)
    ensures i < |row.metricValues| && row.metricValues[i].Some? ==> r == row.metricValues[i].value
    ensures !(i < |row.metricValues| && row.metricValues[i].Some?) ==> r == 0
  {
    if i < |row.metricValues| && row.metricValues[i].Some? then row.metricValues[i].value else 0
  }

  // ---------------------------------------------------------------------
  // Field names used by the reports.
  // ---------------------------------------------------------------------

  const PagePath := "pagePath"
  const PageTitle := "pageTitle"
  const CompanyNameField := "customUser:name"
  const PrefectureField := "customUser:pref"
  const IndustryField := "customUser:industrialCategoryL"
  const EmployeesField := "customUser:employees"

  /** The name shown for a company the enrichment data could not identify. */
  const UnknownCompany := "不明"

  // ---------------------------------------------------------------------
  // Dimension filters.
  // ---------------------------------------------------------------------

  datatype MatchType = Exact | BeginsWith | Contains

  datatype StringFilter = StringFilter(fieldName: string, value: string, matchType: MatchType)

  datatype FilterExpression =
    | Filter(filter: StringFilter)
    | AndGroup(expressions: seq<FilterExpression>)

  /** A leaf `{ filter: { fieldName, stringFilter: { value, matchType } } }`. */
  function Leaf(fieldName: string, value: string, matchType: MatchType): (e: FilterExpression)
    ensures e.Filter? && e.filter.fieldName == fieldName && e.filter.value == value
    ensures e.filter.matchType == matchType
  {
    Filter(StringFilter(fieldName, value, matchType))
  }

  /**
   * How the request code turns the list of conditions it collected into
   * the request's `dimensionFilter`: none when the list is empty, the one
   * condition itself, or an AND group of all of them.
   */
  function Combine(conditions: seq<FilterExpression>): (r: Option<FilterExpression>)
    ensures r.None? <==> |conditions| == 0
    ensures |conditions| == 1 ==> r == Some(conditions[0])
    ensures |conditions| >= 2 ==> r == Some(AndGroup(conditions))
  {
    if |conditions| == 0 then None
    else if |conditions| == 1 then Some(conditions[0])
    else Some(AndGroup(conditions))
  }

  // What a filter selects. The Data API matches string filters without
  // regard to case unless asked otherwise, and none of these requests asks;
  // case is folded here for ASCII letters only.

  function LowerChar(c: char): char
  {
    if 'A' <= c <= 'Z' then (c as int + 32) as char else c
  }

  function Lower(s: string): (r: string)
    ensures |r| == |s|
  {
    seq(|s|, i requires 0 <= i < |s| => LowerChar(s[i]))
  }

  /** `v` occurs in `s` as a contiguous piece. */
  predicate Occurs(v: string, s: string)
    decreases |s|
  {
    v <= s || (|s| > 0 && Occurs(v, s[1..]))
  }

  predicate StringMatches(m: MatchType, field: string, value: string)
  {
    match m
    case Exact => Lower(field) == Lower(value)
    case BeginsWith => Lower(value) <= Lower(field)
    case Contains => Occurs(Lower(value), Lower(field))
  }

  /** The dimension values of one record of the analytics data. */
  type Record = map<string, string>

  /** `rec` satisfies the filter expression `e`. */
  predicate Holds(e: FilterExpression, rec: Record)
    decreases e
  {
    match e
    case Filter(f) => f.fieldName in rec && StringMatches(f.matchType, rec[f.fieldName], f.value)
    case AndGroup(es) => forall i :: 0 <= i < |es| ==> Holds(es[i], rec)
  }

  /** `rec` is selected by a request whose `dimensionFilter` is `f`. */
  predicate Admits(f: Option<FilterExpression>, rec: Record)
  {
    f.None? || Holds(f.value, rec)
  }

  /** However many conditions there are, the combined filter selects exactly
      the records that satisfy every one of them. */
  lemma CombineIsConjunction(conditions: seq<FilterExpression>, rec: Record)
    ensures Admits(Combine(conditions), rec) <==> forall i :: 0 <= i < |conditions| ==> Holds(conditions[i], rec)
  {
    if |conditions| == 1 {
      assert forall i :: 0 <= i < |conditions| ==> conditions[i] == conditions[0];
    }
  }

  // ---------------------------------------------------------------------
  // The report request and the client that runs it.
  // ---------------------------------------------------------------------

  datatype OrderKey = MetricKey(metricName: string) | DimensionKey(dimensionName: string)

  datatype OrderBy = OrderBy(key: OrderKey, desc: bool)

  datatype Request = Request(
    dateRanges: seq<DateRange>,
    dimensions: seq<string>,
    metrics: seq<string>,
    dimensionFilter: Option<FilterExpression>,
    orderBys: seq<OrderBy>,
    limit: Option<nat>)

  /**
   * The analytics client: `runReport` and `runRealtimeReport`, each taking a
   * request and giving the rows of the response (`response.rows || []`).
   */
  datatype Client = Client(runReport: Request -> seq<Row>, runRealtimeReport: Request -> seq<Row>)

  /** One call a report builder makes on the client. */
  datatype Call = RunReport(request: Request) | RunRealtimeReport(request: Request)

  /** The rows the client answers `call` with. */
  function Answer(c: Client, call: Call): seq<Row>
  {
    match call
    case RunReport(r) => c.runReport(r)
    case RunRealtimeReport(r) => c.runRealtimeReport(r)
  }

  /** Two clients answer every call of `calls` alike. */
  predicate SameAnswers(c1: Client, c2: Client, calls: seq<Call>)
  {
    forall i :: 0 <= i < |calls| ==> Answer(c1, calls[i]) == Answer(c2, calls[i])
  }

  /** A URL condition on `pagePath`, or none when no URL is given. */
  function PagePathFilter(url: Option<string>, m: MatchType): (r: Option<FilterExpression>)
    ensures r.None? <==> !Truthy(url)
    ensures r.Some? ==> r.value == Leaf(PagePath, url.value, m)
  {
    if Truthy(url) then Some(Leaf(PagePath, url.value, m)) else None
  }

  /** An EXACT condition on the company-name dimension. */
  function CompanyNameFilter(company: string): (e: FilterExpression)
    ensures forall rec: Record :: Holds(e, rec) <==>
      CompanyNameField in rec && Lower(rec[CompanyNameField]) == Lower(company)
  {
    Leaf(CompanyNameField, company, Exact)
  }
}
