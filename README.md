# GA4 report proxy — a Dafny model

The repository serves a dashboard of visitor companies. It has two copies of
a serverless handler that takes report parameters from a query string, sends
one or two report requests to the Google Analytics 4 Data API, and turns the
returned rows into JSON for the dashboard:

- `api/ga4-report.js` serves eleven report types. A missing or unknown type
  falls back to the overview. A `urlMatchType` parameter chooses how the
  page-path condition matches.
- `evort-analytics/netlify/functions/ga4-report.js` serves six report types.
  Its page-path condition in the companies report always matches as a
  substring.

This project models the following:

- the parameter defaults;
- the dispatch on the report type and its fallback;
- each report's request: dimensions, metrics, ordering, limit and filter;
- what each filter selects;
- the reshaping of the returned rows: dates as `MM/DD`, device labels and
  colours, session shares guarded against a zero total, defaults for
  missing values;
- the companies-by-url aggregation: a `Map` updated row by row, then sorted
  by page views, highest first;
- the three required-parameter errors.

The Data API client is a value `Client` with two functions from a request to
rows. A handler is a function `Handle(query, client)`. `Calls(query)` lists
the requests the handler makes. Lemmas show that the response depends only
on the answers to those calls. A report that makes no call therefore
answers without touching the client.

Modules:

- `Analytics` (`analytics.dfy`): query parameters, with JavaScript's `||`
  treating the empty string as missing. Also result rows, requests, filter
  expressions and what they select, the `Combine` rule for a list of
  conditions, and the client.
- `CompanyFilter` (`company_filter.dfy`): the companies report's four
  optional conditions, and the request built from them.
- `CompanyAggregation` (`aggregation.dfy`): the companies-by-url fold into a
  map, and the stable sort by page views.
- `Reports` (`reports.dfy`): row reshapers, shares, and the reports both
  copies share.
- `ApiReport` (`api_report.dfy`) and `NetlifyReport`
  (`netlify_report.dfy`): the two handlers.

## Model

| member | source | states |
|---|---|---|
| `Analytics.OrElse` | api/ga4-report.js:28-40 | a parameter is its value when non-empty, the default otherwise (JavaScript's or-default) |
| `Analytics.Given` | api/ga4-report.js:36-40 | an empty parameter is no parameter, a non-empty one is kept |
| `Analytics.DateRangeOf` | api/ga4-report.js:29-30 | the range is `30daysAgo` to `today` unless the query gives non-empty dates |
| `Analytics.DimensionOr` | api/ga4-report.js:310 | a dimension value is the row's value when present and non-empty, the caller's default otherwise |
| `Analytics.MetricOr0` | api/ga4-report.js:311 | a metric is the row's number when present, 0 otherwise |
| `Analytics.Leaf` | api/ga4-report.js:291 | a string-filter leaf carries the given field, value and match type |
| `Analytics.Combine` | api/ga4-report.js:305-306 | no filter for no condition, the condition itself for one, an AND group for two or more |
| `Analytics.CombineIsConjunction` | evort-analytics/netlify/functions/ga4-report.js:175-184 | whatever the number of conditions, the combined filter selects exactly the records meeting all of them |
| `Analytics.PagePathFilter` | api/ga4-report.js:133-146 | a page-path leaf with the chosen match type exactly when a URL is given, no filter otherwise |
| `Analytics.CompanyNameFilter` | api/ga4-report.js:326 | the EXACT company-name leaf selects exactly the records whose company name matches |
| `CompanyFilter.FiltersOf` | api/ga4-report.js:36-40 | each of url, prefecture, industry and employees is kept as given when non-empty, and is absent (null) when missing or empty |
| `CompanyFilter.ConditionOn` | api/ga4-report.js:293 | a value contributes one leaf on its field when given, nothing otherwise |
| `CompanyFilter.ConditionsShape` | api/ga4-report.js:286-295 | one condition per given value, none for a missing value; all leaves; strictly in the order url, prefecture, industry, employees; url with the chosen match, prefecture and employees EXACT, industry CONTAINS |
| `CompanyFilter.ConditionsMeaning` | evort-analytics/netlify/functions/ga4-report.js:118-154 | a record satisfies every collected condition iff it meets each given value's condition on its field |
| `CompanyFilter.BuildCompaniesRequest` | evort-analytics/netlify/functions/ga4-report.js:114-184 | the request built by conditional pushes and the length test equals the companies request specification |
| `CompanyFilter.CompaniesFilter` | api/ga4-report.js:297-306 | the companies request has no filter iff no value is given, the single leaf for one, an AND group of all for several, and selects exactly the records meeting every given condition |
| `CompanyAggregation.CompanyOf` | evort-analytics/netlify/functions/ga4-report.js:360 | the map key is the row's first dimension when present and `不明` otherwise, so never empty |
| `CompanyAggregation.AggregateByCompany` | evort-analytics/netlify/functions/ga4-report.js:358-376 | updating the map row by row yields the keys and entries of the aggregation fold |
| `CompanyAggregation.AggregateMatchesReference` | api/ga4-report.js:353-354 | the map has exactly one entry per company occurring in the rows, filed under its name, equal to the reference record: first row's prefecture, industry and employees, summed page views and sessions, that company's page paths in row order |
| `CompanyAggregation.AggregateKeyOrder` | evort-analytics/netlify/functions/ga4-report.js:361-371 | the map's keys are in order of each company's first row |
| `CompanyAggregation.AggregatePreservesPageViews` | evort-analytics/netlify/functions/ga4-report.js:373 | the entries' page views add up to the rows' page views |
| `CompanyAggregation.Values` | api/ga4-report.js:355 | `Array.from(map.values())` lists one entry per key in key order |
| `CompanyAggregation.SortSpec` | evort-analytics/netlify/functions/ga4-report.js:378-379 | the sort yields page views non-increasing, a permutation of its input, with the same total |
| `CompanyAggregation.SortStable` | api/ga4-report.js:355 | records with equal page views keep their input order |
| `CompanyAggregation.SortKeepsNamesDistinct` | evort-analytics/netlify/functions/ga4-report.js:379 | sorting never duplicates a company |
| `CompanyAggregation.CompaniesByUrlOrder` | evort-analytics/netlify/functions/ga4-report.js:378 | the company list is ordered by page views, highest first, and keeps the rows' page-view total |
| `CompanyAggregation.CompaniesByUrlRecords` | api/ga4-report.js:353-355 | the list names each company of the rows exactly once and nothing else, each record being that company's reference record |
| `CompanyAggregation.CompaniesByUrlTies` | api/ga4-report.js:354-355 | companies tied on page views keep the map's insertion order, which is the order of their first rows |
| `Reports.OverviewOf` | api/ga4-report.js:107-117 | the counts are the first row's first three metrics, all 0 when there is no row |
| `Reports.RealtimeTotal` | api/ga4-report.js:335 | the realtime total is the first row's first metric, 0 when there is no row |
| `Reports.RealtimeReport` | evort-analytics/netlify/functions/ga4-report.js:244-260 | the realtime report answers the total active users and never any company |
| `Reports.FormatDate` | api/ga4-report.js:194-196 | an 8-character `YYYYMMDD` becomes the 5-character `MM/DD`; any other length is kept |
| `Reports.DayPoints` | api/ga4-report.js:192-203 | one point per row, in row order |
| `Reports.DailyTrendDates` | api/ga4-report.js:193-196 | a point's date is `MM/DD` of an 8-character date, the date unchanged otherwise, `""` when missing |
| `Reports.Divisor` | api/ga4-report.js:246 | the share divisor is the total when positive and 1 when the total is 0 |
| `Reports.SessionsWithinTotal` | api/ga4-report.js:274 | no row has more sessions than the total |
| `Reports.RegionRows` | api/ga4-report.js:239-250 | one region per row, in row order: the name (`(not set)` when missing), sessions, users and page views (0 when missing), and the share 100 × sessions over the rows' total sessions, or over 1 when that total is 0 |
| `Reports.RegionShares` | api/ga4-report.js:246-250 | every share is 100 × the row's sessions over the one common divisor `total or 1`; each lies in 0 to 100 per cent, all are 0 with no sessions, and otherwise their numerators add up to 100 × that divisor, so the shares total exactly 100 per cent |
| `Reports.PercentSumIsSessions` | api/ga4-report.js:247-250 | the shares' numerators add up to 100 times the total sessions |
| `Reports.DeviceLabel` | api/ga4-report.js:278 | `desktop`, `mobile` and `tablet` show as `PC`, `Mobile` and `Tablet`; any other name shows unchanged |
| `Reports.DeviceColor` | api/ga4-report.js:273-278 | the colour is chosen on the lower-cased name; the default colour exactly for names outside the three |
| `Reports.LabelSeesCaseColourDoesNot` | api/ga4-report.js:276-278 | every spelling of a name gets the colour of its lower-case form, only `desktop` itself (or a literal `PC`) is labelled `PC`, so `Desktop` keeps its label but takes the desktop colour |
| `Reports.RoundedPercent` | api/ga4-report.js:278 | the device value is the share in per cent rounded half up, at most 100 when the part is within the divisor, 0 for no sessions |
| `Reports.DeviceRows` | api/ga4-report.js:274-279 | one device per row, each with its share of the rows' total sessions |
| `Reports.DeviceShares` | api/ga4-report.js:274-278 | every device value lies in 0 to 100, and all are 0 with no sessions |
| `Reports.CompanyRowOf` | api/ga4-report.js:309-312 | a company row carries the row's first four dimensions as name, prefecture, industry and employees when present, `不明` for a missing name and `""` for the other three when missing; activeUsers, sessions and pageViews are the first three metrics, 0 when missing |
| `Reports.CompaniesReport` | api/ga4-report.js:308-313 | the companies answer holds one company row per row returned, in order, and echoes the four filters as given |
| `Reports.CompanyRows` | evort-analytics/netlify/functions/ga4-report.js:188-197 | one company record per row, in row order |
| `Reports.PageRows` | api/ga4-report.js:328 | one page per row with path, title, page views and users, defaults `""` and 0 |
| `Reports.VisitRows` | api/ga4-report.js:344 | one visit per row with date, sessions and page views |
| `Reports.DetailPageRows` | api/ga4-report.js:345 | one viewed page per row with path, title and page views |
| `Reports.SubpageRows` | api/ga4-report.js:363 | one subpage per row with path, title, page views, sessions and active users |
| `Reports.CompaniesByUrlReportSpec` | evort-analytics/netlify/functions/ga4-report.js:328-388 | with a URL, one request whose filter selects exactly the pages containing the URL; the answer echoes the URL and lists each company once, by page views highest first, each with its reference record, keeping the rows' page-view total |
| `ApiReport.KindOf` | api/ga4-report.js:42-84 | each of the eleven names selects its report; any other selects the overview |
| `ApiReport.KindOfTypeName` | api/ga4-report.js:43-81 | each report type is selected by its own name and by no other |
| `ApiReport.GaMatchType` | api/ga4-report.js:133-139 | `exact` gives EXACT, `prefix` BEGINS_WITH, anything else (default `contains`) CONTAINS, each in both directions |
| `ApiReport.ResponseDependsOnlyOnCalls` | api/ga4-report.js:42-86 | two clients that answer the handler's calls alike give the same response |
| `ApiReport.ResponseType` | api/ga4-report.js:28 | the response type is the requested one when it is one of the eleven, `overview` otherwise |
| `ApiReport.DispatchFallback` | api/ga4-report.js:82-84 | a missing, empty or unknown type runs the overview report and makes only its call |
| `ApiReport.RequiredParameters` | api/ga4-report.js:341-361 | company-detail without company, companies-by-url without URL and subpages without parent path make no call and answer their fixed error |
| `ApiReport.UrlFilteredReports` | api/ga4-report.js:176-189 | overview-by-url, daily-trend, regions and devices make one request selecting all rows without a URL and the rows whose page path matches the URL as `urlMatchType` says with one |
| `ApiReport.SubpagesFilter` | api/ga4-report.js:362 | subpages asks for the pages whose path begins with the parent path |
| `ApiReport.CompaniesFilterApplied` | api/ga4-report.js:284-306 | the companies request selects exactly the rows meeting every given condition, the URL matched as `urlMatchType` says |
| `ApiReport.CompaniesAnswer` | api/ga4-report.js:309-313 | for the companies type the answer lists one company row per returned row, and each echoed filter is the query's value when non-empty and null otherwise |
| `ApiReport.RealtimeAnswer` | api/ga4-report.js:70-72 | realtime makes one realtime call and lists no company |
| `NetlifyReport.KindOf` | evort-analytics/netlify/functions/ga4-report.js:43-69 | each of the six names selects its report; any other selects the overview |
| `NetlifyReport.ResponseDependsOnlyOnCalls` | evort-analytics/netlify/functions/ga4-report.js:43-75 | two clients that answer the handler's calls alike give the same response |
| `NetlifyReport.DispatchFallback` | evort-analytics/netlify/functions/ga4-report.js:67-69 | a missing, empty or unknown type runs the overview report |
| `NetlifyReport.OtherCopyTypesFallBack` | evort-analytics/netlify/functions/ga4-report.js:43-68 | overview-by-url, daily-trend, regions, devices and subpages are not served here and run the overview |
| `NetlifyReport.ResponseType` | evort-analytics/netlify/functions/ga4-report.js:30 | the response type is the requested one when it is one of the six, `overview` otherwise |
| `NetlifyReport.RequiredParameters` | evort-analytics/netlify/functions/ga4-report.js:263-331 | company-detail without company and companies-by-url without URL make no call and answer their fixed error |
| `NetlifyReport.CompaniesFilterApplied` | evort-analytics/netlify/functions/ga4-report.js:120-127 | the companies request selects exactly the rows meeting every given condition, the URL always as a substring |
| `NetlifyReport.CompaniesAnswer` | evort-analytics/netlify/functions/ga4-report.js:188-199 | for the companies type the answer lists one company row per returned row, and each echoed filter is the query's value when non-empty and null otherwise |
| `NetlifyReport.RealtimeAnswer` | evort-analytics/netlify/functions/ga4-report.js:58-60 | realtime makes one realtime call and lists no company |

## Left out

- Floating-point values (`averageSessionDuration`, `bounceRate`, `avgDuration`, `parseFloat`) are not modelled; the records carry only the integer fields.
- Reports.RegionShares: the share is the exact fraction `100 * sessions / divisor`, not the one-decimal string `toFixed(1)` makes of a float.
- Reports.RoundedPercent: rounds the exact fraction half up; `Math.round` of the floating-point quotient may differ when the float lands just beside a half.
- Analytics.MetricOr0: metric values are natural numbers already; `parseInt` of a malformed or negative string (NaN, sign) is not modelled.
- Analytics.StringMatches (the filter semantics behind every "selects" lemma) folds case for ASCII letters only; the Data API's case-insensitive matching of other scripts is not modelled.
- Reports.DeviceColor: `toLowerCase` is modelled for ASCII only. The lookup in the colour object can also hit inherited property names such as `constructor`; that quirk is not modelled.
- Reports.FormatDate: lengths are counted in Unicode scalar values, not UTF-16 code units; the two agree on the ASCII dates the Data API returns.
- The Data API itself is the parameter `Client`: nothing is assumed about the rows it returns, so ordering and limits in requests are recorded but not relied on.
- The `property` field (`properties/257667457`), service-account credentials, client construction and the JSON serialisation are not modelled.
- CORS headers, the OPTIONS preflight, HTTP status codes and the `try`/`catch` that turns a thrown error into status 500 with its message are not modelled.
- Query parameters given several times (arrays) are not modelled; each parameter is absent or one string.
- public/js/api-client.js, the browser-side caller, is not part of this model.
- A third CommonJS copy of the handler, whose realtime report differs, is not part of this model.
