/**
 * The companies report's request: up to four optional conditions (page
 * path, prefecture, industry, employee band) pushed in that order onto a
 * list, which then becomes no filter, the one condition, or an AND group.
 * The two handler copies differ only in the match type of the page-path
 * condition, which is therefore a parameter here.
 */
module CompanyFilter {
  import opened Analytics

  datatype CompanyFilters = CompanyFilters(
    url: Option<string>,
    prefecture: Option<string>,
    industry: Option<string>,
    employees: Option<string>)

  /** The query's four filter values, each `params.x || null`. */
  function FiltersOf(q: Query): (f: CompanyFilters)
    ensures Truthy(f.url) == Truthy(q.url) && Truthy(f.prefecture) == Truthy(q.prefecture)
    ensures Truthy(f.industry) == Truthy(q.industry) && Truthy(f.employees) == Truthy(q.employees)
    ensures Truthy(q.url) ==> f.url == q.url
    ensures Truthy(q.prefecture) ==> f.prefecture == q.prefecture
    ensures Truthy(q.industry) ==> f.industry == q.industry
    ensures Truthy(q.employees) ==> f.employees == q.employees
    ensures !Truthy(q.url) ==> f.url.None?
    ensures !Truthy(q.prefecture) ==> f.prefecture.None?
    ensures !Truthy(q.industry) ==> f.industry.None?
    ensures !Truthy(q.employees) ==> f.employees.None?
  {
    CompanyFilters(Given(q.url), Given(q.prefecture), Given(q.industry), Given(q.employees))
  }

  /** The condition a filter value contributes: one leaf when it is given. */
  function ConditionOn(field: string, value: Option<string>, m: MatchType): (cs: seq<FilterExpression>)
    ensures Truthy(value) ==> cs == [Leaf(field, value.value, m)]
    ensures !Truthy(value) ==> cs == []
  {
    if Truthy(value) then [Leaf(field, value.value, m)] else []
  }

  /** The `dimensionFilters` list after the four conditional pushes. */
  function Conditions(f: CompanyFilters, urlMatch: MatchType): seq<FilterExpression>
  {
    ConditionOn(PagePath, f.url, urlMatch)
      + ConditionOn(PrefectureField, f.prefecture, Exact)
      + ConditionOn(IndustryField, f.industry, Contains)
      + ConditionOn(EmployeesField, f.employees, Exact)
  }

  function CountGiven(p: Option<string>): nat { if Truthy(p) then 1 else 0 }

  /** How many of the four filter values are given. */
  function GivenCount(f: CompanyFilters): nat
  {
    CountGiven(f.url) + CountGiven(f.prefecture) + CountGiven(f.industry) + CountGiven(f.employees)
  }

  /** The position of a field in the order url, prefecture, industry, employees. */
  function FieldRank(field: string): nat
  {
    if field == PagePath then 0
    else if field == PrefectureField then 1
    else if field == IndustryField then 2
    else 3
  }

  /** The field of the condition with rank `k`. */
  function FieldOfRank(k: nat): string
  {
    if k == 0 then PagePath else if k == 1 then PrefectureField else if k == 2 then IndustryField else EmployeesField
  }

  /** The filter value that the condition with rank `k` tests. */
  function ValueOfRank(f: CompanyFilters, k: nat): Option<string>
  {
    if k == 0 then f.url else if k == 1 then f.prefecture else if k == 2 then f.industry else f.employees
  }

  /** The match type of the condition with rank `k`. */
  function MatchOfRank(k: nat, urlMatch: MatchType): MatchType
  {
    if k == 0 then urlMatch else if k == 2 then Contains else Exact
  }

  /** Which of the four pushes put the `i`-th condition on the list. */
  function RankAt(f: CompanyFilters, i: nat): nat
  {
    var a := CountGiven(f.url);
    var b := CountGiven(f.prefecture);
    var c := CountGiven(f.industry);
    if i < a then 0 else if i < a + b then 1 else if i < a + b + c then 2 else 3
  }

  lemma ConditionAt(f: CompanyFilters, urlMatch: MatchType, i: nat)
    requires i < |Conditions(f, urlMatch)|
    ensures var k := RankAt(f, i);
      && Truthy(ValueOfRank(f, k))
      && Conditions(f, urlMatch)[i] == Leaf(FieldOfRank(k), ValueOfRank(f, k).value, MatchOfRank(k, urlMatch))
  {
    var a := ConditionOn(PagePath, f.url, urlMatch);
    var b := ConditionOn(PrefectureField, f.prefecture, Exact);
    var c := ConditionOn(IndustryField, f.industry, Contains);
    var d := ConditionOn(EmployeesField, f.employees, Exact);
    var cs := Conditions(f, urlMatch);
    assert cs == a + b + c + d;
    if i < |a| {
      assert cs[i] == a[i];
    } else if i < |a| + |b| {
      assert cs[i] == b[i - |a|];
    } else if i < |a| + |b| + |c| {
      assert cs[i] == c[i - |a| - |b|];
    } else {
      assert cs[i] == d[i - |a| - |b| - |c|];
    }
  }

  lemma RankAtIncreasing(f: CompanyFilters, urlMatch: MatchType, i: nat, j: nat)
    requires i < j < |Conditions(f, urlMatch)|
    ensures RankAt(f, i) < RankAt(f, j)
  {
    ConditionAt(f, urlMatch, j);
  }

  lemma ConditionsLength(f: CompanyFilters, urlMatch: MatchType)
    ensures |Conditions(f, urlMatch)| == GivenCount(f)
  {
  }

  /**
   * One leaf per given value and no other, in the order url, prefecture,
   * industry, employees; the URL leaf uses the caller's match type, the
   * prefecture and employee leaves EXACT, the industry leaf CONTAINS.
   */
  lemma ConditionsShape(f: CompanyFilters, urlMatch: MatchType)
    ensures var cs := Conditions(f, urlMatch);
      && |cs| == GivenCount(f)
      && (forall i :: 0 <= i < |cs| ==> cs[i].Filter?)
      && (forall i, j :: 0 <= i < j < |cs| ==> FieldRank(cs[i].filter.fieldName) < FieldRank(cs[j].filter.fieldName))
      && (forall i :: 0 <= i < |cs| ==>
            var k := FieldRank(cs[i].filter.fieldName);
            Truthy(ValueOfRank(f, k))
            && cs[i].filter == StringFilter(FieldOfRank(k), ValueOfRank(f, k).value, MatchOfRank(k, urlMatch)))
  {
    var cs := Conditions(f, urlMatch);
    ConditionsLength(f, urlMatch);
    forall i | 0 <= i < |cs|
      ensures cs[i].Filter? && FieldRank(cs[i].filter.fieldName) == RankAt(f, i)
      ensures var k := FieldRank(cs[i].filter.fieldName);
            Truthy(ValueOfRank(f, k))
            && cs[i].filter == StringFilter(FieldOfRank(k), ValueOfRank(f, k).value, MatchOfRank(k, urlMatch))
    {
      ConditionAt(f, urlMatch, i);
    }
    forall i, j | 0 <= i < j < |cs|
      ensures FieldRank(cs[i].filter.fieldName) < FieldRank(cs[j].filter.fieldName)
    {
      RankAtIncreasing(f, urlMatch, i, j);
    }
  }

  /** What the four conditions together demand of a record. */
  predicate ConditionsHold(f: CompanyFilters, urlMatch: MatchType, rec: Record)
  {
    && (Truthy(f.url) ==> PagePath in rec && StringMatches(urlMatch, rec[PagePath], f.url.value))
    && (Truthy(f.prefecture) ==> PrefectureField in rec && StringMatches(Exact, rec[PrefectureField], f.prefecture.value))
    && (Truthy(f.industry) ==> IndustryField in rec && StringMatches(Contains, rec[IndustryField], f.industry.value))
    && (Truthy(f.employees) ==> EmployeesField in rec && StringMatches(Exact, rec[EmployeesField], f.employees.value))
  }

  /** The condition of rank `k` holds of `rec`, or its value is not given. */
  predicate RankHolds(f: CompanyFilters, urlMatch: MatchType, k: nat, rec: Record)
  {
    Truthy(ValueOfRank(f, k)) ==>
      FieldOfRank(k) in rec && StringMatches(MatchOfRank(k, urlMatch), rec[FieldOfRank(k)], ValueOfRank(f, k).value)
  }

  /** The position in the list of the condition of rank `k`. */
  function IndexOfRank(f: CompanyFilters, k: nat): nat
  {
    if k == 0 then 0
    else if k == 1 then CountGiven(f.url)
    else if k == 2 then CountGiven(f.url) + CountGiven(f.prefecture)
    else CountGiven(f.url) + CountGiven(f.prefecture) + CountGiven(f.industry)
  }

  lemma IndexOfRankFound(f: CompanyFilters, urlMatch: MatchType, k: nat)
    requires k < 4 && Truthy(ValueOfRank(f, k))
    ensures IndexOfRank(f, k) < |Conditions(f, urlMatch)| && RankAt(f, IndexOfRank(f, k)) == k
  {
    ConditionsLength(f, urlMatch);
  }

  lemma ConditionsMeaning(f: CompanyFilters, urlMatch: MatchType, rec: Record)
    ensures (forall i :: 0 <= i < |Conditions(f, urlMatch)| ==> Holds(Conditions(f, urlMatch)[i], rec))
        <==> ConditionsHold(f, urlMatch, rec)
  {
    var cs := Conditions(f, urlMatch);
    assert ConditionsHold(f, urlMatch, rec) <==> forall k :: 0 <= k < 4 ==> RankHolds(f, urlMatch, k, rec) by {
      assert ConditionsHold(f, urlMatch, rec) <==>
        RankHolds(f, urlMatch, 0, rec) && RankHolds(f, urlMatch, 1, rec) &&
        RankHolds(f, urlMatch, 2, rec) && RankHolds(f, urlMatch, 3, rec);
    }
    if forall i :: 0 <= i < |cs| ==> Holds(cs[i], rec) {
      forall k | 0 <= k < 4 ensures RankHolds(f, urlMatch, k, rec) {
        if Truthy(ValueOfRank(f, k)) {
          IndexOfRankFound(f, urlMatch, k);
          ConditionAt(f, urlMatch, IndexOfRank(f, k));
        }
      }
    }
    if forall k :: 0 <= k < 4 ==> RankHolds(f, urlMatch, k, rec) {
      forall i | 0 <= i < |cs| ensures Holds(cs[i], rec) {
        ConditionAt(f, urlMatch, i);
        assert RankHolds(f, urlMatch, RankAt(f, i), rec);
      }
    }
  }

  const CompanyDimensions := [CompanyNameField, PrefectureField, IndustryField, EmployeesField]
  const CompanyMetrics := ["activeUsers", "sessions", "screenPageViews", "averageSessionDuration"]

  /** The companies report's request: top 100 companies by sessions. */
  function CompaniesRequest(dr: DateRange, f: CompanyFilters, urlMatch: MatchType): Request
  {
    Request([dr], CompanyDimensions, CompanyMetrics, Combine(Conditions(f, urlMatch)),
            [OrderBy(MetricKey("sessions"), true)], Some(100))
  }

  /**
   * The request as the handlers build it: the conditions are pushed one by
   * one onto a list, and the list is attached only when it is not empty.
   */
  method BuildCompaniesRequest(dr: DateRange, f: CompanyFilters, urlMatch: MatchType) returns (request: Request)
    ensures request == CompaniesRequest(dr, f, urlMatch)
  {
    var dimensionFilters: seq<FilterExpression> := [];
    if Truthy(f.url) {
      dimensionFilters := dimensionFilters + [Leaf(PagePath, f.url.value, urlMatch)];
    }
    assert dimensionFilters == ConditionOn(PagePath, f.url, urlMatch);
    if Truthy(f.prefecture) {
      dimensionFilters := dimensionFilters + [Leaf(PrefectureField, f.prefecture.value, Exact)];
    }
    assert dimensionFilters == ConditionOn(PagePath, f.url, urlMatch) + ConditionOn(PrefectureField, f.prefecture, Exact);
    if Truthy(f.industry) {
      dimensionFilters := dimensionFilters + [Leaf(IndustryField, f.industry.value, Contains)];
    }
    assert dimensionFilters == ConditionOn(PagePath, f.url, urlMatch) + ConditionOn(PrefectureField, f.prefecture, Exact)
      + ConditionOn(IndustryField, f.industry, Contains);
    if Truthy(f.employees) {
      dimensionFilters := dimensionFilters + [Leaf(EmployeesField, f.employees.value, Exact)];
    }
    assert dimensionFilters == Conditions(f, urlMatch);
    request := Request([dr], CompanyDimensions, CompanyMetrics, None, [OrderBy(MetricKey("sessions"), true)], Some(100));
    if |dimensionFilters| == 1 {
      request := request.(dimensionFilter := Some(dimensionFilters[0]));
    } else if |dimensionFilters| > 1 {
      request := request.(dimensionFilter := Some(AndGroup(dimensionFilters)));
    }
  }

  /**
   * The request carries no filter when no value is given, the single leaf
   * when one is, and an AND group of all the leaves otherwise; in every case
   * it selects exactly the records that meet every given condition.
   */
  lemma CompaniesFilter(dr: DateRange, f: CompanyFilters, urlMatch: MatchType, rec: Record)
    ensures var filter := CompaniesRequest(dr, f, urlMatch).dimensionFilter;
      && (filter.None? <==> GivenCount(f) == 0)
      && (GivenCount(f) == 1 ==> filter == Some(Conditions(f, urlMatch)[0]) && filter.value.Filter?)
      && (GivenCount(f) >= 2 ==> filter == Some(AndGroup(Conditions(f, urlMatch))))
      && (Admits(filter, rec) <==> ConditionsHold(f, urlMatch, rec))
  {
    ConditionsShape(f, urlMatch);
    CombineIsConjunction(Conditions(f, urlMatch), rec);
    ConditionsMeaning(f, urlMatch, rec);
  }
}
