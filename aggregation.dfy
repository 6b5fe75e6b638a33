/**
 * The companies-by-url report's aggregation: the rows (one per company and
 * page path) are folded into a JavaScript `Map` keyed by company name, each
 * entry summing page views and sessions and collecting page paths; the
 * map's values, in insertion order, are then sorted by page views, highest
 * first, with `Array.prototype.sort`, which is stable.
 */
module CompanyAggregation {
  import opened Analytics

  datatype CompanyAggregate = CompanyAggregate(
    name: string,
    prefecture: string,
    industry: string,
    employees: string,
    pageViews: nat,
    sessions: nat,
    viewedPages: seq<string>)

  // The fields of one result row (dimensions name, pref, industry,
  // employees, pagePath; metrics screenPageViews, sessions).

  function CompanyOf(row: Row): (name: string)
    ensures name != ""
    ensures HasDimension(row, 0) ==> name == row.dimensionValues[0].value
    ensures !HasDimension(row, 0) ==> name == UnknownCompany
  {
    DimensionOr(row, 0, UnknownCompany)
  }

  function PageViewsIn(row: Row): nat { MetricOr0(row, 0) }

  function SessionsIn(row: Row): nat { MetricOr0(row, 1) }

  function PathIn(row: Row): string { DimensionOr(row, 4, "") }

  /** The entry `companyMap.set` stores when a company is first met, in `row`. */
  function Started(row: Row): CompanyAggregate
  {
    CompanyAggregate(CompanyOf(row), DimensionOr(row, 1, ""), DimensionOr(row, 2, ""), DimensionOr(row, 3, ""), 0, 0, [])
  }

  /** The entry after the `+=` on both counters and the `push` of the row's path. */
  function Counted(c: CompanyAggregate, row: Row): CompanyAggregate
  {
    c.(pageViews := c.pageViews + PageViewsIn(row),
       sessions := c.sessions + SessionsIn(row),
       viewedPages := c.viewedPages + [PathIn(row)])
  }

  /** A JavaScript `Map`: its entries and its keys in insertion order. */
  datatype Table = Table(keys: seq<string>, entries: map<string, CompanyAggregate>)

  ghost predicate Valid(t: Table)
  {
    && (forall i, j :: 0 <= i < j < |t.keys| ==> t.keys[i] != t.keys[j])
    && (forall k :: k in t.entries <==> k in t.keys)
    && (forall k :: k in t.entries ==> t.entries[k].name == k)
  }

  /** One step of the `forEach`. */
  function Absorb(t: Table, row: Row): Table
  {
    var name := CompanyOf(row);
    if name in t.entries then Table(t.keys, t.entries[name := Counted(t.entries[name], row)])
    else Table(t.keys + [name], t.entries[name := Counted(Started(row), row)])
  }

  /** The map after the `forEach` over `rows`. */
  function Aggregate(rows: seq<Row>): Table
    decreases |rows|
  {
    if rows == [] then Table([], map[])
    else Absorb(Aggregate(rows[..|rows| - 1]), rows[|rows| - 1])
  }

  /** The `forEach` as the source writes it: the map is updated row by row. */
  method AggregateByCompany(rows: seq<Row>) returns (keys: seq<string>, entries: map<string, CompanyAggregate>)
    ensures Table(keys, entries) == Aggregate(rows)
  {
    keys, entries := [], map[];
    for i := 0 to |rows|
      invariant Table(keys, entries) == Aggregate(rows[..i])
    {
      var row := rows[i];
      var name := CompanyOf(row);
      if name !in entries {
        entries := entries[name := Started(row)];
        keys := keys + [name];
      }
      var company := entries[name];
      company := company.(pageViews := company.pageViews + PageViewsIn(row));
      company := company.(sessions := company.sessions + SessionsIn(row));
      company := company.(viewedPages := company.viewedPages + [PathIn(row)]);
      entries := entries[name := company];
      assert rows[..i + 1][..i] == rows[..i];
    }
    assert rows[..|rows|] == rows;
  }

  // ---------------------------------------------------------------------
  // A reference definition of each company's record, one company at a time.
  // ---------------------------------------------------------------------

  /** Some row of `rows` belongs to the company `name`. */
  predicate Seen(rows: seq<Row>, name: string)
  {
    exists j :: 0 <= j < |rows| && CompanyOf(rows[j]) == name
  }

  /** The index of the first row of `rows` that belongs to `name`. */
  function FirstIndex(rows: seq<Row>, name: string): (i: nat)
    requires Seen(rows, name)
    ensures i < |rows| && CompanyOf(rows[i]) == name
    ensures forall j :: 0 <= j < i ==> CompanyOf(rows[j]) != name
    decreases |rows|
  {
    var n := |rows| - 1;
    if Seen(rows[..n], name) then
      var i := FirstIndex(rows[..n], name);
      assert rows[..n][i] == rows[i];
      i
    else
      assert forall j :: 0 <= j < n ==> rows[..n][j] == rows[j];
      n
  }

  function PageViewsOf(rows: seq<Row>, name: string): nat
    decreases |rows|
  {
    if rows == [] then 0
    else
      var last := rows[|rows| - 1];
      PageViewsOf(rows[..|rows| - 1], name) + (if CompanyOf(last) == name then PageViewsIn(last) else 0)
  }

  function SessionsOf(rows: seq<Row>, name: string): nat
    decreases |rows|
  {
    if rows == [] then 0
    else
      var last := rows[|rows| - 1];
      SessionsOf(rows[..|rows| - 1], name) + (if CompanyOf(last) == name then SessionsIn(last) else 0)
  }

  /** The page paths of the rows of `name`, in row order, duplicates kept. */
  function PathsOf(rows: seq<Row>, name: string): seq<string>
    decreases |rows|
  {
    if rows == [] then []
    else
      var last := rows[|rows| - 1];
      PathsOf(rows[..|rows| - 1], name) + (if CompanyOf(last) == name then [PathIn(last)] else [])
  }

  /** What the report promises for `name`: the descriptive fields of its first
      row, and its counters and paths over all of its rows. */
  function Expected(rows: seq<Row>, name: string): CompanyAggregate
    requires Seen(rows, name)
  {
    var first := rows[FirstIndex(rows, name)];
    Started(first).(pageViews := PageViewsOf(rows, name),
                    sessions := SessionsOf(rows, name),
                    viewedPages := PathsOf(rows, name))
  }

  lemma {:induction false} UnseenContributesNothing(rows: seq<Row>, name: string)
    requires !Seen(rows, name)
    ensures PageViewsOf(rows, name) == 0 && SessionsOf(rows, name) == 0 && PathsOf(rows, name) == []
    decreases |rows|
  {
    if rows != [] {
      var n := |rows| - 1;
      assert forall j :: 0 <= j < n ==> rows[..n][j] == rows[j];
      UnseenContributesNothing(rows[..n], name);
    }
  }

  /** How `Seen` and `FirstIndex` change when one row is added at the end. */
  lemma SeenStep(rows: seq<Row>, k: string)
    requires rows != []
    ensures Seen(rows, k) <==> Seen(rows[..|rows| - 1], k) || CompanyOf(rows[|rows| - 1]) == k
    ensures Seen(rows[..|rows| - 1], k) ==> Seen(rows, k) && FirstIndex(rows, k) == FirstIndex(rows[..|rows| - 1], k)
    ensures !Seen(rows[..|rows| - 1], k) && CompanyOf(rows[|rows| - 1]) == k ==> FirstIndex(rows, k) == |rows| - 1
  {
    var n := |rows| - 1;
    if Seen(rows, k) && CompanyOf(rows[n]) != k {
      var j :| 0 <= j < |rows| && CompanyOf(rows[j]) == k;
      assert rows[..n][j] == rows[j];
    }
    if Seen(rows[..n], k) {
      var j :| 0 <= j < n && CompanyOf(rows[..n][j]) == k;
      assert rows[..n][j] == rows[j];
    }
    if CompanyOf(rows[n]) == k {
      assert Seen(rows, k);
    }
  }

  /** How a company's reference record changes when one row is added at the end. */
  lemma ExpectedStep(rows: seq<Row>, k: string)
    requires rows != [] && Seen(rows, k)
    ensures Seen(rows[..|rows| - 1], k) && CompanyOf(rows[|rows| - 1]) != k ==>
      Expected(rows, k) == Expected(rows[..|rows| - 1], k)
    ensures Seen(rows[..|rows| - 1], k) && CompanyOf(rows[|rows| - 1]) == k ==>
      Expected(rows, k) == Counted(Expected(rows[..|rows| - 1], k), rows[|rows| - 1])
    ensures !Seen(rows[..|rows| - 1], k) ==>
      CompanyOf(rows[|rows| - 1]) == k && Expected(rows, k) == Counted(Started(rows[|rows| - 1]), rows[|rows| - 1])
  {
    var n := |rows| - 1;
    SeenStep(rows, k);
    if !Seen(rows[..n], k) {
      UnseenContributesNothing(rows[..n], k);
    }
  }

  /** Keys and entries of the map: one entry per company seen, keyed by its name. */
  lemma {:induction false} AggregateKeys(rows: seq<Row>)
    ensures Valid(Aggregate(rows))
    ensures forall k :: k in Aggregate(rows).entries <==> Seen(rows, k)
    decreases |rows|
  {
    if rows != [] {
      var n := |rows| - 1;
      AggregateKeys(rows[..n]);
      forall k ensures Seen(rows, k) <==> Seen(rows[..n], k) || CompanyOf(rows[n]) == k {
        SeenStep(rows, k);
      }
    }
  }

  /** Each entry of the map is its company's reference record. */
  lemma {:induction false} AggregateEntries(rows: seq<Row>)
    ensures forall k :: k in Aggregate(rows).entries ==> Seen(rows, k) && Aggregate(rows).entries[k] == Expected(rows, k)
    decreases |rows|
  {
    AggregateKeys(rows);
    if rows != [] {
      var n := |rows| - 1;
      AggregateKeys(rows[..n]);
      AggregateEntries(rows[..n]);
      forall k | k in Aggregate(rows).entries
        ensures Aggregate(rows).entries[k] == Expected(rows, k)
      {
        ExpectedStep(rows, k);
      }
    }
  }

  /** The keys are in the order in which the companies first occur. */
  lemma {:induction false} AggregateKeyOrder(rows: seq<Row>)
    ensures forall k :: k in Aggregate(rows).keys ==> Seen(rows, k)
    ensures forall i, j :: 0 <= i < j < |Aggregate(rows).keys| ==>
      FirstIndex(rows, Aggregate(rows).keys[i]) < FirstIndex(rows, Aggregate(rows).keys[j])
    decreases |rows|
  {
    AggregateKeys(rows);
    if rows != [] {
      var n := |rows| - 1;
      AggregateKeys(rows[..n]);
      AggregateKeyOrder(rows[..n]);
      var t := Aggregate(rows[..n]);
      var keys := Aggregate(rows).keys;
      forall k | k in t.keys ensures Seen(rows, k) && FirstIndex(rows, k) == FirstIndex(rows[..n], k) < n {
        SeenStep(rows, k);
      }
      var name := CompanyOf(rows[n]);
      if name in t.entries {
        assert keys == t.keys;
      } else {
        SeenStep(rows, name);
        assert keys == t.keys + [name];
        forall i, j | 0 <= i < j < |keys|
          ensures FirstIndex(rows, keys[i]) < FirstIndex(rows, keys[j])
        {
          assert keys[i] == t.keys[i] && keys[i] in t.keys;
          if j < |t.keys| {
            assert keys[j] == t.keys[j] && keys[j] in t.keys;
          }
        }
      }
    }
  }

  /** The map holds exactly one entry per company that occurs in the rows,
      that entry is the company's reference record. */
  lemma AggregateMatchesReference(rows: seq<Row>)
    ensures Valid(Aggregate(rows))
    ensures forall k :: k in Aggregate(rows).entries <==> Seen(rows, k)
    ensures forall k :: k in Aggregate(rows).entries ==> Aggregate(rows).entries[k] == Expected(rows, k)
  {
    AggregateKeys(rows);
    AggregateEntries(rows);
  }

  /** The map's values in insertion order (`Array.from(companyMap.values())`). */
  function Values(t: Table): (vs: seq<CompanyAggregate>)
    requires forall k :: k in t.keys ==> k in t.entries
    ensures |vs| == |t.keys|
    ensures forall i :: 0 <= i < |vs| ==> vs[i] == t.entries[t.keys[i]]
  {
    seq(|t.keys|, i requires 0 <= i < |t.keys| => t.entries[t.keys[i]])
  }

  // ---------------------------------------------------------------------
  // Totals.
  // ---------------------------------------------------------------------

  function TotalPageViews(cs: seq<CompanyAggregate>): nat
  {
    if cs == [] then 0 else cs[0].pageViews + TotalPageViews(cs[1..])
  }

  function RowPageViews(rows: seq<Row>): nat
    decreases |rows|
  {
    if rows == [] then 0 else RowPageViews(rows[..|rows| - 1]) + PageViewsIn(rows[|rows| - 1])
  }

  lemma {:induction false} TotalPageViewsAppend(cs: seq<CompanyAggregate>, c: CompanyAggregate)
    ensures TotalPageViews(cs + [c]) == TotalPageViews(cs) + c.pageViews
  {
    if cs != [] {
      assert (cs + [c])[1..] == cs[1..] + [c];
      TotalPageViewsAppend(cs[1..], c);
    }
  }

  lemma {:induction false} TotalPageViewsUpdate(cs: seq<CompanyAggregate>, j: nat, c: CompanyAggregate)
    requires j < |cs|
    ensures TotalPageViews(cs[j := c]) + cs[j].pageViews == TotalPageViews(cs) + c.pageViews
  {
    if j > 0 {
      assert cs[j := c][1..] == cs[1..][j - 1 := c];
      TotalPageViewsUpdate(cs[1..], j - 1, c);
    }
  }

  lemma AbsorbKeepsValid(t: Table, row: Row)
    requires Valid(t)
    ensures Valid(Absorb(t, row))
    ensures forall k :: k in Absorb(t, row).keys ==> k in Absorb(t, row).entries
  {
  }

  /** One step of the `forEach` adds the row's page views to the map's total. */
  lemma AbsorbAddsPageViews(t: Table, row: Row)
    requires Valid(t)
    ensures Valid(Absorb(t, row))
    ensures TotalPageViews(Values(Absorb(t, row))) == TotalPageViews(Values(t)) + PageViewsIn(row)
  {
    AbsorbKeepsValid(t, row);
    var t' := Absorb(t, row);
    var name := CompanyOf(row);
    var vs, vs' := Values(t), Values(t');
    if name in t.entries {
      var j :| 0 <= j < |t.keys| && t.keys[j] == name;
      var c := Counted(t.entries[name], row);
      assert vs' == vs[j := c] by {
        forall i | 0 <= i < |vs'| ensures vs'[i] == vs[j := c][i] {
          if i != j { assert t.keys[i] != name; }
        }
      }
      TotalPageViewsUpdate(vs, j, c);
    } else {
      var c := Counted(Started(row), row);
      assert vs' == vs + [c] by {
        forall i | 0 <= i < |vs'| ensures vs'[i] == (vs + [c])[i] {
          if i < |vs| { assert t.keys[i] != name; }
        }
      }
      TotalPageViewsAppend(vs, c);
    }
  }

  /** Aggregating loses and invents no page view. */
  lemma {:induction false} AggregatePreservesPageViews(rows: seq<Row>)
    ensures Valid(Aggregate(rows))
    ensures TotalPageViews(Values(Aggregate(rows))) == RowPageViews(rows)
    decreases |rows|
  {
    if rows != [] {
      var n := |rows| - 1;
      AggregatePreservesPageViews(rows[..n]);
      AbsorbAddsPageViews(Aggregate(rows[..n]), rows[n]);
    }
  }

  // ---------------------------------------------------------------------
  // The stable sort by page views, highest first.
  // ---------------------------------------------------------------------

  ghost predicate SortedByPageViews(cs: seq<CompanyAggregate>)
  {
    forall i, j :: 0 <= i < j < |cs| ==> cs[i].pageViews >= cs[j].pageViews
  }

  ghost predicate DistinctNames(cs: seq<CompanyAggregate>)
  {
    forall i, j :: 0 <= i < j < |cs| ==> cs[i].name != cs[j].name
  }

  /** The records of `cs` whose page-view count is `v`, in order. */
  function WithPageViews(cs: seq<CompanyAggregate>, v: nat): seq<CompanyAggregate>
  {
    if cs == [] then []
    else (if cs[0].pageViews == v then [cs[0]] else []) + WithPageViews(cs[1..], v)
  }

  /** Places `c` before the first record with no more page views than it. */
  function Insert(c: CompanyAggregate, sorted: seq<CompanyAggregate>): seq<CompanyAggregate>
  {
    if sorted == [] || c.pageViews >= sorted[0].pageViews then [c] + sorted
    else [sorted[0]] + Insert(c, sorted[1..])
  }

  function SortByPageViews(cs: seq<CompanyAggregate>): seq<CompanyAggregate>
  {
    if cs == [] then [] else Insert(cs[0], SortByPageViews(cs[1..]))
  }

  lemma {:induction false} InsertPermutes(c: CompanyAggregate, sorted: seq<CompanyAggregate>)
    ensures multiset(Insert(c, sorted)) == multiset(sorted) + multiset{c}
  {
    if sorted != [] && c.pageViews < sorted[0].pageViews {
      InsertPermutes(c, sorted[1..]);
      assert sorted == [sorted[0]] + sorted[1..];
    }
  }

  /** No record of `cs` has more than `b` page views. */
  ghost predicate AtMost(cs: seq<CompanyAggregate>, b: nat)
  {
    forall i :: 0 <= i < |cs| ==> cs[i].pageViews <= b
  }

  lemma {:induction false} InsertAtMost(c: CompanyAggregate, sorted: seq<CompanyAggregate>, b: nat)
    requires AtMost(sorted, b) && c.pageViews <= b
    ensures AtMost(Insert(c, sorted), b)
  {
    if sorted != [] && c.pageViews < sorted[0].pageViews {
      InsertAtMost(c, sorted[1..], b);
      var r := Insert(c, sorted);
      assert r == [sorted[0]] + Insert(c, sorted[1..]);
      forall i | 0 <= i < |r| ensures r[i].pageViews <= b {
        if i > 0 { assert r[i] == Insert(c, sorted[1..])[i - 1]; }
      }
    }
  }

  lemma ConsSorted(h: CompanyAggregate, rest: seq<CompanyAggregate>)
    requires SortedByPageViews(rest) && AtMost(rest, h.pageViews)
    ensures SortedByPageViews([h] + rest)
  {
    var r := [h] + rest;
    forall i, j | 0 <= i < j < |r| ensures r[i].pageViews >= r[j].pageViews {
      assert r[j] == rest[j - 1];
      if i > 0 { assert r[i] == rest[i - 1]; }
    }
  }

  lemma {:induction false} InsertSorted(c: CompanyAggregate, sorted: seq<CompanyAggregate>)
    requires SortedByPageViews(sorted)
    ensures SortedByPageViews(Insert(c, sorted))
  {
    if sorted == [] || c.pageViews >= sorted[0].pageViews {
      ConsSorted(c, sorted);
    } else {
      var tail := sorted[1..];
      assert AtMost(tail, sorted[0].pageViews) by {
        forall i | 0 <= i < |tail| ensures tail[i].pageViews <= sorted[0].pageViews {
          assert tail[i] == sorted[i + 1];
        }
      }
      InsertSorted(c, tail);
      InsertAtMost(c, tail, sorted[0].pageViews);
      ConsSorted(sorted[0], Insert(c, tail));
    }
  }

  lemma {:induction false} InsertTotal(c: CompanyAggregate, sorted: seq<CompanyAggregate>)
    ensures TotalPageViews(Insert(c, sorted)) == TotalPageViews(sorted) + c.pageViews
  {
    if sorted == [] || c.pageViews >= sorted[0].pageViews {
      assert ([c] + sorted)[1..] == sorted;
    } else {
      InsertTotal(c, sorted[1..]);
      assert ([sorted[0]] + Insert(c, sorted[1..]))[1..] == Insert(c, sorted[1..]);
    }
  }

  lemma {:induction false} InsertStable(c: CompanyAggregate, sorted: seq<CompanyAggregate>, v: nat)
    requires SortedByPageViews(sorted)
    ensures WithPageViews(Insert(c, sorted), v) == (if c.pageViews == v then [c] else []) + WithPageViews(sorted, v)
  {
    if sorted == [] || c.pageViews >= sorted[0].pageViews {
      assert ([c] + sorted)[1..] == sorted;
    } else {
      InsertStable(c, sorted[1..], v);
      assert ([sorted[0]] + Insert(c, sorted[1..]))[1..] == Insert(c, sorted[1..]);
    }
  }

  lemma {:induction false} InsertKeepsNamesDistinct(c: CompanyAggregate, sorted: seq<CompanyAggregate>)
    requires DistinctNames(sorted)
    requires forall x :: x in sorted ==> x.name != c.name
    ensures DistinctNames(Insert(c, sorted))
  {
    if sorted != [] && c.pageViews < sorted[0].pageViews {
      var rest := Insert(c, sorted[1..]);
      assert forall x :: x in sorted[1..] ==> x in sorted;
      assert DistinctNames(sorted[1..]);
      InsertKeepsNamesDistinct(c, sorted[1..]);
      InsertPermutes(c, sorted[1..]);
      forall x | x in rest ensures x.name != sorted[0].name {
        assert x in multiset(rest);
        if x != c {
          assert x in multiset(sorted[1..]);
          var j :| 0 <= j < |sorted[1..]| && sorted[1..][j] == x;
          assert sorted[j + 1] == x;
        }
      }
      assert Insert(c, sorted) == [sorted[0]] + rest;
    }
  }

  /**
   * The sort's result is ordered by page views, highest first, and is a
   * permutation of its input with the same page-view total.
   */
  lemma {:induction false} SortSpec(cs: seq<CompanyAggregate>)
    ensures SortedByPageViews(SortByPageViews(cs))
    ensures multiset(SortByPageViews(cs)) == multiset(cs)
    ensures TotalPageViews(SortByPageViews(cs)) == TotalPageViews(cs)
  {
    if cs != [] {
      SortSpec(cs[1..]);
      InsertSorted(cs[0], SortByPageViews(cs[1..]));
      InsertPermutes(cs[0], SortByPageViews(cs[1..]));
      InsertTotal(cs[0], SortByPageViews(cs[1..]));
      assert cs == [cs[0]] + cs[1..];
    }
  }

  /** The sort keeps records with equal page views in their input order. */
  lemma {:induction false} SortStable(cs: seq<CompanyAggregate>, v: nat)
    ensures WithPageViews(SortByPageViews(cs), v) == WithPageViews(cs, v)
  {
    if cs != [] {
      var sortedTail := SortByPageViews(cs[1..]);
      assert SortedByPageViews(sortedTail) by { SortSpec(cs[1..]); }
      SortStable(cs[1..], v);
      InsertStable(cs[0], sortedTail, v);
    }
  }

  lemma {:induction false} SortKeepsNamesDistinct(cs: seq<CompanyAggregate>)
    requires DistinctNames(cs)
    ensures DistinctNames(SortByPageViews(cs))
  {
    if cs != [] {
      assert DistinctNames(cs[1..]);
      SortSpec(cs[1..]);
      SortKeepsNamesDistinct(cs[1..]);
      forall x | x in SortByPageViews(cs[1..]) ensures x.name != cs[0].name {
        assert x in multiset(SortByPageViews(cs[1..]));
        var j :| 0 <= j < |cs[1..]| && cs[1..][j] == x;
        assert cs[j + 1] == x;
      }
      InsertKeepsNamesDistinct(cs[0], SortByPageViews(cs[1..]));
    }
  }

  // ---------------------------------------------------------------------
  // The report's company list.
  // ---------------------------------------------------------------------

  /** `Array.from(companyMap.values()).sort((a, b) => b.pageViews - a.pageViews)` */
  function RankCompanies(rows: seq<Row>): seq<CompanyAggregate>
  {
    AggregateKeys(rows);
    SortByPageViews(Values(Aggregate(rows)))
  }

  /** The company list is ordered by page views, highest first, and carries
      the rows' page-view total. */
  lemma CompaniesByUrlOrder(rows: seq<Row>)
    ensures SortedByPageViews(RankCompanies(rows))
    ensures TotalPageViews(RankCompanies(rows)) == RowPageViews(rows)
  {
    AggregatePreservesPageViews(rows);
    SortSpec(Values(Aggregate(rows)));
  }

  /** The values of a valid map: one record per key, each filed under its name. */
  lemma ValuesOfValid(t: Table)
    requires Valid(t)
    ensures DistinctNames(Values(t))
    ensures forall c :: c in Values(t) ==> c.name in t.entries && c == t.entries[c.name]
    ensures forall k :: k in t.entries ==> t.entries[k] in Values(t)
  {
    forall k | k in t.entries ensures t.entries[k] in Values(t) {
      var j :| 0 <= j < |t.keys| && t.keys[j] == k;
      assert Values(t)[j] == t.entries[k];
    }
  }

  lemma SameElements(a: seq<CompanyAggregate>, b: seq<CompanyAggregate>)
    requires multiset(a) == multiset(b)
    ensures forall c :: c in a <==> c in b
  {
    forall c ensures c in a <==> c in b {
      assert c in a <==> c in multiset(a);
      assert c in b <==> c in multiset(b);
    }
  }

  /**
   * The company list holds exactly one record per company occurring in the
   * rows, and each is that company's reference record.
   */
  lemma CompaniesByUrlRecords(rows: seq<Row>)
    ensures DistinctNames(RankCompanies(rows))
    ensures forall k :: Seen(rows, k) <==> exists i :: 0 <= i < |RankCompanies(rows)| && RankCompanies(rows)[i].name == k
    ensures forall i :: 0 <= i < |RankCompanies(rows)| ==>
      Seen(rows, RankCompanies(rows)[i].name) && RankCompanies(rows)[i] == Expected(rows, RankCompanies(rows)[i].name)
  {
    AggregateMatchesReference(rows);
    var t := Aggregate(rows);
    var vs := Values(t);
    var out := RankCompanies(rows);
    ValuesOfValid(t);
    SortSpec(vs);
    SortKeepsNamesDistinct(vs);
    SameElements(out, vs);
    forall k | Seen(rows, k)
      ensures exists i :: 0 <= i < |out| && out[i].name == k
    {
      assert t.entries[k] in out;
      var i :| 0 <= i < |out| && out[i] == t.entries[k];
    }
    forall i | 0 <= i < |out|
      ensures Seen(rows, out[i].name) && out[i] == Expected(rows, out[i].name)
    {
      assert out[i] in vs;
    }
  }

  /** Companies with equal page views keep the map's order, which is the
      order in which each first occurs in the rows (`AggregateKeyOrder`). */
  lemma CompaniesByUrlTies(rows: seq<Row>, v: nat)
    ensures forall k :: k in Aggregate(rows).keys ==> k in Aggregate(rows).entries
    ensures WithPageViews(RankCompanies(rows), v) == WithPageViews(Values(Aggregate(rows)), v)
  {
    AggregateKeys(rows);
    SortStable(Values(Aggregate(rows)), v);
  }
}
