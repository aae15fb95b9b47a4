// GET /api/indicators/country/:countryCode: the records of one country,
// capped at 100 and grouped by category in an object keyed by category.

module CountryIndicators {
  import opened JsValues
  import opened Text
  import opened Entries
  import opened IndicatorModel
  import opened Filters
  import IndicatorQueries

  /** The endpoint's cap on the records it fetches. */
  const CountryCap: nat := 100

  const NotFoundMessage: string := "Country not found"

  type Groups = Entries<seq<IndicatorRecord>>

  /** The group of `c` so far, or a fresh empty array. */
  function GroupOf(g: Groups, c: string): seq<IndicatorRecord>
  {
    match Get(g, c)
    case Some(v) => v
    case None => []
  }

  /** The `reduce`: each record is pushed onto the array of its category, created on first use. */
  function Grouped(rs: seq<IndicatorRecord>): Groups
    decreases |rs|
  {
    if rs == [] then []
    else
      var g := Grouped(rs[..|rs| - 1]);
      var c := rs[|rs| - 1].category;
      Put(g, c, GroupOf(g, c) + [rs[|rs| - 1]])
  }

  /** The loop that builds the grouping object one record at a time. */
  method GroupByCategory(rs: seq<IndicatorRecord>) returns (groups: Groups)
    ensures groups == Grouped(rs)
  {
    groups := [];
    for i := 0 to |rs|
      invariant groups == Grouped(rs[..i])
    {
      var r := rs[i];
      assert rs[..i + 1][..i] == rs[..i];
      var current := Get(groups, r.category);
      var list := if current.Some? then current.value else [];
      groups := Put(groups, r.category, list + [r]);
    }
    assert rs[..|rs|] == rs;
  }

  /**
   * Each category present among the records has exactly one group, holding
   * its records in their original order; no other key exists.
   */
  lemma {:induction false} GroupedAt(rs: seq<IndicatorRecord>, c: string)
    ensures Get(Grouped(rs), c) == if IndicatorQueries.OfCategory(rs, c) == [] then None else Some(IndicatorQueries.OfCategory(rs, c))
    ensures DistinctKeys(Grouped(rs))
    decreases |rs|
  {
    if rs != [] {
      var init := rs[..|rs| - 1];
      var last := rs[|rs| - 1];
      GroupedAt(init, c);
      if last.category != c {
        GroupedAt(init, last.category);
      }
    }
  }

  /** The total length of all groups. */
  function GroupSizes(g: Groups): nat
    decreases |g|
  {
    if g == [] then 0 else |g[0].1| + GroupSizes(g[1..])
  }

  lemma {:induction false} PutSizes(g: Groups, k: string, v: seq<IndicatorRecord>)
    ensures GroupSizes(Put(g, k, v)) + |GroupOf(g, k)| == GroupSizes(g) + |v|
    decreases |g|
  {
    if g != [] && g[0].0 != k {
      PutSizes(g[1..], k, v);
    }
  }

  /** No record is lost or duplicated: the groups together hold exactly as many records as were fetched. */
  lemma {:induction false} GroupedSizes(rs: seq<IndicatorRecord>)
    ensures GroupSizes(Grouped(rs)) == |rs|
    decreases |rs|
  {
    if rs != [] {
      var init := rs[..|rs| - 1];
      var c := rs[|rs| - 1].category;
      GroupedSizes(init);
      PutSizes(Grouped(init), c, GroupOf(Grouped(init), c) + [rs[|rs| - 1]]);
    }
  }

  /** The records of country `countryCode`, in their order. */
  function OfCountry(docs: seq<IndicatorRecord>, countryCode: string): seq<IndicatorRecord>
  {
    Keep(docs, (x: IndicatorRecord) => x.countryCode == countryCode)
  }

  /**
   * `find({countryCode}).limit(100)` over `docs` in the endpoint's sort order:
   * the first 100 records of the country, or all of them when there are fewer.
   */
  function Fetched(docs: seq<IndicatorRecord>, countryCode: string): (r: seq<IndicatorRecord>)
    ensures |r| <= CountryCap
    ensures forall x :: x in r ==> x in docs && x.countryCode == countryCode
    ensures var matching := OfCountry(docs, countryCode);
            r == matching[..if |matching| < CountryCap then |matching| else CountryCap]
  {
    var matching := OfCountry(docs, countryCode);
    var r := IndicatorQueries.Window(matching, 0, CountryCap);
    assert r == matching[..if |matching| < CountryCap then |matching| else CountryCap];
    assert forall x :: x in r ==> x in matching by {
      forall x | x in r ensures x in matching {
        var i :| 0 <= i < |r| && r[i] == x;
        assert matching[0 + i] == x;
      }
    }
    r
  }

  /** With at most 100 records of the country, the cap drops nothing. */
  lemma FetchedUnderCap(docs: seq<IndicatorRecord>, countryCode: string)
    requires |OfCountry(docs, countryCode)| <= CountryCap
    ensures Fetched(docs, countryCode) == OfCountry(docs, countryCode)
  {
    var matching := OfCountry(docs, countryCode);
    assert matching[0..] == matching;
  }

  datatype CountryResponse =
    | CountryNotFound(message: string)
    | CountryData(country: string, indicators: Groups, totalCount: nat)

  /**
   * The endpoint over the collection `docs` (sorted by year descending then
   * category) and the set `countries` of country codes the Country collection
   * holds.
   */
  method GetIndicatorsByCountry(docs: seq<IndicatorRecord>, countries: set<string>, code: string)
    returns (r: CountryResponse)
    ensures r.CountryNotFound? <==> ToUpper(code) !in countries
    ensures r.CountryNotFound? ==> r.message == NotFoundMessage
    ensures r.CountryData? ==> r.country == ToUpper(code)
    ensures r.CountryData? ==> r.indicators == Grouped(Fetched(docs, ToUpper(code)))
    ensures r.CountryData? ==> r.totalCount == |Fetched(docs, ToUpper(code))| <= CountryCap
  {
    var countryCode := ToUpper(code);
    if countryCode !in countries {
      return CountryNotFound(NotFoundMessage);
    }
    var indicators := Fetched(docs, countryCode);
    var grouped := GroupByCategory(indicators);
    r := CountryData(countryCode, grouped, |indicators|);
  }

  /** Every record in a group belongs to the requested country and to the group's category. */
  lemma GroupMembers(docs: seq<IndicatorRecord>, code: string, c: string, x: IndicatorRecord)
    requires Get(Grouped(Fetched(docs, ToUpper(code))), c).Some?
    requires x in Get(Grouped(Fetched(docs, ToUpper(code))), c).value
    ensures x in docs && x.countryCode == ToUpper(code) && x.category == c
  {
    GroupedAt(Fetched(docs, ToUpper(code)), c);
  }

  /** The grouped answer holds as many records as `totalCount` says. */
  lemma TotalCountMatchesGroups(docs: seq<IndicatorRecord>, code: string)
    ensures GroupSizes(Grouped(Fetched(docs, ToUpper(code)))) == |Fetched(docs, ToUpper(code))|
  {
    GroupedSizes(Fetched(docs, ToUpper(code)));
  }
}
