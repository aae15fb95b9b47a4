// The read endpoints of the indicators controller: the filtered and paginated
// listing, the listing of one category, and the comparison of countries.
// `docs` is always the whole collection in the order the endpoint's sort
// puts it; the database's filter, skip and limit are modelled here.

module IndicatorQueries {
  import opened JsValues
  import opened Text
  import opened IndicatorModel
  import opened Filters

  // ---------------------------------------------------------------------------
  // The query object

  /** A query-string parameter takes effect only when present and non-empty (JavaScript truthiness). */
  predicate Given(p: Option<string>)
  {
    p.Some? && p.value != ""
  }

  /** `query.year`: absent, an exact year, or `{$gte, $lte}`. `None` stands for NaN. */
  datatype YearFilter = AnyYear | ExactYear(year: Option<int>) | YearRange(start: Option<int>, end: Option<int>)

  datatype Query = Query(countryCode: Option<string>, indicatorCode: Option<string>, category: Option<string>,
                         year: YearFilter, sourceOrganization: Option<string>)

  datatype ListParams = ListParams(country: Option<string>, indicator: Option<string>, category: Option<string>,
                                   year: Option<string>, source: Option<string>,
                                   page: Option<string>, limit: Option<string>)

  /**
   * The `year` parameter: with a '-' it is split there and both halves go
   * through `parseInt`; otherwise the whole string does.
   */
  function ParseYear(s: string): (f: YearFilter)
    ensures '-' in s <==> f.YearRange?
    ensures '-' !in s ==> f == ExactYear(ParseInt(s))
  {
    if '-' in s then
      var parts := Split(s, '-');
      SplitAtSeparator(s, '-');
      YearRange(ParseInt(parts[0]), ParseInt(parts[1]))
    else ExactYear(ParseInt(s))
  }

  /**
   * The query object the listing builds from its parameters. The controller
   * upper-cases the indicator; the schema's setters, which also run on query
   * filters, trim it as well.
   */
  function QueryOf(p: ListParams): (q: Query)
    ensures q.countryCode.Some? <==> Given(p.country)
    ensures q.countryCode.Some? ==> q.countryCode.value == ToUpper(p.country.value)
    ensures q.indicatorCode.Some? <==> Given(p.indicator)
    ensures q.indicatorCode.Some? ==> q.indicatorCode.value == NormalCode(p.indicator.value)
    ensures q.category.Some? <==> Given(p.category)
    ensures q.category.Some? ==> q.category == p.category
    ensures q.year.AnyYear? <==> !Given(p.year)
    ensures Given(p.year) ==> q.year == ParseYear(p.year.value)
    ensures q.sourceOrganization.Some? <==> Given(p.source)
    ensures q.sourceOrganization.Some? ==> q.sourceOrganization == p.source
  {
    Query(if Given(p.country) then Some(ToUpper(p.country.value)) else None,
          if Given(p.indicator) then Some(NormalCode(p.indicator.value)) else None,
          if Given(p.category) then p.category else None,
          if Given(p.year) then ParseYear(p.year.value) else AnyYear,
          if Given(p.source) then p.source else None)
  }

  /** The controller's step-by-step construction of the query object. */
  method BuildQuery(p: ListParams) returns (q: Query)
    ensures q == QueryOf(p)
  {
    q := Query(None, None, None, AnyYear, None);
    if Given(p.country) {
      q := q.(countryCode := Some(ToUpper(p.country.value)));
    }
    if Given(p.indicator) {
      q := q.(indicatorCode := Some(NormalCode(ToUpper(p.indicator.value))));
      NormalCodeOfUpper(p.indicator.value);
    }
    if Given(p.category) {
      q := q.(category := p.category);
    }
    if Given(p.year) {
      q := q.(year := ParseYear(p.year.value));
    }
    if Given(p.source) {
      q := q.(sourceOrganization := p.source);
    }
  }

  /** A NaN year cannot be cast to the schema's Number type, so the query is rejected. */
  predicate Castable(f: YearFilter)
  {
    match f
    case AnyYear => true
    case ExactYear(y) => y.Some?
    case YearRange(a, b) => a.Some? && b.Some?
  }

  predicate YearMatches(f: YearFilter, year: int)
  {
    match f
    case AnyYear => true
    case ExactYear(y) => y.Some? && year == y.value
    case YearRange(a, b) => a.Some? && b.Some? && a.value <= year <= b.value
  }

  /** The records the database returns for a castable query. */
  predicate Matches(q: Query, r: IndicatorRecord)
  {
    && (q.countryCode.Some? ==> r.countryCode == q.countryCode.value)
    && (q.indicatorCode.Some? ==> r.indicatorCode == q.indicatorCode.value)
    && (q.category.Some? ==> r.category == q.category.value)
    && YearMatches(q.year, r.year)
    && (q.sourceOrganization.Some? ==> r.sourceOrganization == q.sourceOrganization.value)
  }

  function UpperOpt(p: Option<string>): Option<string>
  {
    if p.Some? then Some(ToUpper(p.value)) else None
  }

  /** Country and indicator are upper-cased before querying, so their case in the request does not matter. */
  lemma QueryCaseInsensitive(p: ListParams)
    ensures QueryOf(p.(country := UpperOpt(p.country), indicator := UpperOpt(p.indicator))) == QueryOf(p)
  {
    var p2 := p.(country := UpperOpt(p.country), indicator := UpperOpt(p.indicator));
    if p.country.Some? {
      ToUpperIdempotent(p.country.value);
    }
    assert QueryOf(p2).countryCode == QueryOf(p).countryCode;
    if p.indicator.Some? {
      NormalCodeOfUpper(p.indicator.value);
    }
    assert QueryOf(p2).indicatorCode == QueryOf(p).indicatorCode;
  }

  /** Surrounding whitespace in the indicator parameter is trimmed away, so it does not change the query. */
  lemma QueryIgnoresIndicatorSpaces(p: ListParams, before: string, after: string)
    requires Given(p.indicator) && Blank(before) && Blank(after)
    ensures QueryOf(p.(indicator := Some(before + p.indicator.value + after))) == QueryOf(p)
  {
    var v := p.indicator.value;
    var p2 := p.(indicator := Some(before + v + after));
    TrimAround(before, v, after);
    NormalCodeIsUpperTrim(before + v + after);
    NormalCodeIsUpperTrim(v);
    assert QueryOf(p2).indicatorCode == QueryOf(p).indicatorCode;
  }

  /** "a-b" for years a and b is the inclusive range [a, b]. */
  lemma ParseYearRange(a: nat, b: nat)
    ensures ParseYear(NatToString(a) + "-" + NatToString(b)) == YearRange(Some(a), Some(b))
    ensures Castable(YearRange(Some(a), Some(b)))
    ensures forall y :: YearMatches(YearRange(Some(a), Some(b)), y) <==> a <= y <= b
  {
    var s := NatToString(a) + "-" + NatToString(b);
    var xs := [NatToString(a), NatToString(b)];
    assert xs[1..] == [NatToString(b)];
    assert Join(xs, '-') == s;
    assert s[|NatToString(a)|] == '-';
    assert '-' !in NatToString(a) && '-' !in NatToString(b);
    SplitJoin(xs, '-');
    ParseIntRoundTrip(a);
    ParseIntRoundTrip(b);
  }

  /** A year without '-' is an exact match on that year. */
  lemma ParseYearExact(y: nat)
    ensures ParseYear(NatToString(y)) == ExactYear(Some(y))
  {
    assert '-' !in NatToString(y);
    ParseIntRoundTrip(y);
  }

  /** With no filter parameter every record matches. */
  lemma NoFilterMatchesAll(p: ListParams, r: IndicatorRecord)
    requires !Given(p.country) && !Given(p.indicator) && !Given(p.category) && !Given(p.year) && !Given(p.source)
    ensures Castable(QueryOf(p).year) && Matches(QueryOf(p), r)
  {
  }

  // ---------------------------------------------------------------------------
  // Pagination

  const DefaultPage: int := 1
  const DefaultLimit: int := 20

  /** `parseInt(param, 10) || default`: NaN and 0 both fall back to the default. */
  function PageParam(p: Option<string>, default: int): (n: int)
    requires default != 0
    ensures n != 0
    ensures p.None? ==> n == default
    ensures n != default ==> p.Some? && ParseInt(p.value) == Some(n)
    ensures p.Some? && ParseInt(p.value).Some? && ParseInt(p.value).value != 0 ==> n == ParseInt(p.value).value
  {
    if p.None? then default
    else
      match ParseInt(p.value)
      case Some(v) => if v != 0 then v else default
      case None => default
  }

  /** `startIndex = (page - 1) * limit`. */
  function Skip(page: int, limit: int): int
  {
    (page - 1) * limit
  }

  /** `Math.ceil(total / limit)`. */
  function Pages(total: nat, limit: int): (pages: int)
    requires limit != 0
    ensures (pages - 1) as real < total as real / limit as real <= pages as real
  {
    if limit > 0 then
      var d := (total + limit - 1) / limit;
      CeilPositive(total, limit, d);
      d
    else
      var d := total / -limit;
      CeilNegative(total, -limit, d);
      -d
  }

  lemma CeilPositive(total: nat, limit: int, d: int)
    requires limit > 0 && d == (total + limit - 1) / limit
    ensures (d - 1) as real < total as real / limit as real <= d as real
  {
    var m := (total + limit - 1) % limit;
    assert total + limit - 1 == d * limit + m;
    assert (d - 1) * limit < total <= d * limit;
    RealBetween(total, limit, d);
  }

  lemma RealBetween(total: int, limit: int, d: int)
    requires limit > 0 && (d - 1) * limit < total <= d * limit
    ensures (d - 1) as real < total as real / limit as real <= d as real
  {
    var L := limit as real;
    var q := total as real / L;
    assert q * L == total as real;
    assert ((d - 1) * limit) as real == (d - 1) as real * L;
    assert (d * limit) as real == d as real * L;
    RealLessFactor((d - 1) as real, q, L);
    RealAtMostFactor(q, d as real, L);
  }

  lemma CeilNegative(total: nat, m: int, d: int)
    requires m > 0 && d == total / m
    ensures (-d - 1) as real < total as real / (-m) as real <= (-d) as real
  {
    assert d * m <= total < (d + 1) * m;
    RealFloor(total, m, d);
    var q := total as real / m as real;
    assert q * m as real == total as real;
    assert total as real / (-m) as real == -q;
  }

  lemma RealFloor(total: int, m: int, d: int)
    requires m > 0 && d * m <= total < (d + 1) * m
    ensures d as real <= total as real / m as real < (d + 1) as real
  {
    var M := m as real;
    var q := total as real / M;
    assert q * M == total as real;
    assert (d * m) as real == d as real * M;
    assert ((d + 1) * m) as real == (d + 1) as real * M;
    RealAtMostFactor(d as real, q, M);
    RealLessFactor(q, (d + 1) as real, M);
  }

  /** Every record position lies on exactly one page between 1 and the page count. */
  lemma PagesCoverAll(total: nat, limit: int, i: nat)
    requires limit > 0 && i < total
    ensures var page := i / limit + 1;
            1 <= page <= Pages(total, limit) && Skip(page, limit) <= i < Skip(page, limit) + limit
  {
    var page := i / limit + 1;
    var d := Pages(total, limit);
    assert (page - 1) * limit <= i < (page - 1) * limit + limit by {
      assert i == (i / limit) * limit + i % limit;
    }
    assert (d - 1) * limit < total <= d * limit by {
      RealBounds(total, limit, d);
    }
    IntLessFactor(page - 1, d, limit);
  }

  lemma RealBounds(total: nat, limit: int, d: int)
    requires limit > 0 && (d - 1) as real < total as real / limit as real <= d as real
    ensures (d - 1) * limit < total <= d * limit
  {
    var q := total as real / limit as real;
    assert q * limit as real == total as real;
    ScaledBounds(total, limit, d, q);
  }

  /** `(d - 1) < q <= d` scaled by `limit`, where `q * limit` is `total`. */
  lemma ScaledBounds(total: int, limit: int, d: int, q: real)
    requires limit > 0 && q * limit as real == total as real && (d - 1) as real < q <= d as real
    ensures (d - 1) * limit < total <= d * limit
  {
    var L := limit as real;
    RealMulLess((d - 1) as real, q, L);
    RealMulAtMost(q, d as real, L);
    assert ((d - 1) * limit) as real == (d - 1) as real * L;
    assert (d * limit) as real == d as real * L;
  }

  lemma RealMulLess(a: real, b: real, c: real)
    requires a < b && c > 0.0
    ensures a * c < b * c
  {
  }

  lemma RealMulAtMost(a: real, b: real, c: real)
    requires a <= b && c > 0.0
    ensures a * c <= b * c
  {
  }

  lemma RealLessFactor(a: real, b: real, c: real)
    requires c > 0.0 && a * c < b * c
    ensures a < b
  {
    if a >= b {
      RealMulAtMost(b, a, c);
    }
  }

  lemma RealAtMostFactor(a: real, b: real, c: real)
    requires c > 0.0 && a * c <= b * c
    ensures a <= b
  {
    if a > b {
      RealMulLess(b, a, c);
    }
  }

  lemma IntLessFactor(a: int, b: int, c: int)
    requires c > 0 && a * c < b * c
    ensures a < b
  {
  }

  /** The records a query with `skip` and `limit` returns: at most `limit`, from position `skip` on. */
  function Window<T>(xs: seq<T>, skip: nat, limit: nat): (r: seq<T>)
    ensures |r| <= limit
    ensures |r| == if skip >= |xs| then 0 else if |xs| - skip < limit then |xs| - skip else limit
    ensures forall i :: 0 <= i < |r| ==> r[i] == xs[skip + i]
  {
    if skip >= |xs| then []
    else if |xs| - skip < limit then xs[skip..]
    else xs[skip..skip + limit]
  }

  function Abs(n: int): nat
  {
    if n < 0 then -n else n
  }

  datatype Pagination = Pagination(page: int, limit: int, total: nat, pages: int)

  datatype ListResponse =
    | Listed(count: nat, pagination: Pagination, data: seq<IndicatorRecord>)
    | ListBadRequest(message: string)
    | ListServerError(message: string)

  /**
   * One page of the records `matching` a query. The database refuses a
   * negative skip; a negative limit returns at most its absolute value.
   */
  function Paginate(matching: seq<IndicatorRecord>, page: int, limit: int, error: string): (r: ListResponse)
    requires limit != 0
    ensures !r.ListBadRequest?
    ensures r.ListServerError? <==> Skip(page, limit) < 0
    ensures r.ListServerError? ==> r.message == error
    ensures r.Listed? ==> r.count == |r.data| <= Abs(limit)
    ensures r.Listed? ==> r.pagination == Pagination(page, limit, |matching|, Pages(|matching|, limit))
    ensures r.Listed? ==> forall x :: x in r.data ==> x in matching
    ensures Skip(page, limit) >= 0 ==> r.Listed? && r.data == Window(matching, Skip(page, limit), Abs(limit))
  {
    var skip := Skip(page, limit);
    if skip < 0 then ListServerError(error)
    else
      var data := Window(matching, skip, Abs(limit));
      Listed(|data|, Pagination(page, limit, |matching|, Pages(|matching|, limit)), data)
  }

  // ---------------------------------------------------------------------------
  // GET /api/indicators

  const ListError: string := "Server error retrieving indicators"

  /** The records of `docs` a query selects, in the order of `docs`. */
  function Matching(docs: seq<IndicatorRecord>, q: Query): seq<IndicatorRecord>
  {
    Keep(docs, (x: IndicatorRecord) => Matches(q, x))
  }

  /**
   * The listing endpoint over the collection `docs`, sorted by year descending
   * then country: a NaN year is a 500, so is a negative skip; otherwise the
   * page at `(page - 1) * limit` of the matching records.
   */
  method GetEconomicIndicators(docs: seq<IndicatorRecord>, p: ListParams) returns (r: ListResponse)
    ensures !r.ListBadRequest?
    ensures r.ListServerError? <==>
              !Castable(QueryOf(p).year) || Skip(PageParam(p.page, DefaultPage), PageParam(p.limit, DefaultLimit)) < 0
    ensures r.ListServerError? ==> r.message == ListError
    ensures r.Listed? ==> forall x :: x in r.data ==> x in docs && Matches(QueryOf(p), x)
    ensures r.Listed? ==> r.pagination.total == |Matching(docs, QueryOf(p))|
    ensures r.Listed? ==> r.pagination.page == PageParam(p.page, DefaultPage) &&
                          r.pagination.limit == PageParam(p.limit, DefaultLimit)
    ensures r.Listed? ==> r.data == Window(Matching(docs, QueryOf(p)),
                                           Skip(PageParam(p.page, DefaultPage), PageParam(p.limit, DefaultLimit)),
                                           Abs(PageParam(p.limit, DefaultLimit)))
  {
    var q := BuildQuery(p);
    var page := PageParam(p.page, DefaultPage);
    var limit := PageParam(p.limit, DefaultLimit);
    if !Castable(q.year) {
      return ListServerError(ListError);
    }
    var matching := Matching(docs, q);
    r := Paginate(matching, page, limit, ListError);
  }

  // ---------------------------------------------------------------------------
  // GET /api/indicators/category/:category

  const CategoryError: string := "Server error retrieving category indicators"

  /** The records of category `c`, in their order. */
  function OfCategory(rs: seq<IndicatorRecord>, c: string): seq<IndicatorRecord>
  {
    Keep(rs, (x: IndicatorRecord) => x.category == c)
  }

  /**
   * The category endpoint: a category outside the schema's enum is refused
   * before any query, a negative skip is a 500, and otherwise the answer is
   * the page at `(page - 1) * limit` of the category's records.
   */
  function IndicatorsByCategory(docs: seq<IndicatorRecord>, category: string,
                                page: Option<string>, limit: Option<string>): (r: ListResponse)
    ensures r.ListBadRequest? <==> category !in Categories
    ensures r.ListBadRequest? ==> r.message == "Invalid category"
    ensures r.ListServerError? <==>
              category in Categories && Skip(PageParam(page, DefaultPage), PageParam(limit, DefaultLimit)) < 0
    ensures r.ListServerError? ==> r.message == CategoryError
    ensures r.Listed? ==> forall x :: x in r.data ==> x in docs && x.category == category
    ensures r.Listed? ==> r.count <= Abs(PageParam(limit, DefaultLimit))
    ensures r.Listed? ==> r.pagination.total == |OfCategory(docs, category)|
    ensures r.Listed? ==> r.data == Window(OfCategory(docs, category),
                                           Skip(PageParam(page, DefaultPage), PageParam(limit, DefaultLimit)),
                                           Abs(PageParam(limit, DefaultLimit)))
  {
    if category !in Categories then ListBadRequest("Invalid category")
    else
      var matching := OfCategory(docs, category);
      Paginate(matching, PageParam(page, DefaultPage), PageParam(limit, DefaultLimit), CategoryError)
  }

  /** 'Other', the adapters' fallback category, is not a category this endpoint serves. */
  lemma OtherCategoryRejected(docs: seq<IndicatorRecord>, page: Option<string>, limit: Option<string>)
    ensures IndicatorsByCategory(docs, "Other", page, limit) == ListBadRequest("Invalid category")
  {
    OtherNotCategory();
  }

  /** No category of the schema starts with 'O'. */
  lemma OtherNotCategory()
    ensures "Other" !in Categories
  {
    forall i | 0 <= i < |Categories|
      ensures Categories[i] != "Other"
    {
      assert Categories[i][0] != 'O';
    }
  }

  // ---------------------------------------------------------------------------
  // POST /api/indicators/compare

  /** The request body: arrays may be missing; `year` is whatever JSON value was sent. */
  datatype CompareBody = CompareBody(countries: Option<seq<string>>, indicators: Option<seq<string>>, year: JsValue)

  datatype CompareResponse = CompareBadRequest(message: string) | Compared(data: seq<IndicatorRecord>)

  const CompareRequired: string := "Countries and indicators are required"

  /** JavaScript truthiness of a number: 0, NaN, null and undefined are falsy. */
  predicate Truthy(v: JsValue)
  {
    v.Num? && v.x != 0.0
  }

  /** `countries.map(c => c.toUpperCase())`. */
  function UpperAll(xs: seq<string>): (r: seq<string>)
    ensures |r| == |xs|
    ensures forall i :: 0 <= i < |xs| ==> r[i] == ToUpper(xs[i])
  {
    seq(|xs|, i requires 0 <= i < |xs| => ToUpper(xs[i]))
  }

  /**
   * `indicators.map(i => i.toUpperCase())`, then the schema's setters on each
   * `$in` element, which also trim (the first upper-casing is subsumed, see
   * `NormalCodeOfUpper`).
   */
  function NormalAll(xs: seq<string>): (r: seq<string>)
    ensures |r| == |xs|
    ensures forall i :: 0 <= i < |xs| ==> r[i] == NormalCode(xs[i])
  {
    seq(|xs|, i requires 0 <= i < |xs| => NormalCode(xs[i]))
  }

  predicate CompareRejects(b: CompareBody)
  {
    b.countries.None? || b.indicators.None? || |b.countries.value| == 0 || |b.indicators.value| == 0
  }

  /** `{countryCode: {$in}, indicatorCode: {$in}}` on the normalised lists, plus `year` when it is truthy. */
  predicate CompareMatches(countries: seq<string>, indicators: seq<string>, year: JsValue, r: IndicatorRecord)
  {
    && r.countryCode in UpperAll(countries)
    && r.indicatorCode in NormalAll(indicators)
    && (Truthy(year) ==> r.year as real == year.x)
  }

  /**
   * The comparison endpoint over `docs`, sorted by country, indicator and
   * year descending: every matching record as often as it is stored, and in
   * any order `docs` is sorted by.
   */
  function CompareCountries(docs: seq<IndicatorRecord>, b: CompareBody): (r: CompareResponse)
    ensures r.CompareBadRequest? <==> CompareRejects(b)
    ensures r.CompareBadRequest? ==> r.message == CompareRequired
    ensures r.Compared? ==> forall x :: x in r.data <==>
              x in docs && CompareMatches(b.countries.value, b.indicators.value, b.year, x)
    ensures r.Compared? ==>
              forall x :: multiset(r.data)[x] == (if CompareMatches(b.countries.value, b.indicators.value, b.year, x)
                                                  then multiset(docs)[x] else 0)
    ensures r.Compared? ==> forall before :: Ordered(docs, before) ==> Ordered(r.data, before)
  {
    if CompareRejects(b) then CompareBadRequest(CompareRequired)
    else
      var countries := b.countries.value;
      var indicators := b.indicators.value;
      var f := (x: IndicatorRecord) => CompareMatches(countries, indicators, b.year, x);
      assert forall before :: Ordered(docs, before) ==> Ordered(Keep(docs, f), before) by {
        forall before | Ordered(docs, before)
          ensures Ordered(Keep(docs, f), before)
        {
          KeepOrdered(docs, f, before);
        }
      }
      Compared(Keep(docs, f))
  }

  /** A year of 0 is falsy, so it filters nothing: the answer is the one without a year. */
  lemma CompareYearZeroIgnored(docs: seq<IndicatorRecord>, b: CompareBody)
    ensures CompareCountries(docs, b.(year := Num(0.0))) == CompareCountries(docs, b.(year := Undefined))
  {
    if !CompareRejects(b) {
      var countries := b.countries.value;
      var indicators := b.indicators.value;
      KeepSame(docs, (x: IndicatorRecord) => CompareMatches(countries, indicators, Num(0.0), x),
               (x: IndicatorRecord) => CompareMatches(countries, indicators, Undefined, x));
    }
  }
}
