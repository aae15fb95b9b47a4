/**
 * The IMF DataMapper adapter: the request for one indicator, the flattening of
 * the nested `values` object (indicator key → country → year → value) into
 * observations, the name, unit and category lookups, and the sync over the
 * eight key indicators.
 */
module Imf {
  import opened JsValues
  import opened Text
  import opened Entries
  import opened IndicatorModel
  import opened IndicatorStore
  import opened Ingestion

  const BaseUrl: string := "https://www.imf.org/external/datamapper/api/v1"
  const DefaultCountries: seq<string> := ["US", "CN", "JP", "DE", "GB"]

  /** The eight key indicators, in sync order. */
  const KeyIndicators: seq<string> := [
    "NGDP_RPCH", "NGDPD", "NGDPDPC", "LUR", "PCPIPCH", "GGR_NGDP", "GGX_NGDP", "GGXCNL_NGDP"
  ]

  const NameTable: Entries<string> := [
    ("NGDP_RPCH", "Real GDP growth"),
    ("NGDPD", "Nominal GDP (USD billions)"),
    ("NGDPDPC", "GDP per capita (USD)"),
    ("LUR", "Unemployment rate"),
    ("PCPIPCH", "Inflation rate"),
    ("GGR_NGDP", "General government revenue (% of GDP)"),
    ("GGX_NGDP", "General government expenditure (% of GDP)"),
    ("GGXCNL_NGDP", "General government net lending/borrowing (% of GDP)")
  ]

  const UnitTable: Entries<string> := [
    ("NGDP_RPCH", "Percent change"),
    ("NGDPD", "USD billions"),
    ("NGDPDPC", "USD"),
    ("LUR", "Percent"),
    ("PCPIPCH", "Percent change"),
    ("GGR_NGDP", "Percent of GDP"),
    ("GGX_NGDP", "Percent of GDP"),
    ("GGXCNL_NGDP", "Percent of GDP")
  ]

  /** Code prefixes and their categories, in the order the categoriser tries them. */
  const CategoryTable: seq<(string, string)> := [
    ("NGDP", "GDP"), ("LUR", "Employment"), ("PCPI", "Inflation"),
    ("GG", "Government"), ("CA", "Trade"), ("BCA", "Trade")
  ]

  /** A country's series: year → value, years already read as integers. */
  type YearData = seq<(int, JsValue)>
  /** An indicator's data: country code → series. */
  type CountryData = seq<(string, YearData)>

  /** The response body; `values` is absent when the API has no data for the request. */
  datatype ImfPayload = ImfPayload(values: Option<seq<(string, CountryData)>>)

  /** `getIndicatorName(code)`: the mapped name, or the code itself. */
  function IndicatorName(code: string): (name: string)
    ensures code !in Keys(NameTable) ==> name == code
    ensures code in Keys(NameTable) ==> Get(NameTable, code) == Some(name)
  {
    match Get(NameTable, code)
    case Some(n) => n
    case None => code
  }

  /** `getIndicatorUnit(code)`: the mapped unit, or the empty string. */
  function IndicatorUnit(code: string): (unit: string)
    ensures code !in Keys(UnitTable) ==> unit == ""
    ensures code in Keys(UnitTable) ==> Get(UnitTable, code) == Some(unit)
  {
    match Get(UnitTable, code)
    case Some(u) => u
    case None => ""
  }

  /** A mapped code answers its entry in both tables. */
  lemma DescribeUnemployment()
    ensures IndicatorName("LUR") == "Unemployment rate" && IndicatorUnit("LUR") == "Percent"
  {
  }

  /** A mapped code answers its entry in both tables. */
  lemma DescribeGrowth()
    ensures IndicatorName("NGDP_RPCH") == "Real GDP growth" && IndicatorUnit("NGDP_RPCH") == "Percent change"
  {
  }

  /** A code missing from both tables answers itself as its name and an empty unit. */
  lemma DescribeUnmapped()
    ensures IndicatorName("BCA") == "BCA" && IndicatorUnit("BCA") == ""
  {
  }

  /** `categorizeIMFIndicator(code)`. */
  function Categorize(code: string): string
  {
    FirstPrefix(CategoryTable, code)
  }

  /** The categoriser answers one of the table's categories, or 'Other'. */
  lemma CategorizeRange(code: string)
    ensures Categorize(code) in {"GDP", "Employment", "Inflation", "Government", "Trade", "Other"}
  {
    FirstPrefixFrom(CategoryTable, code);
  }

  /** The four codes the categoriser is known for, and a code no prefix matches. */
  lemma CategorizeExamples()
    ensures Categorize("NGDP_RPCH") == "GDP"
    ensures Categorize("LUR") == "Employment"
    ensures Categorize("PCPIPCH") == "Inflation"
    ensures Categorize("GGXCNL_NGDP") == "Government"
    ensures Categorize("BCA") == "Trade"
    ensures Categorize("TM_RPCH") == "Other"
  {
    Mismatch("LUR", "NGDP", 0);
    FirstPrefixFirstMatch(CategoryTable, "LUR", 1);
    Mismatch("PCPIPCH", "NGDP", 0);
    Mismatch("PCPIPCH", "LUR", 0);
    FirstPrefixFirstMatch(CategoryTable, "PCPIPCH", 2);
    var gg := "GGXCNL_NGDP";
    Mismatch(gg, "NGDP", 0);
    Mismatch(gg, "LUR", 0);
    Mismatch(gg, "PCPI", 0);
    FirstPrefixFirstMatch(CategoryTable, gg, 3);
    var bca := "BCA";
    Mismatch(bca, "NGDP", 0);
    Mismatch(bca, "LUR", 0);
    Mismatch(bca, "PCPI", 0);
    Mismatch(bca, "GG", 0);
    Mismatch(bca, "CA", 0);
    FirstPrefixFirstMatch(CategoryTable, bca, 5);
    var tm := "TM_RPCH";
    Mismatch(tm, "NGDP", 0);
    Mismatch(tm, "LUR", 0);
    Mismatch(tm, "PCPI", 0);
    Mismatch(tm, "GG", 0);
    Mismatch(tm, "CA", 0);
    Mismatch(tm, "BCA", 0);
    FirstPrefixNoMatch(CategoryTable, tm);
  }

  /** The URL for one indicator: the country list is appended, comma-joined, only when it is given and non-empty. */
  function IndicatorUrl(code: string, countries: Option<seq<string>>): string
  {
    var url := BaseUrl + "/" + code;
    if countries.Some? && |countries.value| > 0 then url + "/" + Join(countries.value, ',') else url
  }

  /** Without countries the URL names only the indicator; with countries, the last segment splits back into them. */
  lemma IndicatorUrlCountries(code: string, countries: Option<seq<string>>)
    ensures countries.None? || countries == Some([]) ==> IndicatorUrl(code, countries) == BaseUrl + "/" + code
    ensures countries.Some? && |countries.value| > 0 && (forall i :: 0 <= i < |countries.value| ==> ',' !in countries.value[i]) ==>
              exists tail :: IndicatorUrl(code, countries) == BaseUrl + "/" + code + "/" + tail && Split(tail, ',') == countries.value
  {
    if countries.Some? && |countries.value| > 0 && (forall i :: 0 <= i < |countries.value| ==> ',' !in countries.value[i]) {
      SplitJoin(countries.value, ',');
    }
  }

  /** The `value !== null && !isNaN(value)` test applied while flattening. */
  predicate KeepValue(v: JsValue)
  {
    v != Null && !IsNaN(v)
  }

  /** The flattening test keeps exactly the numeric values, as the shared save path does. */
  lemma KeepValueIffNumber(v: JsValue)
    ensures KeepValue(v) <==> v.Num?
  {
  }

  /** What the three lookups answer for one indicator code. */
  datatype Descriptor = Descriptor(name: string, unit: string, category: string)

  /** The name, unit and category every record of `code` gets; the lookups are pure, so one call per fetch answers what one call per record would. */
  function Describe(code: string): Descriptor
  {
    Descriptor(IndicatorName(code), IndicatorUnit(code), Categorize(code))
  }

  /** The observation one kept (country, year, value) entry becomes; `parseFloat` of a number is that number. */
  function Record(code: string, d: Descriptor, countryCode: string, year: int, value: JsValue, now: Time): Observation
  {
    Observation(code, d.name, countryCode, year, value, d.unit, "IMF", d.category, now)
  }

  /** The records one year entry contributes: its record when the value is kept, nothing otherwise. */
  function EntryRecords(code: string, d: Descriptor, countryCode: string, entry: (int, JsValue), now: Time): seq<Observation>
  {
    if KeepValue(entry.1) then [Record(code, d, countryCode, entry.0, entry.1, now)] else []
  }

  /** The year entry `entry` of country `countryCode` yields the record `o`. */
  predicate Yields(code: string, d: Descriptor, countryCode: string, entry: (int, JsValue), now: Time, o: Observation)
  {
    entry.1.Num? && o == Record(code, d, countryCode, entry.0, entry.1, now)
  }

  /** The records of one country's series, in year-entry order. */
  function YearRecords(code: string, d: Descriptor, countryCode: string, years: YearData, now: Time): seq<Observation>
    decreases |years|
  {
    if years == [] then [] else YearRecords(code, d, countryCode, years[..|years| - 1], now) + EntryRecords(code, d, countryCode, years[|years| - 1], now)
  }

  /** The records of one indicator key's countries, country by country. */
  function CountryRecords(code: string, d: Descriptor, countries: CountryData, now: Time): seq<Observation>
    decreases |countries|
  {
    if countries == [] then []
    else
      CountryRecords(code, d, countries[..|countries| - 1], now) +
      YearRecords(code, d, countries[|countries| - 1].0, countries[|countries| - 1].1, now)
  }

  /** The records of the whole `values` object, indicator key by indicator key. */
  function Flatten(code: string, d: Descriptor, values: seq<(string, CountryData)>, now: Time): seq<Observation>
    decreases |values|
  {
    if values == [] then []
    else Flatten(code, d, values[..|values| - 1], now) + CountryRecords(code, d, values[|values| - 1].1, now)
  }

  /** `fetchIndicatorData(code, countries)`, given what the GET answers. */
  function Fetch(get: Request -> Result<ImfPayload>, code: string, countries: Option<seq<string>>, now: Time): (r: Result<seq<Observation>>)
    ensures get(Request(IndicatorUrl(code, countries), [])).Err? <==> r.Err?
    ensures get(Request(IndicatorUrl(code, countries), [])).Err? ==> r == Err(get(Request(IndicatorUrl(code, countries), [])).error)
    ensures get(Request(IndicatorUrl(code, countries), [])) == Ok(ImfPayload(None)) ==> r == Ok([])
    ensures get(Request(IndicatorUrl(code, countries), [])).Ok? &&
            get(Request(IndicatorUrl(code, countries), [])).value.values.Some? ==>
              r == Ok(Flatten(code, Describe(code), get(Request(IndicatorUrl(code, countries), [])).value.values.value, now))
  {
    match get(Request(IndicatorUrl(code, countries), []))
    case Err(e) => Err(e)
    case Ok(payload) =>
      match payload.values
      case None => Ok([])
      case Some(values) => Ok(Flatten(code, Describe(code), values, now))
  }

  /** Extending a series prefix by one entry appends that entry's records. */
  lemma YearRecordsStep(code: string, d: Descriptor, cc: string, years: YearData, k: nat, now: Time)
    requires k < |years|
    ensures YearRecords(code, d, cc, years[..k + 1], now) == YearRecords(code, d, cc, years[..k], now) + EntryRecords(code, d, cc, years[k], now)
  {
    assert years[..k + 1][..k] == years[..k];
  }

  /** Extending a country prefix by one country appends that country's records. */
  lemma CountryRecordsStep(code: string, d: Descriptor, countries: CountryData, j: nat, now: Time)
    requires j < |countries|
    ensures CountryRecords(code, d, countries[..j + 1], now) ==
            CountryRecords(code, d, countries[..j], now) + YearRecords(code, d, countries[j].0, countries[j].1, now)
  {
    assert countries[..j + 1][..j] == countries[..j];
  }

  /** Extending a prefix of the `values` object by one indicator key appends that key's records. */
  lemma FlattenStep(code: string, d: Descriptor, values: seq<(string, CountryData)>, i: nat, now: Time)
    requires i < |values|
    ensures Flatten(code, d, values[..i + 1], now) == Flatten(code, d, values[..i], now) + CountryRecords(code, d, values[i].1, now)
  {
    assert values[..i + 1][..i] == values[..i];
  }

  /** The innermost walk, over one country's year entries, pushing each kept value's record. */
  method PushYearRecords(results: seq<Observation>, code: string, d: Descriptor, countryCode: string, years: YearData, now: Time)
    returns (out: seq<Observation>)
    ensures out == results + YearRecords(code, d, countryCode, years, now)
  {
    out := results;
    for k := 0 to |years|
      invariant out == results + YearRecords(code, d, countryCode, years[..k], now)
    {
      YearRecordsStep(code, d, countryCode, years, k, now);
      var entry := years[k];
      if KeepValue(entry.1) {
        out := out + [Record(code, d, countryCode, entry.0, entry.1, now)];
      }
    }
    assert years[..|years|] == years;
  }

  /** The middle walk, over one indicator key's countries. */
  method PushCountryRecords(results: seq<Observation>, code: string, d: Descriptor, countries: CountryData, now: Time)
    returns (out: seq<Observation>)
    ensures out == results + CountryRecords(code, d, countries, now)
  {
    out := results;
    for j := 0 to |countries|
      invariant out == results + CountryRecords(code, d, countries[..j], now)
    {
      CountryRecordsStep(code, d, countries, j, now);
      out := PushYearRecords(out, code, d, countries[j].0, countries[j].1, now);
    }
    assert countries[..|countries|] == countries;
  }

  /** The outer walk, over the indicator keys of `values`. */
  method FlattenValues(code: string, d: Descriptor, values: seq<(string, CountryData)>, now: Time)
    returns (results: seq<Observation>)
    ensures results == Flatten(code, d, values, now)
  {
    results := [];
    for i := 0 to |values|
      invariant results == Flatten(code, d, values[..i], now)
    {
      FlattenStep(code, d, values, i, now);
      results := PushCountryRecords(results, code, d, values[i].1, now);
    }
    assert values[..|values|] == values;
  }

  /** The fetch: the GET, the check for `values`, and the walk over it. */
  method FetchIndicatorData(get: Request -> Result<ImfPayload>, code: string, countries: Option<seq<string>>, now: Time)
    returns (r: Result<seq<Observation>>)
    ensures r == Fetch(get, code, countries, now)
  {
    var response := get(Request(IndicatorUrl(code, countries), []));
    if response.Err? {
      return Err(response.error);
    }
    if response.value.values.None? {
      return Ok([]);
    }
    var results := FlattenValues(code, Describe(code), response.value.values.value, now);
    r := Ok(results);
  }

  /** Every record of a country's series is yielded by one of its year entries. */
  lemma {:induction false} YearRecordsSound(code: string, d: Descriptor, cc: string, years: YearData, now: Time, o: Observation)
    requires o in YearRecords(code, d, cc, years, now)
    ensures exists k :: 0 <= k < |years| && Yields(code, d, cc, years[k], now, o)
    decreases |years|
  {
    var init := years[..|years| - 1];
    if o in YearRecords(code, d, cc, init, now) {
      YearRecordsSound(code, d, cc, init, now, o);
      var k :| 0 <= k < |init| && Yields(code, d, cc, init[k], now, o);
      assert years[k] == init[k];
    } else {
      assert Yields(code, d, cc, years[|years| - 1], now, o);
    }
  }

  /** Every year entry holding a number contributes its record to the series' records. */
  lemma {:induction false} YearRecordsComplete(code: string, d: Descriptor, cc: string, years: YearData, k: nat, now: Time, o: Observation)
    requires k < |years| && Yields(code, d, cc, years[k], now, o)
    ensures o in YearRecords(code, d, cc, years, now)
    decreases |years|
  {
    var init := years[..|years| - 1];
    if k < |init| {
      assert init[k] == years[k];
      YearRecordsComplete(code, d, cc, init, k, now, o);
    } else {
      assert o in EntryRecords(code, d, cc, years[k], now);
    }
  }

  /** A record comes from a country's series exactly when one of its year entries yields it. */
  lemma YearRecordsMembers(code: string, d: Descriptor, cc: string, years: YearData, now: Time, o: Observation)
    ensures o in YearRecords(code, d, cc, years, now) <==> exists k :: 0 <= k < |years| && Yields(code, d, cc, years[k], now, o)
  {
    if o in YearRecords(code, d, cc, years, now) {
      YearRecordsSound(code, d, cc, years, now, o);
    }
    if exists k :: 0 <= k < |years| && Yields(code, d, cc, years[k], now, o) {
      var k :| 0 <= k < |years| && Yields(code, d, cc, years[k], now, o);
      YearRecordsComplete(code, d, cc, years, k, now, o);
    }
  }

  /** A record comes from an indicator key's data exactly when it comes from one of its countries. */
  lemma {:induction false} CountryRecordsMembers(code: string, d: Descriptor, countries: CountryData, now: Time, o: Observation)
    ensures o in CountryRecords(code, d, countries, now) <==>
              exists j :: 0 <= j < |countries| && o in YearRecords(code, d, countries[j].0, countries[j].1, now)
    decreases |countries|
  {
    if countries != [] {
      var init := countries[..|countries| - 1];
      CountryRecordsMembers(code, d, init, now, o);
      if o in CountryRecords(code, d, init, now) {
        var j :| 0 <= j < |init| && o in YearRecords(code, d, init[j].0, init[j].1, now);
        assert countries[j] == init[j];
      }
      if exists j :: 0 <= j < |countries| && o in YearRecords(code, d, countries[j].0, countries[j].1, now) {
        var j :| 0 <= j < |countries| && o in YearRecords(code, d, countries[j].0, countries[j].1, now);
        if j < |init| {
          assert init[j] == countries[j];
        }
      }
    }
  }

  /** A record comes from the `values` object exactly when it comes from one of its indicator keys. */
  lemma {:induction false} FlattenMembers(code: string, d: Descriptor, values: seq<(string, CountryData)>, now: Time, o: Observation)
    ensures o in Flatten(code, d, values, now) <==>
              exists i :: 0 <= i < |values| && o in CountryRecords(code, d, values[i].1, now)
    decreases |values|
  {
    if values != [] {
      var init := values[..|values| - 1];
      FlattenMembers(code, d, init, now, o);
      if o in Flatten(code, d, init, now) {
        var i :| 0 <= i < |init| && o in CountryRecords(code, d, init[i].1, now);
        assert values[i] == init[i];
      }
      if exists i :: 0 <= i < |values| && o in CountryRecords(code, d, values[i].1, now) {
        var i :| 0 <= i < |values| && o in CountryRecords(code, d, values[i].1, now);
        if i < |init| {
          assert init[i] == values[i];
        }
      }
    }
  }

  /**
   * Every flattened record is yielded by some (indicator key, country, year)
   * entry holding a number, and every such entry's record is flattened.
   */
  lemma FlattenIff(code: string, d: Descriptor, values: seq<(string, CountryData)>, now: Time, o: Observation)
    ensures o in Flatten(code, d, values, now) <==>
              exists i, j, k :: 0 <= i < |values| && 0 <= j < |values[i].1| && 0 <= k < |values[i].1[j].1|
                && Yields(code, d, values[i].1[j].0, values[i].1[j].1[k], now, o)
  {
    FlattenMembers(code, d, values, now, o);
    if o in Flatten(code, d, values, now) {
      var i :| 0 <= i < |values| && o in CountryRecords(code, d, values[i].1, now);
      CountryRecordsMembers(code, d, values[i].1, now, o);
      var j :| 0 <= j < |values[i].1| && o in YearRecords(code, d, values[i].1[j].0, values[i].1[j].1, now);
      YearRecordsMembers(code, d, values[i].1[j].0, values[i].1[j].1, now, o);
      var k :| 0 <= k < |values[i].1[j].1| && Yields(code, d, values[i].1[j].0, values[i].1[j].1[k], now, o);
    }
    if exists i, j, k :: 0 <= i < |values| && 0 <= j < |values[i].1| && 0 <= k < |values[i].1[j].1|
                && Yields(code, d, values[i].1[j].0, values[i].1[j].1[k], now, o) {
      var i, j, k :| 0 <= i < |values| && 0 <= j < |values[i].1| && 0 <= k < |values[i].1[j].1|
                && Yields(code, d, values[i].1[j].0, values[i].1[j].1[k], now, o);
      YearRecordsMembers(code, d, values[i].1[j].0, values[i].1[j].1, now, o);
      CountryRecordsMembers(code, d, values[i].1, now, o);
    }
  }

  /**
   * A fetched record carries the requested code (not the payload's key), a
   * numeric value, 'IMF' as source and the looked-up name, unit and category.
   */
  lemma FetchedFields(get: Request -> Result<ImfPayload>, code: string, countries: Option<seq<string>>, now: Time, o: Observation)
    requires Fetch(get, code, countries, now).Ok? && o in Fetch(get, code, countries, now).value
    ensures o.indicatorCode == code && o.sourceOrganization == "IMF" && o.value.Num?
    ensures o.indicatorName == IndicatorName(code) && o.unit == IndicatorUnit(code)
    ensures o.category == Categorize(code) && o.lastUpdated == now
  {
    var values := get(Request(IndicatorUrl(code, countries), [])).value.values.value;
    FlattenIff(code, Describe(code), values, now, o);
  }

  /** The save filter passes a fetch's records through unchanged: flattening already dropped every non-number. */
  lemma FetchedAllSaveable(get: Request -> Result<ImfPayload>, code: string, countries: Option<seq<string>>, now: Time)
    requires Fetch(get, code, countries, now).Ok?
    ensures ValidIndicators(Fetch(get, code, countries, now).value) == Fetch(get, code, countries, now).value
  {
    if get(Request(IndicatorUrl(code, countries), [])).value.values.Some? {
      FlattenSaveable(code, Describe(code), get(Request(IndicatorUrl(code, countries), [])).value.values.value, now);
    }
  }

  /** Flattening keeps only numeric values, so the save filter passes its output through unchanged. */
  lemma {:induction false} YearRecordsSaveable(code: string, d: Descriptor, cc: string, years: YearData, now: Time)
    ensures ValidIndicators(YearRecords(code, d, cc, years, now)) == YearRecords(code, d, cc, years, now)
    decreases |years|
  {
    if years != [] {
      var init := years[..|years| - 1];
      YearRecordsSaveable(code, d, cc, init, now);
      var tail := EntryRecords(code, d, cc, years[|years| - 1], now);
      ValidIndicatorsAppend(YearRecords(code, d, cc, init, now), tail);
      assert ValidIndicators(tail) == tail by {
        if tail != [] {
          assert tail[..0] == [];
        }
      }
    }
  }

  lemma {:induction false} CountryRecordsSaveable(code: string, d: Descriptor, countries: CountryData, now: Time)
    ensures ValidIndicators(CountryRecords(code, d, countries, now)) == CountryRecords(code, d, countries, now)
    decreases |countries|
  {
    if countries != [] {
      var init := countries[..|countries| - 1];
      CountryRecordsSaveable(code, d, init, now);
      var last := countries[|countries| - 1];
      YearRecordsSaveable(code, d, last.0, last.1, now);
      ValidIndicatorsAppend(CountryRecords(code, d, init, now), YearRecords(code, d, last.0, last.1, now));
    }
  }

  lemma {:induction false} FlattenSaveable(code: string, d: Descriptor, values: seq<(string, CountryData)>, now: Time)
    ensures ValidIndicators(Flatten(code, d, values, now)) == Flatten(code, d, values, now)
    decreases |values|
  {
    if values != [] {
      var init := values[..|values| - 1];
      FlattenSaveable(code, d, init, now);
      CountryRecordsSaveable(code, d, values[|values| - 1].1, now);
      ValidIndicatorsAppend(Flatten(code, d, init, now), CountryRecords(code, d, values[|values| - 1].1, now));
    }
  }

  /** The save filter `value !== null && !isNaN(value)`, the same test as flattening's. */
  lemma SaveFilterIffNumber(o: Observation)
    ensures KeepValue(o.value) <==> Saveable(o)
  {
  }

  /** The fetch for one indicator, as the syncs issue it. */
  function FetchFor(get: Request -> Result<ImfPayload>, countries: seq<string>, now: Time): string -> Result<seq<Observation>>
  {
    (code: string) => Fetch(get, code, Some(countries), now)
  }

  /**
   * The loop shared by `syncKeyIndicators` and the sync controller: fetch and
   * save each indicator in turn, recording a success with the fetched and saved
   * counts, or a failure with the error's message, and going on either way.
   */
  method SyncIndicators(db: Database, get: Request -> Result<ImfPayload>, indicators: seq<string>, countries: seq<string>,
                        reply: string -> BulkReply, now: Time) returns (results: seq<SyncResult>)
    modifies db
    ensures (db.indicators, results) == SyncAll(old(db.indicators), indicators, FetchFor(get, countries, now), reply)
    ensures db.alerts == old(db.alerts)
  {
    var fetch := FetchFor(get, countries, now);
    results := [];
    for i := 0 to |indicators|
      invariant (db.indicators, results) == SyncAll(old(db.indicators), indicators[..i], fetch, reply)
      invariant db.alerts == old(db.alerts)
    {
      assert indicators[..i + 1][..i] == indicators[..i];
      var result := SyncIndicator(db, get, indicators[i], countries, reply, now);
      results := results + [result];
    }
    assert indicators[..|indicators|] == indicators;
  }

  /** One pass of the sync loop: fetch and save `code`, turning either step's exception into a failure entry. */
  method SyncIndicator(db: Database, get: Request -> Result<ImfPayload>, code: string, countries: seq<string>,
                       reply: string -> BulkReply, now: Time) returns (result: SyncResult)
    modifies db
    ensures (db.indicators, result) == SyncOne(old(db.indicators), code, FetchFor(get, countries, now)(code), reply(code))
    ensures db.alerts == old(db.alerts)
  {
    var data := FetchIndicatorData(get, code, Some(countries), now);
    match data {
      case Err(e) =>
        result := SyncFailed(code, e);
      case Ok(records) =>
        var saved := SaveIndicators(db, records, reply(code));
        match saved {
          case Ok(sr) => result := Synced(code, |records|, sr.inserted);
          case Err(e) => result := SyncFailed(code, e);
        }
    }
  }

  /** `syncKeyIndicators(countries)`: the loop over the eight key indicators. */
  method SyncKeyIndicators(db: Database, get: Request -> Result<ImfPayload>, countries: seq<string>,
                           reply: string -> BulkReply, now: Time) returns (results: seq<SyncResult>)
    modifies db
    ensures (db.indicators, results) == SyncAll(old(db.indicators), KeyIndicators, FetchFor(get, countries, now), reply)
    ensures |results| == 8 && IndicatorsOf(results) == KeyIndicators
    ensures db.alerts == old(db.alerts)
  {
    results := SyncIndicators(db, get, KeyIndicators, countries, reply, now);
    SyncAllCoversAll(old(db.indicators), KeyIndicators, FetchFor(get, countries, now), reply);
  }
}
