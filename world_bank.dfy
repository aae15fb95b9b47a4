/**
 * The World Bank adapter: the request for one indicator, the projection of the
 * payload's data page onto observations, the prefix-table categoriser, the save
 * filter, and the sync over the seven key indicators.
 */
module WorldBank {
  import opened JsValues
  import opened Text
  import opened IndicatorModel
  import opened IndicatorStore
  import opened Ingestion

  const BaseUrl: string := "https://api.worldbank.org/v2"
  const DefaultDateRange: string := "2010:2023"
  const DefaultCountries: seq<string> := ["USA", "CHN", "JPN", "DEU", "GBR"]

  /** The seven key indicators, in sync order. */
  const KeyIndicators: seq<string> := [
    "NY.GDP.MKTP.CD", "NY.GDP.PCAP.CD", "SL.UEM.TOTL.ZS", "FP.CPI.TOTL.ZG",
    "NE.TRD.GNFS.ZS", "GC.DOD.TOTL.GD.ZS", "SP.POP.TOTL"
  ]

  /** Code prefixes and their categories, in the order the categoriser tries them. */
  const CategoryTable: seq<(string, string)> := [
    ("NY.GDP", "GDP"), ("SL.UEM", "Employment"), ("FP.CPI", "Inflation"),
    ("NE.TRD", "Trade"), ("GC.DOD", "Government"), ("SP.POP", "Social"),
    ("SP.DYN", "Social"), ("SE.", "Social"), ("SH.", "Social")
  ]

  /** One element of the data page: `indicator.{id,value}`, `country.id`, `date`, `value`, `unit`. */
  datatype WbItem = WbItem(indicatorId: string, indicatorValue: string, countryId: string,
                           date: int, value: JsValue, unit: Option<string>)

  /** The payload `[metadata, data]`; `page` is `data`, absent when the API sends only metadata or a message. */
  datatype WbPayload = WbPayload(page: Option<seq<WbItem>>)

  /** `categorizeIndicator(code)`. */
  function Categorize(code: string): string
  {
    FirstPrefix(CategoryTable, code)
  }

  /** The categoriser answers one of the table's categories, or 'Other'. */
  lemma CategorizeRange(code: string)
    ensures Categorize(code) in {"GDP", "Employment", "Inflation", "Trade", "Government", "Social", "Other"}
  {
    FirstPrefixFrom(CategoryTable, code);
  }

  /** The key indicators fall in the categories their prefixes name. */
  lemma CategorizeKeyIndicators()
    ensures Categorize("NY.GDP.MKTP.CD") == "GDP"
    ensures Categorize("NY.GDP.PCAP.CD") == "GDP"
    ensures Categorize("SL.UEM.TOTL.ZS") == "Employment"
    ensures Categorize("FP.CPI.TOTL.ZG") == "Inflation"
  {
    Mismatch("SL.UEM.TOTL.ZS", "NY.GDP", 0);
    FirstPrefixFirstMatch(CategoryTable, "SL.UEM.TOTL.ZS", 1);
    Mismatch("FP.CPI.TOTL.ZG", "NY.GDP", 0);
    Mismatch("FP.CPI.TOTL.ZG", "SL.UEM", 0);
    FirstPrefixFirstMatch(CategoryTable, "FP.CPI.TOTL.ZG", 2);
  }

  lemma CategorizeTradeAndGovernment()
    ensures Categorize("NE.TRD.GNFS.ZS") == "Trade"
    ensures Categorize("GC.DOD.TOTL.GD.ZS") == "Government"
  {
    var trade, debt := "NE.TRD.GNFS.ZS", "GC.DOD.TOTL.GD.ZS";
    Mismatch(trade, "NY.GDP", 1);
    Mismatch(trade, "SL.UEM", 0);
    Mismatch(trade, "FP.CPI", 0);
    FirstPrefixFirstMatch(CategoryTable, trade, 3);
    Mismatch(debt, "NY.GDP", 0);
    Mismatch(debt, "SL.UEM", 0);
    Mismatch(debt, "FP.CPI", 0);
    Mismatch(debt, "NE.TRD", 0);
    FirstPrefixFirstMatch(CategoryTable, debt, 4);
  }

  /** Population falls under its own prefix; a health code reaches the last entry. */
  lemma CategorizeSocial()
    ensures Categorize("SP.POP.TOTL") == "Social"
    ensures Categorize("SH.XPD.CHEX.GD.ZS") == "Social"
  {
    var pop, health := "SP.POP.TOTL", "SH.XPD.CHEX.GD.ZS";
    Mismatch(pop, "NY.GDP", 0);
    Mismatch(pop, "SL.UEM", 1);
    Mismatch(pop, "FP.CPI", 0);
    Mismatch(pop, "NE.TRD", 0);
    Mismatch(pop, "GC.DOD", 0);
    FirstPrefixFirstMatch(CategoryTable, pop, 5);
    Mismatch(health, "NY.GDP", 0);
    Mismatch(health, "SL.UEM", 1);
    Mismatch(health, "FP.CPI", 0);
    Mismatch(health, "NE.TRD", 0);
    Mismatch(health, "GC.DOD", 0);
    Mismatch(health, "SP.POP", 1);
    Mismatch(health, "SP.DYN", 1);
    Mismatch(health, "SE.", 1);
    FirstPrefixFirstMatch(CategoryTable, health, 8);
  }

  /** A foreign-investment code matches no prefix and falls through to 'Other'. */
  lemma CategorizeOther()
    ensures Categorize("BX.KLT.DINV.WD.GD.ZS") == "Other"
  {
    var fdi := "BX.KLT.DINV.WD.GD.ZS";
    Mismatch(fdi, "NY.GDP", 0);
    Mismatch(fdi, "SL.UEM", 0);
    Mismatch(fdi, "FP.CPI", 0);
    Mismatch(fdi, "NE.TRD", 0);
    Mismatch(fdi, "GC.DOD", 0);
    Mismatch(fdi, "SP.POP", 0);
    Mismatch(fdi, "SP.DYN", 0);
    Mismatch(fdi, "SE.", 0);
    Mismatch(fdi, "SH.", 0);
    FirstPrefixNoMatch(CategoryTable, fdi);
  }

  /** A code matching no prefix falls through to 'Other', which the record schema rejects. */
  lemma UncategorisedIsOther(code: string)
    requires forall j :: 0 <= j < |CategoryTable| ==> !StartsWith(code, CategoryTable[j].0)
    ensures Categorize(code) == "Other" && Categorize(code) !in Categories
  {
    FirstPrefixNoMatch(CategoryTable, code);
  }

  /** The request for one indicator: `/country/{countries}/indicator/{code}?format=json&per_page=1000&date={range}`. */
  function IndicatorRequest(code: string, countries: string, dateRange: string): (q: Request)
    ensures StartsWith(q.url, BaseUrl + "/country/")
    ensures q.url == BaseUrl + "/country/" + countries + "/indicator/" + code
    ensures q.params == [("format", "json"), ("per_page", "1000"), ("date", dateRange)]
  {
    Request(BaseUrl + "/country/" + countries + "/indicator/" + code,
            [("format", "json"), ("per_page", "1000"), ("date", dateRange)])
  }

  /** The observation one payload item becomes. */
  function Project(item: WbItem, now: Time): (o: Observation)
  {
    Observation(item.indicatorId, item.indicatorValue, item.countryId, item.date, item.value,
                if item.unit.Some? then item.unit.value else "",
                "World Bank", Categorize(item.indicatorId), now)
  }

  /** The projection of the data page, item by item. */
  function ProjectAll(items: seq<WbItem>, now: Time): (os: seq<Observation>)
    ensures |os| == |items|
    decreases |items|
  {
    if items == [] then [] else ProjectAll(items[..|items| - 1], now) + [Project(items[|items| - 1], now)]
  }

  /**
   * One observation per item, in order: it keeps the item's code, name,
   * country, year and raw value, gets an empty unit when the item has none,
   * 'World Bank' as source and the categoriser's category.
   */
  lemma {:induction false} ProjectAllAt(items: seq<WbItem>, now: Time, i: nat)
    requires i < |items|
    ensures var o := ProjectAll(items, now)[i];
            && o.indicatorCode == items[i].indicatorId && o.indicatorName == items[i].indicatorValue
            && o.countryCode == items[i].countryId && o.year == items[i].date && o.value == items[i].value
            && (items[i].unit.None? ==> o.unit == "")
            && (items[i].unit.Some? ==> o.unit == items[i].unit.value)
            && o.sourceOrganization == "World Bank" && o.category == Categorize(items[i].indicatorId)
            && o.lastUpdated == now
    decreases |items|
  {
    if i < |items| - 1 {
      ProjectAllAt(items[..|items| - 1], now, i);
    }
  }

  /** `fetchIndicatorData(code, countries, dateRange)`, given what the GET answers. */
  function FetchIndicatorData(get: Request -> Result<WbPayload>, code: string, countries: string,
                              dateRange: string, now: Time): (r: Result<seq<Observation>>)
    ensures get(IndicatorRequest(code, countries, dateRange)).Err? ==>
              r == Err(get(IndicatorRequest(code, countries, dateRange)).error)
    ensures (get(IndicatorRequest(code, countries, dateRange)).Ok? &&
             get(IndicatorRequest(code, countries, dateRange)).value.page.None?) ==> r == Ok([])
    ensures r.Ok? ==> |r.value| == match get(IndicatorRequest(code, countries, dateRange)).value.page
                                   case None => 0 case Some(items) => |items|
    ensures get(IndicatorRequest(code, countries, dateRange)).Ok? &&
            get(IndicatorRequest(code, countries, dateRange)).value.page.Some? ==>
              r == Ok(ProjectAll(get(IndicatorRequest(code, countries, dateRange)).value.page.value, now))
  {
    match get(IndicatorRequest(code, countries, dateRange))
    case Err(e) => Err(e)
    case Ok(payload) =>
      match payload.page
      case None => Ok([])
      case Some(items) => Ok(ProjectAll(items, now))
  }

  /** The save filter `value !== null && value !== undefined && !isNaN(value)`. */
  predicate KeepForSave(v: JsValue)
  {
    v != Null && v != Undefined && !IsNaN(v)
  }

  /** The filter keeps exactly the numeric values, as the shared save path does. */
  lemma KeepForSaveIffNumber(o: Observation)
    ensures KeepForSave(o.value) <==> Saveable(o)
  {
  }

  /** The fetch for one key indicator, as the sync issues it. */
  function FetchFor(get: Request -> Result<WbPayload>, countries: seq<string>, now: Time): string -> Result<seq<Observation>>
  {
    (code: string) => FetchIndicatorData(get, code, Join(countries, ';'), DefaultDateRange, now)
  }

  /**
   * The loop shared by `syncKeyIndicators` and the sync controller: fetch and
   * save each indicator in turn, recording a success with the fetched and saved
   * counts, or a failure with the error's message, and going on either way.
   */
  method SyncIndicators(db: Database, get: Request -> Result<WbPayload>, indicators: seq<string>, countries: seq<string>,
                        reply: string -> BulkReply, now: Time) returns (results: seq<SyncResult>)
    modifies db
    ensures (db.indicators, results) == SyncAll(old(db.indicators), indicators, FetchFor(get, countries, now), reply)
    ensures db.alerts == old(db.alerts)
  {
    var fetch := FetchFor(get, countries, now);
    results := [];
    for i := 0 to |indicators|
      invariant (db.indicators, results) == SyncAll(old(db.indicators), indicators[..i], fetch, reply)
      invariant db.alerts == old(db.alerts)
    {
      var code := indicators[i];
      assert indicators[..i + 1][..i] == indicators[..i];
      var data := FetchIndicatorData(get, code, Join(countries, ';'), DefaultDateRange, now);
      match data {
        case Err(e) =>
          results := results + [SyncFailed(code, e)];
        case Ok(records) =>
          var saved := SaveIndicators(db, records, reply(code));
          match saved {
            case Ok(sr) => results := results + [Synced(code, |records|, sr.inserted)];
            case Err(e) => results := results + [SyncFailed(code, e)];
          }
      }
    }
    assert indicators[..|indicators|] == indicators;
  }

  /** `syncKeyIndicators(countries)`: the loop over the seven key indicators. */
  method SyncKeyIndicators(db: Database, get: Request -> Result<WbPayload>, countries: seq<string>,
                           reply: string -> BulkReply, now: Time) returns (results: seq<SyncResult>)
    modifies db
    ensures (db.indicators, results) == SyncAll(old(db.indicators), KeyIndicators, FetchFor(get, countries, now), reply)
    ensures |results| == 7 && IndicatorsOf(results) == KeyIndicators
    ensures db.alerts == old(db.alerts)
  {
    results := SyncIndicators(db, get, KeyIndicators, countries, reply, now);
    SyncAllCoversAll(old(db.indicators), KeyIndicators, FetchFor(get, countries, now), reply);
  }
}
