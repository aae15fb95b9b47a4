/**
 * The external-data controller: the two per-source sync endpoints with their
 * input guard and summary, the FRED placeholder, and the sync of both sources
 * over the default countries, World Bank first, then IMF with the countries
 * rewritten to two-letter codes.
 */
module ExternalData {
  import opened JsValues
  import opened Entries
  import opened IndicatorModel
  import opened IndicatorStore
  import opened Ingestion
  import WorldBank
  import Imf

  /** The body of a per-source sync's answer. */
  datatype Summary = Summary(totalIndicators: nat, successfulIndicators: nat, totalRecords: nat)

  /** What a per-source endpoint answers: 400 on a bad request, 200 with the results, 501 for FRED. */
  datatype Response =
    | BadRequest(message: string)
    | SyncReport(results: seq<SyncResult>, summary: Summary)
    | NotImplemented(message: string)

  function Status(r: Response): nat
  {
    match r
    case BadRequest(_) => 400
    case SyncReport(_, _) => 200
    case NotImplemented(_) => 501
  }

  /** `success` as the response body reports it. */
  predicate Success(r: Response)
  {
    r.SyncReport?
  }

  const RequiredMessage: string := "Countries and indicators are required"

  /** `!countries || !indicators || countries.length === 0 || indicators.length === 0`. */
  predicate MissingInput(countries: Option<seq<string>>, indicators: Option<seq<string>>)
  {
    countries.None? || indicators.None? || |countries.value| == 0 || |indicators.value| == 0
  }

  /** `results.filter(r => r.success).length`. */
  function SuccessCount(rs: seq<SyncResult>): (n: nat)
    ensures n <= |rs|
    decreases |rs|
  {
    if rs == [] then 0 else SuccessCount(rs[..|rs| - 1]) + (if rs[|rs| - 1].Synced? then 1 else 0)
  }

  /** `results.reduce((sum, r) => sum + (r.recordsSaved || 0), 0)`: a failure contributes nothing. */
  function TotalRecords(rs: seq<SyncResult>): nat
    decreases |rs|
  {
    if rs == [] then 0 else TotalRecords(rs[..|rs| - 1]) + (if rs[|rs| - 1].Synced? then rs[|rs| - 1].count else 0)
  }

  /** Every entry is counted as a success exactly when all of them succeeded. */
  lemma {:induction false} SuccessCountAll(rs: seq<SyncResult>)
    ensures SuccessCount(rs) == |rs| <==> forall i :: 0 <= i < |rs| ==> rs[i].Synced?
    decreases |rs|
  {
    if rs != [] {
      SuccessCountAll(rs[..|rs| - 1]);
      if SuccessCount(rs) == |rs| {
        assert SuccessCount(rs[..|rs| - 1]) == |rs| - 1;
        forall i | 0 <= i < |rs| ensures rs[i].Synced? {
          if i < |rs| - 1 {
            assert rs[..|rs| - 1][i] == rs[i];
          }
        }
      }
    }
  }

  /** A list of failures has no success and no saved records. */
  lemma {:induction false} AllFailedSummary(rs: seq<SyncResult>)
    requires forall i :: 0 <= i < |rs| ==> rs[i].SyncFailed?
    ensures SuccessCount(rs) == 0 && TotalRecords(rs) == 0
    decreases |rs|
  {
    if rs != [] {
      AllFailedSummary(rs[..|rs| - 1]);
    }
  }

  /** Both counts add up over consecutive stretches of results. */
  lemma {:induction false} SummaryAppend(a: seq<SyncResult>, b: seq<SyncResult>)
    ensures SuccessCount(a + b) == SuccessCount(a) + SuccessCount(b)
    ensures TotalRecords(a + b) == TotalRecords(a) + TotalRecords(b)
    decreases |b|
  {
    if b == [] {
      assert a + b == a;
    } else {
      assert (a + b)[..|a + b| - 1] == a + b[..|b| - 1];
      SummaryAppend(a, b[..|b| - 1]);
    }
  }

  function Summarize(rs: seq<SyncResult>, totalIndicators: nat): (s: Summary)
    ensures s.successfulIndicators <= |rs|
  {
    Summary(totalIndicators, SuccessCount(rs), TotalRecords(rs))
  }

  /** `fetchWorldBankData`: the guard, then the per-indicator loop over the given countries. */
  method FetchWorldBankData(db: Database, get: Request -> Result<WorldBank.WbPayload>,
                            countries: Option<seq<string>>, indicators: Option<seq<string>>,
                            reply: string -> BulkReply, now: Time) returns (resp: Response)
    modifies db
    ensures MissingInput(countries, indicators) ==>
              resp == BadRequest(RequiredMessage) && db.indicators == old(db.indicators)
    ensures !MissingInput(countries, indicators) ==>
              var r := SyncAll(old(db.indicators), indicators.value, WorldBank.FetchFor(get, countries.value, now), reply);
              db.indicators == r.0 && resp == SyncReport(r.1, Summarize(r.1, |indicators.value|))
    ensures db.alerts == old(db.alerts)
  {
    if countries.None? || indicators.None? || |countries.value| == 0 || |indicators.value| == 0 {
      return BadRequest(RequiredMessage);
    }
    var results := WorldBank.SyncIndicators(db, get, indicators.value, countries.value, reply, now);
    resp := SyncReport(results, Summarize(results, |indicators.value|));
  }

  /** `fetchIMFData`: the guard, then the per-indicator loop over the given countries. */
  method FetchImfData(db: Database, get: Request -> Result<Imf.ImfPayload>,
                      countries: Option<seq<string>>, indicators: Option<seq<string>>,
                      reply: string -> BulkReply, now: Time) returns (resp: Response)
    modifies db
    ensures MissingInput(countries, indicators) ==>
              resp == BadRequest(RequiredMessage) && db.indicators == old(db.indicators)
    ensures !MissingInput(countries, indicators) ==>
              var r := SyncAll(old(db.indicators), indicators.value, Imf.FetchFor(get, countries.value, now), reply);
              db.indicators == r.0 && resp == SyncReport(r.1, Summarize(r.1, |indicators.value|))
    ensures db.alerts == old(db.alerts)
  {
    if countries.None? || indicators.None? || |countries.value| == 0 || |indicators.value| == 0 {
      return BadRequest(RequiredMessage);
    }
    var results := Imf.SyncIndicators(db, get, indicators.value, countries.value, reply, now);
    resp := SyncReport(results, Summarize(results, |indicators.value|));
  }

  /**
   * What a per-source sync reports for the indicators it was given: one entry
   * per indicator in request order, and at most that many successes.
   */
  lemma ReportCoversRequest(st: Store, indicators: seq<string>, fetch: string -> Result<seq<Observation>>,
                            reply: string -> BulkReply)
    ensures var rs := SyncAll(st, indicators, fetch, reply).1;
            && IndicatorsOf(rs) == indicators
            && Summarize(rs, |indicators|).successfulIndicators <= Summarize(rs, |indicators|).totalIndicators
  {
    SyncAllCoversAll(st, indicators, fetch, reply);
  }

  /** When every fetch fails the report is all failures, with no success and no record, and nothing is written. */
  lemma ReportWhenEveryFetchFails(st: Store, indicators: seq<string>, fetch: string -> Result<seq<Observation>>,
                                  reply: string -> BulkReply)
    requires forall i :: 0 <= i < |indicators| ==> fetch(indicators[i]).Err?
    ensures var r := SyncAll(st, indicators, fetch, reply);
            && r.0 == st
            && Summarize(r.1, |indicators|) == Summary(|indicators|, 0, 0)
  {
    SyncAllFetchFailures(st, indicators, fetch, reply);
    AllFailedSummary(SyncAll(st, indicators, fetch, reply).1);
  }

  const FredMessage: string := "FRED API integration not yet implemented. Please obtain API key from FRED first."

  /** `fetchFREDData`: a placeholder that always refuses. */
  function FetchFredData(): (r: Response)
    ensures Status(r) == 501 && !Success(r)
  {
    NotImplemented(FredMessage)
  }

  // ---------------------------------------------------------------------------
  // syncAllDataSources

  const DefaultCountries: seq<string> := ["USA", "CHN", "JPN", "DEU", "GBR", "FRA", "IND", "BRA"]

  const IsoTable: Entries<string> := [
    ("USA", "US"), ("CHN", "CN"), ("JPN", "JP"), ("DEU", "DE"),
    ("GBR", "GB"), ("FRA", "FR"), ("IND", "IN"), ("BRA", "BR")
  ]

  /** `mapping[code] || code`: the entry of a mapped code, any other code unchanged. */
  function Rename(table: Entries<string>, code: string): (c: string)
    ensures code !in Keys(table) ==> c == code
    ensures code in Keys(table) ==> Get(table, code) == Some(c)
  {
    match Get(table, code)
    case Some(two) => two
    case None => code
  }

  /** `codes.map(code => mapping[code] || code)`, one code at a time. */
  function RenameAll(table: Entries<string>, codes: seq<string>): (r: seq<string>)
    ensures |r| == |codes|
    decreases |codes|
  {
    if codes == [] then [] else RenameAll(table, codes[..|codes| - 1]) + [Rename(table, codes[|codes| - 1])]
  }

  /** The mapping keeps length and order: position `i` of the result is the mapping of position `i`. */
  lemma {:induction false} RenameAllAt(table: Entries<string>, codes: seq<string>, i: nat)
    requires i < |codes|
    ensures RenameAll(table, codes)[i] == Rename(table, codes[i])
    decreases |codes|
  {
    if i < |codes| - 1 {
      RenameAllAt(table, codes[..|codes| - 1], i);
    }
  }

  /** Unmapped codes pass through: a list with no mapped code is unchanged. */
  lemma {:induction false} RenameAllUnmapped(table: Entries<string>, codes: seq<string>)
    requires forall i :: 0 <= i < |codes| ==> codes[i] !in Keys(table)
    ensures RenameAll(table, codes) == codes
    decreases |codes|
  {
    if codes != [] {
      RenameAllUnmapped(table, codes[..|codes| - 1]);
    }
  }

  /** The country list the IMF sync is given. */
  function ImfCountryCodes(codes: seq<string>): seq<string>
  {
    RenameAll(IsoTable, codes)
  }

  /** Each of the eight default countries has its two-letter code. */
  lemma IsoCodesFirstHalf()
    ensures Rename(IsoTable, "USA") == "US" && Rename(IsoTable, "CHN") == "CN"
    ensures Rename(IsoTable, "JPN") == "JP" && Rename(IsoTable, "DEU") == "DE"
  {
  }

  lemma IsoCodesThirdQuarter()
    ensures Rename(IsoTable, "GBR") == "GB" && Rename(IsoTable, "FRA") == "FR"
  {
  }

  lemma IsoCodesLastQuarter()
    ensures Rename(IsoTable, "IND") == "IN" && Rename(IsoTable, "BRA") == "BR"
  {
  }

  /** A country outside the table, such as Russia, keeps its three-letter code. */
  lemma IsoCodePassThrough()
    ensures Rename(IsoTable, "RUS") == "RUS"
  {
  }

  /** The eight default countries become their two-letter codes, in order. */
  lemma DefaultCountriesForImf()
    ensures ImfCountryCodes(DefaultCountries) == ["US", "CN", "JP", "DE", "GB", "FR", "IN", "BR"]
  {
    var expected := ["US", "CN", "JP", "DE", "GB", "FR", "IN", "BR"];
    var r := ImfCountryCodes(DefaultCountries);
    IsoCodesFirstHalf();
    IsoCodesThirdQuarter();
    IsoCodesLastQuarter();
    forall i | 0 <= i < 8 ensures r[i] == expected[i] {
      RenameAllAt(IsoTable, DefaultCountries, i);
    }
  }

  /** One source's part of the comprehensive answer. */
  datatype SourceReport = SourceReport(results: seq<SyncResult>, successful: nat, total: nat)

  function Report(rs: seq<SyncResult>): (r: SourceReport)
    ensures r.successful <= r.total
  {
    SourceReport(rs, SuccessCount(rs), |rs|)
  }

  /** The store and answers of the comprehensive sync: the IMF sync starts from the store the World Bank sync left. */
  function SyncAllSpec(st: Store, wbGet: Request -> Result<WorldBank.WbPayload>, imfGet: Request -> Result<Imf.ImfPayload>,
                       wbReply: string -> BulkReply, imfReply: string -> BulkReply, now: Time)
    : (r: (Store, SourceReport, SourceReport))
    ensures r.1.total == 7 && r.2.total == 8
  {
    var wb := SyncAll(st, WorldBank.KeyIndicators, WorldBank.FetchFor(wbGet, DefaultCountries, now), wbReply);
    var imf := SyncAll(wb.0, Imf.KeyIndicators, Imf.FetchFor(imfGet, ImfCountryCodes(DefaultCountries), now), imfReply);
    (imf.0, Report(wb.1), Report(imf.1))
  }

  /** `syncAllDataSources`: the seven World Bank key indicators, then the eight IMF ones. */
  method SyncAllDataSources(db: Database, wbGet: Request -> Result<WorldBank.WbPayload>,
                            imfGet: Request -> Result<Imf.ImfPayload>,
                            wbReply: string -> BulkReply, imfReply: string -> BulkReply, now: Time)
    returns (worldBank: SourceReport, imf: SourceReport)
    modifies db
    ensures (db.indicators, worldBank, imf) == SyncAllSpec(old(db.indicators), wbGet, imfGet, wbReply, imfReply, now)
    ensures db.alerts == old(db.alerts)
  {
    var wbResults := WorldBank.SyncKeyIndicators(db, wbGet, DefaultCountries, wbReply, now);
    var imfCountries := ImfCountryCodes(DefaultCountries);
    var imfResults := Imf.SyncKeyIndicators(db, imfGet, imfCountries, imfReply, now);
    worldBank := Report(wbResults);
    imf := Report(imfResults);
  }

  /** Both parts list their key indicators in table order: seven World Bank entries, eight IMF entries. */
  lemma SyncAllReportsKeyIndicators(st: Store, wbGet: Request -> Result<WorldBank.WbPayload>,
                                    imfGet: Request -> Result<Imf.ImfPayload>,
                                    wbReply: string -> BulkReply, imfReply: string -> BulkReply, now: Time)
    ensures var r := SyncAllSpec(st, wbGet, imfGet, wbReply, imfReply, now);
            IndicatorsOf(r.1.results) == WorldBank.KeyIndicators && IndicatorsOf(r.2.results) == Imf.KeyIndicators
  {
    var wb := SyncAll(st, WorldBank.KeyIndicators, WorldBank.FetchFor(wbGet, DefaultCountries, now), wbReply);
    SyncAllCoversAll(st, WorldBank.KeyIndicators, WorldBank.FetchFor(wbGet, DefaultCountries, now), wbReply);
    SyncAllCoversAll(wb.0, Imf.KeyIndicators, Imf.FetchFor(imfGet, ImfCountryCodes(DefaultCountries), now), imfReply);
  }
}
