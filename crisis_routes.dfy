// The two crisis-detection endpoints: the risk assessment of one country
// and the assessment of a fixed list of ten countries.

module CrisisRoutes {
  import opened Text
  import opened IndicatorModel
  import opened RiskScoring

  /** The countries the global analysis visits, in order. */
  const GlobalCountries: seq<string> := ["USA", "CHN", "JPN", "DEU", "GBR", "FRA", "IND", "BRA", "RUS", "CAN"]

  const CountryErrorMessage: string := "Error analyzing country risk"

  datatype CountryResponse = RiskOk(data: RiskAssessment) | ServerError(message: string)

  function Status(r: CountryResponse): int
  {
    if r.RiskOk? then 200 else 500
  }

  // ---------------------------------------------------------------------------
  // GET /country/:code

  /**
   * The country endpoint over the collection `docs`. The analysis runs on the
   * upper-cased code for the current `year`; `failed` is the set of country
   * codes whose database query throws, which the route answers with 500.
   */
  function CountryRisk(docs: seq<IndicatorRecord>, code: string, year: int, failed: set<string>): (r: CountryResponse)
    ensures r.RiskOk? <==> ToUpper(code) !in failed
    ensures r.RiskOk? ==> r.data == RiskOf(docs, ToUpper(code), year)
    ensures r.RiskOk? ==> IsUpper(r.data.countryCode) && r.data.year == year
    ensures r.ServerError? ==> r.message == CountryErrorMessage && Status(r) == 500
  {
    var upper := ToUpper(code);
    if upper in failed then ServerError(CountryErrorMessage) else RiskOk(RiskOf(docs, upper, year))
  }

  /** The route upper-cases the code first, so the answer does not depend on the case of the request. */
  lemma CountryRiskCaseInsensitive(docs: seq<IndicatorRecord>, code: string, year: int, failed: set<string>)
    ensures CountryRisk(docs, code, year, failed) == CountryRisk(docs, ToUpper(code), year, failed)
  {
    ToUpperIdempotent(code);
  }

  /** A record of another country (or outside the three-year window) never changes the answer. */
  lemma CountryRiskIgnoresOtherRecords(a: seq<IndicatorRecord>, d: IndicatorRecord, b: seq<IndicatorRecord>,
                                       code: string, year: int, failed: set<string>)
    requires !InWindow(d, ToUpper(code), year)
    ensures CountryRisk(a + [d] + b, code, year, failed) == CountryRisk(a + b, code, year, failed)
  {
    OutsideWindowIgnored(a, d, b, ToUpper(code), year);
  }

  // ---------------------------------------------------------------------------
  // GET /global

  /** The countries whose analysis does not throw, in the order they are visited. */
  function Survivors(countries: seq<string>, failed: set<string>): (s: seq<string>)
    ensures |s| <= |countries|
    ensures forall c :: c in s <==> c in countries && c !in failed
    decreases |countries|
  {
    if countries == [] then []
    else
      var last := countries[|countries| - 1];
      var rest := Survivors(countries[..|countries| - 1], failed);
      assert countries == countries[..|countries| - 1] + [last];
      if last in failed then rest else rest + [last]
  }

  /** One assessment per surviving country, in order. */
  function Analyses(docs: seq<IndicatorRecord>, countries: seq<string>, year: int): (r: seq<RiskAssessment>)
    ensures |r| == |countries|
    ensures forall i :: 0 <= i < |countries| ==> r[i] == RiskOf(docs, countries[i], year)
  {
    seq(|countries|, i requires 0 <= i < |countries| => RiskOf(docs, countries[i], year))
  }

  /** The `data` array of the global endpoint. */
  function Global(docs: seq<IndicatorRecord>, year: int, failed: set<string>): seq<RiskAssessment>
  {
    Analyses(docs, Survivors(GlobalCountries, failed), year)
  }

  /**
   * The endpoint's loop: each country is analysed in turn, and a country
   * whose analysis throws is skipped while the others go on.
   */
  method GlobalRiskAnalysis(docs: seq<IndicatorRecord>, year: int, failed: set<string>)
    returns (analyses: seq<RiskAssessment>)
    ensures analyses == Global(docs, year, failed)
    ensures |analyses| <= |GlobalCountries|
  {
    analyses := [];
    for i := 0 to |GlobalCountries|
      invariant analyses == Analyses(docs, Survivors(GlobalCountries[..i], failed), year)
    {
      var countryCode := GlobalCountries[i];
      SurvivorsStep(GlobalCountries, i, failed);
      if countryCode !in failed {
        var analysis := AnalyzeCountryRisk(docs, countryCode, year);
        AnalysesSnoc(docs, Survivors(GlobalCountries[..i], failed), countryCode, year);
        analyses := analyses + [analysis];
      }
    }
    assert GlobalCountries[..|GlobalCountries|] == GlobalCountries;
  }

  /** Visiting one more country adds it to the survivors unless it fails. */
  lemma SurvivorsStep(countries: seq<string>, i: nat, failed: set<string>)
    requires i < |countries|
    ensures Survivors(countries[..i + 1], failed) ==
            if countries[i] in failed then Survivors(countries[..i], failed)
            else Survivors(countries[..i], failed) + [countries[i]]
  {
    assert countries[..i + 1][..i] == countries[..i];
  }

  lemma AnalysesSnoc(docs: seq<IndicatorRecord>, countries: seq<string>, c: string, year: int)
    ensures Analyses(docs, countries + [c], year) == Analyses(docs, countries, year) + [RiskOf(docs, c, year)]
  {
  }

  /** When none of the countries fails, every one of them survives, in the original order. */
  lemma {:induction false} SurvivorsNoneFailed(countries: seq<string>, failed: set<string>)
    requires forall c :: c in countries ==> c !in failed
    ensures Survivors(countries, failed) == countries
    decreases |countries|
  {
    if countries != [] {
      var init := countries[..|countries| - 1];
      assert countries == init + [countries[|countries| - 1]];
      SurvivorsNoneFailed(init, failed);
    }
  }

  /** Each entry of the global answer is the assessment of a listed country that did not fail. */
  lemma GlobalEntries(docs: seq<IndicatorRecord>, year: int, failed: set<string>, i: nat)
    requires i < |Global(docs, year, failed)|
    ensures var a := Global(docs, year, failed)[i];
            a.countryCode in GlobalCountries && a.countryCode !in failed &&
            a == RiskOf(docs, a.countryCode, year)
  {
    var s := Survivors(GlobalCountries, failed);
    assert s[i] in s;
  }

  /** Every country that does not fail appears in the global answer. */
  lemma GlobalComplete(docs: seq<IndicatorRecord>, year: int, failed: set<string>, c: string)
    requires c in GlobalCountries && c !in failed
    ensures RiskOf(docs, c, year) in Global(docs, year, failed)
  {
    var s := Survivors(GlobalCountries, failed);
    var k :| 0 <= k < |s| && s[k] == c;
    assert Global(docs, year, failed)[k] == RiskOf(docs, c, year);
  }

  /** With no failure, the answer has all ten countries in the listed order. */
  lemma GlobalNoFailures(docs: seq<IndicatorRecord>, year: int)
    ensures |Global(docs, year, {})| == 10
    ensures forall i :: 0 <= i < 10 ==> Global(docs, year, {})[i] == RiskOf(docs, GlobalCountries[i], year)
  {
    SurvivorsNoneFailed(GlobalCountries, {});
  }
}
