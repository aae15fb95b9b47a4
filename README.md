# Economic-indicator pipeline: a Dafny model

This project models the decision logic of the GSECD_V2 server (Node.js,
Express, Mongoose). The server turns economic indicators from the World Bank
and the IMF into stored records, raises threshold alerts and scores country
risk. The model covers:

- **Records and alerts** (`IndicatorModel`, `AlertModel`): the
  EconomicIndicator and Alert documents with their schema validators and
  setters, and the natural key (country, indicator, year).
- **The indicator store** (`IndicatorStore`): a `map` from natural key to
  record in a `Database` class that also holds the alert collection. An upsert
  `$set`s an observation over the stored document or over the schema defaults.
- **Ingestion** (`Ingestion`, `WorldBank`, `Imf`): the shared parts of the two
  source adapters, then each adapter on its own.
  - Shared parts: the first-prefix categoriser, the save filter, the ordered
    `bulkWrite` of upserts, and the per-indicator sync loop, which records a
    failure and goes on.
  - World Bank adapter: the payload projection and the URL and parameters of
    its request.
  - IMF adapter: the name, unit and category lookups, and the three-level
    flattening of the `values` object.
- **External-data controller** (`ExternalData`): the request guards, the
  summary counts, the ISO 3166-1 alpha-3 to alpha-2 renaming and the
  comprehensive sync. The FRED stub is modelled too.
- **The scheduler** (`DataSync`): `syncData`, an upsert-then-alert loop over the
  combined batch. It stops at the first exception.
- **Risk scoring** (`RiskScoring`, `CrisisRoutes`): the three-year window, the
  four indicator families, the cut-off table, the mean score and its band, and
  the country and global routes.
- **Read endpoints** (`IndicatorQueries`, `CountryIndicators`, `AlertControls`):
  - the filtered, paginated listing and the category listing;
  - country comparison;
  - the per-country grouping by category;
  - alert listing and acknowledgement.

How the model represents the JavaScript world:

- **Numbers.** A raw JSON value is `JsValue` (null, undefined, a number or
  NaN). A parsed number is `Number` (finite or NaN). Every comparison with NaN
  is false, as in JavaScript. Numbers are exact `real`s.
- **Plain objects.** Objects built key by key are association lists with
  distinct keys (`Entries`). They keep JavaScript's insertion order, which
  `Object.values` and `Object.entries` expose.
- **Outside answers are parameters.** Everything the code asks the outside
  world is given to the model:
  - an HTTP GET is a function from `Request` to a `Result`;
  - `bulkWrite` answers with a `BulkReply`;
  - a collection the database sorts is passed in its sorted order;
  - the current time is a `Time` value.

## Model

| member | source | states |
|---|---|---|
| JsValues.ParseFloat | server/scheduler/dataSync.js:47 | parseFloat yields a finite number exactly for a numeric value, and that value itself; null, undefined and NaN give NaN |
| Entries.Get | server/services/crisisDetectionService.js:57-58 | a lookup finds a value exactly when the key is among the object's keys |
| Entries.Put | server/services/crisisDetectionService.js:58 | after an assignment the key reads the new value, every other key reads as before, the key set gains the key, a new key is appended at the end, and keys stay distinct |
| Entries.GetAt | server/services/crisisDetectionService.js:57 | in an object with distinct keys, the key of an entry looks up that entry's value |
| Text.ToUpper | server/models/EconomicIndicator.js:4-9 | upper-casing keeps the length, maps each lower-case ASCII letter to its upper-case letter (32 code points down) and keeps every other character, so no lower-case ASCII letter is left |
| Text.ToUpperIdempotent | server/models/EconomicIndicator.js:15-19 | upper-casing twice equals upper-casing once |
| Text.Trim | server/models/EconomicIndicator.js:4-9 | the trimmed string is no longer than the input and neither starts nor ends with whitespace |
| Text.TrimBetweenBlanks | server/models/EconomicIndicator.js:4-9 | the trimmed string is the slice of the input that follows its leading whitespace and precedes its trailing whitespace, which are blank |
| Text.TrimAround | server/controllers/indicators.js:16-17 | whitespace added before and after a string is trimmed away with the rest |
| Text.TrimIdempotent | server/models/EconomicIndicator.js:4-9 | trimming twice equals trimming once |
| Text.UpperTrimCommute | server/models/EconomicIndicator.js:4-9 | the upper-case and trim setters commute, so their order does not matter |
| Text.ContainsIffOccurs | server/services/crisisDetectionService.js:29-32 | `includes` holds exactly when the substring occurs at some position |
| Text.SplitJoin | server/controllers/indicators.js:26 | splitting a joined list at the separator gives the list back when no piece holds the separator |
| Text.SplitAtSeparator | server/controllers/indicators.js:25-26 | a string that contains '-' splits into at least two pieces, so both range ends exist |
| Text.DigitPrefix | server/controllers/indicators.js:27-29 | parseInt reads the longest run of decimal digits: it is a prefix, all digits, and the next character is not a digit |
| Text.ParseInt | server/controllers/indicators.js:27-29 | parseInt is NaN exactly when no digit follows the leading whitespace and the optional sign; otherwise it is the value of the longest digit run, negated after a '-' |
| Text.ParseIntRoundTrip | server/controllers/indicators.js:27-29 | parseInt reads back the decimal spelling of every integer |
| IndicatorModel.NormalCode | server/models/EconomicIndicator.js:4-9 | the stored indicator code is upper-case, with no surrounding whitespace |
| IndicatorModel.NormalCodeIsUpperTrim | server/models/EconomicIndicator.js:4-9 | the two setters commute: the stored code is the upper-casing of the trimmed input |
| IndicatorModel.NormalCodeOfUpper | server/controllers/indicators.js:17 | upper-casing a code before the setters run changes nothing |
| IndicatorModel.Overlay | server/models/EconomicIndicator.js:4-71 | a `$set` of an observation stores it under the observation's normalised key, takes all of its fields, and keeps only isProjected and confidence from the base document |
| IndicatorModel.OverlayNormalises | server/models/EconomicIndicator.js:4-19 | both stored codes are upper-case and the indicator code is trimmed |
| IndicatorModel.OverlayTwice | server/models/EconomicIndicator.js:4-71 | a second `$set` replaces everything the first one wrote |
| IndicatorModel.OtherCategoryInvalid | server/models/EconomicIndicator.js:45-58 | a record whose category is 'Other' fails the schema, whatever its other fields |
| AlertModel.NewAlert | server/models/Alert.js:24-43 | a created alert is active and unacknowledged, stores the upper-casing of the given country code, and keeps the given texts, severity, type, trigger data and creation time |
| IndicatorStore.Upsert | server/services/worldBankService.js:97-107 | an upsert adds its key to the store, writes the overlay on the stored or default document there, and leaves every other key unchanged |
| IndicatorStore.ApplyUpsertsAt | server/services/worldBankService.js:97-109 | last writer wins: after a batch, a key is present iff it was before or the batch touched it; a touched key holds the fields of the last observation with that key; an untouched key is unchanged |
| IndicatorStore.ApplyUpsertsSnoc | server/services/worldBankService.js:109 | an ordered batch with one more operation applies that operation last |
| IndicatorStore.ApplyUpsertsIdempotent | server/services/worldBankService.js:97-109 | replaying a batch on the store it produced changes nothing |
| IndicatorStore.ApplyUpsertsKeepsKeying | server/models/EconomicIndicator.js:86 | the index is not unique, yet upserts keep every record under its own natural key, so no key is duplicated |
| IndicatorStore.LastFor | server/services/worldBankService.js:97-107 | finds the last observation of a batch with a given key, and none comes after it |
| IndicatorStore.Database.constructor | server/models/EconomicIndicator.js:90 | both collections start empty |
| Ingestion.FirstPrefixFirstMatch | server/services/worldBankService.js:74-80 | the category of the first table entry whose prefix starts the code wins over any later match |
| Ingestion.FirstPrefixNoMatch | server/services/worldBankService.js:80 | a code that no prefix starts is 'Other' |
| Ingestion.FirstPrefixFrom | server/services/imfService.js:108-114 | the answer is 'Other' or the category of a matching entry |
| Ingestion.MatchPrefix | server/services/worldBankService.js:74-80 | the scan that returns at the first match answers the first-prefix category |
| Ingestion.ValidIndicators | server/services/worldBankService.js:86-90 | the filter never lengthens the list |
| Ingestion.ValidIndicatorsMembers | server/services/worldBankService.js:86-90 | a record is kept iff it is in the input and its value is a number |
| Ingestion.ValidIndicatorsAppend | server/services/imfService.js:120-123 | the filter preserves order: it distributes over concatenation |
| Ingestion.ValidIndicatorsKeepsSaveable | server/services/imfService.js:120-123 | a list whose values are all numbers passes unchanged |
| Ingestion.Applied | server/services/worldBankService.js:109 | an ordered bulkWrite applies a prefix of the batch, and all of it when acknowledged |
| Ingestion.Save | server/services/worldBankService.js:84-119 | with no valid record the store is untouched and the answer is {0, 0}; otherwise the applied prefix of the upserts of the valid records is written, an abort rethrows its message, and a success reports no errors |
| Ingestion.SaveIndicators | server/services/imfService.js:118-151 | the save method changes the store exactly as the save function says, returns its answer, and leaves the alerts alone |
| Ingestion.SaveLastWriterWins | server/services/worldBankService.js:97-114 | after an acknowledged save, a key holds the last valid record with that key over what it held; keys no valid record carries are unchanged or absent |
| Ingestion.SaveTwice | server/services/imfService.js:129-141 | saving the same records twice leaves the store that one save leaves |
| Ingestion.SyncOne | server/services/worldBankService.js:135-156 | each entry names its indicator, and a failed fetch writes nothing and records the error |
| Ingestion.SyncAll | server/services/worldBankService.js:135-157 | the loop yields one result per indicator |
| Ingestion.SyncAllCoversAll | server/services/imfService.js:168-190 | the results name the indicators in the order given: a failure never stops the loop |
| Ingestion.SyncAllFetchFailures | server/services/worldBankService.js:150-155 | when every fetch fails, nothing is written and every entry is a failure |
| WorldBank.CategorizeRange | server/services/worldBankService.js:61-81 | the categoriser answers one of its table's six categories or 'Other' |
| WorldBank.CategorizeKeyIndicators | server/services/worldBankService.js:62-72 | the GDP codes map to GDP, unemployment to Employment, CPI to Inflation |
| WorldBank.CategorizeTradeAndGovernment | server/services/worldBankService.js:62-72 | the trade code maps to Trade and the debt code to Government |
| WorldBank.CategorizeSocial | server/services/worldBankService.js:62-72 | population and health codes map to Social |
| WorldBank.CategorizeOther | server/services/worldBankService.js:80 | a foreign-investment code falls through to 'Other' |
| WorldBank.UncategorisedIsOther | server/services/worldBankService.js:61-81 | a code matching no prefix gets 'Other', which the record schema's category enum excludes |
| WorldBank.IndicatorRequest | server/services/worldBankService.js:30-37 | the GET goes to `{base}/country/{countries}/indicator/{code}` with the parameters format=json, per_page=1000 and date={range}, in that order |
| WorldBank.ProjectAll | server/services/worldBankService.js:43-53 | the projection yields one record per payload item |
| WorldBank.ProjectAllAt | server/services/worldBankService.js:43-53 | record i keeps item i's code, name, country, year and value, has the item's unit or '', 'World Bank' as source and the categoriser's category |
| WorldBank.FetchIndicatorData | server/services/worldBankService.js:28-58 | a failed GET rethrows its own error, a payload without a data page gives an empty list, and otherwise the records are the projection of the page's items, one per item in order |
| WorldBank.KeepForSaveIffNumber | server/services/worldBankService.js:86-90 | the save filter keeps a value exactly when it is a number |
| WorldBank.SyncIndicators | server/services/worldBankService.js:135-157 | the loop's store and results are those of the per-indicator sync, and the alerts are untouched |
| WorldBank.SyncKeyIndicators | server/services/worldBankService.js:122-160 | there are exactly seven results, one per key indicator, in table order |
| Imf.IndicatorName | server/services/imfService.js:66-79 | a mapped code gets its table name; any other code is its own name |
| Imf.IndicatorUnit | server/services/imfService.js:82-95 | a mapped code gets its table unit; any other gets '' |
| Imf.DescribeUnemployment | server/services/imfService.js:66-95 | LUR is "Unemployment rate" in "Percent" |
| Imf.DescribeGrowth | server/services/imfService.js:66-95 | NGDP_RPCH is "Real GDP growth" in "Percent change" |
| Imf.DescribeUnmapped | server/services/imfService.js:77-78 | an unmapped code is named by itself with an empty unit |
| Imf.CategorizeRange | server/services/imfService.js:98-115 | the categoriser answers one of its table's categories or 'Other' |
| Imf.CategorizeExamples | server/services/imfService.js:98-115 | NGDP_RPCH is GDP, LUR Employment, PCPIPCH Inflation, GGXCNL_NGDP Government, BCA Trade, and an unmatched code is 'Other' |
| Imf.IndicatorUrlCountries | server/services/imfService.js:23-27 | without a non-empty country list the URL names only the indicator; with one, the last segment splits back into the countries |
| Imf.KeepValueIffNumber | server/services/imfService.js:41 | the flattening test keeps exactly the numeric values |
| Imf.Fetch | server/services/imfService.js:21-63 | the fetch fails exactly when the GET fails and then rethrows its error; a body without `values` gives an empty list; otherwise the records are the flattening of `values` with the code's name, unit and category |
| Imf.PushYearRecords | server/services/imfService.js:40-53 | the innermost walk appends the records of one country's year entries |
| Imf.PushCountryRecords | server/services/imfService.js:39-54 | the middle walk appends the records of one indicator key's countries |
| Imf.FlattenValues | server/services/imfService.js:38-55 | the outer walk produces the flattening of the whole `values` object |
| Imf.FetchIndicatorData | server/services/imfService.js:21-63 | the fetch method answers what the fetch function specifies |
| Imf.YearRecordsMembers | server/services/imfService.js:40-52 | a record comes from a series exactly when one of its year entries yields it |
| Imf.CountryRecordsMembers | server/services/imfService.js:39 | a record comes from an indicator key's data exactly when it comes from one of its countries |
| Imf.FlattenMembers | server/services/imfService.js:38 | a record comes from `values` exactly when it comes from one of its keys |
| Imf.FlattenIff | server/services/imfService.js:38-56 | a record is flattened iff some (indicator key, country, year) triple with a numeric value yields it |
| Imf.FetchedFields | server/services/imfService.js:42-51 | every fetched record carries the requested code (not the payload key), a numeric value, 'IMF' as source, and the looked-up name, unit and category |
| Imf.FetchedAllSaveable | server/services/imfService.js:120-123 | the save filter passes a fetch's records through unchanged |
| Imf.FlattenSaveable | server/services/imfService.js:41 | flattening keeps only numbers, so the save filter changes nothing |
| Imf.SaveFilterIffNumber | server/services/imfService.js:120-123 | the IMF save filter keeps a value exactly when it is a number |
| Imf.SyncIndicators | server/services/imfService.js:168-190 | the loop's store and results are those of the per-indicator sync, and the alerts are untouched |
| Imf.SyncIndicator | server/services/imfService.js:168-190 | one pass of the loop is one per-indicator sync step, and the alerts are untouched |
| Imf.SyncKeyIndicators | server/services/imfService.js:154-193 | there are exactly eight results, one per key indicator, in table order |
| ExternalData.SuccessCount | server/controllers/externalData.js:51 | the success count never exceeds the number of results |
| ExternalData.SuccessCountAll | server/controllers/externalData.js:51 | every entry counts as a success exactly when all of them succeeded |
| ExternalData.AllFailedSummary | server/controllers/externalData.js:51-52 | failures contribute neither a success nor a saved record |
| ExternalData.SummaryAppend | server/controllers/externalData.js:117-118 | both counts add up over consecutive stretches of results |
| ExternalData.Summarize | server/controllers/externalData.js:51-65 | successfulIndicators never exceeds the number of results |
| ExternalData.FetchWorldBankData | server/controllers/externalData.js:8-73 | missing or empty countries or indicators give 400 with nothing written; otherwise the per-indicator loop runs and its results and summary are reported; alerts are untouched |
| ExternalData.FetchImfData | server/controllers/externalData.js:78-139 | the same for the IMF: 400 with nothing written on a missing input, else the loop's results and summary |
| ExternalData.ReportCoversRequest | server/controllers/externalData.js:23-52 | one entry per requested indicator in request order, and successes at most the total |
| ExternalData.ReportWhenEveryFetchFails | server/controllers/externalData.js:43-52 | when every fetch fails, nothing is written and the summary is {n, 0, 0} |
| ExternalData.FetchFredData | server/controllers/externalData.js:144-158 | FRED always answers 501 with success false |
| ExternalData.Rename | server/controllers/externalData.js:176-179 | a mapped code gets its table entry; an unmapped code passes through unchanged |
| ExternalData.RenameAll | server/controllers/externalData.js:176-179 | the renaming keeps the list's length |
| ExternalData.RenameAllAt | server/controllers/externalData.js:176-179 | position i of the result is the renaming of position i |
| ExternalData.RenameAllUnmapped | server/controllers/externalData.js:176-179 | a list with no mapped code is unchanged |
| ExternalData.IsoCodesFirstHalf | server/controllers/externalData.js:176-179 | USA, CHN, JPN and DEU become US, CN, JP and DE |
| ExternalData.IsoCodesThirdQuarter | server/controllers/externalData.js:176-179 | GBR and FRA become GB and FR |
| ExternalData.IsoCodesLastQuarter | server/controllers/externalData.js:176-179 | IND and BRA become IN and BR |
| ExternalData.IsoCodePassThrough | server/controllers/externalData.js:176-179 | an unmapped code such as RUS is kept |
| ExternalData.DefaultCountriesForImf | server/controllers/externalData.js:165-179 | the eight default countries become their two-letter codes, in order |
| ExternalData.Report | server/controllers/externalData.js:187-196 | a source's report never counts more successes than entries |
| ExternalData.SyncAllSpec | server/controllers/externalData.js:163-206 | the World Bank part has seven entries and the IMF part eight, and the IMF sync starts from the store the World Bank sync left |
| ExternalData.SyncAllDataSources | server/controllers/externalData.js:163-206 | the method runs the World Bank sync and then the IMF sync on the renamed countries, as the comprehensive specification says; alerts are untouched |
| ExternalData.SyncAllReportsKeyIndicators | server/controllers/externalData.js:187-196 | both parts list their key indicators in table order |
| DataSync.Stamp | server/scheduler/dataSync.js:37-40 | the written item carries the run's time and keeps its key |
| DataSync.StepStops | server/scheduler/dataSync.js:29-73 | a step ends the run exactly when its item's upsert or alert throws |
| DataSync.StepStore | server/scheduler/dataSync.js:31-42 | a step upserts its stamped item unless the database refuses it |
| DataSync.StepAlerts | server/scheduler/dataSync.js:45-66 | a step appends its item's alert exactly when the item fires and does not fail |
| DataSync.AlertsOf | server/scheduler/dataSync.js:53-65 | a complete run creates at most one alert per item |
| DataSync.SyncData | server/scheduler/dataSync.js:16-74 | the method leaves both collections as the run specification says, and reports completion iff the run did not stop |
| DataSync.SyncItem | server/scheduler/dataSync.js:30-67 | the loop body performs exactly one step of the run on its item |
| DataSync.StepLive | server/scheduler/dataSync.js:31-66 | an item that does not fail is upserted, stamped, and adds its alert iff it fires |
| DataSync.StepHalts | server/scheduler/dataSync.js:54-73 | a failing item stops the run, adds no alert, and is written unless its own upsert was refused |
| DataSync.RunPrefix | server/scheduler/dataSync.js:29 | the loop handles items in batch order: one more item is one more step, unless the run has stopped |
| DataSync.StoppedStays | server/scheduler/dataSync.js:71-73 | once an exception has ended the run, the rest of the batch changes nothing |
| DataSync.CompletedRunStore | server/scheduler/dataSync.js:29-42 | a completed run has upserted every stamped item in batch order |
| DataSync.CompletedRunAlerts | server/scheduler/dataSync.js:45-66 | a completed run has appended one alert per firing item, in batch order |
| DataSync.CompletesIff | server/scheduler/dataSync.js:19-73 | a run completes exactly when no item of the batch fails |
| DataSync.StopsAtFirstFailure | server/scheduler/dataSync.js:19-73 | a run stops at the first failing item: earlier items are written with their alerts, that item is written unless refused, later items are not written |
| DataSync.AlertForShape | server/scheduler/dataSync.js:53-65 | an alert the schema accepts is a threshold alert |
| DataSync.StepAlertsGrow | server/scheduler/dataSync.js:53-66 | a step keeps the stored alerts and adds at most one |
| DataSync.StepAddsThresholdAlerts | server/scheduler/dataSync.js:53-65 | a step adds only threshold alerts |
| DataSync.RunAlertsBounded | server/scheduler/dataSync.js:29-68 | a run keeps the stored alerts and adds at most one per item |
| DataSync.RunAlertsAreThresholdAlerts | server/scheduler/dataSync.js:53-65 | every alert a run adds is valid, active, 'High', 'Economic', and records a code with a threshold, that threshold and a value that breaches it |
| DataSync.FiringNeedsNumber | server/scheduler/dataSync.js:45-52 | only an item with an exact threshold code and a numeric value can alert, so null and non-numeric values never do |
| DataSync.FiresIff | server/scheduler/dataSync.js:8-13 | GDP_GROWTH fires iff value ≤ -2; UNEMPLOYMENT iff ≥ 10, INFLATION iff ≥ 8, DEBT_GDP iff ≥ 100 (all inclusive); any other code never fires |
| DataSync.ThresholdCodeExamples | server/scheduler/dataSync.js:45-46 | lower-case codes and the adapters' own codes never match a threshold |
| DataSync.TitleFits | server/scheduler/dataSync.js:55 | the alert title is non-empty, and fits the schema's 200 characters iff the indicator name has at most 183 |
| DataSync.SecondRunDuplicatesAlerts | server/scheduler/dataSync.js:53-66 | a second identical run leaves the indicators as they were and creates every alert again: there is no deduplication |
| DataSync.FetchFailureWritesNothing | server/scheduler/dataSync.js:21-24 | a failed fetch of either source writes nothing |
| RiskScoring.AssessIndicatorRisk | server/services/crisisDetectionService.js:37-53 | the score matches the level, and the level is unknown exactly for a key outside the table |
| RiskScoring.HigherIsWorseBands | server/services/crisisDetectionService.js:41-45 | for unemployment, inflation and debt-to-GDP: critical iff x ≥ critical, high iff high ≤ x < critical, medium iff medium ≤ x < high, low iff x < medium |
| RiskScoring.GdpGrowthBands | server/services/crisisDetectionService.js:46-51 | for GDP growth: critical iff x ≤ -3, high iff -3 < x ≤ -1.5, medium iff -1.5 < x ≤ 0.5, low iff x > 0.5 |
| RiskScoring.ScoreRange | server/services/crisisDetectionService.js:39-52 | a known key scores between 1 and 4; an unknown key gives {unknown, 0} |
| RiskScoring.NaNRatedLow | server/services/crisisDetectionService.js:42-50 | a NaN value fails every comparison and is rated low/1 |
| RiskScoring.AssessMonotone | server/services/crisisDetectionService.js:41-51 | a larger value never lowers a higher-is-worse score and never raises a GDP-growth score |
| RiskScoring.AssessExamples | server/services/crisisDetectionService.test.js:4-14 | GDP growth 5 is low/1 and -4 is critical/4; unemployment 15 is critical/4; a misspelt key is unknown/0 |
| RiskScoring.ProcessIndicators | server/services/crisisDetectionService.js:25-35 | the forEach loop builds the processed object that the fold defines |
| RiskScoring.AbsorbAt | server/services/crisisDetectionService.js:28-32 | a record sets each family whose substring its code contains to its parsed value, leaves the others unchanged, and keeps keys distinct |
| RiskScoring.LastFeeding | server/services/crisisDetectionService.js:29-32 | finds the last record feeding a family, and none after it does |
| RiskScoring.ProcessedAt | server/services/crisisDetectionService.js:25-35 | the processed object has keys only among the four families; a family's value is the parsed value of the last record that feeds it |
| RiskScoring.ProcessedKeys | server/services/crisisDetectionService.js:25-35 | a family is a key iff some record's code contains its substring |
| RiskScoring.CalculateRiskFactors | server/services/crisisDetectionService.js:55-61 | the factors have exactly the processed keys, each mapped to the assessment of its own key and value |
| RiskScoring.CalculateOverallRisk | server/services/crisisDetectionService.js:63-68 | with no factors the result is low with score 0; otherwise the score times the count is the sum of the scores (the mean); the level is critical iff the mean is at least 3.5, high iff it lies in [2.5, 3.5), medium iff in [1.5, 2.5), low iff below 1.5 |
| RiskScoring.BandIntervals | server/services/crisisDetectionService.js:66 | the four bands are the half-open intervals [3.5, ∞), [2.5, 3.5), [1.5, 2.5) and (-∞, 1.5), and never unknown |
| RiskScoring.BandMonotone | server/services/crisisDetectionService.js:66 | a higher mean never gives a lower band |
| RiskScoring.SumScoresBounds | server/services/crisisDetectionService.js:64-65 | n scores in 1..4 sum to between n and 4n |
| RiskScoring.OverallScoreRange | server/services/crisisDetectionService.js:63-68 | when every factor is known, the mean lies in [1, 4] |
| RiskScoring.OverallExample | server/services/crisisDetectionService.test.js:16-26 | factors {1, 4, 3, 2} give mean 2.5 and therefore high |
| RiskScoring.Select | server/services/crisisDetectionService.js:15-18 | the query returns every record of the country with year in [year-2, year], each as often as it is stored, and no other record |
| RiskScoring.AnalyzeCountryRisk | server/services/crisisDetectionService.js:14-23 | the analysis is the specified one; the overall risk is computed from its factors, whose keys are all families |
| RiskScoring.SelectAppend | server/services/crisisDetectionService.js:15-18 | selection preserves order: it distributes over concatenation |
| RiskScoring.OutsideWindowIgnored | server/services/crisisDetectionService.js:15-18 | a record of another country or outside the window never changes the assessment, wherever it sits |
| CrisisRoutes.CountryRisk | server/routes/crisis-detection.js:9-24 | the route succeeds iff the upper-cased code's query does not throw; it then answers the analysis of the upper-cased code for the current year, and otherwise 500 with its message |
| CrisisRoutes.CountryRiskCaseInsensitive | server/routes/crisis-detection.js:12 | the answer does not depend on the case of the requested code |
| CrisisRoutes.CountryRiskIgnoresOtherRecords | server/routes/crisis-detection.js:12 | a record outside the requested country's window never changes the answer |
| CrisisRoutes.Survivors | server/routes/crisis-detection.js:35-43 | a country survives iff it is listed and its analysis does not throw; there are never more survivors than countries |
| CrisisRoutes.Analyses | server/routes/crisis-detection.js:37-38 | one analysis per country, position by position |
| CrisisRoutes.GlobalRiskAnalysis | server/routes/crisis-detection.js:29-57 | the loop's answer is the analyses of the surviving countries in list order, at most ten |
| CrisisRoutes.SurvivorsStep | server/routes/crisis-detection.js:36-42 | visiting a country adds it unless its analysis throws |
| CrisisRoutes.SurvivorsNoneFailed | server/routes/crisis-detection.js:35-43 | when no country fails, all survive in their original order |
| CrisisRoutes.GlobalEntries | server/routes/crisis-detection.js:32-43 | each entry of the answer analyses a listed country that did not fail |
| CrisisRoutes.GlobalComplete | server/routes/crisis-detection.js:39-42 | every listed country that does not fail appears: one failure skips only itself |
| CrisisRoutes.GlobalNoFailures | server/routes/crisis-detection.js:32-38 | with no failure the answer is the ten countries, in list order |
| Filters.Keep | server/controllers/indicators.js:42 | the query returns every matching document as often as it is stored and no other document |
| Filters.KeepAppend | server/controllers/indicators.js:42-43 | filtering distributes over concatenation, so matching documents keep their relative order |
| Filters.KeepOrdered | server/controllers/indicators.js:42-43 | every order the collection is sorted by survives the filter |
| Filters.KeepAll | server/controllers/alerts.js:8-11 | a filter every document passes returns the whole collection |
| IndicatorQueries.ParseYear | server/controllers/indicators.js:24-31 | a year with '-' becomes a range; otherwise it is an exact year read by parseInt |
| IndicatorQueries.QueryOf | server/controllers/indicators.js:9-35 | each filter is set iff its parameter is given and non-empty; the country filter is the upper-cased parameter, the indicator filter the upper-cased and trimmed parameter, the category and source filters the parameters themselves, and the year filter the parsed year parameter |
| IndicatorQueries.BuildQuery | server/controllers/indicators.js:9-35 | building the query field by field gives the specified query |
| IndicatorQueries.QueryCaseInsensitive | server/controllers/indicators.js:12-18 | upper-casing the country and indicator parameters first changes nothing |
| IndicatorQueries.QueryIgnoresIndicatorSpaces | server/controllers/indicators.js:16-17 | whitespace around the indicator parameter does not change the query |
| IndicatorQueries.ParseYearRange | server/controllers/indicators.js:25-27 | "a-b" matches exactly the years in [a, b], both ends inclusive |
| IndicatorQueries.ParseYearExact | server/controllers/indicators.js:28-29 | a year without '-' matches that year only |
| IndicatorQueries.NoFilterMatchesAll | server/controllers/indicators.js:9 | with no filter parameter every record matches |
| IndicatorQueries.PageParam | server/controllers/indicators.js:38-39 | a missing, NaN or zero parameter gives the default; any other parsed number is used as is |
| IndicatorQueries.Pages | server/controllers/indicators.js:57 | the page count is the ceiling of total / limit |
| IndicatorQueries.PagesCoverAll | server/controllers/indicators.js:40-57 | every record position lies on a page between 1 and the page count, inside that page's skip window |
| IndicatorQueries.Window | server/controllers/indicators.js:44-45 | skip then limit returns at most limit records, position by position from skip |
| IndicatorQueries.Paginate | server/controllers/indicators.js:38-60 | a negative skip is a server error with the endpoint's message; otherwise the page holds the matching records from position (page-1)*limit on, at most the absolute value of limit of them, with page, limit, total and page count reported |
| IndicatorQueries.GetEconomicIndicators | server/controllers/indicators.js:7-68 | 500 iff the year is uncastable or the skip is negative; otherwise the page at (page-1)*limit of the matching documents, with the page parameters and the total of all matching documents |
| IndicatorQueries.IndicatorsByCategory | server/controllers/indicators.js:210-253 | a category outside the eight-value enum is 400 'Invalid category'; a negative skip is 500; otherwise the page at (page-1)*limit of that category's records, with their total |
| IndicatorQueries.OtherCategoryRejected | server/controllers/indicators.js:215-221 | the adapters' fallback 'Other' is refused |
| IndicatorQueries.UpperAll | server/controllers/indicators.js:187-188 | each listed code is upper-cased, position by position |
| IndicatorQueries.NormalAll | server/controllers/indicators.js:188 | each listed indicator code becomes its stored form, upper-cased and trimmed, position by position |
| IndicatorQueries.CompareCountries | server/controllers/indicators.js:175-209 | missing or empty lists give 400; otherwise every record of the upper-cased countries and normalised indicators (and of the year when it is truthy), each as often as stored, in any order the collection is sorted by |
| IndicatorQueries.CompareYearZeroIgnored | server/controllers/indicators.js:191-193 | a year of 0 is falsy and filters nothing |
| CountryIndicators.GroupByCategory | server/controllers/indicators.js:91-97 | the reduce loop builds the specified grouping |
| CountryIndicators.GroupedAt | server/controllers/indicators.js:91-97 | each category present has exactly one group, holding its records in their original order, and no other key exists |
| CountryIndicators.GroupedSizes | server/controllers/indicators.js:91-97 | the groups together hold exactly as many records as were fetched |
| CountryIndicators.Fetched | server/controllers/indicators.js:86-88 | the first 100 records of the requested country in the sort order, or all of them when there are fewer |
| CountryIndicators.FetchedUnderCap | server/controllers/indicators.js:86-88 | when the country has at most 100 records the cap drops nothing |
| CountryIndicators.GetIndicatorsByCountry | server/controllers/indicators.js:73-113 | an unknown upper-cased country is 404; otherwise the grouping of at most 100 fetched records, with totalCount their number |
| CountryIndicators.GroupMembers | server/controllers/indicators.js:91-97 | every grouped record belongs to the requested country and to its group's category |
| CountryIndicators.TotalCountMatchesGroups | server/controllers/indicators.js:104 | totalCount equals the number of records in the groups |
| AlertControls.Acknowledge | server/controllers/alerts.js:42-45 | acknowledging sets isActive false, the actor and the time, and keeps title, message, severity, type, country, trigger data and creation time |
| AlertControls.AcknowledgeKeepsValid | server/controllers/alerts.js:45 | a valid alert stays valid when saved after acknowledgement |
| AlertControls.AcknowledgeAgain | server/controllers/alerts.js:34-45 | a second acknowledgement is not refused: it re-stamps the actor and the time |
| AlertControls.AcknowledgeOnlyStamps | server/controllers/alerts.js:42-45 | the result differs from the original only in the three acknowledgement fields |
| AlertControls.AcknowledgeAlert | server/controllers/alerts.js:32-58 | an unknown id is 404 and changes nothing; a known one is stamped in place and returned; indicators are untouched |
| AlertControls.AcknowledgeOthersUnchanged | server/controllers/alerts.js:42-45 | every other alert stays as it was |
| AlertControls.Filtered | server/controllers/alerts.js:8-11 | every stored alert that passes the isActive filter is returned as often as it is stored, and no other alert |
| AlertControls.FilteredAppend | server/controllers/alerts.js:8-11 | the filter distributes over concatenation, so selected alerts keep their stored order |
| AlertControls.SortNewestFirst | server/controllers/alerts.js:13-14 | the sort is newest first and a permutation of its input |
| AlertControls.GetAlerts | server/controllers/alerts.js:6-27 | the answer is newest first and a permutation of the selected alerts |
| AlertControls.NoParamReturnsAll | server/controllers/alerts.js:9 | without the parameter all alerts are returned |
| AlertControls.ParamSelects | server/controllers/alerts.js:10 | 'true' selects exactly the active alerts; any other value, the inactive ones |

## Left out

- HTTP and Express plumbing is not modelled: routing, authentication, status codes beyond the guards above, console logging, the server bootstrap and the global error handler. None of it makes a decision about the data.
- The rate limiter and the request-validation middleware are configuration of library objects whose behaviour is not visible here.
- Network calls, cron scheduling and the `setTimeout` delays are not modelled. HTTP answers are parameters, and a delay does nothing to the data.
- `fetchLatestIndicators` is called by the scheduler but defined by neither adapter. The two fetch results of `DataSync.SyncData` are therefore parameters.
- `getIndicators` of both adapters, `getDataSourceStatus` (database aggregates), server/controllers/analysis.js, the seeders, and the CRUD handlers for crises, countries and social indicators are not part of this model. They are the database's own query work or floating-point numerics.
- server/routes/alerts.js is not part of this model. Its acknowledge writes an `acknowledged` field that the Alert schema does not define, so the controller version is modelled instead.
- Floating point is not modelled: values are exact reals. `Math.round(avg*100)/100` is left out, so `RiskScoring.CalculateOverallRisk` states the exact mean. Decimal128 conversion and `parseFloat` of strings are left out too: `JsValues.ParseFloat` maps every non-number to NaN.
- `Text.ParseInt` reads decimal digits only. It does not model other radixes, a "0x" prefix or Unicode digits.
- `Text.ToUpper` and `Text.Trim` handle ASCII only: no Unicode case mapping and no Unicode whitespace.
- `bulkWrite` counts (`upsertedCount + modifiedCount`) come from the database. The model treats them as an opaque number in `BulkReply`.
- `createdAt` and `updatedAt` maintenance is not modelled beyond the alert's creation time. `save()` revalidation on acknowledgement is covered only by `AlertControls.AcknowledgeKeepsValid`.
- `DataSync.SyncData` stamps every item with one run time. The source calls `new Date()` once per item, so its times can differ by milliseconds.
- The IMF year keys and the World Bank `date` strings are given as integers. Their parsing is not modelled.
- The database's sorts are not executed. Each endpoint is given the collection already in its sort order.
- Ties in the alerts' `createdAt` sort may come back in either order; `AlertControls.GetAlerts` fixes only the multiset and the order by time.
- Three database behaviours are assumed rather than taken from the code:
  - a NaN year filter fails the cast and the listing answers 500;
  - a negative skip is refused with 500;
  - a negative limit returns at most its absolute value.
- Alert ids are positions in the alert collection. A malformed id, which Mongoose rejects with a CastError (answered 500), is not modelled.
- The per-country endpoint's Country document is represented by its code. `populate` of country names and regions is not modelled.
- The compare endpoint's `year` is a JSON number or absent. Strings and other JSON types are not modelled.
- Lookups in JavaScript objects such as `ALERT_THRESHOLDS[code]` do not see inherited prototype properties such as "constructor" in this model.
- `Imf.FetchIndicatorData` computes the name, unit and category once per fetch, not once per record. The lookups are pure, so the records are the same.
- `IndicatorModel.Overlay` assumes Mongoose runs the schema's setters on query filters and update documents. The read endpoints' indicator filters (`IndicatorQueries.QueryOf`, `IndicatorQueries.NormalAll`) rest on the same assumption, so they are trimmed as well as upper-cased. Only the insert path applies schema defaults; update validators are not run, so 'Other' can be stored (see `IndicatorModel.OtherCategoryInvalid`).
