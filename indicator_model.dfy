/**
 * The EconomicIndicator document: the observation the adapters produce, the
 * stored record, its natural key (countryCode, indicatorCode, year), the schema's
 * setters (upper-case, trim) and the schema's validation rules.
 */
module IndicatorModel {
  import opened JsValues
  import opened Text

  datatype Confidence = High | Medium | Low

  /** The `category` enum of the schema. 'Other' is not a member. */
  const Categories: seq<string> :=
    ["GDP", "Employment", "Inflation", "Trade", "Government", "Social", "Financial", "Environmental"]

  /** The `sourceOrganization` enum of the schema. */
  const SourceOrganizations: seq<string> :=
    ["World Bank", "IMF", "OECD", "FRED", "Trading Economics", "Other"]

  const MinYear: int := 1960

  /** One observation as an adapter builds it: every field a sync writes with `$set`. */
  datatype Observation = Observation(
    indicatorCode: string,
    indicatorName: string,
    countryCode: string,
    year: int,
    value: JsValue,
    unit: string,
    sourceOrganization: string,
    category: string,
    lastUpdated: Time)

  /** A stored EconomicIndicator document. */
  datatype IndicatorRecord = IndicatorRecord(
    indicatorCode: string,
    indicatorName: string,
    countryCode: string,
    year: int,
    value: JsValue,
    unit: string,
    sourceOrganization: string,
    category: string,
    lastUpdated: Time,
    isProjected: bool,
    confidence: Confidence)

  /** The natural key both upsert paths filter on. The schema's index on it is not unique. */
  datatype Key = Key(countryCode: string, indicatorCode: string, year: int)

  /** The `indicatorCode` setters: upper-case, then trim. */
  function NormalCode(s: string): (r: string)
    ensures IsUpper(r)
    ensures r == [] || (!IsSpace(r[0]) && !IsSpace(r[|r| - 1]))
  {
    var u := ToUpper(s);
    TrimBetweenBlanks(u);
    Trim(u)
  }

  /** The two setters commute: the stored code is the upper-casing of the trimmed input. */
  lemma NormalCodeIsUpperTrim(s: string)
    ensures NormalCode(s) == ToUpper(Trim(s))
  {
    UpperTrimCommute(s);
  }

  /** Upper-casing before the setters changes nothing: they upper-case anyway. */
  lemma NormalCodeOfUpper(s: string)
    ensures NormalCode(ToUpper(s)) == NormalCode(s)
  {
    ToUpperIdempotent(s);
  }

  /** The key a write of `o` is matched on, after the schema's setters. */
  function KeyOf(o: Observation): Key
  {
    Key(ToUpper(o.countryCode), NormalCode(o.indicatorCode), o.year)
  }

  function RecordKey(r: IndicatorRecord): Key
  {
    Key(r.countryCode, r.indicatorCode, r.year)
  }

  /** What an upsert inserts before `$set` applies: the schema defaults (isProjected false, confidence High). */
  const Defaults: IndicatorRecord :=
    IndicatorRecord("", "", "", MinYear, Null, "", "", "", 0, false, High)

  /**
   * `$set` of all of `o`'s fields onto `base`, through the schema's setters. Only
   * the fields an observation does not carry (isProjected, confidence) survive from `base`.
   */
  function Overlay(base: IndicatorRecord, o: Observation): (r: IndicatorRecord)
    ensures RecordKey(r) == KeyOf(o)
    ensures r.isProjected == base.isProjected && r.confidence == base.confidence
    ensures r.value == o.value && r.lastUpdated == o.lastUpdated
    ensures r.category == o.category && r.sourceOrganization == o.sourceOrganization
  {
    base.(
      indicatorCode := NormalCode(o.indicatorCode),
      indicatorName := Trim(o.indicatorName),
      countryCode := ToUpper(o.countryCode),
      year := o.year,
      value := o.value,
      unit := Trim(o.unit),
      sourceOrganization := o.sourceOrganization,
      category := o.category,
      lastUpdated := o.lastUpdated)
  }

  /** The setters store both codes upper-cased, the indicator code also trimmed. */
  lemma OverlayNormalises(base: IndicatorRecord, o: Observation)
    ensures var r := Overlay(base, o);
            IsUpper(r.countryCode) && IsUpper(r.indicatorCode) && r.indicatorCode == Trim(r.indicatorCode)
  {
    TrimIdempotent(ToUpper(o.indicatorCode));
  }

  /** A second `$set` replaces everything the first one wrote. */
  lemma OverlayTwice(base: IndicatorRecord, o1: Observation, o2: Observation)
    ensures Overlay(Overlay(base, o1), o2) == Overlay(base, o2)
  {
  }

  /** The schema's validators, for a document written in `currentYear`. */
  predicate ValidRecord(r: IndicatorRecord, currentYear: int)
  {
    && r.indicatorCode != ""
    && r.indicatorName != ""
    && r.countryCode != ""
    && MinYear <= r.year <= currentYear + 1
    && (r.value.Null? || r.value.Num?)
    && r.sourceOrganization in SourceOrganizations
    && r.category in Categories
  }

  /** A record whose category is 'Other' fails the schema, whatever its other fields. */
  lemma OtherCategoryInvalid(r: IndicatorRecord, currentYear: int)
    requires r.category == "Other"
    ensures !ValidRecord(r, currentYear)
  {
  }
}
