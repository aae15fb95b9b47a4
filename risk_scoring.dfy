/**
 * The crisis detection service: select a country's records in a three-year
 * window, project them onto four indicator families by substring match on the
 * indicator code, classify each family's value against a fixed cutoff table
 * (GDP growth with reversed polarity), and average the scores into a band.
 */
module RiskScoring {
  import opened JsValues
  import opened Text
  import opened Entries
  import opened IndicatorModel

  /** The cutoffs of one indicator family. */
  datatype Cutoffs = Cutoffs(critical: real, high: real, medium: real)

  /** The service's threshold table, set once in its constructor and never changed. */
  const Thresholds: map<string, Cutoffs> := map[
    "gdpGrowth" := Cutoffs(-3.0, -1.5, 0.5),
    "unemployment" := Cutoffs(12.0, 8.0, 6.0),
    "inflation" := Cutoffs(10.0, 6.0, 4.0),
    "debtToGDP" := Cutoffs(120.0, 90.0, 70.0)
  ]

  /** The families for which a larger value is worse; every other known family is GDP growth. */
  const HigherIsWorse: seq<string> := ["unemployment", "inflation", "debtToGDP"]

  /** The four families, each with the substring that selects its records, in the order they are tested. */
  const Families: seq<(string, string)> := [
    ("gdpGrowth", "GDP_GROWTH"),
    ("unemployment", "UNEMPLOYMENT"),
    ("inflation", "INFLATION"),
    ("debtToGDP", "DEBT_GDP")
  ]

  predicate IsFamily(k: string)
  {
    k in Thresholds
  }

  /** The families are the four keys of the threshold table. */
  lemma FamilyCases(k: string)
    ensures IsFamily(k) <==> k == "gdpGrowth" || k == "unemployment" || k == "inflation" || k == "debtToGDP"
  {
  }

  /** The substring of the indicator code that selects family `k`. */
  function Marker(k: string): string
    requires IsFamily(k)
  {
    if k == "gdpGrowth" then "GDP_GROWTH"
    else if k == "unemployment" then "UNEMPLOYMENT"
    else if k == "inflation" then "INFLATION"
    else "DEBT_GDP"
  }

  datatype Level = Unknown | RiskLow | RiskMedium | RiskHigh | RiskCritical

  datatype Assessment = Assessment(level: Level, score: int)

  /** The score that goes with each level. */
  function ScoreOf(l: Level): int
  {
    match l
    case Unknown => 0
    case RiskLow => 1
    case RiskMedium => 2
    case RiskHigh => 3
    case RiskCritical => 4
  }

  /** `assessIndicatorRisk(type, value)`. */
  function AssessIndicatorRisk(kind: string, value: Number): (a: Assessment)
    ensures a.score == ScoreOf(a.level)
    ensures a.level == Unknown <==> !IsFamily(kind)
  {
    if kind !in Thresholds then Assessment(Unknown, 0)
    else
      var t := Thresholds[kind];
      if kind in HigherIsWorse then
        if AtLeast(value, t.critical) then Assessment(RiskCritical, 4)
        else if AtLeast(value, t.high) then Assessment(RiskHigh, 3)
        else if AtLeast(value, t.medium) then Assessment(RiskMedium, 2)
        else Assessment(RiskLow, 1)
      else
        if AtMost(value, t.critical) then Assessment(RiskCritical, 4)
        else if AtMost(value, t.high) then Assessment(RiskHigh, 3)
        else if AtMost(value, t.medium) then Assessment(RiskMedium, 2)
        else Assessment(RiskLow, 1)
  }

  /**
   * For unemployment, inflation and debt-to-GDP each level is a half-open band
   * with inclusive lower bounds: critical iff x >= critical, high iff
   * high <= x < critical, medium iff medium <= x < high, low otherwise.
   */
  lemma HigherIsWorseBands(kind: string, x: real)
    requires kind in HigherIsWorse
    ensures var t := Thresholds[kind]; var l := AssessIndicatorRisk(kind, Finite(x)).level;
      && (l == RiskCritical <==> x >= t.critical)
      && (l == RiskHigh <==> t.high <= x < t.critical)
      && (l == RiskMedium <==> t.medium <= x < t.high)
      && (l == RiskLow <==> x < t.medium)
  {
  }

  /**
   * For GDP growth the comparisons are reversed, with inclusive upper bounds:
   * critical iff x <= -3, high iff -3 < x <= -1.5, medium iff -1.5 < x <= 0.5, low otherwise.
   */
  lemma GdpGrowthBands(x: real)
    ensures var l := AssessIndicatorRisk("gdpGrowth", Finite(x)).level;
      && (l == RiskCritical <==> x <= -3.0)
      && (l == RiskHigh <==> -3.0 < x <= -1.5)
      && (l == RiskMedium <==> -1.5 < x <= 0.5)
      && (l == RiskLow <==> x > 0.5)
  {
  }

  /** A known family always scores between 1 and 4; an unknown key scores {unknown, 0}. */
  lemma ScoreRange(kind: string, value: Number)
    ensures IsFamily(kind) ==> 1 <= AssessIndicatorRisk(kind, value).score <= 4
    ensures !IsFamily(kind) ==> AssessIndicatorRisk(kind, value) == Assessment(Unknown, 0)
  {
  }

  /** NaN fails every comparison, so a family whose value is NaN is rated low. */
  lemma NaNRatedLow(kind: string)
    requires IsFamily(kind)
    ensures AssessIndicatorRisk(kind, NotANumber) == Assessment(RiskLow, 1)
  {
  }

  /** For higher-is-worse families a larger value never lowers the score; for GDP growth it never raises it. */
  lemma AssessMonotone(kind: string, x: real, y: real)
    requires IsFamily(kind) && x <= y
    ensures kind in HigherIsWorse ==>
              AssessIndicatorRisk(kind, Finite(x)).score <= AssessIndicatorRisk(kind, Finite(y)).score
    ensures kind !in HigherIsWorse ==>
              AssessIndicatorRisk(kind, Finite(x)).score >= AssessIndicatorRisk(kind, Finite(y)).score
  {
  }

  /** The cases pinned by the service's unit tests and its cutoff table. */
  lemma AssessExamples()
    ensures AssessIndicatorRisk("gdpGrowth", Finite(5.0)) == Assessment(RiskLow, 1)
    ensures AssessIndicatorRisk("gdpGrowth", Finite(-4.0)) == Assessment(RiskCritical, 4)
    ensures AssessIndicatorRisk("gdpGrowth", Finite(6.0)) == Assessment(RiskLow, 1)
    ensures AssessIndicatorRisk("unemployment", Finite(15.0)) == Assessment(RiskCritical, 4)
    ensures AssessIndicatorRisk("unemployment", Finite(3.0)) == Assessment(RiskLow, 1)
    ensures AssessIndicatorRisk("unemployment", Finite(12.0)) == Assessment(RiskCritical, 4)
    ensures AssessIndicatorRisk("gdpGrowth", Finite(-3.0)) == Assessment(RiskCritical, 4)
    ensures AssessIndicatorRisk("GDP_GROWTH", Finite(-4.0)) == Assessment(Unknown, 0)
  {
  }

  // ---------------------------------------------------------------------------
  // processIndicators

  /** Record `r` feeds family `k`: its indicator code contains the family's substring. */
  predicate Feeds(r: IndicatorRecord, k: string)
    requires IsFamily(k)
  {
    Contains(r.indicatorCode, Marker(k))
  }

  /** One iteration of the `forEach`: the four independent `if`s, each assigning its own key. */
  function Absorb(o: Entries<Number>, r: IndicatorRecord): Entries<Number>
  {
    var v := ParseFloat(r.value);
    var o1 := if Contains(r.indicatorCode, "GDP_GROWTH") then Put(o, "gdpGrowth", v) else o;
    var o2 := if Contains(r.indicatorCode, "UNEMPLOYMENT") then Put(o1, "unemployment", v) else o1;
    var o3 := if Contains(r.indicatorCode, "INFLATION") then Put(o2, "inflation", v) else o2;
    if Contains(r.indicatorCode, "DEBT_GDP") then Put(o3, "debtToGDP", v) else o3
  }

  /** What `processIndicators` builds from `rs`: the records absorbed in input order. */
  function Processed(rs: seq<IndicatorRecord>): Entries<Number>
    decreases |rs|
  {
    if rs == [] then [] else Absorb(Processed(rs[..|rs| - 1]), rs[|rs| - 1])
  }

  /** `processIndicators(indicators)`: the `forEach` loop over the records. */
  method ProcessIndicators(rs: seq<IndicatorRecord>) returns (o: Entries<Number>)
    ensures o == Processed(rs)
  {
    o := [];
    for i := 0 to |rs|
      invariant o == Processed(rs[..i])
    {
      assert rs[..i + 1][..i] == rs[..i];
      var r := rs[i];
      var v := ParseFloat(r.value);
      if Contains(r.indicatorCode, "GDP_GROWTH") { o := Put(o, "gdpGrowth", v); }
      if Contains(r.indicatorCode, "UNEMPLOYMENT") { o := Put(o, "unemployment", v); }
      if Contains(r.indicatorCode, "INFLATION") { o := Put(o, "inflation", v); }
      if Contains(r.indicatorCode, "DEBT_GDP") { o := Put(o, "debtToGDP", v); }
    }
    assert rs[..|rs|] == rs;
  }

  lemma AbsorbAt(o: Entries<Number>, r: IndicatorRecord, k: string)
    ensures IsFamily(k) && Feeds(r, k) ==> Get(Absorb(o, r), k) == Some(ParseFloat(r.value))
    ensures IsFamily(k) && !Feeds(r, k) ==> Get(Absorb(o, r), k) == Get(o, k)
    ensures !IsFamily(k) ==> Get(Absorb(o, r), k) == Get(o, k)
    ensures DistinctKeys(o) ==> DistinctKeys(Absorb(o, r))
  {
    var v := ParseFloat(r.value);
    var c := r.indicatorCode;
    var o1 := if Contains(c, "GDP_GROWTH") then Put(o, "gdpGrowth", v) else o;
    var o2 := if Contains(c, "UNEMPLOYMENT") then Put(o1, "unemployment", v) else o1;
    var o3 := if Contains(c, "INFLATION") then Put(o2, "inflation", v) else o2;
    var o4 := if Contains(c, "DEBT_GDP") then Put(o3, "debtToGDP", v) else o3;
    assert Absorb(o, r) == o4;
    if k == "gdpGrowth" {
      assert k[0] == 'g';
      assert Get(o4, k) == Get(o1, k);
    } else if k == "unemployment" {
      assert k[0] == 'u';
      assert Get(o4, k) == Get(o2, k) && Get(o1, k) == Get(o, k);
    } else if k == "inflation" {
      assert k[0] == 'i';
      assert Get(o4, k) == Get(o3, k) && Get(o2, k) == Get(o, k);
    } else if k == "debtToGDP" {
      assert k[0] == 'd';
      assert Get(o3, k) == Get(o, k);
    } else {
      FamilyCases(k);
      assert Get(o4, k) == Get(o, k);
    }
  }

  /** The position of the last record in `rs` that feeds family `k`. */
  function LastFeeding(rs: seq<IndicatorRecord>, k: string): (r: Option<nat>)
    requires IsFamily(k)
    ensures r.Some? ==> r.value < |rs| && Feeds(rs[r.value], k)
    ensures r.Some? ==> forall j :: r.value < j < |rs| ==> !Feeds(rs[j], k)
    ensures r.None? ==> forall j :: 0 <= j < |rs| ==> !Feeds(rs[j], k)
    decreases |rs|
  {
    LastWhere(rs, (x: IndicatorRecord) => Feeds(x, k))
  }

  /** The position of the last element of `xs` that satisfies `f`. */
  function LastWhere<T>(xs: seq<T>, f: T -> bool): (r: Option<nat>)
    ensures r.Some? ==> r.value < |xs| && f(xs[r.value])
    ensures r.Some? ==> forall j :: r.value < j < |xs| ==> !f(xs[j])
    ensures r.None? ==> forall j :: 0 <= j < |xs| ==> !f(xs[j])
    decreases |xs|
  {
    if xs == [] then None
    else if f(xs[|xs| - 1]) then Some(|xs| - 1)
    else
      var init := xs[..|xs| - 1];
      var r := LastWhere(init, f);
      assert forall j :: 0 <= j < |init| ==> init[j] == xs[j];
      r
  }

  /**
   * The processed object has keys only among the four families; a family is
   * present iff some record's code contains its substring, and its value is
   * the parsed value of the last such record in input order. One record may set
   * several families.
   */
  lemma {:induction false} ProcessedAt(rs: seq<IndicatorRecord>, k: string)
    ensures DistinctKeys(Processed(rs))
    ensures !IsFamily(k) ==> Get(Processed(rs), k) == None
    ensures IsFamily(k) ==>
              Get(Processed(rs), k) ==
                match LastFeeding(rs, k)
                case Some(i) => Some(ParseFloat(rs[i].value))
                case None => None
    decreases |rs|
  {
    if rs != [] {
      var init := rs[..|rs| - 1];
      ProcessedAt(init, k);
      AbsorbAt(Processed(init), rs[|rs| - 1], k);
      if IsFamily(k) && !Feeds(rs[|rs| - 1], k) {
        assert LastFeeding(rs, k) == LastFeeding(init, k);
        if LastFeeding(init, k).Some? {
          assert rs[LastFeeding(init, k).value] == init[LastFeeding(init, k).value];
        }
      }
    }
  }

  /** The keys of the processed object are exactly the families some record feeds. */
  lemma ProcessedKeys(rs: seq<IndicatorRecord>)
    ensures forall k :: k in Keys(Processed(rs)) <==>
              IsFamily(k) && exists i :: 0 <= i < |rs| && Feeds(rs[i], k)
  {
    forall k
      ensures k in Keys(Processed(rs)) <==> IsFamily(k) && exists i :: 0 <= i < |rs| && Feeds(rs[i], k)
    {
      ProcessedAt(rs, k);
    }
  }

  // ---------------------------------------------------------------------------
  // calculateRiskFactors and calculateOverallRisk

  /** What `calculateRiskFactors` builds: every entry assessed under its own key, in entry order. */
  function FactorsOf(p: Entries<Number>): (f: Entries<Assessment>)
    ensures |f| == |p|
  {
    seq(|p|, i requires 0 <= i < |p| => (p[i].0, AssessIndicatorRisk(p[i].0, p[i].1)))
  }

  /** `calculateRiskFactors(processed)`: the `forEach` over the processed entries. */
  method CalculateRiskFactors(p: Entries<Number>) returns (f: Entries<Assessment>)
    requires DistinctKeys(p)
    ensures f == FactorsOf(p)
    ensures Keys(f) == Keys(p) && DistinctKeys(f)
    ensures forall k :: Get(f, k) == match Get(p, k)
                                     case Some(v) => Some(AssessIndicatorRisk(k, v))
                                     case None => None
  {
    f := [];
    for i := 0 to |p|
      invariant f == FactorsOf(p[..i])
      invariant Keys(f) == Keys(p[..i]) && DistinctKeys(f)
      invariant forall k :: Get(f, k) == match Get(p[..i], k)
                                         case Some(v) => Some(AssessIndicatorRisk(k, v))
                                         case None => None
    {
      var k := p[i].0;
      assert k !in Keys(p[..i]) by {
        KeysAt(p[..i]);
      }
      GetAfterAppend(p[..i], p[i]);
      assert p[..i + 1] == p[..i] + [p[i]];
      f := Put(f, k, AssessIndicatorRisk(k, p[i].1));
    }
    assert p[..|p|] == p;
  }

  lemma {:induction false} GetAfterAppend<V>(o: Entries<V>, e: (string, V))
    requires e.0 !in Keys(o)
    ensures Keys(o + [e]) == Keys(o) + {e.0}
    ensures forall k :: Get(o + [e], k) == if k == e.0 then Some(e.1) else Get(o, k)
    decreases |o|
  {
    if o != [] {
      assert (o + [e])[1..] == o[1..] + [e];
      GetAfterAppend(o[1..], e);
    }
  }

  /** The overall verdict: a level and the exact mean score (before rounding to two decimals). */
  datatype Overall = Overall(level: Level, score: real)

  function SumScores(f: Entries<Assessment>): int
    decreases |f|
  {
    if f == [] then 0 else SumScores(f[..|f| - 1]) + f[|f| - 1].1.score
  }

  /** The band of a mean score: >= 3.5 critical, >= 2.5 high, >= 1.5 medium, else low. */
  function Band(avg: real): Level
  {
    if avg >= 3.5 then RiskCritical
    else if avg >= 2.5 then RiskHigh
    else if avg >= 1.5 then RiskMedium
    else RiskLow
  }

  /** `calculateOverallRisk(factors)`: the mean of the factor scores, 0 when there are none, and its band. */
  function CalculateOverallRisk(f: Entries<Assessment>): (r: Overall)
    ensures f == [] ==> r == Overall(RiskLow, 0.0)
    ensures f != [] ==> r.score * |f| as real == SumScores(f) as real
    ensures r.level == RiskCritical <==> r.score >= 3.5
    ensures r.level == RiskHigh <==> 2.5 <= r.score < 3.5
    ensures r.level == RiskMedium <==> 1.5 <= r.score < 2.5
    ensures r.level == RiskLow <==> r.score < 1.5
  {
    var avg := if |f| == 0 then 0.0 else SumScores(f) as real / |f| as real;
    Overall(Band(avg), avg)
  }

  /** The four bands are the half-open intervals [3.5, ∞), [2.5, 3.5), [1.5, 2.5) and (-∞, 1.5). */
  lemma BandIntervals(avg: real)
    ensures Band(avg) == RiskCritical <==> avg >= 3.5
    ensures Band(avg) == RiskHigh <==> 2.5 <= avg < 3.5
    ensures Band(avg) == RiskMedium <==> 1.5 <= avg < 2.5
    ensures Band(avg) == RiskLow <==> avg < 1.5
    ensures Band(avg) != Unknown
  {
  }

  /** A higher mean never gives a lower band. */
  lemma BandMonotone(x: real, y: real)
    requires x <= y
    ensures ScoreOf(Band(x)) <= ScoreOf(Band(y))
  {
  }

  lemma {:induction false} SumScoresBounds(f: Entries<Assessment>)
    requires forall i :: 0 <= i < |f| ==> 1 <= f[i].1.score <= 4
    ensures |f| <= SumScores(f) <= 4 * |f|
    decreases |f|
  {
    if f != [] {
      SumScoresBounds(f[..|f| - 1]);
    }
  }

  /** When every factor is a known family, the mean lies between 1 and 4. */
  lemma OverallScoreRange(f: Entries<Assessment>)
    requires f != []
    requires forall i :: 0 <= i < |f| ==> 1 <= f[i].1.score <= 4
    ensures 1.0 <= CalculateOverallRisk(f).score <= 4.0
  {
    SumScoresBounds(f);
    DivBounds(SumScores(f) as real, |f| as real);
  }

  lemma DivBounds(s: real, n: real)
    requires n > 0.0 && n <= s <= 4.0 * n
    ensures 1.0 <= s / n <= 4.0
  {
    assert s / n * n == s;
  }

  /** The unit test: factors {1, 4, 3, 2} give a mean of 2.5 and therefore 'high' (inclusive bound). */
  lemma OverallExample()
    ensures CalculateOverallRisk([("gdpGrowth", Assessment(RiskLow, 1)), ("unemployment", Assessment(RiskCritical, 4)),
                                  ("inflation", Assessment(RiskHigh, 3)), ("debtToGDP", Assessment(RiskMedium, 2))])
            == Overall(RiskHigh, 2.5)
  {
    var f := [("gdpGrowth", Assessment(RiskLow, 1)), ("unemployment", Assessment(RiskCritical, 4)),
              ("inflation", Assessment(RiskHigh, 3)), ("debtToGDP", Assessment(RiskMedium, 2))];
    assert f[..1][..0] == [];
    assert SumScores(f[..1]) == 1;
    assert f[..2][..1] == f[..1];
    assert SumScores(f[..2]) == 5;
    assert f[..3][..2] == f[..2];
    assert SumScores(f[..3]) == 8;
    assert f[..3] == f[..|f| - 1];
    assert SumScores(f) == 10;
  }

  // ---------------------------------------------------------------------------
  // analyzeCountryRisk

  /** The query `{countryCode, year: {$gte: year - 2, $lte: year}}` (the country code through the schema's upper-case setter). */
  predicate InWindow(r: IndicatorRecord, countryCode: string, year: int)
  {
    r.countryCode == ToUpper(countryCode) && year - 2 <= r.year <= year
  }

  /** The records the query returns, in the order the database returns them. */
  function Select(docs: seq<IndicatorRecord>, countryCode: string, year: int): (s: seq<IndicatorRecord>)
    ensures forall i :: 0 <= i < |s| ==> InWindow(s[i], countryCode, year)
    ensures |s| <= |docs|
    ensures forall d :: multiset(s)[d] == if InWindow(d, countryCode, year) then multiset(docs)[d] else 0
    decreases |docs|
  {
    if docs == [] then []
    else
      var rest := Select(docs[..|docs| - 1], countryCode, year);
      assert docs == docs[..|docs| - 1] + [docs[|docs| - 1]];
      if InWindow(docs[|docs| - 1], countryCode, year) then rest + [docs[|docs| - 1]] else rest
  }

  datatype RiskAssessment = RiskAssessment(countryCode: string, year: int,
                                           riskFactors: Entries<Assessment>, overallRisk: Overall)

  /** The assessment `analyzeCountryRisk` returns for the collection `docs`. */
  function RiskOf(docs: seq<IndicatorRecord>, countryCode: string, year: int): RiskAssessment
  {
    var factors := FactorsOf(Processed(Select(docs, countryCode, year)));
    RiskAssessment(countryCode, year, factors, CalculateOverallRisk(factors))
  }

  /** `analyzeCountryRisk(countryCode, year)` over the collection `docs` (in the database's order). */
  method AnalyzeCountryRisk(docs: seq<IndicatorRecord>, countryCode: string, year: int)
    returns (a: RiskAssessment)
    ensures a == RiskOf(docs, countryCode, year)
    ensures a.overallRisk == CalculateOverallRisk(a.riskFactors)
    ensures forall k :: k in Keys(a.riskFactors) ==> IsFamily(k)
  {
    var selected := Select(docs, countryCode, year);
    var processed := ProcessIndicators(selected);
    ProcessedKeys(selected);
    ProcessedAt(selected, "");
    var factors := CalculateRiskFactors(processed);
    a := RiskAssessment(countryCode, year, factors, CalculateOverallRisk(factors));
  }

  lemma {:induction false} SelectAppend(a: seq<IndicatorRecord>, b: seq<IndicatorRecord>, countryCode: string, year: int)
    ensures Select(a + b, countryCode, year) == Select(a, countryCode, year) + Select(b, countryCode, year)
    decreases |b|
  {
    if b == [] {
      assert a + b == a;
    } else {
      assert (a + b)[..|a + b| - 1] == a + b[..|b| - 1];
      SelectAppend(a, b[..|b| - 1], countryCode, year);
    }
  }

  /** Only records of the country inside [year - 2, year] count: inserting any other record anywhere changes nothing. */
  lemma OutsideWindowIgnored(a: seq<IndicatorRecord>, d: IndicatorRecord, b: seq<IndicatorRecord>,
                             countryCode: string, year: int)
    requires !InWindow(d, countryCode, year)
    ensures RiskOf(a + [d] + b, countryCode, year) == RiskOf(a + b, countryCode, year)
  {
    SelectAppend(a + [d], b, countryCode, year);
    SelectAppend(a, [d], countryCode, year);
    SelectAppend(a, b, countryCode, year);
    assert Select([d], countryCode, year) == [] by {
      assert [d][..0] == [];
    }
  }
}
