/**
 * The rule-based risk assessment of a field (`DiseaseRiskService`).
 *
 * A weather summary for the field (a 14-day forecast, the same fortnight of
 * last year, or nothing) is turned into three abiotic risks (drought, frost,
 * heat stress), a list of disease risks from the crop's rules, an overall risk
 * and a list of recommendations.  The weather service is an oracle `fetch`
 * that returns `None` where the client completes empty; the clock is `today`.
 */
module DiseaseRisk {
  import opened Wrappers
  import opened Strings
  import opened Calendar
  import opened Sorting

  // ---- Levels and scores --------------------------------------------------

  datatype RiskLevel = Low | Medium | High | Critical

  /** Position on the scale LOW < MEDIUM < HIGH < CRITICAL. */
  function Severity(l: RiskLevel): nat
  {
    match l
    case Low => 0
    case Medium => 1
    case High => 2
    case Critical => 3
  }

  /** `riskLevelToScore`: the representative score of a level. */
  function RiskLevelToScore(l: RiskLevel): (s: real)
    ensures 0.0 < s < 1.0
  {
    match l
    case Critical => 0.95
    case High => 0.75
    case Medium => 0.50
    case Low => 0.15
  }

  /** `scoreToRiskLevel`: cut-offs 0.85, 0.60 and 0.35. */
  function ScoreToRiskLevel(score: real): RiskLevel
  {
    if score >= 0.85 then Critical
    else if score >= 0.60 then High
    else if score >= 0.35 then Medium
    else Low
  }

  /** Mapping a level to its score and back gives the level. */
  lemma ScoreLevelRoundTrip(l: RiskLevel)
    ensures ScoreToRiskLevel(RiskLevelToScore(l)) == l
  {
  }

  /** A higher score never gives a lower level, and level scores are ordered like levels. */
  lemma ScoreToRiskLevelMonotone(a: real, b: real)
    requires a <= b
    ensures Severity(ScoreToRiskLevel(a)) <= Severity(ScoreToRiskLevel(b))
  {
  }

  lemma RiskLevelToScoreMonotone(l: RiskLevel, m: RiskLevel)
    ensures Severity(l) <= Severity(m) <==> RiskLevelToScore(l) <= RiskLevelToScore(m)
  {
  }

  /** `Math.round(x * 100.0) / 100.0`: round half up to two decimals. */
  function Round2(x: real): (r: real)
    ensures x - 0.005 < r <= x + 0.005
  {
    (x * 100.0 + 0.5).Floor as real / 100.0
  }

  /** Rounding a rounded value changes nothing. */
  lemma Round2Idempotent(x: real)
    ensures Round2(Round2(x)) == Round2(x)
  {
    var k := (x * 100.0 + 0.5).Floor;
    assert Round2(x) * 100.0 + 0.5 == k as real + 0.5;
    assert (k as real + 0.5).Floor == k;
  }

  function Max(a: real, b: real): real
  {
    if a >= b then a else b
  }

  // ---- Inputs ---------------------------------------------------------------

  /** The weather summary the weather service returns; every field may be null. */
  datatype WeatherForecastData = WeatherForecastData(
    gtk: Option<real>,
    sumPrecipitation: Option<real>,
    sumEffectiveTemp: Option<real>,
    heatStressDays: Option<int>,
    minTempRecord: Option<real>,
    stressLevel: Option<string>,
    avgTemp: Option<real>,
    extremeHeatDays: Option<int>,
    longestDryPeriod: Option<int>)

  /**
   * A disease rule as stored.  `diseaseType` is the enum constant's name;
   * `affectedCrops` and `isActive` only select the rules, which arrive here
   * already filtered for the crop.
   */
  datatype RiskRule = RiskRule(
    id: Option<int>,
    diseaseName: string,
    diseaseType: Option<string>,
    riskLevel: RiskLevel,
    riskWeight: real,
    tempMinThreshold: Option<real>,
    tempMaxThreshold: Option<real>,
    precipMin7d: Option<real>,
    precipMax7d: Option<real>,
    humidityMinThreshold: Option<real>,
    gtkMin: Option<real>,
    gtkMax: Option<real>,
    heatStressDaysMin: Option<int>,
    dryPeriodDaysMin: Option<int>,
    activeSeason: Option<string>,
    ruleDescription: Option<string>,
    preventionAdvice: Option<string>,
    treatmentAdvice: Option<string>,
    urgencyDays: Option<int>)

  /** A field as far as the assessment needs it: its identity and centroid. */
  datatype Field = Field(id: int, fieldName: string, latitude: real, longitude: real)

  datatype RiskError =
    | FieldNotFound(fieldId: int)
    | SeasonUnreadable(part: string)

  // ---- Abiotic risks --------------------------------------------------------

  /** `assessDroughtRisk`: GTK decides below 1.0, the dry spell otherwise. */
  function AssessDroughtRisk(w: WeatherForecastData): RiskLevel
  {
    if w.gtk.None? && w.longestDryPeriod.None? then Low
    else if w.gtk.Some? && w.gtk.value < 0.4 then Critical
    else if w.gtk.Some? && w.gtk.value < 0.7 then High
    else if w.gtk.Some? && w.gtk.value < 1.0 then Medium
    else if w.longestDryPeriod.Some? && w.longestDryPeriod.value >= 14 then Critical
    else if w.longestDryPeriod.Some? && w.longestDryPeriod.value >= 10 then High
    else if w.longestDryPeriod.Some? && w.longestDryPeriod.value >= 7 then Medium
    else Low
  }

  /** `assessFrostRisk`: on the lowest temperature record. */
  function AssessFrostRisk(w: WeatherForecastData): RiskLevel
  {
    if w.minTempRecord.None? then Low
    else if w.minTempRecord.value <= -10.0 then Critical
    else if w.minTempRecord.value <= -5.0 then High
    else if w.minTempRecord.value <= 0.0 then Medium
    else Low
  }

  /** `assessHeatStressRisk`: on the counts of hot and extremely hot days. */
  function AssessHeatStressRisk(w: WeatherForecastData): RiskLevel
  {
    var heat := w.heatStressDays;
    var extreme := w.extremeHeatDays;
    if extreme.Some? && extreme.value >= 3 then Critical
    else if heat.Some? && heat.value >= 7 then Critical
    else if heat.Some? && heat.value >= 5 then High
    else if extreme.Some? && extreme.value >= 1 then High
    else if heat.Some? && heat.value >= 3 then Medium
    else Low
  }

  /** With GTK below 1.0 the dry spell plays no part in the drought risk. */
  lemma DroughtGtkDecides(w: WeatherForecastData, dry: Option<int>)
    requires w.gtk.Some? && w.gtk.value < 1.0
    ensures AssessDroughtRisk(w.(longestDryPeriod := dry)) == AssessDroughtRisk(w)
    ensures Severity(AssessDroughtRisk(w)) >= 1
  {
  }

  /**
   * A longer dry spell never lowers the drought risk; a lower GTK never lowers
   * it either as long as both values stay on the same side of 1.0.
   */
  lemma DroughtMonotone(w: WeatherForecastData, dryMore: int, gtkLess: real)
    requires w.longestDryPeriod.Some? && w.longestDryPeriod.value <= dryMore
    requires w.gtk.Some? && gtkLess <= w.gtk.value
    requires w.gtk.value < 1.0 || 1.0 <= gtkLess
    ensures Severity(AssessDroughtRisk(w)) <= Severity(AssessDroughtRisk(w.(longestDryPeriod := Some(dryMore))))
    ensures Severity(AssessDroughtRisk(w)) <= Severity(AssessDroughtRisk(w.(gtk := Some(gtkLess))))
  {
  }

  /**
   * Across 1.0 the order breaks: a GTK of 0.8 is MEDIUM whatever the dry spell,
   * while the wetter GTK 1.5 with a 20-day dry spell is CRITICAL.
   */
  lemma DroughtNotMonotoneAcrossOne(w: WeatherForecastData)
    requires w.longestDryPeriod == Some(20)
    ensures AssessDroughtRisk(w.(gtk := Some(0.8))) == Medium
    ensures AssessDroughtRisk(w.(gtk := Some(1.5))) == Critical
  {
  }

  /** A colder record never lowers the frost risk. */
  lemma FrostMonotone(w: WeatherForecastData, colder: real)
    requires w.minTempRecord.Some? && colder <= w.minTempRecord.value
    ensures Severity(AssessFrostRisk(w)) <= Severity(AssessFrostRisk(w.(minTempRecord := Some(colder))))
  {
  }

  /** More hot or extremely hot days never lower the heat-stress risk. */
  lemma HeatMonotone(w: WeatherForecastData, heat: int, extreme: int)
    requires w.heatStressDays.Some? && w.heatStressDays.value <= heat
    requires w.extremeHeatDays.Some? && w.extremeHeatDays.value <= extreme
    ensures Severity(AssessHeatStressRisk(w)) <= Severity(AssessHeatStressRisk(w.(heatStressDays := Some(heat), extremeHeatDays := Some(extreme))))
  {
  }

  // ---- Rule conditions ------------------------------------------------------

  datatype ConditionKind =
    | TempAtLeast | TempAtMost
    | PrecipAtLeast | PrecipAtMost
    | GtkAtLeast | GtkAtMost
    | HeatDaysAtLeast | DryPeriodAtLeast

  /** A triggered condition: which test, the weather value and the rule's threshold. */
  datatype Condition = Condition(kind: ConditionKind, value: real, threshold: real)

  predicate IsMinimum(k: ConditionKind)
  {
    k == TempAtLeast || k == PrecipAtLeast || k == GtkAtLeast || k == HeatDaysAtLeast || k == DryPeriodAtLeast
  }

  /** A minimum threshold is met with `>=`, a maximum one with `<=`. */
  predicate Holds(c: Condition)
  {
    if IsMinimum(c.kind) then c.value >= c.threshold else c.value <= c.threshold
  }

  function AsReal(n: Option<int>): Option<real>
  {
    if n.Some? then Some(n.value as real) else None
  }

  /** One test: tested only when both the threshold and the weather value are present. */
  function Check(kind: ConditionKind, threshold: Option<real>, value: Option<real>): (t: seq<Condition>)
  {
    if threshold.Some? && value.Some? && Holds(Condition(kind, value.value, threshold.value))
    then [Condition(kind, value.value, threshold.value)]
    else []
  }

  /** The eight tests of `evaluateRule`, in the order it makes them; humidity is not among them. */
  const AllKinds: seq<ConditionKind> :=
    [TempAtLeast, TempAtMost, PrecipAtLeast, PrecipAtMost, GtkAtLeast, GtkAtMost, HeatDaysAtLeast, DryPeriodAtLeast]

  /** The rule's threshold for one kind of test. */
  function ThresholdFor(rule: RiskRule, k: ConditionKind): Option<real>
  {
    match k
    case TempAtLeast => rule.tempMinThreshold
    case TempAtMost => rule.tempMaxThreshold
    case PrecipAtLeast => rule.precipMin7d
    case PrecipAtMost => rule.precipMax7d
    case GtkAtLeast => rule.gtkMin
    case GtkAtMost => rule.gtkMax
    case HeatDaysAtLeast => AsReal(rule.heatStressDaysMin)
    case DryPeriodAtLeast => AsReal(rule.dryPeriodDaysMin)
  }

  /** The weather value one kind of test reads. */
  function ReadingFor(w: WeatherForecastData, k: ConditionKind): Option<real>
  {
    match k
    case TempAtLeast => w.avgTemp
    case TempAtMost => w.avgTemp
    case PrecipAtLeast => w.sumPrecipitation
    case PrecipAtMost => w.sumPrecipitation
    case GtkAtLeast => w.gtk
    case GtkAtMost => w.gtk
    case HeatDaysAtLeast => AsReal(w.heatStressDays)
    case DryPeriodAtLeast => AsReal(w.longestDryPeriod)
  }

  /** The conditions the first `n` tests trigger. */
  function Tests(rule: RiskRule, w: WeatherForecastData, n: nat): seq<Condition>
    requires n <= |AllKinds|
  {
    if n == 0 then []
    else Tests(rule, w, n - 1) + Check(AllKinds[n - 1], ThresholdFor(rule, AllKinds[n - 1]), ReadingFor(w, AllKinds[n - 1]))
  }

  function Triggered(rule: RiskRule, w: WeatherForecastData): seq<Condition>
  {
    Tests(rule, w, |AllKinds|)
  }

  /** Test `k` fires: threshold and value are present and the comparison holds. */
  predicate Fires(rule: RiskRule, w: WeatherForecastData, k: ConditionKind)
  {
    ThresholdFor(rule, k).Some? && ReadingFor(w, k).Some?
    && Holds(Condition(k, ReadingFor(w, k).value, ThresholdFor(rule, k).value))
  }

  /** The condition test `k` reports when it fires. */
  function ConditionFor(rule: RiskRule, w: WeatherForecastData, k: ConditionKind): Condition
    requires Fires(rule, w, k)
  {
    Condition(k, ReadingFor(w, k).value, ThresholdFor(rule, k).value)
  }

  function KindRank(k: ConditionKind): nat
  {
    match k
    case TempAtLeast => 0
    case TempAtMost => 1
    case PrecipAtLeast => 2
    case PrecipAtMost => 3
    case GtkAtLeast => 4
    case GtkAtMost => 5
    case HeatDaysAtLeast => 6
    case DryPeriodAtLeast => 7
  }

  lemma KindRanks()
    ensures forall i :: 0 <= i < |AllKinds| ==> KindRank(AllKinds[i]) == i
    ensures forall k :: AllKinds[KindRank(k)] == k
  {
  }

  /** How many of the first `n` tests have a threshold. */
  function Tested(rule: RiskRule, n: nat): nat
    requires n <= |AllKinds|
  {
    if n == 0 then 0 else Tested(rule, n - 1) + Present(ThresholdFor(rule, AllKinds[n - 1]))
  }

  /**
   * The first `n` tests report, in test order and once each, exactly the tests
   * among them that fire, and no more conditions than tests with a threshold.
   */
  lemma {:induction false} TestsExactly(rule: RiskRule, w: WeatherForecastData, n: nat)
    requires n <= |AllKinds|
    ensures forall c :: c in Tests(rule, w, n) ==>
      KindRank(c.kind) < n && Fires(rule, w, c.kind) && c == ConditionFor(rule, w, c.kind)
    ensures forall i :: 0 <= i < n && Fires(rule, w, AllKinds[i]) ==>
      ConditionFor(rule, w, AllKinds[i]) in Tests(rule, w, n)
    ensures forall i, j :: 0 <= i < j < |Tests(rule, w, n)| ==>
      KindRank(Tests(rule, w, n)[i].kind) < KindRank(Tests(rule, w, n)[j].kind)
    ensures |Tests(rule, w, n)| <= Tested(rule, n)
  {
    KindRanks();
    if n > 0 {
      TestsExactly(rule, w, n - 1);
      var k := AllKinds[n - 1];
      var prev := Tests(rule, w, n - 1);
      var step := Check(k, ThresholdFor(rule, k), ReadingFor(w, k));
      assert Tests(rule, w, n) == prev + step;
      assert step != [] ==> step == [ConditionFor(rule, w, k)];
      forall i | 0 <= i < n && Fires(rule, w, AllKinds[i])
        ensures ConditionFor(rule, w, AllKinds[i]) in Tests(rule, w, n)
      {
        if i < n - 1 {
          assert ConditionFor(rule, w, AllKinds[i]) in prev;
        } else {
          assert step == [ConditionFor(rule, w, k)];
        }
      }
    }
  }

  /** The triggered list holds, once each, exactly the tests that fire. */
  lemma TriggeredExactly(rule: RiskRule, w: WeatherForecastData)
    ensures forall c :: c in Triggered(rule, w) ==> Fires(rule, w, c.kind) && c == ConditionFor(rule, w, c.kind)
    ensures forall k :: Fires(rule, w, k) ==> ConditionFor(rule, w, k) in Triggered(rule, w)
    ensures forall i, j :: 0 <= i < j < |Triggered(rule, w)| ==> Triggered(rule, w)[i].kind != Triggered(rule, w)[j].kind
  {
    KindRanks();
    TestsExactly(rule, w, |AllKinds|);
    forall k | Fires(rule, w, k)
      ensures ConditionFor(rule, w, k) in Triggered(rule, w)
    {
      assert AllKinds[KindRank(k)] == k;
    }
  }

  function Present<T>(o: Option<T>): nat
  {
    if o.Some? then 1 else 0
  }

  /** How many of the nine thresholds the rule sets, humidity included. */
  function ThresholdCount(rule: RiskRule): nat
  {
    Present(rule.tempMinThreshold) + Present(rule.tempMaxThreshold)
    + Present(rule.precipMin7d) + Present(rule.precipMax7d)
    + Present(rule.humidityMinThreshold)
    + Present(rule.gtkMin) + Present(rule.gtkMax)
    + Present(rule.heatStressDaysMin) + Present(rule.dryPeriodDaysMin)
  }

  /** The eight tests have thresholds exactly where the rule sets one, humidity aside. */
  lemma TestedAll(rule: RiskRule)
    ensures Tested(rule, |AllKinds|) + Present(rule.humidityMinThreshold) == ThresholdCount(rule)
  {
    assert Tested(rule, 1) == Present(rule.tempMinThreshold);
    assert Tested(rule, 2) == Tested(rule, 1) + Present(rule.tempMaxThreshold);
    assert Tested(rule, 3) == Tested(rule, 2) + Present(rule.precipMin7d);
    assert Tested(rule, 4) == Tested(rule, 3) + Present(rule.precipMax7d);
    assert Tested(rule, 5) == Tested(rule, 4) + Present(rule.gtkMin);
    assert Tested(rule, 6) == Tested(rule, 5) + Present(rule.gtkMax);
    assert Tested(rule, 7) == Tested(rule, 6) + Present(rule.heatStressDaysMin);
    assert Tested(rule, 8) == Tested(rule, 7) + Present(rule.dryPeriodDaysMin);
  }

  /** `countTotalConditions`: the thresholds set, but at least 1. */
  function ConditionCount(rule: RiskRule): (n: int)
    ensures 1 <= n <= 9
    ensures n >= ThresholdCount(rule)
  {
    if ThresholdCount(rule) > 1 then ThresholdCount(rule) else 1
  }

  /** `countTotalConditions` as written: a counter bumped once per threshold present. */
  method CountTotalConditions(rule: RiskRule) returns (count: int)
    ensures count == ConditionCount(rule)
  {
    count := 0;
    if rule.tempMinThreshold.Some? { count := count + 1; }
    if rule.tempMaxThreshold.Some? { count := count + 1; }
    assert count == Present(rule.tempMinThreshold) + Present(rule.tempMaxThreshold);
    if rule.precipMin7d.Some? { count := count + 1; }
    if rule.precipMax7d.Some? { count := count + 1; }
    assert count == Present(rule.tempMinThreshold) + Present(rule.tempMaxThreshold)
      + Present(rule.precipMin7d) + Present(rule.precipMax7d);
    if rule.humidityMinThreshold.Some? { count := count + 1; }
    if rule.gtkMin.Some? { count := count + 1; }
    if rule.gtkMax.Some? { count := count + 1; }
    assert count == Present(rule.tempMinThreshold) + Present(rule.tempMaxThreshold)
      + Present(rule.precipMin7d) + Present(rule.precipMax7d)
      + Present(rule.humidityMinThreshold) + Present(rule.gtkMin) + Present(rule.gtkMax);
    if rule.heatStressDaysMin.Some? { count := count + 1; }
    if rule.dryPeriodDaysMin.Some? { count := count + 1; }
    assert count == ThresholdCount(rule);
    if count < 1 { count := 1; }
  }

  /**
   * Triggered conditions never outnumber the total; a humidity threshold is
   * counted but never tested, so a rule with one never matches completely.
   */
  lemma TriggeredWithinTotal(rule: RiskRule, w: WeatherForecastData)
    ensures |Triggered(rule, w)| + Present(rule.humidityMinThreshold) <= ThresholdCount(rule)
    ensures |Triggered(rule, w)| <= ConditionCount(rule)
    ensures rule.humidityMinThreshold.Some? ==> |Triggered(rule, w)| < ConditionCount(rule)
  {
    TestsExactly(rule, w, |AllKinds|);
    TestedAll(rule);
  }

  // ---- Season ---------------------------------------------------------------

  /**
   * The comma-separated months, read left to right until one equals `month`;
   * a part that is not an integer fails like `Integer.parseInt`.
   */
  function SeasonMatch(months: seq<string>, month: int): Result<bool, RiskError>
    decreases |months|
  {
    if months == [] then Ok(false)
    else match ParseJavaInt(Trim(months[0]))
      case None => Err(SeasonUnreadable(months[0]))
      case Some(m) => if m == month then Ok(true) else SeasonMatch(months[1..], month)
  }

  /** A rule with no (or an empty) season applies all year. */
  function InSeason(rule: RiskRule, month: int): Result<bool, RiskError>
  {
    if rule.activeSeason.None? || rule.activeSeason.value == [] then Ok(true)
    else SeasonMatch(JavaSplit(rule.activeSeason.value, ','), month)
  }

  /** Season parts that are all readable: the rule is in season iff one of them names the month. */
  lemma {:induction false} SeasonMatchMeans(months: seq<string>, month: int)
    requires forall i :: 0 <= i < |months| ==> ParseJavaInt(Trim(months[i])).Some?
    ensures SeasonMatch(months, month).Ok?
    ensures SeasonMatch(months, month).value <==> exists i :: 0 <= i < |months| && ParseJavaInt(Trim(months[i])).value == month
    decreases |months|
  {
    if months != [] {
      var rest := months[1..];
      assert forall i :: 0 <= i < |rest| ==> rest[i] == months[i + 1];
      SeasonMatchMeans(rest, month);
      if ParseJavaInt(Trim(months[0])).value != month {
        if exists i :: 0 <= i < |months| && ParseJavaInt(Trim(months[i])).value == month {
          var i :| 0 <= i < |months| && ParseJavaInt(Trim(months[i])).value == month;
          assert rest[i - 1] == months[i];
        }
        if SeasonMatch(rest, month).value {
          var i :| 0 <= i < |rest| && ParseJavaInt(Trim(rest[i])).value == month;
          assert months[i + 1] == rest[i];
        }
      }
    }
  }

  /** `evaluateRule`'s result: out of season nothing triggers, else the tests that fire. */
  function RuleOutcome(rule: RiskRule, w: WeatherForecastData, month: int): Result<seq<Condition>, RiskError>
  {
    match InSeason(rule, month)
    case Err(e) => Err(e)
    case Ok(inSeason) => Ok(if inSeason then Triggered(rule, w) else [])
  }

  /** One step of the season scan: the part at `i` decides, or the scan moves on. */
  lemma SeasonMatchStep(months: seq<string>, month: int, i: nat)
    requires i < |months|
    ensures SeasonMatch(months[i..], month) ==
      match ParseJavaInt(Trim(months[i]))
      case None => Err(SeasonUnreadable(months[i]))
      case Some(m) => if m == month then Ok(true) else SeasonMatch(months[i + 1..], month)
  {
    assert months[i..][0] == months[i];
    assert months[i..][1..] == months[i + 1..];
  }

  /** The season check of `evaluateRule`: scan the parts, stop at the first equal to the month. */
  method SeasonCheck(season: string, month: int) returns (r: Result<bool, RiskError>)
    ensures r == SeasonMatch(JavaSplit(season, ','), month)
  {
    var months := JavaSplit(season, ',');
    var inSeason := false;
    var i := 0;
    while i < |months|
      invariant 0 <= i <= |months|
      invariant SeasonMatch(months[i..], month) == SeasonMatch(months, month)
    {
      SeasonMatchStep(months, month, i);
      var m := ParseJavaInt(Trim(months[i]));
      if m.None? {
        return Err(SeasonUnreadable(months[i]));
      }
      if m.value == month {
        inSeason := true;
        break;
      }
      i := i + 1;
    }
    if !inSeason {
      assert months[i..] == [];
    }
    return Ok(inSeason);
  }

  /** The eight tests one after another, each appending what it reports. */
  lemma TestsInOrder(rule: RiskRule, w: WeatherForecastData)
    ensures Tests(rule, w, 1) == Check(TempAtLeast, rule.tempMinThreshold, w.avgTemp)
    ensures Tests(rule, w, 2) == Tests(rule, w, 1) + Check(TempAtMost, rule.tempMaxThreshold, w.avgTemp)
    ensures Tests(rule, w, 3) == Tests(rule, w, 2) + Check(PrecipAtLeast, rule.precipMin7d, w.sumPrecipitation)
    ensures Tests(rule, w, 4) == Tests(rule, w, 3) + Check(PrecipAtMost, rule.precipMax7d, w.sumPrecipitation)
    ensures Tests(rule, w, 5) == Tests(rule, w, 4) + Check(GtkAtLeast, rule.gtkMin, w.gtk)
    ensures Tests(rule, w, 6) == Tests(rule, w, 5) + Check(GtkAtMost, rule.gtkMax, w.gtk)
    ensures Tests(rule, w, 7) == Tests(rule, w, 6) + Check(HeatDaysAtLeast, AsReal(rule.heatStressDaysMin), AsReal(w.heatStressDays))
    ensures Tests(rule, w, 8) == Tests(rule, w, 7) + Check(DryPeriodAtLeast, AsReal(rule.dryPeriodDaysMin), AsReal(w.longestDryPeriod))
  {
    KindRanks();
  }

  /**
   * One of `evaluateRule`'s tests: when the threshold and the weather value
   * are both present and the comparison holds, the condition is appended.
   */
  method TestAndAppend(triggered: seq<Condition>, kind: ConditionKind, threshold: Option<real>, value: Option<real>)
    returns (t: seq<Condition>)
    ensures t == triggered + Check(kind, threshold, value)
    ensures |triggered| <= |t| <= |triggered| + 1
  {
    t := triggered;
    if threshold.Some? && value.Some? {
      if (IsMinimum(kind) && value.value >= threshold.value) || (!IsMinimum(kind) && value.value <= threshold.value) {
        t := t + [Condition(kind, value.value, threshold.value)];
      }
    }
  }

  /** `evaluateRule`: the season check, then the eight tests in order. */
  method EvaluateRule(rule: RiskRule, w: WeatherForecastData, month: int) returns (r: Result<seq<Condition>, RiskError>)
    ensures r == RuleOutcome(rule, w, month)
  {
    if rule.activeSeason.Some? && rule.activeSeason.value != [] {
      var inSeason := SeasonCheck(rule.activeSeason.value, month);
      if inSeason.Err? {
        return Err(inSeason.error);
      }
      if !inSeason.value {
        return Ok([]);
      }
    }
    TestsInOrder(rule, w);
    var triggered: seq<Condition> := [];
    triggered := TestAndAppend(triggered, TempAtLeast, rule.tempMinThreshold, w.avgTemp);
    triggered := TestAndAppend(triggered, TempAtMost, rule.tempMaxThreshold, w.avgTemp);
    triggered := TestAndAppend(triggered, PrecipAtLeast, rule.precipMin7d, w.sumPrecipitation);
    triggered := TestAndAppend(triggered, PrecipAtMost, rule.precipMax7d, w.sumPrecipitation);
    triggered := TestAndAppend(triggered, GtkAtLeast, rule.gtkMin, w.gtk);
    triggered := TestAndAppend(triggered, GtkAtMost, rule.gtkMax, w.gtk);
    triggered := TestAndAppend(triggered, HeatDaysAtLeast, AsReal(rule.heatStressDaysMin), AsReal(w.heatStressDays));
    triggered := TestAndAppend(triggered, DryPeriodAtLeast, AsReal(rule.dryPeriodDaysMin), AsReal(w.longestDryPeriod));
    return Ok(triggered);
  }

  // ---- Disease items --------------------------------------------------------

  /**
   * `adjustRiskByMatchRatio`: from 0.8 the rule's level stands, from 0.5 it
   * drops one step (MEDIUM and LOW to LOW), below that CRITICAL drops to
   * MEDIUM and every other level to LOW.
   */
  function AdjustRiskByMatchRatio(base: RiskLevel, ratio: real): RiskLevel
  {
    if ratio >= 0.8 then base
    else if ratio >= 0.5 then (match base case Critical => High case High => Medium case _ => Low)
    else (match base case Critical => Medium case _ => Low)
  }

  /** The adjustment never raises a level, and a larger ratio never gives a lower one. */
  lemma AdjustMonotone(base: RiskLevel, r1: real, r2: real)
    requires r1 <= r2
    ensures Severity(AdjustRiskByMatchRatio(base, r1)) <= Severity(AdjustRiskByMatchRatio(base, r2))
    ensures Severity(AdjustRiskByMatchRatio(base, r2)) <= Severity(base)
  {
  }

  /** Within [0.5, 0.8) the level drops exactly one step, bottoming out at LOW. */
  lemma AdjustOneStep(base: RiskLevel, ratio: real)
    requires 0.5 <= ratio < 0.8
    ensures Severity(AdjustRiskByMatchRatio(base, ratio)) == if Severity(base) == 0 then 0 else Severity(base) - 1
  {
  }

  datatype DiseaseRiskItem = DiseaseRiskItem(
    ruleId: Option<int>,
    diseaseName: string,
    diseaseType: string,
    riskLevel: RiskLevel,
    riskScore: real,
    ruleDescription: Option<string>,
    triggeredConditions: seq<Condition>,
    preventionAdvice: Option<string>,
    treatmentAdvice: Option<string>,
    urgencyDays: Option<int>)

  /** The share of a rule's conditions that triggered. */
  function Share(matched: nat, total: int): real
    requires total >= 1
  {
    matched as real / total as real
  }

  function MatchRatio(rule: RiskRule, triggered: seq<Condition>): real
  {
    Share(|triggered|, ConditionCount(rule))
  }

  /** The rule's weight scaled by the share of its conditions that triggered, before rounding. */
  function WeightedRatio(rule: RiskRule, triggered: seq<Condition>): real
  {
    rule.riskWeight * MatchRatio(rule, triggered)
  }

  /** The item a rule with triggered conditions contributes. */
  function ItemOf(rule: RiskRule, triggered: seq<Condition>): DiseaseRiskItem
  {
    DiseaseRiskItem(
      rule.id, rule.diseaseName,
      if rule.diseaseType.Some? then rule.diseaseType.value else "UNKNOWN",
      AdjustRiskByMatchRatio(rule.riskLevel, MatchRatio(rule, triggered)),
      Round2(WeightedRatio(rule, triggered)),
      rule.ruleDescription, triggered,
      rule.preventionAdvice, rule.treatmentAdvice, rule.urgencyDays)
  }

  /**
   * An item's score is the rule's weight scaled by the share of conditions
   * met (to within rounding), its level is at most the rule's, and it is the
   * rule's own level when all conditions are met.
   */
  lemma ItemOfRule(rule: RiskRule, w: WeatherForecastData)
    requires Triggered(rule, w) != []
    ensures var item := ItemOf(rule, Triggered(rule, w));
      var ratio := MatchRatio(rule, Triggered(rule, w));
      && 0.0 < ratio <= 1.0
      && WeightedRatio(rule, Triggered(rule, w)) - 0.005 < item.riskScore <= WeightedRatio(rule, Triggered(rule, w)) + 0.005
      && Severity(item.riskLevel) <= Severity(rule.riskLevel)
      && (|Triggered(rule, w)| == ConditionCount(rule) ==> item.riskLevel == rule.riskLevel)
  {
    TriggeredWithinTotal(rule, w);
    ItemOfShare(rule, Triggered(rule, w));
  }

  /** `ItemOfRule` for any non-empty list of triggered conditions no longer than the rule's count. */
  lemma ItemOfShare(rule: RiskRule, t: seq<Condition>)
    requires 1 <= |t| <= ConditionCount(rule)
    ensures var item := ItemOf(rule, t);
      var ratio := MatchRatio(rule, t);
      && 0.0 < ratio <= 1.0
      && WeightedRatio(rule, t) - 0.005 < item.riskScore <= WeightedRatio(rule, t) + 0.005
      && Severity(item.riskLevel) <= Severity(rule.riskLevel)
      && (|t| == ConditionCount(rule) ==> item.riskLevel == rule.riskLevel)
  {
    RatioInUnit(|t|, ConditionCount(rule));
    var ratio := MatchRatio(rule, t);
    AdjustMonotone(rule.riskLevel, ratio, 1.0);
  }

  lemma RatioInUnit(a: nat, b: int)
    requires 1 <= a <= b
    ensures 0.0 < a as real / b as real <= 1.0
    ensures a == b ==> a as real / b as real == 1.0
  {
    assert (a as real / b as real) * (b as real) == a as real;
  }

  /** The items of the rules in order, before sorting; the first unreadable season fails it all. */
  function UnsortedItems(rules: seq<RiskRule>, w: WeatherForecastData, month: int): Result<seq<DiseaseRiskItem>, RiskError>
    decreases |rules|
  {
    if rules == [] then Ok([])
    else
      var last := rules[|rules| - 1];
      match UnsortedItems(rules[..|rules| - 1], w, month)
      case Err(e) => Err(e)
      case Ok(items) =>
        match RuleOutcome(last, w, month)
        case Err(e) => Err(e)
        case Ok(t) => Ok(if t == [] then items else items + [ItemOf(last, t)])
  }

  /** Once the items of a prefix fail, every longer prefix fails the same way. */
  lemma {:induction false} UnsortedItemsErrSticks(rules: seq<RiskRule>, w: WeatherForecastData, month: int, i: nat)
    requires i <= |rules| && UnsortedItems(rules[..i], w, month).Err?
    ensures UnsortedItems(rules, w, month) == UnsortedItems(rules[..i], w, month)
    decreases |rules| - i
  {
    if i < |rules| {
      assert rules[..i + 1][..i] == rules[..i];
      UnsortedItemsErrSticks(rules, w, month, i + 1);
    } else {
      assert rules[..i] == rules;
    }
  }

  /** One rule yields an item iff it is in season and some condition fires. */
  lemma OneRule(rule: RiskRule, w: WeatherForecastData, month: int)
    ensures UnsortedItems([rule], w, month) ==
      match RuleOutcome(rule, w, month)
      case Err(e) => Err(e)
      case Ok(t) => Ok(if t == [] then [] else [ItemOf(rule, t)])
  {
    var rules := [rule];
    assert rules[..0] == [];
    assert UnsortedItems(rules[..0], w, month) == Ok([]);
    match RuleOutcome(rule, w, month)
    case Err(e) =>
    case Ok(t) =>
      UnsortedItemsStep(rules, w, month, 0, [], t);
      assert rules[..1] == rules;
      assert [] + [ItemOf(rule, t)] == [ItemOf(rule, t)];
  }

  /** One more rule: its item, if any, goes after the items of the rules before it. */
  lemma UnsortedItemsStep(rules: seq<RiskRule>, w: WeatherForecastData, month: int, i: nat,
                          items: seq<DiseaseRiskItem>, t: seq<Condition>)
    requires i < |rules| && UnsortedItems(rules[..i], w, month) == Ok(items) && RuleOutcome(rules[i], w, month) == Ok(t)
    ensures UnsortedItems(rules[..i + 1], w, month) == Ok(if t == [] then items else items + [ItemOf(rules[i], t)])
  {
    assert rules[..i + 1][..i] == rules[..i];
  }

  /** Every unsorted item carries at least one triggered condition and at most as many as the rules. */
  lemma {:induction false} UnsortedItemsShape(rules: seq<RiskRule>, w: WeatherForecastData, month: int)
    requires UnsortedItems(rules, w, month).Ok?
    ensures |UnsortedItems(rules, w, month).value| <= |rules|
    ensures forall it :: it in UnsortedItems(rules, w, month).value ==> it.triggeredConditions != []
    decreases |rules|
  {
    if rules != [] {
      UnsortedItemsShape(rules[..|rules| - 1], w, month);
    }
  }

  const ItemScore := (it: DiseaseRiskItem) => it.riskScore
  const ScoreAtLeast := (a: real, b: real) => a >= b

  lemma ScoreOrderTotal()
    ensures TotalOrder(ScoreAtLeast)
  {
  }

  /** `assessDiseaseRisks`: the items sorted by score, highest first, stably. */
  function DiseaseRisks(rules: seq<RiskRule>, w: WeatherForecastData, month: int): Result<seq<DiseaseRiskItem>, RiskError>
  {
    match UnsortedItems(rules, w, month)
    case Err(e) => Err(e)
    case Ok(items) => Ok(SortBy(items, ItemScore, ScoreAtLeast))
  }

  /**
   * The disease list is the rules' items reordered: scores never increase
   * along it, and items with equal scores keep the order of their rules.
   */
  lemma DiseaseRisksOrdered(rules: seq<RiskRule>, w: WeatherForecastData, month: int, score: real)
    requires DiseaseRisks(rules, w, month).Ok?
    ensures var r := DiseaseRisks(rules, w, month).value;
      var items := UnsortedItems(rules, w, month).value;
      && multiset(r) == multiset(items)
      && (forall i, j :: 0 <= i < j < |r| ==> r[i].riskScore >= r[j].riskScore)
      && WithKey(r, ItemScore, score) == WithKey(items, ItemScore, score)
  {
    var items := UnsortedItems(rules, w, month).value;
    ScoreOrderTotal();
    SortPermutes(items, ItemScore, ScoreAtLeast);
    SortSorted(items, ItemScore, ScoreAtLeast);
    SortStable(items, ItemScore, ScoreAtLeast, score);
  }

  /** The item built for a rule whose conditions triggered: ratio, adjusted level, rounded score. */
  method RiskItem(rule: RiskRule, triggered: seq<Condition>) returns (item: DiseaseRiskItem)
    ensures item == ItemOf(rule, triggered)
  {
    var total := CountTotalConditions(rule);
    var ratio := Share(|triggered|, total);
    var score := rule.riskWeight * ratio;
    var level := AdjustRiskByMatchRatio(rule.riskLevel, ratio);
    item := DiseaseRiskItem(
      rule.id, rule.diseaseName,
      if rule.diseaseType.Some? then rule.diseaseType.value else "UNKNOWN",
      level, Round2(score),
      rule.ruleDescription, triggered,
      rule.preventionAdvice, rule.treatmentAdvice, rule.urgencyDays);
    assert score == WeightedRatio(rule, triggered);
  }

  /** `assessDiseaseRisks` as written: one pass over the rules appending items, then the sort. */
  method AssessDiseaseRisks(rules: seq<RiskRule>, w: WeatherForecastData, month: int) returns (r: Result<seq<DiseaseRiskItem>, RiskError>)
    ensures r == DiseaseRisks(rules, w, month)
  {
    var risks: seq<DiseaseRiskItem> := [];
    var i := 0;
    while i < |rules|
      invariant 0 <= i <= |rules|
      invariant UnsortedItems(rules[..i], w, month) == Ok(risks)
    {
      var rule := rules[i];
      var triggered := EvaluateRule(rule, w, month);
      if triggered.Err? {
        assert rules[..i + 1][..i] == rules[..i];
        UnsortedItemsErrSticks(rules, w, month, i + 1);
        return Err(triggered.error);
      }
      UnsortedItemsStep(rules, w, month, i, risks, triggered.value);
      if triggered.value != [] {
        var item := RiskItem(rule, triggered.value);
        risks := risks + [item];
      }
      i := i + 1;
    }
    assert rules[..i] == rules;
    return Ok(SortBy(risks, ItemScore, ScoreAtLeast));
  }

  // ---- Combination ----------------------------------------------------------

  /** The highest item score (`max().orElse(0.0)`). */
  function MaxItemScore(items: seq<DiseaseRiskItem>): real
    decreases |items|
  {
    if items == [] then 0.0
    else if |items| == 1 then items[0].riskScore
    else Max(MaxItemScore(items[..|items| - 1]), items[|items| - 1].riskScore)
  }

  /** A non-empty list's best score bounds every item's score and is one of them. */
  lemma {:induction false} MaxItemScoreIsMaximum(items: seq<DiseaseRiskItem>)
    requires items != []
    ensures forall i :: 0 <= i < |items| ==> items[i].riskScore <= MaxItemScore(items)
    ensures exists i :: 0 <= i < |items| && items[i].riskScore == MaxItemScore(items)
    decreases |items|
  {
    if |items| == 1 {
      assert items[0].riskScore == MaxItemScore(items);
    } else {
      var init := items[..|items| - 1];
      assert forall i :: 0 <= i < |init| ==> init[i] == items[i];
      MaxItemScoreIsMaximum(init);
      var j :| 0 <= j < |init| && init[j].riskScore == MaxItemScore(init);
      if MaxItemScore(items) == MaxItemScore(init) {
        assert items[j].riskScore == MaxItemScore(items);
      } else {
        assert items[|items| - 1].riskScore == MaxItemScore(items);
      }
    }
  }

  /** On the sorted list the best score is the first item's. */
  lemma SortedBestFirst(items: seq<DiseaseRiskItem>)
    requires items != []
    requires forall i, j :: 0 <= i < j < |items| ==> items[i].riskScore >= items[j].riskScore
    ensures MaxItemScore(items) == items[0].riskScore
  {
    MaxItemScoreIsMaximum(items);
    var j :| 0 <= j < |items| && items[j].riskScore == MaxItemScore(items);
    if j > 0 {
      assert items[0].riskScore >= items[j].riskScore;
    }
  }

  /** `max(max(drought, max(frost, heat)), disease)`. */
  function OverallScore(drought: real, frost: real, heat: real, disease: real): real
  {
    Max(Max(drought, Max(frost, heat)), disease)
  }

  /** The overall score is at least each of the four and equal to one of them. */
  lemma OverallIsMaximum(drought: real, frost: real, heat: real, disease: real)
    ensures var o := OverallScore(drought, frost, heat, disease);
      && drought <= o && frost <= o && heat <= o && disease <= o
      && (o == drought || o == frost || o == heat || o == disease)
  {
  }

  // ---- Recommendations ------------------------------------------------------

  /** The season notes of `getSeasonWarning`. */
  datatype Season = Spring | EarlyGrowth | HighSummer | Autumn | Winter

  function SeasonText(s: Season): string
  {
    match s
    case Spring => "🌱 Весна: повышенный риск заморозков и возвратных холодов"
    case EarlyGrowth => "☀️ Начало вегетации: следите за вредителями и болезнями"
    case HighSummer => "🌡️ Разгар лета: возможны засуха и тепловой стресс"
    case Autumn => "🍂 Осень: риск грибковых заболеваний при высокой влажности"
    case Winter => "❄️ Зима: риск вымерзания озимых при сильных морозах"
  }

  /** `getSeasonWarning`: a note for each calendar month, none otherwise. */
  function SeasonWarning(month: int): (r: Option<Season>)
    ensures r.Some? <==> 1 <= month <= 12
    ensures r == Some(Spring) <==> month == 3 || month == 4
    ensures r == Some(Winter) <==> month == 11 || month == 12 || month == 1 || month == 2
  {
    if month == 3 || month == 4 then Some(Spring)
    else if month == 5 || month == 6 then Some(EarlyGrowth)
    else if month == 7 || month == 8 then Some(HighSummer)
    else if month == 9 || month == 10 then Some(Autumn)
    else if month == 11 || month == 12 || month == 1 || month == 2 then Some(Winter)
    else None
  }

  datatype Recommendation =
    | DroughtHigh
    | GtkCriticallyLow
    | DroughtModerate
    | FrostHigh
    | FrostPossible
    | HeatExtreme
    | HeatElevated
    | DiseaseAlert(diseaseName: string, advice: string)
    | ActWithin(days: int)
    | AllClear
    | WeatherUnavailable
    | SeasonNote(season: Season)
    | RetryLater

  /** The text of each recommendation line. */
  function RecommendationText(r: Recommendation): string
  {
    match r
    case DroughtHigh => "🔴 Высокий риск засухи — рассмотрите орошение или мульчирование"
    case GtkCriticallyLow => "⚠️ ГТК критически низкий — культуры под угрозой без дополнительного полива"
    case DroughtModerate => "🟡 Умеренный риск засухи — следите за влажностью почвы"
    case FrostHigh => "🔴 Высокий риск заморозков — укройте посевы или отложите посев"
    case FrostPossible => "🟡 Возможны заморозки — подготовьте укрывные материалы"
    case HeatExtreme => "🔴 Экстремальная жара — обеспечьте дополнительный полив, притенение"
    case HeatElevated => "🟡 Повышенный тепловой стресс — следите за состоянием растений"
    case DiseaseAlert(name, advice) => "🔴 Высокий риск болезни '" + name + "' — " + advice
    case ActWithin(days) =>
      "⏰ Необходимо принять меры в течение " + (if days < 0 then "-" + DecimalText(-days) else DecimalText(days)) + " дней"
    case AllClear => "✅ Агрономические условия в пределах нормы. Значительных рисков не обнаружено."
    case WeatherUnavailable => "⚠️ Погодные данные временно недоступны. Оценка рисков приблизительная."
    case SeasonNote(season) => SeasonText(season)
    case RetryLater => "Рекомендуется повторить оценку позже, когда данные погоды станут доступны."
  }

  predicate Serious(l: RiskLevel)
  {
    l == Critical || l == High
  }

  function DroughtLines(drought: RiskLevel, w: WeatherForecastData): seq<Recommendation>
  {
    if Serious(drought) then [DroughtHigh] + (if w.gtk.Some? && w.gtk.value < 0.4 then [GtkCriticallyLow] else [])
    else if drought == Medium then [DroughtModerate]
    else []
  }

  function FrostLines(frost: RiskLevel): seq<Recommendation>
  {
    if Serious(frost) then [FrostHigh] else if frost == Medium then [FrostPossible] else []
  }

  function HeatLines(heat: RiskLevel): seq<Recommendation>
  {
    if Serious(heat) then [HeatExtreme] else if heat == Medium then [HeatElevated] else []
  }

  /** The lines for drought, frost and heat, in that order. */
  function AbioticRecommendations(drought: RiskLevel, frost: RiskLevel, heat: RiskLevel, w: WeatherForecastData): seq<Recommendation>
  {
    DroughtLines(drought, w) + FrostLines(frost) + HeatLines(heat)
  }

  /** The lines of one disease item at HIGH or CRITICAL. */
  function AlertFor(item: DiseaseRiskItem): seq<Recommendation>
  {
    [DiseaseAlert(item.diseaseName, if item.preventionAdvice.Some? then item.preventionAdvice.value else "примените профилактические меры")]
    + (if item.urgencyDays.Some? then [ActWithin(item.urgencyDays.value)] else [])
  }

  function AlertsOf(item: DiseaseRiskItem): seq<Recommendation>
  {
    if Serious(item.riskLevel) then AlertFor(item) else []
  }

  function DiseaseAlerts(items: seq<DiseaseRiskItem>): seq<Recommendation>
    decreases |items|
  {
    if items == [] then []
    else DiseaseAlerts(items[..|items| - 1]) + AlertsOf(items[|items| - 1])
  }

  /** `generateRecommendations`: the abiotic lines, the disease alerts, or the all-clear line. */
  function RecommendationsOf(drought: RiskLevel, frost: RiskLevel, heat: RiskLevel, items: seq<DiseaseRiskItem>, w: WeatherForecastData): seq<Recommendation>
  {
    var recs := AbioticRecommendations(drought, frost, heat, w) + DiseaseAlerts(items);
    if recs == [] then [AllClear] else recs
  }

  lemma AppendAssoc<T>(a: seq<T>, b: seq<T>, c: seq<T>)
    ensures a + b + c == a + (b + c)
  {
  }

  lemma DiseaseAlertsStep(items: seq<DiseaseRiskItem>, i: nat)
    requires i < |items|
    ensures DiseaseAlerts(items[..i + 1]) == DiseaseAlerts(items[..i]) + AlertsOf(items[i])
  {
    assert items[..i + 1][..i] == items[..i];
  }

  /** Every HIGH or CRITICAL item contributes an alert naming it. */
  lemma {:induction false} SeriousItemsAlerted(items: seq<DiseaseRiskItem>)
    ensures forall i :: 0 <= i < |items| && Serious(items[i].riskLevel) ==> AlertFor(items[i])[0] in DiseaseAlerts(items)
    decreases |items|
  {
    if items != [] {
      var n := |items| - 1;
      var init := items[..n];
      SeriousItemsAlerted(init);
      assert DiseaseAlerts(items) == DiseaseAlerts(init) + AlertsOf(items[n]);
      forall i | 0 <= i < |items| && Serious(items[i].riskLevel)
        ensures AlertFor(items[i])[0] in DiseaseAlerts(items)
      {
        if i < n {
          assert items[i] == init[i];
        }
      }
    }
  }

  /** Every alert names an item that is HIGH or CRITICAL. */
  lemma {:induction false} AlertsNameSeriousItems(items: seq<DiseaseRiskItem>)
    ensures forall r :: r in DiseaseAlerts(items) && r.DiseaseAlert? ==>
      exists i :: 0 <= i < |items| && Serious(items[i].riskLevel) && AlertFor(items[i])[0] == r
    decreases |items|
  {
    if items != [] {
      var n := |items| - 1;
      var init := items[..n];
      AlertsNameSeriousItems(init);
      var tail := AlertsOf(items[n]);
      assert DiseaseAlerts(items) == DiseaseAlerts(init) + tail;
      forall r | r in DiseaseAlerts(items) && r.DiseaseAlert?
        ensures exists i :: 0 <= i < |items| && Serious(items[i].riskLevel) && AlertFor(items[i])[0] == r
      {
        if r in DiseaseAlerts(init) {
          var i :| 0 <= i < n && Serious(init[i].riskLevel) && AlertFor(init[i])[0] == r;
          assert items[i] == init[i];
          assert 0 <= i < |items| && Serious(items[i].riskLevel) && AlertFor(items[i])[0] == r;
        } else {
          assert r in tail;
          assert Serious(items[n].riskLevel);
          assert AlertFor(items[n])[0] == r;
          assert 0 <= n < |items| && Serious(items[n].riskLevel) && AlertFor(items[n])[0] == r;
        }
      }
    }
  }

  /** The disease part holds only alerts and their deadlines. */
  lemma {:induction false} AlertsAreDiseaseLines(items: seq<DiseaseRiskItem>)
    ensures forall r :: r in DiseaseAlerts(items) ==> r.DiseaseAlert? || r.ActWithin?
    decreases |items|
  {
    if items != [] {
      var n := |items| - 1;
      AlertsAreDiseaseLines(items[..n]);
      assert DiseaseAlerts(items) == DiseaseAlerts(items[..n]) + AlertsOf(items[n]);
    }
  }

  /** The alerts are empty iff no item is HIGH or CRITICAL. */
  lemma {:induction false} DiseaseAlertsEmpty(items: seq<DiseaseRiskItem>)
    ensures DiseaseAlerts(items) == [] <==> forall i :: 0 <= i < |items| ==> !Serious(items[i].riskLevel)
    decreases |items|
  {
    if items != [] {
      var n := |items| - 1;
      DiseaseAlertsEmpty(items[..n]);
      assert forall i :: 0 <= i < n ==> items[i] == items[..n][i];
    }
  }

  /** The abiotic lines: none iff all three risks are LOW; the GTK line only with serious drought and GTK below 0.4. */
  lemma AbioticMeaning(drought: RiskLevel, frost: RiskLevel, heat: RiskLevel, w: WeatherForecastData)
    ensures var a := AbioticRecommendations(drought, frost, heat, w);
      && (a == [] <==> drought == Low && frost == Low && heat == Low)
      && (GtkCriticallyLow in a <==> Serious(drought) && w.gtk.Some? && w.gtk.value < 0.4)
      && (forall r :: r in a ==> !r.DiseaseAlert? && !r.ActWithin? && r != AllClear)
  {
    var d := DroughtLines(drought, w);
    var f := FrostLines(frost);
    var h := HeatLines(heat);
    assert GtkCriticallyLow in d <==> Serious(drought) && w.gtk.Some? && w.gtk.value < 0.4;
    assert GtkCriticallyLow !in f && GtkCriticallyLow !in h;
  }

  /**
   * Recommendations are never empty; the all-clear line appears, alone, iff
   * drought, frost and heat are all LOW and no disease is HIGH or CRITICAL;
   * the GTK warning appears iff drought is HIGH or CRITICAL with GTK below 0.4;
   * every HIGH or CRITICAL disease gets its alert.
   */
  lemma RecommendationsMeaning(drought: RiskLevel, frost: RiskLevel, heat: RiskLevel, items: seq<DiseaseRiskItem>, w: WeatherForecastData)
    ensures var recs := RecommendationsOf(drought, frost, heat, items, w);
      && |recs| >= 1
      && (recs == [AllClear] <==>
          drought == Low && frost == Low && heat == Low && forall i :: 0 <= i < |items| ==> !Serious(items[i].riskLevel))
      && (AllClear in recs ==> recs == [AllClear])
      && (GtkCriticallyLow in recs <==> Serious(drought) && w.gtk.Some? && w.gtk.value < 0.4)
      && (forall i :: 0 <= i < |items| && Serious(items[i].riskLevel) ==> AlertFor(items[i])[0] in recs)
  {
    var a := AbioticRecommendations(drought, frost, heat, w);
    var d := DiseaseAlerts(items);
    AbioticMeaning(drought, frost, heat, w);
    SeriousItemsAlerted(items);
    AlertsAreDiseaseLines(items);
    DiseaseAlertsEmpty(items);
    assert GtkCriticallyLow !in d && AllClear !in d;
    assert AllClear !in a + d;
  }

  /** The first part of `generateRecommendations`: the drought, frost and heat lines. */
  method AbioticLines(drought: RiskLevel, frost: RiskLevel, heat: RiskLevel, w: WeatherForecastData)
    returns (recs: seq<Recommendation>)
    ensures recs == AbioticRecommendations(drought, frost, heat, w)
  {
    recs := [];
    if drought == Critical || drought == High {
      recs := recs + [DroughtHigh];
      if w.gtk.Some? && w.gtk.value < 0.4 {
        recs := recs + [GtkCriticallyLow];
      }
    } else if drought == Medium {
      recs := recs + [DroughtModerate];
    }
    assert recs == DroughtLines(drought, w);
    if frost == Critical || frost == High {
      recs := recs + [FrostHigh];
    } else if frost == Medium {
      recs := recs + [FrostPossible];
    }
    assert recs == DroughtLines(drought, w) + FrostLines(frost);
    if heat == Critical || heat == High {
      recs := recs + [HeatExtreme];
    } else if heat == Medium {
      recs := recs + [HeatElevated];
    }
  }

  /** `generateRecommendations` as written: the abiotic lines, then a loop over the items. */
  method GenerateRecommendations(drought: RiskLevel, frost: RiskLevel, heat: RiskLevel, items: seq<DiseaseRiskItem>, w: WeatherForecastData)
    returns (recs: seq<Recommendation>)
    ensures recs == RecommendationsOf(drought, frost, heat, items, w)
  {
    recs := AbioticLines(drought, frost, heat, w);
    recs := AppendDiseaseAlerts(recs, items);
    if recs == [] {
      recs := recs + [AllClear];
    }
  }

  /** The loop over the disease items: their alerts appended, in order, after `prefix`. */
  method AppendDiseaseAlerts(prefix: seq<Recommendation>, items: seq<DiseaseRiskItem>) returns (recs: seq<Recommendation>)
    ensures recs == prefix + DiseaseAlerts(items)
  {
    recs := prefix;
    var i := 0;
    assert DiseaseAlerts(items[..i]) == [] by {
      assert items[..i] == [];
    }
    assert recs == prefix + [];
    while i < |items|
      invariant 0 <= i <= |items|
      invariant recs == prefix + DiseaseAlerts(items[..i])
    {
      var disease := items[i];
      recs := AppendAlerts(recs, disease);
      DiseaseAlertsStep(items, i);
      AppendAssoc(prefix, DiseaseAlerts(items[..i]), AlertsOf(disease));
      i := i + 1;
    }
    assert items[..i] == items;
  }

  /** One turn of the loop over the disease items: the alert and its deadline for a serious item. */
  method AppendAlerts(recs: seq<Recommendation>, disease: DiseaseRiskItem) returns (out: seq<Recommendation>)
    ensures out == recs + AlertsOf(disease)
  {
    out := recs;
    if disease.riskLevel == Critical || disease.riskLevel == High {
      var advice := if disease.preventionAdvice.Some? then disease.preventionAdvice.value else "примените профилактические меры";
      out := out + [DiseaseAlert(disease.diseaseName, advice)];
      if disease.urgencyDays.Some? {
        out := out + [ActWithin(disease.urgencyDays.value)];
      }
    }
  }

  // ---- Responses ------------------------------------------------------------

  datatype DataSource = Forecast | Historical | Fallback

  /** The assessment; the descriptions and the timestamp are not modelled. */
  datatype RiskResponse = RiskResponse(
    fieldId: int,
    fieldName: string,
    cropName: string,
    overallRiskLevel: RiskLevel,
    overallRiskScore: real,
    avgTemp: Option<real>,
    sumPrecipitation: Option<real>,
    humidity: Option<real>,
    heatStressDays: Option<int>,
    longestDryPeriod: Option<int>,
    gtk: Option<real>,
    droughtRisk: RiskLevel,
    droughtScore: real,
    frostRisk: RiskLevel,
    frostScore: real,
    heatStressRisk: RiskLevel,
    heatStressScore: real,
    diseaseRisks: seq<DiseaseRiskItem>,
    recommendations: seq<Recommendation>,
    dataSource: DataSource)

  /** `buildRiskResponse`. */
  function RiskResponseOf(field: Field, cropName: string, rules: seq<RiskRule>, w: WeatherForecastData, month: int, source: DataSource)
    : Result<RiskResponse, RiskError>
  {
    match DiseaseRisks(rules, w, month)
    case Err(e) => Err(e)
    case Ok(items) =>
      var drought := AssessDroughtRisk(w);
      var frost := AssessFrostRisk(w);
      var heat := AssessHeatStressRisk(w);
      var overall := OverallScore(RiskLevelToScore(drought), RiskLevelToScore(frost), RiskLevelToScore(heat), MaxItemScore(items));
      Ok(RiskResponse(
        field.id, field.fieldName, cropName,
        ScoreToRiskLevel(overall), Round2(overall),
        w.avgTemp, w.sumPrecipitation, None, w.heatStressDays, w.longestDryPeriod, w.gtk,
        drought, RiskLevelToScore(drought),
        frost, RiskLevelToScore(frost),
        heat, RiskLevelToScore(heat),
        items,
        RecommendationsOf(drought, frost, heat, items, w),
        source))
  }

  /**
   * The overall level is at least each abiotic level and at least the level
   * of the best disease score; the disease list's first item holds that score.
   */
  lemma OverallDominates(field: Field, cropName: string, rules: seq<RiskRule>, w: WeatherForecastData, month: int, source: DataSource)
    requires RiskResponseOf(field, cropName, rules, w, month, source).Ok?
    ensures var r := RiskResponseOf(field, cropName, rules, w, month, source).value;
      && Severity(r.droughtRisk) <= Severity(r.overallRiskLevel)
      && Severity(r.frostRisk) <= Severity(r.overallRiskLevel)
      && Severity(r.heatStressRisk) <= Severity(r.overallRiskLevel)
      && (forall i :: 0 <= i < |r.diseaseRisks| ==>
            Severity(ScoreToRiskLevel(r.diseaseRisks[i].riskScore)) <= Severity(r.overallRiskLevel))
      && (r.diseaseRisks != [] ==> MaxItemScore(r.diseaseRisks) == r.diseaseRisks[0].riskScore)
      && r.dataSource == source && r.humidity.None?
  {
    var items := DiseaseRisks(rules, w, month).value;
    var drought := AssessDroughtRisk(w);
    var frost := AssessFrostRisk(w);
    var heat := AssessHeatStressRisk(w);
    var m := MaxItemScore(items);
    var overall := OverallScore(RiskLevelToScore(drought), RiskLevelToScore(frost), RiskLevelToScore(heat), m);
    OverallIsMaximum(RiskLevelToScore(drought), RiskLevelToScore(frost), RiskLevelToScore(heat), m);
    ScoreLevelRoundTrip(drought);
    ScoreLevelRoundTrip(frost);
    ScoreLevelRoundTrip(heat);
    ScoreToRiskLevelMonotone(RiskLevelToScore(drought), overall);
    ScoreToRiskLevelMonotone(RiskLevelToScore(frost), overall);
    ScoreToRiskLevelMonotone(RiskLevelToScore(heat), overall);
    if items != [] {
      MaxItemScoreIsMaximum(items);
      forall i | 0 <= i < |items|
        ensures Severity(ScoreToRiskLevel(items[i].riskScore)) <= Severity(ScoreToRiskLevel(overall))
      {
        ScoreToRiskLevelMonotone(items[i].riskScore, overall);
      }
      DiseaseRisksOrdered(rules, w, month, 0.0);
      SortedBestFirst(items);
    }
  }

  /** `buildRiskResponse` as written, on the imperative disease and recommendation passes. */
  method BuildRiskResponse(field: Field, cropName: string, rules: seq<RiskRule>, w: WeatherForecastData, month: int, source: DataSource)
    returns (r: Result<RiskResponse, RiskError>)
    ensures r == RiskResponseOf(field, cropName, rules, w, month, source)
  {
    var drought := AssessDroughtRisk(w);
    var frost := AssessFrostRisk(w);
    var heat := AssessHeatStressRisk(w);
    var diseases := AssessDiseaseRisks(rules, w, month);
    if diseases.Err? {
      return Err(diseases.error);
    }
    var best := MaxItemScore(diseases.value);
    var overall := Max(Max(RiskLevelToScore(drought), Max(RiskLevelToScore(frost), RiskLevelToScore(heat))), best);
    var recs := GenerateRecommendations(drought, frost, heat, diseases.value, w);
    return Ok(RiskResponse(
      field.id, field.fieldName, cropName,
      ScoreToRiskLevel(overall), Round2(overall),
      w.avgTemp, w.sumPrecipitation, None, w.heatStressDays, w.longestDryPeriod, w.gtk,
      drought, RiskLevelToScore(drought),
      frost, RiskLevelToScore(frost),
      heat, RiskLevelToScore(heat),
      diseases.value, recs, source));
  }

  /** `buildFallbackResponse`: MEDIUM at 0.5 everywhere, no weather, no diseases. */
  function FallbackResponse(field: Field, cropName: string, month: int): RiskResponse
  {
    var warning := SeasonWarning(month);
    RiskResponse(
      field.id, field.fieldName, cropName,
      Medium, 0.5,
      None, None, None, None, None, None,
      Medium, 0.5, Medium, 0.5, Medium, 0.5,
      [],
      [WeatherUnavailable] + (if warning.Some? then [SeasonNote(warning.value)] else []) + [RetryLater],
      Fallback)
  }

  /**
   * The fallback is self-consistent (its score maps to its level, and each
   * abiotic score is its level's score) and, in a calendar month, advises in
   * three lines: data unavailable, the season's note, retry later.
   */
  lemma FallbackShape(field: Field, cropName: string, month: int)
    requires 1 <= month <= 12
    ensures var r := FallbackResponse(field, cropName, month);
      && ScoreToRiskLevel(r.overallRiskScore) == r.overallRiskLevel
      && r.droughtScore == RiskLevelToScore(r.droughtRisk)
      && |r.recommendations| == 3
      && r.recommendations[0] == WeatherUnavailable && r.recommendations[2] == RetryLater
      && r.recommendations[1] == SeasonNote(SeasonWarning(month).value)
  {
  }

  // ---- The tier chain -------------------------------------------------------

  /** A request to the weather service. */
  datatype WeatherCall =
    | ForecastCall(latitude: real, longitude: real, days: int)
    | HistoricalCall(latitude: real, longitude: real, startDate: string, endDate: string)

  /** The requests made, in order, and the response or error. */
  datatype Assessment = Assessment(calls: seq<WeatherCall>, result: Result<RiskResponse, RiskError>)

  /** The same fortnight of last year: `now.minusYears(1)` and 14 days on. */
  function HistoricalCallFor(field: Field, today: Date): WeatherCall
    requires ValidDate(today)
  {
    var start := PlusMonths(today, -12);
    HistoricalCall(field.latitude, field.longitude, IsoText(start), IsoText(PlusDays(start, 14)))
  }

  /**
   * `assessFieldRisk`: an unknown field fails at once; otherwise the 14-day
   * forecast, then last year's fortnight, then the fallback.  An error while
   * building a response (an unreadable season) ends the chain.
   */
  function AssessFieldRisk(fieldId: int, fields: map<int, Field>, cropName: string, rules: seq<RiskRule>,
                           today: Date, fetch: WeatherCall -> Option<WeatherForecastData>): Assessment
    requires ValidDate(today)
  {
    if fieldId !in fields then Assessment([], Err(FieldNotFound(fieldId)))
    else
      var field := fields[fieldId];
      var forecastCall := ForecastCall(field.latitude, field.longitude, 14);
      match fetch(forecastCall)
      case Some(w) => Assessment([forecastCall], RiskResponseOf(field, cropName, rules, w, today.month, Forecast))
      case None =>
        var historicalCall := HistoricalCallFor(field, today);
        match fetch(historicalCall)
        case Some(w) => Assessment([forecastCall, historicalCall], RiskResponseOf(field, cropName, rules, w, today.month, Historical))
        case None => Assessment([forecastCall, historicalCall], Ok(FallbackResponse(field, cropName, today.month)))
  }

  /**
   * Tier selection: the response says FORECAST iff the forecast came back,
   * HISTORICAL iff only last year's data did, FALLBACK iff neither; the
   * historical request is made only when the forecast is missing, and covers
   * the day one year before today and the 14 days after it.
   */
  lemma TierSelection(fieldId: int, fields: map<int, Field>, cropName: string, rules: seq<RiskRule>,
                      today: Date, fetch: WeatherCall -> Option<WeatherForecastData>)
    requires ValidDate(today) && fieldId in fields
    ensures var a := AssessFieldRisk(fieldId, fields, cropName, rules, today, fetch);
      var field := fields[fieldId];
      var fc := ForecastCall(field.latitude, field.longitude, 14);
      var hc := HistoricalCallFor(field, today);
      && a.calls[0] == fc
      && (|a.calls| == 2 <==> fetch(fc).None?)
      && (|a.calls| == 2 ==> a.calls[1] == hc)
      && (a.result.Ok? ==>
            && (a.result.value.dataSource == Forecast <==> fetch(fc).Some?)
            && (a.result.value.dataSource == Historical <==> fetch(fc).None? && fetch(hc).Some?)
            && (a.result.value.dataSource == Fallback <==> fetch(fc).None? && fetch(hc).None?))
      && (fetch(fc).None? && fetch(hc).None? ==> a.result.Ok?)
  {
    var field := fields[fieldId];
    var fc := ForecastCall(field.latitude, field.longitude, 14);
    var hc := HistoricalCallFor(field, today);
    match fetch(fc)
    case Some(w) =>
      if RiskResponseOf(field, cropName, rules, w, today.month, Forecast).Ok? {
        OverallDominates(field, cropName, rules, w, today.month, Forecast);
      }
    case None =>
      match fetch(hc)
      case Some(w) =>
        if RiskResponseOf(field, cropName, rules, w, today.month, Historical).Ok? {
          OverallDominates(field, cropName, rules, w, today.month, Historical);
        }
      case None =>
  }

  /** The historical window starts one year before today and ends 14 days later. */
  lemma HistoricalWindow(field: Field, today: Date)
    requires ValidDate(today) && 0 <= today.year - 1 <= 9999
    ensures var start := PlusMonths(today, -12);
      && start.year == today.year - 1 && start.month == today.month
      && HistoricalCallFor(field, today).startDate == FormatIsoDate(start)
      && ParseIsoDate(HistoricalCallFor(field, today).startDate) == Some(start)
  {
    var start := PlusMonths(today, -12);
    assert ProlepticMonth(start) == ProlepticMonth(today) - 12;
  }
}
