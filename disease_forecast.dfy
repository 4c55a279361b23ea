/**
 * The forecast-window disease scorers of the field service: five diseases,
 * each scored by three additive threshold checks on a seven/fourteen-day
 * weather window, the score mapped to a risk level, and the five items
 * sorted by level.
 *
 * Each check is an else-if chain, so it adds at most one band's increment;
 * `Checks` lists, per disease, what each of its three checks adds (or `None`).
 * The scoring methods add to a running score and factor list the way the
 * service does and are proved to compute `ItemFor` of that table.
 */
module DiseaseForecast {
  import opened Wrappers
  import opened Sorting
  import opened Calendar
  import DiseaseRisk

  /** The forecast window the weather service returns; every reading may be missing. */
  datatype Window = Window(
    tempMean7d: Option<real>,
    tempMax7d: Option<real>,
    tempMin7d: Option<real>,
    humidity7d: Option<real>,
    precip7d: Option<real>,
    precip14d: Option<real>,
    windSpeedMean7d: Option<real>)

  datatype Disease = LeafRust | Septoria | Fusarium | DownyMildew | Alternaria

  /** What a check looks at; `Alternation` is Alternaria's humid-air-and-dry-soil check. */
  datatype Reading = MeanTemp | MaxTemp | Humidity | Rain7 | Rain14 | Alternation

  /** The first band of an else-if chain, or the fallback band after it. */
  datatype Band = Primary | Secondary

  /** A factor line of an item: the reading, its band and the value shown. */
  datatype Factor = Measured(reading: Reading, band: Band, value: real) | AlternatingWetDry

  /** What one check adds to the score, and the factor line it adds, if any. */
  datatype Increment = Increment(reading: Reading, band: Band, add: real, factor: Option<Factor>)

  datatype RiskItem = RiskItem(
    diseaseName: string,
    pathogen: string,
    riskLevel: DiseaseRisk.RiskLevel,
    riskScore: real,
    factors: seq<Factor>,
    recommendation: string)

  datatype Planting = Planting(cropName: string, plantingDate: Date)

  datatype RiskResponse = RiskResponse(
    fieldId: int,
    fieldName: string,
    cropName: string,
    assessmentDate: Date,
    risks: seq<RiskItem>)

  predicate InRange(v: Option<real>, lo: real, hi: real)
  {
    v.Some? && lo <= v.value && v.value <= hi
  }

  predicate AtLeast(v: Option<real>, lo: real)
  {
    v.Some? && v.value >= lo
  }

  /** An increment whose check also adds a factor line with the reading's value. */
  function Noted(r: Reading, b: Band, add: real, v: Option<real>): Increment
    requires v.Some?
  {
    Increment(r, b, add, Some(Measured(r, b, v.value)))
  }

  /** An increment whose check adds no factor line. */
  function Silent(r: Reading, b: Band, add: real): Increment
  {
    Increment(r, b, add, None)
  }

  /** What each of the disease's three checks adds, in the order the service runs them. */
  function Checks(d: Disease, w: Window): (cs: seq<Option<Increment>>)
    ensures |cs| == 3
  {
    match d
    case LeafRust => [
      if InRange(w.tempMean7d, 15.0, 22.0) then Some(Noted(MeanTemp, Primary, 0.45, w.tempMean7d))
      else if InRange(w.tempMean7d, 12.0, 25.0) then Some(Noted(MeanTemp, Secondary, 0.2, w.tempMean7d))
      else None,
      if AtLeast(w.humidity7d, 80.0) then Some(Noted(Humidity, Primary, 0.35, w.humidity7d))
      else if AtLeast(w.humidity7d, 70.0) then Some(Noted(Humidity, Secondary, 0.15, w.humidity7d))
      else None,
      if AtLeast(w.precip7d, 10.0) then Some(Noted(Rain7, Primary, 0.2, w.precip7d)) else None]
    case Septoria => [
      if AtLeast(w.precip14d, 30.0) then Some(Noted(Rain14, Primary, 0.5, w.precip14d))
      else if AtLeast(w.precip14d, 20.0) then Some(Noted(Rain14, Secondary, 0.25, w.precip14d))
      else None,
      if InRange(w.tempMean7d, 15.0, 20.0) then Some(Noted(MeanTemp, Primary, 0.35, w.tempMean7d))
      else if InRange(w.tempMean7d, 10.0, 25.0) then Some(Silent(MeanTemp, Secondary, 0.15))
      else None,
      if AtLeast(w.humidity7d, 75.0) then Some(Noted(Humidity, Primary, 0.15, w.humidity7d)) else None]
    case Fusarium => [
      if InRange(w.tempMean7d, 15.0, 30.0) then Some(Noted(MeanTemp, Primary, 0.35, w.tempMean7d)) else None,
      if AtLeast(w.precip7d, 15.0) then Some(Noted(Rain7, Primary, 0.4, w.precip7d)) else None,
      if AtLeast(w.humidity7d, 85.0) then Some(Noted(Humidity, Primary, 0.25, w.humidity7d)) else None]
    case DownyMildew => [
      if AtLeast(w.humidity7d, 90.0) then Some(Noted(Humidity, Primary, 0.5, w.humidity7d))
      else if AtLeast(w.humidity7d, 80.0) then Some(Silent(Humidity, Secondary, 0.2))
      else None,
      if InRange(w.tempMean7d, 10.0, 15.0) then Some(Noted(MeanTemp, Primary, 0.4, w.tempMean7d))
      else if InRange(w.tempMean7d, 8.0, 20.0) then Some(Silent(MeanTemp, Secondary, 0.15))
      else None,
      if AtLeast(w.precip7d, 20.0) then Some(Noted(Rain7, Primary, 0.1, w.precip7d)) else None]
    case Alternaria => [
      if AtLeast(w.tempMax7d, 28.0) then Some(Noted(MaxTemp, Primary, 0.35, w.tempMax7d)) else None,
      if Alternating(w) then Some(Increment(Alternation, Primary, 0.4, Some(AlternatingWetDry))) else None,
      if InRange(w.tempMean7d, 20.0, 30.0) then Some(Noted(MeanTemp, Primary, 0.25, w.tempMean7d)) else None]
  }

  /** Alternaria's alternation check: humid air (at least 70%) over dry soil (under 5 mm of rain). */
  predicate Alternating(w: Window)
  {
    w.humidity7d.Some? && w.precip7d.Some? && w.humidity7d.value >= 70.0 && w.precip7d.value < 5.0
  }

  function Added(c: Option<Increment>): real
  {
    if c.Some? then c.value.add else 0.0
  }

  function FactorLines(c: Option<Increment>): seq<Factor>
  {
    if c.Some? && c.value.factor.Some? then [c.value.factor.value] else []
  }

  /** The sum of what the checks add. */
  function Score(cs: seq<Option<Increment>>): real
  {
    if cs == [] then 0.0 else Added(cs[0]) + Score(cs[1..])
  }

  /** The factor lines the checks add, in order. */
  function Factors(cs: seq<Option<Increment>>): seq<Factor>
  {
    if cs == [] then [] else FactorLines(cs[0]) + Factors(cs[1..])
  }

  /** The checks that added something. */
  function Fired(cs: seq<Option<Increment>>): nat
  {
    if cs == [] then 0 else (if cs[0].Some? then 1 else 0) + Fired(cs[1..])
  }

  /** Score, factor lines and fired count of three checks, written out. */
  lemma ThreeChecks(cs: seq<Option<Increment>>)
    requires |cs| == 3
    ensures Score(cs) == Added(cs[0]) + Added(cs[1]) + Added(cs[2])
    ensures Factors(cs) == FactorLines(cs[0]) + FactorLines(cs[1]) + FactorLines(cs[2])
    ensures Fired(cs) == (if cs[0].Some? then 1 else 0) + (if cs[1].Some? then 1 else 0) + (if cs[2].Some? then 1 else 0)
  {
    var tail1, tail2 := cs[1..], cs[1..][1..];
    assert tail1[0] == cs[1] && tail2[0] == cs[2] && tail2[1..] == [];
    assert Score(tail2) == Added(cs[2]) && Factors(tail2) == FactorLines(cs[2]);
    assert Score(tail1) == Added(cs[1]) + Added(cs[2]);
    assert Fired(tail2) == (if cs[2].Some? then 1 else 0);
    assert Fired(tail1) == (if cs[1].Some? then 1 else 0) + (if cs[2].Some? then 1 else 0);
    assert Factors(tail1) == FactorLines(cs[1]) + FactorLines(cs[2]);
  }

  /**
   * The disease's score: never negative and at most 1.0, because the first
   * bands of the three checks add up to exactly 1.0.  So the service's
   * `Math.min(score, 1.0)` never changes it.
   */
  function ScoreOf(d: Disease, w: Window): (s: real)
    ensures 0.0 <= s <= 1.0
  {
    var cs := Checks(d, w);
    ThreeChecks(cs);
    Score(cs)
  }

  /** The score reaches 1.0 exactly when every check fires in its first band. */
  lemma ScoreReachesOne(d: Disease, w: Window)
    ensures ScoreOf(d, w) == 1.0 <==> forall i :: 0 <= i < 3 ==> Checks(d, w)[i].Some? && Checks(d, w)[i].value.band == Primary
  {
    ThreeChecks(Checks(d, w));
  }

  /** The factor lines never outnumber the checks that fired. */
  lemma {:induction false} FactorsAtMostFired(cs: seq<Option<Increment>>)
    ensures |Factors(cs)| <= Fired(cs)
    ensures |Factors(cs)| < Fired(cs) <==> exists i :: 0 <= i < |cs| && cs[i].Some? && cs[i].value.factor.None?
  {
    if cs != [] {
      FactorsAtMostFired(cs[1..]);
      if exists i :: 0 <= i < |cs[1..]| && cs[1..][i].Some? && cs[1..][i].value.factor.None? {
        var i :| 0 <= i < |cs[1..]| && cs[1..][i].Some? && cs[1..][i].value.factor.None?;
        assert cs[i + 1] == cs[1..][i];
      }
      if exists i :: 0 <= i < |cs| && cs[i].Some? && cs[i].value.factor.None? {
        var i :| 0 <= i < |cs| && cs[i].Some? && cs[i].value.factor.None?;
        if i > 0 {
          assert cs[1..][i - 1] == cs[i];
        }
      }
    }
  }

  /** The recommendation, which depends only on the disease and the level. */
  function Advice(d: Disease, level: DiseaseRisk.RiskLevel): string
  {
    match d
    case LeafRust =>
      (match level
       case Critical => "Обработка фунгицидом (триазолы) в течение 3-5 дней"
       case High => "Обработка фунгицидом (триазолы) в течение 3-5 дней"
       case Medium => "Мониторинг посевов каждые 2-3 дня"
       case Low => "Плановый осмотр")
    case Septoria =>
      (match level
       case Critical => "Обработка фунгицидом (стробилурины + триазолы) немедленно"
       case High => "Обработка фунгицидом (стробилурины + триазолы) немедленно"
       case Medium => "Профилактическая обработка при продолжении дождей"
       case Low => "Наблюдение")
    case Fusarium =>
      (match level
       case Critical => "СРОЧНО: обработка фунгицидом (тебуконазол) — потери урожая неизбежны без обработки"
       case High => "Обработка фунгицидом (тебуконазол) в фазу цветения — КРИТИЧНО"
       case Medium => "Обработка при начале цветения"
       case Low => "Наблюдение")
    case DownyMildew =>
      (match level
       case Critical => "Обработка фунгицидом (металаксил) немедленно"
       case High => "Обработка фунгицидом (металаксил) немедленно"
       case Medium => "Профилактическая обработка семян перед посевом"
       case Low => "Наблюдение")
    case Alternaria =>
      (match level
       case Critical => "Обработка фунгицидом (ипродион, хлороталонил)"
       case High => "Обработка фунгицидом (ипродион, хлороталонил)"
       case Medium => "Мониторинг нижних листьев"
       case Low => "Наблюдение")
  }

  function DiseaseName(d: Disease): string
  {
    match d
    case LeafRust => "Бурая листовая ржавчина"
    case Septoria => "Септориоз листьев"
    case Fusarium => "Фузариоз колоса"
    case DownyMildew => "Пероноспороз"
    case Alternaria => "Альтернариоз"
  }

  function Pathogen(d: Disease): string
  {
    match d
    case LeafRust => "Puccinia triticina"
    case Septoria => "Zymoseptoria tritici"
    case Fusarium => "Fusarium graminearum"
    case DownyMildew => "Plasmopara halstedii"
    case Alternaria => "Alternaria helianthi"
  }

  function Min(a: real, b: real): real
  {
    if a <= b then a else b
  }

  /** The item a scorer returns for the window. */
  function ItemFor(d: Disease, w: Window): RiskItem
  {
    var score := ScoreOf(d, w);
    var level := DiseaseRisk.ScoreToRiskLevel(score);
    RiskItem(DiseaseName(d), Pathogen(d), level, Min(score, 1.0), Factors(Checks(d, w)), Advice(d, level))
  }

  /**
   * What an item says: its score is the disease's score, unclamped, in [0, 1];
   * its level is that score's level; there are no more factor lines than checks
   * that fired, and fewer exactly when a silent band fired.
   */
  lemma ItemMeaning(d: Disease, w: Window)
    ensures var it := ItemFor(d, w);
      && it.riskScore == ScoreOf(d, w)
      && 0.0 <= it.riskScore <= 1.0
      && it.riskLevel == DiseaseRisk.ScoreToRiskLevel(it.riskScore)
      && it.recommendation == Advice(d, it.riskLevel)
      && |it.factors| <= Fired(Checks(d, w)) <= 3
      && (|it.factors| < Fired(Checks(d, w)) <==>
            exists i :: 0 <= i < 3 && Checks(d, w)[i].Some? && Checks(d, w)[i].value.factor.None?)
  {
    var cs := Checks(d, w);
    FactorsAtMostFired(cs);
    ThreeChecks(cs);
  }

  /** Only the septoria and downy mildew scorers have bands that add no factor line. */
  lemma SilentBands(d: Disease, w: Window)
    requires d != Septoria && d != DownyMildew
    ensures |ItemFor(d, w).factors| == Fired(Checks(d, w))
  {
    ThreeChecks(Checks(d, w));
  }

  /** The septoria temperature check fires silently for 10-25 °C outside 15-20 °C. */
  lemma SeptoriaSilentTemperature(w: Window)
    requires InRange(w.tempMean7d, 10.0, 25.0) && !InRange(w.tempMean7d, 15.0, 20.0)
    ensures |ItemFor(Septoria, w).factors| < Fired(Checks(Septoria, w))
  {
    ItemMeaning(Septoria, w);
    assert Checks(Septoria, w)[1].Some? && Checks(Septoria, w)[1].value.factor.None?;
  }

  /** Alternaria's alternation increment is added exactly when the air is humid and the soil dry. */
  lemma AlternationNeedsBoth(w: Window)
    ensures Checks(Alternaria, w)[1].Some? <==> AtLeast(w.humidity7d, 70.0) && w.precip7d.Some? && w.precip7d.value < 5.0
    ensures w.precip7d.None? || w.humidity7d.None? ==> Checks(Alternaria, w)[1].None?
  {
  }

  /** A window with every reading missing scores zero for every disease. */
  lemma EmptyWindowScoresZero(d: Disease)
    ensures var w := Window(None, None, None, None, None, None, None);
      ScoreOf(d, w) == 0.0 && ItemFor(d, w).riskLevel == DiseaseRisk.Low && ItemFor(d, w).factors == []
  {
    var w := Window(None, None, None, None, None, None, None);
    var cs := Checks(d, w);
    assert cs == [None, None, None];
  }

  /** `assessLeafRust`: temperature band, humidity band, then seven-day rain. */
  method AssessLeafRust(w: Window) returns (item: RiskItem)
    ensures item == ItemFor(LeafRust, w)
  {
    var factors: seq<Factor> := [];
    var score := 0.0;
    if InRange(w.tempMean7d, 15.0, 22.0) {
      score := score + 0.45;
      factors := factors + [Measured(MeanTemp, Primary, w.tempMean7d.value)];
    } else if InRange(w.tempMean7d, 12.0, 25.0) {
      score := score + 0.2;
      factors := factors + [Measured(MeanTemp, Secondary, w.tempMean7d.value)];
    }
    if AtLeast(w.humidity7d, 80.0) {
      score := score + 0.35;
      factors := factors + [Measured(Humidity, Primary, w.humidity7d.value)];
    } else if AtLeast(w.humidity7d, 70.0) {
      score := score + 0.15;
      factors := factors + [Measured(Humidity, Secondary, w.humidity7d.value)];
    }
    if AtLeast(w.precip7d, 10.0) {
      score := score + 0.2;
      factors := factors + [Measured(Rain7, Primary, w.precip7d.value)];
    }
    ThreeChecks(Checks(LeafRust, w));
    item := Finish(LeafRust, w, score, factors);
  }

  /** `assessSeptoria`: fourteen-day rain band, temperature band (the lower one silent), humidity. */
  method AssessSeptoria(w: Window) returns (item: RiskItem)
    ensures item == ItemFor(Septoria, w)
  {
    var factors: seq<Factor> := [];
    var score := 0.0;
    if AtLeast(w.precip14d, 30.0) {
      score := score + 0.5;
      factors := factors + [Measured(Rain14, Primary, w.precip14d.value)];
    } else if AtLeast(w.precip14d, 20.0) {
      score := score + 0.25;
      factors := factors + [Measured(Rain14, Secondary, w.precip14d.value)];
    }
    if InRange(w.tempMean7d, 15.0, 20.0) {
      score := score + 0.35;
      factors := factors + [Measured(MeanTemp, Primary, w.tempMean7d.value)];
    } else if InRange(w.tempMean7d, 10.0, 25.0) {
      score := score + 0.15;
    }
    if AtLeast(w.humidity7d, 75.0) {
      score := score + 0.15;
      factors := factors + [Measured(Humidity, Primary, w.humidity7d.value)];
    }
    ThreeChecks(Checks(Septoria, w));
    item := Finish(Septoria, w, score, factors);
  }

  /** `assessFusarium`: temperature, seven-day rain, humidity, one band each. */
  method AssessFusarium(w: Window) returns (item: RiskItem)
    ensures item == ItemFor(Fusarium, w)
  {
    var factors: seq<Factor> := [];
    var score := 0.0;
    if InRange(w.tempMean7d, 15.0, 30.0) {
      score := score + 0.35;
      factors := factors + [Measured(MeanTemp, Primary, w.tempMean7d.value)];
    }
    if AtLeast(w.precip7d, 15.0) {
      score := score + 0.4;
      factors := factors + [Measured(Rain7, Primary, w.precip7d.value)];
    }
    if AtLeast(w.humidity7d, 85.0) {
      score := score + 0.25;
      factors := factors + [Measured(Humidity, Primary, w.humidity7d.value)];
    }
    ThreeChecks(Checks(Fusarium, w));
    item := Finish(Fusarium, w, score, factors);
  }

  /** `assessDownyMildew`: humidity band and temperature band (lower ones silent), then rain. */
  method AssessDownyMildew(w: Window) returns (item: RiskItem)
    ensures item == ItemFor(DownyMildew, w)
  {
    var factors: seq<Factor> := [];
    var score := 0.0;
    if AtLeast(w.humidity7d, 90.0) {
      score := score + 0.5;
      factors := factors + [Measured(Humidity, Primary, w.humidity7d.value)];
    } else if AtLeast(w.humidity7d, 80.0) {
      score := score + 0.2;
    }
    if InRange(w.tempMean7d, 10.0, 15.0) {
      score := score + 0.4;
      factors := factors + [Measured(MeanTemp, Primary, w.tempMean7d.value)];
    } else if InRange(w.tempMean7d, 8.0, 20.0) {
      score := score + 0.15;
    }
    if AtLeast(w.precip7d, 20.0) {
      score := score + 0.1;
      factors := factors + [Measured(Rain7, Primary, w.precip7d.value)];
    }
    ThreeChecks(Checks(DownyMildew, w));
    item := Finish(DownyMildew, w, score, factors);
  }

  /** `assessAlternaria`: maximum temperature, the alternation check, mean temperature. */
  method AssessAlternaria(w: Window) returns (item: RiskItem)
    ensures item == ItemFor(Alternaria, w)
  {
    var factors: seq<Factor> := [];
    var score := 0.0;
    if AtLeast(w.tempMax7d, 28.0) {
      score := score + 0.35;
      factors := factors + [Measured(MaxTemp, Primary, w.tempMax7d.value)];
    }
    if w.humidity7d.Some? && w.precip7d.Some? && w.humidity7d.value >= 70.0 && w.precip7d.value < 5.0 {
      score := score + 0.4;
      factors := factors + [AlternatingWetDry];
    }
    if InRange(w.tempMean7d, 20.0, 30.0) {
      score := score + 0.25;
      factors := factors + [Measured(MeanTemp, Primary, w.tempMean7d.value)];
    }
    ThreeChecks(Checks(Alternaria, w));
    item := Finish(Alternaria, w, score, factors);
  }

  /** The common tail of every scorer: level from the unclamped score, clamped score, advice. */
  method Finish(d: Disease, w: Window, score: real, factors: seq<Factor>) returns (item: RiskItem)
    requires score == Score(Checks(d, w)) && factors == Factors(Checks(d, w))
    ensures item == ItemFor(d, w)
  {
    var level := DiseaseRisk.ScoreToRiskLevel(score);
    var clamped := if score <= 1.0 then score else 1.0;
    item := RiskItem(DiseaseName(d), Pathogen(d), level, clamped, factors, Advice(d, level));
  }

  /**
   * Where a level stands in the enum's declaration order: its first index in
   * `declOrder`, or past the end when it is not listed.
   */
  function Ordinal(declOrder: seq<DiseaseRisk.RiskLevel>, l: DiseaseRisk.RiskLevel): (k: nat)
    ensures k <= |declOrder|
    ensures k < |declOrder| ==> declOrder[k] == l
    ensures forall i :: 0 <= i < k ==> declOrder[i] != l
  {
    if declOrder == [] then 0
    else if declOrder[0] == l then 0
    else 1 + Ordinal(declOrder[1..], l)
  }

  /** The sort key: the item's level's position in the declaration order. */
  function LevelKey(declOrder: seq<DiseaseRisk.RiskLevel>): RiskItem -> nat
  {
    (it: RiskItem) => Ordinal(declOrder, it.riskLevel)
  }

  const AtLeastNat := (a: nat, b: nat) => a >= b

  lemma AtLeastNatTotal()
    ensures TotalOrder(AtLeastNat)
  {
  }

  /** The five items for a window, in the order the service adds them. */
  function Unsorted(w: Window): seq<RiskItem>
  {
    [ItemFor(LeafRust, w), ItemFor(Septoria, w), ItemFor(Fusarium, w), ItemFor(DownyMildew, w), ItemFor(Alternaria, w)]
  }

  /** `risks.sort`: stable, by declaration position of the level, latest first. */
  function ByLevel(s: seq<RiskItem>, declOrder: seq<DiseaseRisk.RiskLevel>): seq<RiskItem>
  {
    SortBy(s, LevelKey(declOrder), AtLeastNat)
  }

  /**
   * The sort keeps the items, puts later-declared levels first, and keeps
   * items of equal level in their input order.
   */
  lemma ByLevelShape(s: seq<RiskItem>, declOrder: seq<DiseaseRisk.RiskLevel>, l: DiseaseRisk.RiskLevel)
    ensures var r := ByLevel(s, declOrder);
      && |r| == |s|
      && multiset(r) == multiset(s)
      && (forall i, j :: 0 <= i < j < |r| ==> Ordinal(declOrder, r[i].riskLevel) >= Ordinal(declOrder, r[j].riskLevel))
      && WithKey(r, LevelKey(declOrder), Ordinal(declOrder, l)) == WithKey(s, LevelKey(declOrder), Ordinal(declOrder, l))
  {
    var key := LevelKey(declOrder);
    AtLeastNatTotal();
    SortPermutes(s, key, AtLeastNat);
    SortSorted(s, key, AtLeastNat);
    SortStable(s, key, AtLeastNat, Ordinal(declOrder, l));
    SortLength(s, key, AtLeastNat);
  }

  /** The risk list: empty without a window, else the five items sorted by level. */
  function Risks(window: Option<Window>, declOrder: seq<DiseaseRisk.RiskLevel>): seq<RiskItem>
  {
    if window.None? then [] else ByLevel(Unsorted(window.value), declOrder)
  }

  /** The crop of the latest planting, or "Неизвестно" without any. */
  function CropName(latestFirst: seq<Planting>): (name: string)
    ensures latestFirst == [] ==> name == "Неизвестно"
    ensures latestFirst != [] ==> name == latestFirst[0].cropName
  {
    if latestFirst == [] then "Неизвестно" else latestFirst[0].cropName
  }

  /** `assessRisk` with the fetch as a parameter: the field must exist. */
  function AssessmentOf(fieldId: int, fields: map<int, DiseaseRisk.Field>, latestFirst: seq<Planting>,
                        today: Date, window: Option<Window>, declOrder: seq<DiseaseRisk.RiskLevel>)
    : Result<RiskResponse, DiseaseRisk.RiskError>
  {
    if fieldId !in fields then Err(DiseaseRisk.FieldNotFound(fieldId))
    else Ok(RiskResponse(fieldId, fields[fieldId].fieldName, CropName(latestFirst), today, Risks(window, declOrder)))
  }

  /**
   * The risk list holds no item without a window and otherwise one item per
   * disease model; it is ordered by declaration position, latest first, and
   * items of equal level keep the order the scorers ran in.
   */
  lemma RisksShape(window: Option<Window>, declOrder: seq<DiseaseRisk.RiskLevel>, l: DiseaseRisk.RiskLevel)
    ensures window.None? <==> Risks(window, declOrder) == []
    ensures window.Some? ==>
      var r := Risks(window, declOrder);
      var u := Unsorted(window.value);
      && |r| == 5
      && multiset(r) == multiset(u)
      && (forall i, j :: 0 <= i < j < |r| ==> Ordinal(declOrder, r[i].riskLevel) >= Ordinal(declOrder, r[j].riskLevel))
      && WithKey(r, LevelKey(declOrder), Ordinal(declOrder, l)) == WithKey(u, LevelKey(declOrder), Ordinal(declOrder, l))
  {
    if window.Some? {
      ByLevelShape(Unsorted(window.value), declOrder, l);
    }
  }

  lemma OrdinalIsSeverity(l: DiseaseRisk.RiskLevel)
    ensures Ordinal([DiseaseRisk.Low, DiseaseRisk.Medium, DiseaseRisk.High, DiseaseRisk.Critical], l) == DiseaseRisk.Severity(l)
  {
    var order := [DiseaseRisk.Low, DiseaseRisk.Medium, DiseaseRisk.High, DiseaseRisk.Critical];
    assert order[DiseaseRisk.Severity(l)] == l;
  }

  /** When the levels are declared LOW, MEDIUM, HIGH, CRITICAL, the list runs from the most to the least severe. */
  lemma DeclaredAscendingMeansSevereFirst(s: seq<RiskItem>)
    ensures var r := ByLevel(s, [DiseaseRisk.Low, DiseaseRisk.Medium, DiseaseRisk.High, DiseaseRisk.Critical]);
      forall i, j :: 0 <= i < j < |r| ==> DiseaseRisk.Severity(r[i].riskLevel) >= DiseaseRisk.Severity(r[j].riskLevel)
  {
    var order := [DiseaseRisk.Low, DiseaseRisk.Medium, DiseaseRisk.High, DiseaseRisk.Critical];
    var r := ByLevel(s, order);
    ByLevelShape(s, order, DiseaseRisk.Low);
    forall i, j | 0 <= i < j < |r|
      ensures DiseaseRisk.Severity(r[i].riskLevel) >= DiseaseRisk.Severity(r[j].riskLevel)
    {
      OrdinalIsSeverity(r[i].riskLevel);
      OrdinalIsSeverity(r[j].riskLevel);
    }
  }

  /** The five scorers run in the service's order, each item appended to the list. */
  method ScoreWindow(w: Window) returns (risks: seq<RiskItem>)
    ensures risks == Unsorted(w)
  {
    risks := [];
    var leafRust := AssessLeafRust(w);
    risks := risks + [leafRust];
    var septoria := AssessSeptoria(w);
    risks := risks + [septoria];
    var fusarium := AssessFusarium(w);
    risks := risks + [fusarium];
    var downyMildew := AssessDownyMildew(w);
    risks := risks + [downyMildew];
    var alternaria := AssessAlternaria(w);
    risks := risks + [alternaria];
    ItemsInOrder(risks, leafRust, septoria, fusarium, downyMildew, alternaria);
  }

  lemma ItemsInOrder(risks: seq<RiskItem>, a: RiskItem, b: RiskItem, c: RiskItem, d: RiskItem, e: RiskItem)
    requires risks == [] + [a] + [b] + [c] + [d] + [e]
    ensures risks == [a, b, c, d, e]
  {
  }

  /** `assessRisk`: look the field up, run the five scorers when the window came back, sort. */
  method AssessRisk(fieldId: int, fields: map<int, DiseaseRisk.Field>, latestFirst: seq<Planting>,
                    today: Date, window: Option<Window>, declOrder: seq<DiseaseRisk.RiskLevel>)
    returns (r: Result<RiskResponse, DiseaseRisk.RiskError>)
    ensures r == AssessmentOf(fieldId, fields, latestFirst, today, window, declOrder)
  {
    if fieldId !in fields {
      return Err(DiseaseRisk.FieldNotFound(fieldId));
    }
    var field := fields[fieldId];
    var cropName := if latestFirst == [] then "Неизвестно" else latestFirst[0].cropName;
    var risks: seq<RiskItem> := [];
    if window.Some? {
      risks := ScoreWindow(window.value);
    }
    risks := SortBy(risks, LevelKey(declOrder), AtLeastNat);
    assert risks == Risks(window, declOrder);
    r := Ok(RiskResponse(fieldId, field.fieldName, cropName, today, risks));
  }
}
