/**
 * The rotation-aware crop recommender of the field service: for every known
 * crop type it checks the rotation rules and the field's planting history,
 * takes the yield and price predictions, estimates the profit per hectare,
 * then ranks the candidates (rotation-compliant first, then by profit) and
 * numbers them 1..N.
 *
 * The prediction services and the seasonal-weather fetch are parameters.
 * The weather is requested for the season of harvest year `targetYear - 1`;
 * the model keeps only whether it came back (`seasonalWeather`), not which
 * season was asked for.  `yieldOf` and `priceOf` are what the model
 * services answer for a crop (None for a failed call or a null field).
 */
module Rotation {
  import opened Wrappers
  import opened Sorting
  import DiseaseRisk

  datatype CropType = CropType(id: int, name: string)

  /** A past planting; a missing planting date is read as the current year. */
  datatype Planting = Planting(cropType: CropType, plantingYear: Option<int>)

  datatype RotationRule = RotationRule(
    predecessorId: int,
    successorId: int,
    allowed: Option<bool>,
    reason: Option<string>)

  datatype Item = Item(
    cropTypeId: int,
    cropTypeName: string,
    rotationCompliant: bool,
    violationReason: Option<string>,
    predictedYield: Option<real>,
    predictedPrice: Option<real>,
    estimatedProfit: real,
    rank: int)

  datatype Response = Response(fieldId: int, fieldName: string, targetYear: int, recommendations: seq<Item>)

  /** Everything a candidate's evaluation reads besides the candidate itself. */
  datatype Inputs = Inputs(
    latestFirst: seq<Planting>,
    targetYear: int,
    currentYear: int,
    rules: seq<RotationRule>,
    seasonalWeather: bool,
    yieldOf: CropType -> Option<real>,
    priceOf: CropType -> Option<real>)

  const ForbiddenPrefix := "Запрещено правилами севооборота после "

  const RepetitionMessage := "Культура повторяется более 2 лет подряд — риск накопления болезней"

  /** Cost of growing a hectare, by crop name, in roubles. */
  const CropCosts: map<string, real> := map[
    "Пшеница озимая" := 18000.0,
    "Пшеница яровая" := 14000.0,
    "Ячмень яровой" := 12000.0,
    "Подсолнечник" := 22000.0,
    "Кукуруза" := 25000.0,
    "Соя" := 20000.0,
    "Рапс" := 19000.0,
    "Горох" := 13000.0]

  const DefaultCost := 15000.0

  /** The table's cost, or 15000 for a crop it does not list; always between 12000 and 25000. */
  function CostOf(name: string): (c: real)
    ensures 12000.0 <= c <= 25000.0
    ensures name !in CropCosts ==> c == DefaultCost
  {
    if name in CropCosts then CropCosts[name] else DefaultCost
  }

  /** Estimated profit per hectare: yield × price × 0.1 − cost with both predictions, else 0.0. */
  function Profit(predictedYield: Option<real>, predictedPrice: Option<real>, name: string): real
  {
    if predictedYield.Some? && predictedPrice.Some? then
      predictedYield.value * predictedPrice.value * 0.1 - CostOf(name)
    else 0.0
  }

  /**
   * Profit without a prediction is exactly zero; with both it rises with the
   * price for a non-negative yield, and never exceeds the gross revenue less
   * 12000.
   */
  lemma ProfitMeaning(y: Option<real>, p: Option<real>, q: real, name: string)
    ensures y.None? || p.None? ==> Profit(y, p, name) == 0.0
    ensures y.Some? && p.Some? ==> Profit(y, p, name) <= y.value * p.value * 0.1 - 12000.0
    ensures y.Some? && p.Some? && y.value >= 0.0 && p.value <= q ==> Profit(y, p, name) <= Profit(y, Some(q), name)
  {
    if y.Some? && p.Some? && y.value >= 0.0 && p.value <= q {
      assert y.value * p.value <= y.value * q;
    }
  }

  /** The first rule, in table order, for planting `successorId` after `predecessorId`. */
  function FirstRule(rules: seq<RotationRule>, predecessorId: int, successorId: int): (r: Option<RotationRule>)
    ensures r.None? <==> forall i :: 0 <= i < |rules| ==> !(rules[i].predecessorId == predecessorId && rules[i].successorId == successorId)
    ensures r.Some? ==> exists i :: (0 <= i < |rules| && rules[i] == r.value
      && r.value.predecessorId == predecessorId && r.value.successorId == successorId
      && forall k :: 0 <= k < i ==> !(rules[k].predecessorId == predecessorId && rules[k].successorId == successorId))
  {
    if rules == [] then None
    else if rules[0].predecessorId == predecessorId && rules[0].successorId == successorId then Some(rules[0])
    else
      var r := FirstRule(rules[1..], predecessorId, successorId);
      assert forall k :: 1 <= k < |rules| ==> rules[k] == rules[1..][k - 1];
      if r.Some? then
        var i :| 0 <= i < |rules[1..]| && rules[1..][i] == r.value
          && r.value.predecessorId == predecessorId && r.value.successorId == successorId
          && forall k :: 0 <= k < i ==> !(rules[1..][k].predecessorId == predecessorId && rules[1..][k].successorId == successorId);
        assert rules[i + 1] == r.value;
        r
      else r
  }

  function PlantYear(h: Planting, currentYear: int): int
  {
    if h.plantingYear.Some? then h.plantingYear.value else currentYear
  }

  /** A planting of the candidate no more than four years before the target year (or any time after it). */
  predicate Recent(h: Planting, candidateId: int, targetYear: int, currentYear: int)
  {
    h.cropType.id == candidateId && targetYear - PlantYear(h, currentYear) <= 4
  }

  /** How many plantings of the history are recent plantings of the candidate. */
  function RecentCount(history: seq<Planting>, candidateId: int, targetYear: int, currentYear: int): (n: nat)
    ensures n <= |history|
  {
    if history == [] then 0
    else
      var last := if Recent(history[|history| - 1], candidateId, targetYear, currentYear) then 1 else 0;
      RecentCount(history[..|history| - 1], candidateId, targetYear, currentYear) + last
  }

  /** The candidate was planted recently exactly when some planting of the history is a recent planting of it. */
  lemma {:induction false} RecentOnceIff(history: seq<Planting>, candidateId: int, targetYear: int, currentYear: int)
    ensures RecentCount(history, candidateId, targetYear, currentYear) >= 1 <==>
      exists i :: 0 <= i < |history| && Recent(history[i], candidateId, targetYear, currentYear)
  {
    if history != [] {
      var init := history[..|history| - 1];
      RecentOnceIff(init, candidateId, targetYear, currentYear);
      assert forall k :: 0 <= k < |init| ==> init[k] == history[k];
      if exists i :: 0 <= i < |history| && Recent(history[i], candidateId, targetYear, currentYear) {
        var i :| 0 <= i < |history| && Recent(history[i], candidateId, targetYear, currentYear);
        if i < |init| {
          assert Recent(init[i], candidateId, targetYear, currentYear);
        }
      }
    }
  }

  /** The candidate is repeated exactly when two different plantings of the history are recent plantings of it. */
  lemma {:induction false} RepeatedIff(history: seq<Planting>, candidateId: int, targetYear: int, currentYear: int)
    ensures RecentCount(history, candidateId, targetYear, currentYear) >= 2 <==>
      exists i, j :: 0 <= i < j < |history| && Recent(history[i], candidateId, targetYear, currentYear)
        && Recent(history[j], candidateId, targetYear, currentYear)
  {
    if history != [] {
      var init := history[..|history| - 1];
      var last := history[|history| - 1];
      RepeatedIff(init, candidateId, targetYear, currentYear);
      RecentOnceIff(init, candidateId, targetYear, currentYear);
      assert forall k :: 0 <= k < |init| ==> init[k] == history[k];
      if exists i, j :: 0 <= i < j < |history| && Recent(history[i], candidateId, targetYear, currentYear)
          && Recent(history[j], candidateId, targetYear, currentYear) {
        var i, j :| 0 <= i < j < |history| && Recent(history[i], candidateId, targetYear, currentYear)
          && Recent(history[j], candidateId, targetYear, currentYear);
        assert Recent(init[i], candidateId, targetYear, currentYear);
        if j < |init| {
          assert Recent(init[j], candidateId, targetYear, currentYear);
        }
      }
      if RecentCount(history, candidateId, targetYear, currentYear) >= 2 {
        if Recent(last, candidateId, targetYear, currentYear) {
          var i :| 0 <= i < |init| && Recent(init[i], candidateId, targetYear, currentYear);
          assert Recent(history[i], candidateId, targetYear, currentYear) && Recent(history[|history| - 1], candidateId, targetYear, currentYear);
        } else {
          var i, j :| 0 <= i < j < |init| && Recent(init[i], candidateId, targetYear, currentYear)
            && Recent(init[j], candidateId, targetYear, currentYear);
          assert Recent(history[i], candidateId, targetYear, currentYear) && Recent(history[j], candidateId, targetYear, currentYear);
        }
      }
    }
  }

  /** A planting after the target year still counts towards the repetition. */
  lemma LaterPlantingsCount(h: Planting, targetYear: int, currentYear: int)
    requires h.plantingYear.Some? && h.plantingYear.value > targetYear
    ensures Recent(h, h.cropType.id, targetYear, currentYear)
  {
  }

  /**
   * The violation reason for planting `candidate` after `lastCrop`, or None:
   * no last crop, no violation; a first matching rule with allowed = false
   * forbids; otherwise two recent plantings of the candidate do.
   */
  function ViolationOf(lastCrop: Option<CropType>, candidate: CropType, inp: Inputs): Option<string>
  {
    if lastCrop.None? then None
    else
      var rule := FirstRule(inp.rules, lastCrop.value.id, candidate.id);
      if rule.Some? && rule.value.allowed == Some(false) then
        Some(if rule.value.reason.Some? then rule.value.reason.value
             else ForbiddenPrefix + lastCrop.value.name)
      else if RecentCount(inp.latestFirst, candidate.id, inp.targetYear, inp.currentYear) >= 2 then
        Some(RepetitionMessage)
      else None
  }

  /**
   * The three ways a check ends: the forbidding rule wins over the repetition
   * count, a rule that allows (or says nothing) does not stop the count, and
   * a candidate planted at most once recently with no forbidding rule passes.
   */
  lemma ViolationCases(lastCrop: CropType, candidate: CropType, inp: Inputs)
    ensures var rule := FirstRule(inp.rules, lastCrop.id, candidate.id);
      var v := ViolationOf(Some(lastCrop), candidate, inp);
      && (rule.Some? && rule.value.allowed == Some(false) ==>
            && v.Some?
            && (rule.value.reason.Some? ==> v.value == rule.value.reason.value)
            && (rule.value.reason.None? ==> |v.value| >= |ForbiddenPrefix| && v.value[..|ForbiddenPrefix|] == ForbiddenPrefix))
      && (!(rule.Some? && rule.value.allowed == Some(false)) ==>
            (v.Some? <==> exists i, j :: (0 <= i < j < |inp.latestFirst|
               && Recent(inp.latestFirst[i], candidate.id, inp.targetYear, inp.currentYear)
               && Recent(inp.latestFirst[j], candidate.id, inp.targetYear, inp.currentYear))))
  {
    RepeatedIff(inp.latestFirst, candidate.id, inp.targetYear, inp.currentYear);
    var rule := FirstRule(inp.rules, lastCrop.id, candidate.id);
    if rule.Some? && rule.value.allowed == Some(false) && rule.value.reason.None? {
      var v := ForbiddenPrefix + lastCrop.name;
      assert v[..|ForbiddenPrefix|] == ForbiddenPrefix;
    }
  }

  /** Counts the recent plantings of the candidate the way the service walks the history. */
  method CountRecentPlantings(history: seq<Planting>, candidate: CropType, targetYear: int, currentYear: int)
    returns (yearsWithSameCrop: nat)
    ensures yearsWithSameCrop == RecentCount(history, candidate.id, targetYear, currentYear)
  {
    yearsWithSameCrop := 0;
    var i := 0;
    while i < |history|
      invariant 0 <= i <= |history|
      invariant yearsWithSameCrop == RecentCount(history[..i], candidate.id, targetYear, currentYear)
    {
      var h := history[i];
      if h.cropType.id == candidate.id {
        var plantYear := if h.plantingYear.Some? then h.plantingYear.value else currentYear;
        if targetYear - plantYear <= 4 {
          yearsWithSameCrop := yearsWithSameCrop + 1;
        }
      }
      assert history[..i + 1][..i] == history[..i];
      i := i + 1;
    }
    assert history[..i] == history;
  }

  /** `checkRotationViolation`. */
  method CheckRotationViolation(lastCrop: Option<CropType>, candidate: CropType, inp: Inputs)
    returns (violation: Option<string>)
    ensures violation == ViolationOf(lastCrop, candidate, inp)
  {
    if lastCrop.None? {
      return None;
    }
    var matchingRule := FirstRule(inp.rules, lastCrop.value.id, candidate.id);
    if matchingRule.Some? && matchingRule.value.allowed == Some(false) {
      var reason := if matchingRule.value.reason.Some? then matchingRule.value.reason.value
                    else ForbiddenPrefix + lastCrop.value.name;
      return Some(reason);
    }
    var yearsWithSameCrop := CountRecentPlantings(inp.latestFirst, candidate, inp.targetYear, inp.currentYear);
    if yearsWithSameCrop >= 2 {
      return Some(RepetitionMessage);
    }
    return None;
  }

  function LastCrop(latestFirst: seq<Planting>): Option<CropType>
  {
    if latestFirst == [] then None else Some(latestFirst[0].cropType)
  }

  /** The unranked item for one candidate crop. */
  function CandidateItem(c: CropType, inp: Inputs): Item
  {
    var violation := ViolationOf(LastCrop(inp.latestFirst), c, inp);
    var predictedYield := if inp.seasonalWeather then inp.yieldOf(c) else None;
    var predictedPrice := inp.priceOf(c);
    Item(c.id, c.name, violation.None?, violation, predictedYield, predictedPrice,
         Profit(predictedYield, predictedPrice, c.name), 0)
  }

  /**
   * A candidate is compliant exactly when the check found no violation, and
   * then carries no reason; missing predictions are kept as missing and give
   * zero profit; without seasonal weather there is no yield prediction.
   */
  lemma CandidateItemMeaning(c: CropType, inp: Inputs)
    ensures var it := CandidateItem(c, inp);
      && it.cropTypeId == c.id && it.rank == 0
      && (it.rotationCompliant <==> it.violationReason.None?)
      && (it.rotationCompliant <==> ViolationOf(LastCrop(inp.latestFirst), c, inp).None?)
      && (!inp.seasonalWeather ==> it.predictedYield.None? && it.estimatedProfit == 0.0)
      && (it.predictedYield.None? || it.predictedPrice.None? ==> it.estimatedProfit == 0.0)
      && (inp.latestFirst == [] ==> it.rotationCompliant)
  {
  }

  /** The candidates' items, in the order of the crop types. */
  function Candidates(types: seq<CropType>, inp: Inputs): (items: seq<Item>)
    ensures |items| == |types|
    decreases |types|
  {
    if types == [] then []
    else Candidates(types[..|types| - 1], inp) + [CandidateItem(types[|types| - 1], inp)]
  }

  /** The k-th candidate is the item of the k-th crop type. */
  lemma {:induction false} CandidateAt(types: seq<CropType>, inp: Inputs, k: nat)
    requires k < |types|
    ensures Candidates(types, inp)[k] == CandidateItem(types[k], inp)
    decreases |types|
  {
    if k < |types| - 1 {
      CandidateAt(types[..|types| - 1], inp, k);
    }
  }

  /** Without planting history the k-th candidate is compliant and carries no reason. */
  lemma CandidateClean(types: seq<CropType>, inp: Inputs, k: nat)
    requires k < |types| && inp.latestFirst == []
    ensures Candidates(types, inp)[k].rotationCompliant && Candidates(types, inp)[k].violationReason.None?
  {
    CandidateAt(types, inp, k);
    CandidateItemMeaning(types[k], inp);
  }

  /** The k-th candidate is for the k-th crop type. */
  lemma CandidateCrop(types: seq<CropType>, inp: Inputs, k: nat)
    requires k < |types|
    ensures Candidates(types, inp)[k].cropTypeId == types[k].id
  {
    CandidateAt(types, inp, k);
    CandidateItemMeaning(types[k], inp);
  }

  /** Compliant before non-compliant, then higher profit first. */
  function RankKey(it: Item): (bool, real)
  {
    (it.rotationCompliant, it.estimatedProfit)
  }

  const RankBefore := (a: (bool, real), b: (bool, real)) => (a.0 && !b.0) || (a.0 == b.0 && a.1 >= b.1)

  lemma RankBeforeTotal()
    ensures TotalOrder(RankBefore)
  {
  }

  /** The sorted list renumbered: the item at position k gets rank k + 1. */
  function Ranked(items: seq<Item>): (r: seq<Item>)
    ensures |r| == |items|
  {
    var sorted := SortBy(items, RankKey, RankBefore);
    SortLength(items, RankKey, RankBefore);
    seq(|sorted|, k requires 0 <= k < |sorted| => sorted[k].(rank := k + 1))
  }

  /**
   * Ranking numbers the items 1..N without gaps, changes nothing but the
   * rank, puts all compliant items before the non-compliant ones, orders by
   * profit within each group and keeps items with equal keys in input order.
   */
  lemma RankedMeaning(items: seq<Item>, key: (bool, real))
    ensures var r := Ranked(items);
      var sorted := SortBy(items, RankKey, RankBefore);
      && (forall k :: 0 <= k < |r| ==> r[k] == sorted[k].(rank := k + 1))
      && multiset(sorted) == multiset(items)
      && (forall i, j :: 0 <= i < j < |r| && r[j].rotationCompliant ==> r[i].rotationCompliant)
      && (forall i, j :: 0 <= i < j < |r| && r[i].rotationCompliant == r[j].rotationCompliant ==>
            r[i].estimatedProfit >= r[j].estimatedProfit)
      && WithKey(sorted, RankKey, key) == WithKey(items, RankKey, key)
  {
    RankBeforeTotal();
    SortPermutes(items, RankKey, RankBefore);
    SortSorted(items, RankKey, RankBefore);
    SortStable(items, RankKey, RankBefore, key);
    SortLength(items, RankKey, RankBefore);
  }

  /** `rankItems`: sort, then a loop that copies each item with its position as rank. */
  method RankItems(items: seq<Item>) returns (ranked: seq<Item>)
    ensures ranked == Ranked(items)
  {
    var sorted := SortBy(items, RankKey, RankBefore);
    SortLength(items, RankKey, RankBefore);
    ranked := [];
    var i := 0;
    while i < |sorted|
      invariant 0 <= i <= |sorted|
      invariant |ranked| == i
      invariant forall k :: 0 <= k < i ==> ranked[k] == sorted[k].(rank := k + 1)
    {
      var item := sorted[i];
      ranked := ranked + [Item(item.cropTypeId, item.cropTypeName, item.rotationCompliant, item.violationReason,
                               item.predictedYield, item.predictedPrice, item.estimatedProfit, i + 1)];
      i := i + 1;
    }
  }

  /** The body of the service's candidate loop: violation, predictions, profit. */
  method EvaluateCandidate(lastCrop: Option<CropType>, cropType: CropType, inp: Inputs) returns (item: Item)
    requires lastCrop == LastCrop(inp.latestFirst)
    ensures item == CandidateItem(cropType, inp)
  {
    var violation := CheckRotationViolation(lastCrop, cropType, inp);
    var predictedYield := if inp.seasonalWeather then inp.yieldOf(cropType) else None;
    var predictedPrice := inp.priceOf(cropType);
    var estimatedProfit := 0.0;
    if predictedYield.Some? && predictedPrice.Some? {
      var costs := CostOf(cropType.name);
      estimatedProfit := predictedYield.value * predictedPrice.value * 0.1 - costs;
    }
    item := Item(cropType.id, cropType.name, violation.None?, violation,
                 predictedYield, predictedPrice, estimatedProfit, 0);
  }

  /** `getRecommendations` with the fetches as parameters: the field must exist. */
  function RecommendationsOf(fieldId: int, fields: map<int, DiseaseRisk.Field>, types: seq<CropType>, inp: Inputs)
    : Result<Response, DiseaseRisk.RiskError>
  {
    if fieldId !in fields then Err(DiseaseRisk.FieldNotFound(fieldId))
    else Ok(Response(fieldId, fields[fieldId].fieldName, inp.targetYear, Ranked(Candidates(types, inp))))
  }

  /** Ranking drops no crop: every input item's crop is in the ranked list. */
  lemma RankedKeepsCrops(items: seq<Item>)
    ensures var r := Ranked(items);
      forall k :: 0 <= k < |items| ==> exists j :: 0 <= j < |r| && r[j].cropTypeId == items[k].cropTypeId
  {
    var r := Ranked(items);
    var sorted := SortBy(items, RankKey, RankBefore);
    SortPermutes(items, RankKey, RankBefore);
    SortLength(items, RankKey, RankBefore);
    forall k | 0 <= k < |items|
      ensures exists j :: 0 <= j < |r| && r[j].cropTypeId == items[k].cropTypeId
    {
      assert items[k] in multiset(sorted);
      var j :| 0 <= j < |sorted| && sorted[j] == items[k];
      assert r[j].cropTypeId == sorted[j].cropTypeId;
    }
  }

  /**
   * Ranking invents no crop: every ranked item's crop was an input's; and if
   * every input is compliant, so is every ranked item.
   */
  lemma RankedInventsNone(items: seq<Item>)
    ensures var r := Ranked(items);
      && (forall j :: 0 <= j < |r| ==> exists k :: 0 <= k < |items| && r[j].cropTypeId == items[k].cropTypeId)
      && ((forall k :: 0 <= k < |items| ==> items[k].rotationCompliant) ==> forall j :: 0 <= j < |r| ==> r[j].rotationCompliant)
  {
    var r := Ranked(items);
    var sorted := SortBy(items, RankKey, RankBefore);
    SortPermutes(items, RankKey, RankBefore);
    SortLength(items, RankKey, RankBefore);
    forall j | 0 <= j < |r|
      ensures exists k :: 0 <= k < |items| && r[j].cropTypeId == items[k].cropTypeId && r[j].rotationCompliant == items[k].rotationCompliant
    {
      assert sorted[j] in multiset(items);
      var k :| 0 <= k < |items| && items[k] == sorted[j];
      assert r[j].cropTypeId == sorted[j].cropTypeId && r[j].rotationCompliant == sorted[j].rotationCompliant;
    }
  }

  /** An unknown field is an error; otherwise the list is the ranked candidates. */
  lemma RecommendationsOutcome(fieldId: int, fields: map<int, DiseaseRisk.Field>, types: seq<CropType>, inp: Inputs)
    ensures RecommendationsOf(fieldId, fields, types, inp).Err? <==> fieldId !in fields
    ensures fieldId in fields ==>
      RecommendationsOf(fieldId, fields, types, inp).value.recommendations == Ranked(Candidates(types, inp))
  {
  }

  /** Every crop type gets an item: the list is as long as the type list and holds each type's crop. */
  lemma EveryCropRanked(types: seq<CropType>, inp: Inputs)
    ensures var r := Ranked(Candidates(types, inp));
      && |r| == |types|
      && forall k :: 0 <= k < |types| ==> exists j :: 0 <= j < |r| && r[j].cropTypeId == types[k].id
  {
    var items := Candidates(types, inp);
    var r := Ranked(items);
    RankedKeepsCrops(items);
    forall k | 0 <= k < |types|
      ensures exists j :: 0 <= j < |r| && r[j].cropTypeId == types[k].id
    {
      CandidateCrop(types, inp, k);
    }
  }

  /** No item is for a crop outside the type list. */
  lemma OnlyKnownCrops(types: seq<CropType>, inp: Inputs)
    ensures var r := Ranked(Candidates(types, inp));
      forall j :: 0 <= j < |r| ==> exists k :: 0 <= k < |types| && r[j].cropTypeId == types[k].id
  {
    var items := Candidates(types, inp);
    var r := Ranked(items);
    RankedInventsNone(items);
    forall j | 0 <= j < |r|
      ensures exists k :: 0 <= k < |types| && r[j].cropTypeId == types[k].id
    {
      var k :| 0 <= k < |items| && r[j].cropTypeId == items[k].cropTypeId;
      CandidateCrop(types, inp, k);
    }
  }

  /** Ranks run 1..N and compliant crops come first. */
  lemma RanksAndCompliance(types: seq<CropType>, inp: Inputs)
    ensures var r := Ranked(Candidates(types, inp));
      && (forall k :: 0 <= k < |r| ==> r[k].rank == k + 1)
      && (forall i, j :: 0 <= i < j < |r| && r[j].rotationCompliant ==> r[i].rotationCompliant)
  {
    RankedMeaning(Candidates(types, inp), (true, 0.0));
  }

  /** A field with no planting history has no rotation violations: every crop is compliant. */
  lemma FirstPlantingAllCompliant(types: seq<CropType>, inp: Inputs)
    requires inp.latestFirst == []
    ensures var r := Ranked(Candidates(types, inp));
      forall j :: 0 <= j < |r| ==> r[j].rotationCompliant && r[j].violationReason.None?
  {
    var items := Candidates(types, inp);
    var r := Ranked(items);
    var sorted := SortBy(items, RankKey, RankBefore);
    RankedMeaning(items, (true, 0.0));
    forall j | 0 <= j < |r|
      ensures r[j].rotationCompliant && r[j].violationReason.None?
    {
      assert sorted[j] in multiset(items);
      var k :| 0 <= k < |items| && items[k] == sorted[j];
      CandidateClean(types, inp, k);
    }
  }

  /** `getRecommendations`: one candidate item per crop type, in a loop, then the ranking. */
  method GetRecommendations(fieldId: int, fields: map<int, DiseaseRisk.Field>, types: seq<CropType>, inp: Inputs)
    returns (r: Result<Response, DiseaseRisk.RiskError>)
    ensures r == RecommendationsOf(fieldId, fields, types, inp)
  {
    if fieldId !in fields {
      return Err(DiseaseRisk.FieldNotFound(fieldId));
    }
    var field := fields[fieldId];
    var items := EvaluateCandidates(types, inp);
    var ranked := RankItems(items);
    r := Ok(Response(fieldId, field.fieldName, inp.targetYear, ranked));
  }

  /** The service's loop over all crop types, with the last crop read once before it. */
  method EvaluateCandidates(types: seq<CropType>, inp: Inputs) returns (items: seq<Item>)
    ensures items == Candidates(types, inp)
  {
    var lastCrop := if inp.latestFirst == [] then None else Some(inp.latestFirst[0].cropType);
    items := [];
    var i := 0;
    assert types[..0] == [];
    while i < |types|
      invariant 0 <= i <= |types|
      invariant items == Candidates(types[..i], inp)
    {
      var item := EvaluateCandidate(lastCrop, types[i], inp);
      CandidatesStep(types, inp, i);
      items := items + [item];
      i := i + 1;
    }
    assert types[..i] == types;
  }

  lemma CandidatesStep(types: seq<CropType>, inp: Inputs, i: nat)
    requires i < |types|
    ensures Candidates(types[..i + 1], inp) == Candidates(types[..i], inp) + [CandidateItem(types[i], inp)]
  {
    assert types[..i + 1][..i] == types[..i];
  }
}
