/**
 * `AgrometricalDataServiceImpl.computeMetrics` and `interpretGtk`: one pass over
 * a daily series giving the Selyaninov hydrothermal coefficient (GTK), the
 * active-temperature sum, precipitation totals, heat-day counts, the lowest
 * daily maximum, the mean temperature and the longest dry spell.
 *
 * A day is "counted" when its maximum temperature is present; days without
 * one change nothing.  Rain that is missing reads as 0 mm.
 */
module AgroMetrics {
  import opened Wrappers

  const ActiveTempThreshold: real := 10.0
  const HeatStressThreshold: real := 30.0
  const ExtremeHeatThreshold: real := 35.0
  const GtkMultiplier: real := 10.0
  const DryDayThreshold: real := 1.0

  /** The nine-field result record. */
  datatype AgrometricalData = AgrometricalData(
    gtk: real,
    sumPrecipitation: real,
    sumEffectiveTemp: real,
    heatStressDays: int,
    minTempRecord: real,
    stressLevel: string,
    avgTemp: real,
    extremeHeatDays: int,
    longestDryPeriod: int)

  // ---- interpretGtk --------------------------------------------------------

  /** The moisture classes `interpretGtk` names, driest first after "no data". */
  datatype GtkClass = NoData | SevereDrought | Dry | OptimalMoisture | ExcessMoisture | Waterlogging

  function ClassifyGtk(gtk: real): (c: GtkClass)
    ensures c == NoData <==> gtk == 0.0
    ensures c == SevereDrought <==> gtk != 0.0 && gtk < 0.6
    ensures c == Dry <==> 0.6 <= gtk < 1.0
    ensures c == OptimalMoisture <==> 1.0 <= gtk < 1.3
    ensures c == ExcessMoisture <==> 1.3 <= gtk < 1.6
    ensures c == Waterlogging <==> 1.6 <= gtk
  {
    if gtk == 0.0 then NoData
    else if gtk < 0.6 then SevereDrought
    else if gtk < 1.0 then Dry
    else if gtk < 1.3 then OptimalMoisture
    else if gtk < 1.6 then ExcessMoisture
    else Waterlogging
  }

  function Wetness(c: GtkClass): nat
  {
    match c
    case NoData => 0
    case SevereDrought => 1
    case Dry => 2
    case OptimalMoisture => 3
    case ExcessMoisture => 4
    case Waterlogging => 5
  }

  function GtkLabel(c: GtkClass): string
  {
    match c
    case NoData => "Нет данных (T < 10°C)"
    case SevereDrought => "Очень сильная засуха"
    case Dry => "Засушливо"
    case OptimalMoisture => "Оптимальное увлажнение"
    case ExcessMoisture => "Избыточное увлажнение"
    case Waterlogging => "Переувлажнение / Риск гниения"
  }

  /** `interpretGtk`. */
  function InterpretGtk(gtk: real): string
  {
    GtkLabel(ClassifyGtk(gtk))
  }

  /** For a positive GTK the class only gets wetter as GTK grows. */
  lemma ClassifyGtkMonotone(a: real, b: real)
    requires 0.0 < a <= b
    ensures 1 <= Wetness(ClassifyGtk(a)) <= Wetness(ClassifyGtk(b))
  {
  }

  /** Distinct classes have distinct labels, so the label names the class. */
  lemma GtkLabelsDistinct(c: GtkClass, d: GtkClass)
    requires c != d
    ensures GtkLabel(c) != GtkLabel(d)
  {
    assert GtkLabel(c)[0] != GtkLabel(d)[0] || |GtkLabel(c)| != |GtkLabel(d)|;
  }

  /** No GTK label is the bare "no data" label of the empty record, so the two can be told apart. */
  lemma NoGtkLabelIsEmptyLabel(c: GtkClass)
    ensures GtkLabel(c) != EmptyMetrics().stressLevel
  {
    assert GtkLabel(c)[0] != 'Н' || |GtkLabel(c)| != |EmptyMetrics().stressLevel|;
  }

  /** `calculateGtk`. */
  function Gtk(activeRain: real, activeTempSum: real): (g: real)
    ensures activeTempSum <= 0.0 ==> g == 0.0
    ensures activeTempSum > 0.0 ==> g * activeTempSum == activeRain * GtkMultiplier
  {
    if activeTempSum <= 0.0 then 0.0 else (activeRain * GtkMultiplier) / activeTempSum
  }

  /** `createEmptyMetrics`. */
  function EmptyMetrics(): AgrometricalData
  {
    AgrometricalData(0.0, 0.0, 0.0, 0, 0.0, "Нет данных", 0.0, 0, 0)
  }

  // ---- reference definitions over the first n days ---------------------------

  /** The rain of day `i`: 0 when the list, the entry or the value is missing. */
  function RainAt(rain: Option<seq<Option<real>>>, i: nat): real
  {
    if rain.Some? && i < |rain.value| && rain.value[i].Some? then rain.value[i].value else 0.0
  }

  /** The value of day `i` of a nullable list, `None` past its end. */
  function ValueAt(values: Option<seq<Option<real>>>, i: nat): Option<real>
  {
    if values.Some? && i < |values.value| then values.value[i] else None
  }

  function Counted(temps: seq<Option<real>>, n: nat): nat
    requires n <= |temps|
  {
    if n == 0 then 0 else Counted(temps, n - 1) + (if temps[n - 1].Some? then 1 else 0)
  }

  /** The counted days whose maximum is above `threshold`. */
  function CountAbove(temps: seq<Option<real>>, n: nat, threshold: real): nat
    requires n <= |temps|
  {
    if n == 0 then 0
    else CountAbove(temps, n - 1, threshold) + (if temps[n - 1].Some? && temps[n - 1].value > threshold then 1 else 0)
  }

  /** The sum of the maxima above 10 °C. */
  function ActiveTempSum(temps: seq<Option<real>>, n: nat): real
    requires n <= |temps|
  {
    if n == 0 then 0.0
    else ActiveTempSum(temps, n - 1)
         + (if temps[n - 1].Some? && temps[n - 1].value > ActiveTempThreshold then temps[n - 1].value else 0.0)
  }

  /** The rain of the days whose maximum is above 10 °C. */
  function ActiveRain(temps: seq<Option<real>>, rain: Option<seq<Option<real>>>, n: nat): real
    requires n <= |temps|
  {
    if n == 0 then 0.0
    else ActiveRain(temps, rain, n - 1)
         + (if temps[n - 1].Some? && temps[n - 1].value > ActiveTempThreshold then RainAt(rain, n - 1) else 0.0)
  }

  /** The rain of all counted days. */
  function AllRain(temps: seq<Option<real>>, rain: Option<seq<Option<real>>>, n: nat): real
    requires n <= |temps|
  {
    if n == 0 then 0.0
    else AllRain(temps, rain, n - 1) + (if temps[n - 1].Some? then RainAt(rain, n - 1) else 0.0)
  }

  /** The lowest maximum among the counted days, if any. */
  function LowestMax(temps: seq<Option<real>>, n: nat): Option<real>
    requires n <= |temps|
  {
    if n == 0 then None
    else
      var before := LowestMax(temps, n - 1);
      if temps[n - 1].None? then before
      else if before.None? || temps[n - 1].value < before.value then temps[n - 1]
      else before
  }

  /** The sum and number of the mean temperatures present on counted days. */
  function MeanSum(temps: seq<Option<real>>, means: Option<seq<Option<real>>>, n: nat): real
    requires n <= |temps|
  {
    if n == 0 then 0.0
    else MeanSum(temps, means, n - 1)
         + (if temps[n - 1].Some? && ValueAt(means, n - 1).Some? then ValueAt(means, n - 1).value else 0.0)
  }

  function MeanCount(temps: seq<Option<real>>, means: Option<seq<Option<real>>>, n: nat): nat
    requires n <= |temps|
  {
    if n == 0 then 0
    else MeanCount(temps, means, n - 1) + (if temps[n - 1].Some? && ValueAt(means, n - 1).Some? then 1 else 0)
  }

  predicate IsDryDay(temps: seq<Option<real>>, rain: Option<seq<Option<real>>>, i: nat)
    requires i < |temps|
  {
    temps[i].Some? && RainAt(rain, i) < DryDayThreshold
  }

  /** The run of dry counted days that ends with day `n - 1`; uncounted days neither extend nor break it. */
  function DryRun(temps: seq<Option<real>>, rain: Option<seq<Option<real>>>, n: nat): nat
    requires n <= |temps|
  {
    if n == 0 then 0
    else if temps[n - 1].None? then DryRun(temps, rain, n - 1)
    else if RainAt(rain, n - 1) < DryDayThreshold then DryRun(temps, rain, n - 1) + 1
    else 0
  }

  /** The longest such run within the first `n` days. */
  function LongestDry(temps: seq<Option<real>>, rain: Option<seq<Option<real>>>, n: nat): nat
    requires n <= |temps|
  {
    if n == 0 then 0
    else
      var before := LongestDry(temps, rain, n - 1);
      if DryRun(temps, rain, n) > before then DryRun(temps, rain, n) else before
  }

  /** The record the whole series yields. */
  function MetricsOf(temps: seq<Option<real>>, rain: Option<seq<Option<real>>>, means: Option<seq<Option<real>>>)
    : AgrometricalData
  {
    var n := |temps|;
    var gtk := Gtk(ActiveRain(temps, rain, n), ActiveTempSum(temps, n));
    AgrometricalData(
      gtk,
      AllRain(temps, rain, n),
      ActiveTempSum(temps, n),
      CountAbove(temps, n, HeatStressThreshold),
      LowestMax(temps, n).GetOr(0.0),
      InterpretGtk(gtk),
      if MeanCount(temps, means, n) > 0 then MeanSum(temps, means, n) / (MeanCount(temps, means, n) as real) else 0.0,
      CountAbove(temps, n, ExtremeHeatThreshold),
      LongestDry(temps, rain, n))
  }

  // ---- computeMetrics ---------------------------------------------------------

  /** `computeMetrics`. */
  method ComputeMetrics(temps: seq<Option<real>>, rain: Option<seq<Option<real>>>, means: Option<seq<Option<real>>>)
    returns (m: AgrometricalData)
    ensures m == MetricsOf(temps, rain, means)
  {
    var sumEffectiveTemp := 0.0;
    var sumPrecipitation := 0.0;
    var sumAllPrecip := 0.0;
    var heatStressDays := 0;
    var extremeHeatDays := 0;
    var minTemp: Option<real> := None;
    var sumMeanTemp := 0.0;
    var meanTempCount := 0;
    var currentDryStreak := 0;
    var longestDryPeriod := 0;
    for i := 0 to |temps|
      invariant sumEffectiveTemp == ActiveTempSum(temps, i)
      invariant sumPrecipitation == ActiveRain(temps, rain, i)
      invariant sumAllPrecip == AllRain(temps, rain, i)
      invariant heatStressDays == CountAbove(temps, i, HeatStressThreshold)
      invariant extremeHeatDays == CountAbove(temps, i, ExtremeHeatThreshold)
      invariant minTemp == LowestMax(temps, i)
      invariant sumMeanTemp == MeanSum(temps, means, i)
      invariant meanTempCount == MeanCount(temps, means, i)
      invariant currentDryStreak == DryRun(temps, rain, i)
      invariant longestDryPeriod == LongestDry(temps, rain, i)
    {
      if temps[i].None? {
        continue;
      }
      var temp := temps[i].value;
      var dayRain := RainAt(rain, i);
      sumAllPrecip := sumAllPrecip + dayRain;
      if minTemp.None? || temp < minTemp.value {
        minTemp := Some(temp);
      }
      if temp > HeatStressThreshold {
        heatStressDays := heatStressDays + 1;
      }
      if temp > ExtremeHeatThreshold {
        extremeHeatDays := extremeHeatDays + 1;
      }
      if temp > ActiveTempThreshold {
        sumEffectiveTemp := sumEffectiveTemp + temp;
        sumPrecipitation := sumPrecipitation + dayRain;
      }
      var mean := ValueAt(means, i);
      if mean.Some? {
        sumMeanTemp := sumMeanTemp + mean.value;
        meanTempCount := meanTempCount + 1;
      }
      if dayRain < DryDayThreshold {
        currentDryStreak := currentDryStreak + 1;
        if currentDryStreak > longestDryPeriod {
          longestDryPeriod := currentDryStreak;
        }
      } else {
        currentDryStreak := 0;
      }
    }
    var gtk := Gtk(sumPrecipitation, sumEffectiveTemp);
    var avgTemp := if meanTempCount > 0 then sumMeanTemp / (meanTempCount as real) else 0.0;
    m := AgrometricalData(gtk, sumAllPrecip, sumEffectiveTemp, heatStressDays, minTemp.GetOr(0.0),
                          InterpretGtk(gtk), avgTemp, extremeHeatDays, longestDryPeriod);
  }

  // ---- what the record means ----------------------------------------------------

  lemma {:induction false} CountAboveAntitone(temps: seq<Option<real>>, n: nat, lo: real, hi: real)
    requires n <= |temps| && lo <= hi
    ensures CountAbove(temps, n, hi) <= CountAbove(temps, n, lo) <= Counted(temps, n)
  {
    if n > 0 {
      CountAboveAntitone(temps, n - 1, lo, hi);
    }
  }

  /** Extreme-heat days are heat-stress days, and both are counted days. */
  lemma HeatDaysNested(temps: seq<Option<real>>, rain: Option<seq<Option<real>>>, means: Option<seq<Option<real>>>)
    ensures 0 <= MetricsOf(temps, rain, means).extremeHeatDays
              <= MetricsOf(temps, rain, means).heatStressDays
              <= Counted(temps, |temps|)
  {
    CountAboveAntitone(temps, |temps|, HeatStressThreshold, ExtremeHeatThreshold);
  }

  /** The active-temperature sum is at least 10 °C per active day, and 0 without active days. */
  lemma {:induction false} ActiveTempSumBounds(temps: seq<Option<real>>, n: nat)
    requires n <= |temps|
    ensures ActiveTempSum(temps, n) >= ActiveTempThreshold * (CountAbove(temps, n, ActiveTempThreshold) as real)
    ensures CountAbove(temps, n, ActiveTempThreshold) == 0 ==> ActiveTempSum(temps, n) == 0.0
  {
    if n > 0 {
      ActiveTempSumBounds(temps, n - 1);
    }
  }

  /**
   * GTK is ten times the rain of the active days over their temperature sum,
   * and exactly 0 when no day was above 10 °C.
   */
  lemma GtkOfSeries(temps: seq<Option<real>>, rain: Option<seq<Option<real>>>, means: Option<seq<Option<real>>>)
    ensures var m := MetricsOf(temps, rain, means);
            && (CountAbove(temps, |temps|, ActiveTempThreshold) == 0 ==> m.gtk == 0.0)
            && (CountAbove(temps, |temps|, ActiveTempThreshold) > 0 ==>
                  m.sumEffectiveTemp > 0.0
                  && m.gtk * m.sumEffectiveTemp == GtkMultiplier * ActiveRain(temps, rain, |temps|))
  {
    ActiveTempSumBounds(temps, |temps|);
  }

  /**
   * With no negative rain readings, the reported precipitation (all counted
   * days) is at least the rain GTK uses (active days only).
   */
  lemma {:induction false} AllRainCoversActiveRain(temps: seq<Option<real>>, rain: Option<seq<Option<real>>>, n: nat)
    requires n <= |temps|
    requires forall i :: 0 <= i < n ==> RainAt(rain, i) >= 0.0
    ensures AllRain(temps, rain, n) >= ActiveRain(temps, rain, n) >= 0.0
  {
    if n > 0 {
      AllRainCoversActiveRain(temps, rain, n - 1);
    }
  }

  /** The lowest maximum is a counted day's maximum and no counted day is lower. */
  lemma {:induction false} LowestMaxIsMinimum(temps: seq<Option<real>>, n: nat)
    requires n <= |temps|
    ensures LowestMax(temps, n).None? <==> Counted(temps, n) == 0
    ensures LowestMax(temps, n).Some? ==>
              (forall i :: 0 <= i < n && temps[i].Some? ==> LowestMax(temps, n).value <= temps[i].value)
              && (exists i :: 0 <= i < n && temps[i] == LowestMax(temps, n))
  {
    if n > 0 {
      LowestMaxIsMinimum(temps, n - 1);
      var before := LowestMax(temps, n - 1);
      if before.None? {
        NothingCounted(temps, n - 1);
      }
      if LowestMax(temps, n).Some? {
        var m := LowestMax(temps, n).value;
        forall i | 0 <= i < n && temps[i].Some?
          ensures m <= temps[i].value
        {
          if i < n - 1 {
            assert before.Some?;
          }
        }
      }
    }
  }

  /** The lowest maximum is below zero exactly when some counted day's maximum is. */
  lemma FrostShowsInLowestMax(temps: seq<Option<real>>, rain: Option<seq<Option<real>>>, means: Option<seq<Option<real>>>)
    ensures MetricsOf(temps, rain, means).minTempRecord < 0.0
        <==> exists i :: 0 <= i < |temps| && temps[i].Some? && temps[i].value < 0.0
  {
    LowestMaxIsMinimum(temps, |temps|);
    if exists i :: 0 <= i < |temps| && temps[i].Some? && temps[i].value < 0.0 {
      var i :| 0 <= i < |temps| && temps[i].Some? && temps[i].value < 0.0;
      if LowestMax(temps, |temps|).None? {
        NothingCounted(temps, |temps|);
      }
    }
  }

  lemma {:induction false} NothingCounted(temps: seq<Option<real>>, n: nat)
    requires n <= |temps| && Counted(temps, n) == 0
    ensures forall i :: 0 <= i < n ==> temps[i].None?
  {
    if n > 0 {
      NothingCounted(temps, n - 1);
    }
  }

  lemma {:induction false} CountedMonotone(temps: seq<Option<real>>, k: nat, n: nat)
    requires k <= n <= |temps|
    ensures Counted(temps, k) <= Counted(temps, n)
    decreases n - k
  {
    if k < n {
      CountedMonotone(temps, k, n - 1);
    }
  }

  /** A run of dry days never exceeds the counted days it lies in. */
  lemma {:induction false} DryRunAtMostCounted(temps: seq<Option<real>>, rain: Option<seq<Option<real>>>, n: nat)
    requires n <= |temps|
    ensures DryRun(temps, rain, n) <= Counted(temps, n)
    ensures LongestDry(temps, rain, n) <= Counted(temps, n)
  {
    if n > 0 {
      DryRunAtMostCounted(temps, rain, n - 1);
    }
  }

  /** The longest dry period is the longest of the dry runs ending on each day. */
  lemma {:induction false} LongestDryIsLongestRun(temps: seq<Option<real>>, rain: Option<seq<Option<real>>>, n: nat)
    requires n <= |temps|
    ensures forall k :: 0 <= k <= n ==> DryRun(temps, rain, k) <= LongestDry(temps, rain, n)
    ensures exists k :: 0 <= k <= n && DryRun(temps, rain, k) == LongestDry(temps, rain, n)
  {
    if n > 0 {
      LongestDryIsLongestRun(temps, rain, n - 1);
      if DryRun(temps, rain, n) <= LongestDry(temps, rain, n - 1) {
        var k :| 0 <= k <= n - 1 && DryRun(temps, rain, k) == LongestDry(temps, rain, n - 1);
        assert DryRun(temps, rain, k) == LongestDry(temps, rain, n);
      }
    } else {
      assert DryRun(temps, rain, 0) == LongestDry(temps, rain, 0);
    }
  }

  /**
   * The dry run ending at day `n - 1` is made of dry days: every counted day
   * among its last `DryRun` counted days had less than 1 mm of rain.
   */
  lemma {:induction false} DryRunIsDry(temps: seq<Option<real>>, rain: Option<seq<Option<real>>>, n: nat, i: nat)
    requires i < n <= |temps| && temps[i].Some?
    ensures Counted(temps, n) - Counted(temps, i + 1) < DryRun(temps, rain, n) ==> IsDryDay(temps, rain, i)
  {
    if i < n - 1 {
      if temps[n - 1].Some? && RainAt(rain, n - 1) >= DryDayThreshold {
        CountedMonotone(temps, i + 1, n);
      } else {
        DryRunIsDry(temps, rain, n - 1, i);
      }
    }
  }

  /**
   * Conversely, a span of days `j .. n - 1` whose counted days are all dry is
   * covered by the dry run ending at day `n - 1`, so the longest dry period is
   * at least as long as the span's counted days.
   */
  lemma {:induction false} DrySpanCounted(temps: seq<Option<real>>, rain: Option<seq<Option<real>>>, j: nat, n: nat)
    requires j <= n <= |temps|
    requires forall i :: j <= i < n && temps[i].Some? ==> IsDryDay(temps, rain, i)
    ensures DryRun(temps, rain, n) >= Counted(temps, n) - Counted(temps, j)
    ensures LongestDry(temps, rain, n) >= Counted(temps, n) - Counted(temps, j)
  {
    if n > j {
      DrySpanCounted(temps, rain, j, n - 1);
      if temps[n - 1].Some? {
        assert IsDryDay(temps, rain, n - 1);
      }
    }
    LongestDryIsLongestRun(temps, rain, n);
  }

  /** A series without counted days gives zeros everywhere, with the "below 10 °C" label. */
  lemma {:induction false} NoCountedDays(temps: seq<Option<real>>, rain: Option<seq<Option<real>>>, means: Option<seq<Option<real>>>, n: nat)
    requires n <= |temps|
    requires Counted(temps, n) == 0
    ensures ActiveTempSum(temps, n) == 0.0 && ActiveRain(temps, rain, n) == 0.0 && AllRain(temps, rain, n) == 0.0
    ensures CountAbove(temps, n, HeatStressThreshold) == 0 && CountAbove(temps, n, ExtremeHeatThreshold) == 0
    ensures LowestMax(temps, n) == None && MeanCount(temps, means, n) == 0 && LongestDry(temps, rain, n) == 0
  {
    if n > 0 {
      NoCountedDays(temps, rain, means, n - 1);
    }
  }

  lemma EmptySeriesMetrics(temps: seq<Option<real>>, rain: Option<seq<Option<real>>>, means: Option<seq<Option<real>>>)
    requires Counted(temps, |temps|) == 0
    ensures MetricsOf(temps, rain, means)
         == AgrometricalData(0.0, 0.0, 0.0, 0, 0.0, InterpretGtk(0.0), 0.0, 0, 0)
  {
    NoCountedDays(temps, rain, means, |temps|);
  }
}
