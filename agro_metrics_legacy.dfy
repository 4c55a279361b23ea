/**
 * The older `AgrometricalDataService.calculateMetrics`: one pass over the daily
 * maxima and precipitation of a response, giving the six-field record.
 *
 * Unlike the newer calculator it unboxes every value: a null maximum, or a
 * precipitation list that is present but short or holds a null at the day's
 * index, throws.  Its reported precipitation is the rain of the active days
 * (maximum above 10 °C), and its lowest maximum starts at `Double.MAX_VALUE`,
 * modelled as `None`.
 */
module AgroMetricsLegacy {
  import opened Wrappers
  import opened WeatherData
  import opened AgroMetrics

  /** The six-field record of the older service; `minTempRecord == None` stands for `Double.MAX_VALUE`. */
  datatype LegacyData = LegacyData(
    gtk: real,
    sumPrecipitation: real,
    sumEffectiveTemp: real,
    heatStressDays: int,
    minTempRecord: Option<real>,
    stressLevel: string)

  /** The exceptions `calculateMetrics` can throw. */
  datatype LegacyError =
    | NoDailyBlock            // `response.daily()` is null
    | NoTemperatures          // the maximum-temperature list is null
    | NullTemperature(day: nat)  // unboxing a null maximum
    | UnreadableRain(day: nat)   // a present precipitation list that is too short or holds a null

  /** Reading day `i` fails: its maximum is null, or the precipitation list is present but has no value there. */
  predicate Fails(temps: seq<Option<real>>, rain: Option<seq<Option<real>>>, i: nat)
    requires i < |temps|
  {
    temps[i].None? || (rain.Some? && (i >= |rain.value| || rain.value[i].None?))
  }

  /** The exception of the first of the first `n` days whose reading fails, if any. */
  function FirstFailure(temps: seq<Option<real>>, rain: Option<seq<Option<real>>>, n: nat): Option<LegacyError>
    requires n <= |temps|
  {
    if n == 0 then None
    else
      var before := FirstFailure(temps, rain, n - 1);
      if before.Some? then before
      else if temps[n - 1].None? then Some(NullTemperature(n - 1))
      else if Fails(temps, rain, n - 1) then Some(UnreadableRain(n - 1))
      else None
  }

  /**
   * The record of a readable series, from the newer calculator's reference
   * sums: the rain reported is the active days' rain, GTK is computed from it.
   */
  function LegacyOf(temps: seq<Option<real>>, rain: Option<seq<Option<real>>>): LegacyData
  {
    var n := |temps|;
    var gtk := Gtk(ActiveRain(temps, rain, n), ActiveTempSum(temps, n));
    LegacyData(gtk, ActiveRain(temps, rain, n), ActiveTempSum(temps, n),
               CountAbove(temps, n, HeatStressThreshold), LowestMax(temps, n), InterpretGtk(gtk))
  }

  /** What `calculateMetrics` yields for a response. */
  function LegacyMetrics(response: Response): Result<LegacyData, LegacyError>
  {
    if response.daily.None? then Err(NoDailyBlock)
    else
      var temps := DailyValues(response.daily.value, TemperatureMax);
      var rain := DailyValues(response.daily.value, PrecipitationSum);
      if temps.None? then Err(NoTemperatures)
      else
        var failure := FirstFailure(temps.value, rain, |temps.value|);
        if failure.Some? then Err(failure.value) else Ok(LegacyOf(temps.value, rain))
  }

  /** `calculateMetrics`. */
  method CalculateMetrics(response: Response) returns (r: Result<LegacyData, LegacyError>)
    ensures r == LegacyMetrics(response)
  {
    if response.daily.None? {
      return Err(NoDailyBlock);
    }
    var temperatures := DailyValues(response.daily.value, TemperatureMax);
    var precipitations := DailyValues(response.daily.value, PrecipitationSum);
    if temperatures.None? {
      return Err(NoTemperatures);
    }
    var temps := temperatures.value;
    var sumEffectiveTemp := 0.0;
    var sumPrecipitation := 0.0;
    var heatStressDays := 0;
    var minTemp: Option<real> := None;
    for i := 0 to |temps|
      invariant FirstFailure(temps, precipitations, i).None?
      invariant sumEffectiveTemp == ActiveTempSum(temps, i)
      invariant sumPrecipitation == ActiveRain(temps, precipitations, i)
      invariant heatStressDays == CountAbove(temps, i, HeatStressThreshold)
      invariant minTemp == LowestMax(temps, i)
    {
      if temps[i].None? {
        FirstFailureSticks(temps, precipitations, i + 1, |temps|);
        return Err(NullTemperature(i));
      }
      var temp := temps[i].value;
      var rain := 0.0;
      if precipitations.Some? {
        if i >= |precipitations.value| || precipitations.value[i].None? {
          FirstFailureSticks(temps, precipitations, i + 1, |temps|);
          return Err(UnreadableRain(i));
        }
        rain := precipitations.value[i].value;
      }
      if minTemp.None? || temp < minTemp.value {
        minTemp := Some(temp);
      }
      if temp > HeatStressThreshold {
        heatStressDays := heatStressDays + 1;
      }
      if temp > ActiveTempThreshold {
        sumEffectiveTemp := sumEffectiveTemp + temp;
        sumPrecipitation := sumPrecipitation + rain;
      }
    }
    var gtk := Gtk(sumPrecipitation, sumEffectiveTemp);
    r := Ok(LegacyData(gtk, sumPrecipitation, sumEffectiveTemp, heatStressDays, minTemp, InterpretGtk(gtk)));
  }

  // ---- what the record means ----------------------------------------------------

  /** Once a day has failed, later days do not change the exception. */
  lemma {:induction false} FirstFailureSticks(temps: seq<Option<real>>, rain: Option<seq<Option<real>>>, k: nat, n: nat)
    requires k <= n <= |temps| && FirstFailure(temps, rain, k).Some?
    ensures FirstFailure(temps, rain, n) == FirstFailure(temps, rain, k)
  {
    if n > k {
      FirstFailureSticks(temps, rain, k, n - 1);
    }
  }

  /** The first failure names a day whose reading fails, and every earlier day is readable. */
  lemma {:induction false} FirstFailureIsFirst(temps: seq<Option<real>>, rain: Option<seq<Option<real>>>, n: nat)
    requires n <= |temps|
    ensures FirstFailure(temps, rain, n).None? <==> forall i :: 0 <= i < n ==> !Fails(temps, rain, i)
    ensures FirstFailure(temps, rain, n).Some? ==>
              var e := FirstFailure(temps, rain, n).value;
              && (e.NullTemperature? || e.UnreadableRain?)
              && e.day < n && Fails(temps, rain, e.day)
              && (e.NullTemperature? <==> temps[e.day].None?)
              && forall i :: 0 <= i < e.day ==> !Fails(temps, rain, i)
  {
    if n > 0 {
      FirstFailureIsFirst(temps, rain, n - 1);
      if FirstFailure(temps, rain, n).None? {
        forall i | 0 <= i < n
          ensures !Fails(temps, rain, i)
        {
          if i < n - 1 {
            assert FirstFailure(temps, rain, n - 1).None?;
          }
        }
      } else {
        var e := FirstFailure(temps, rain, n).value;
        assert e.day < n && Fails(temps, rain, e.day);
      }
    }
  }

  /** A readable series counts every day. */
  lemma {:induction false} ReadableCountsAll(temps: seq<Option<real>>, rain: Option<seq<Option<real>>>, n: nat)
    requires n <= |temps| && FirstFailure(temps, rain, n).None?
    ensures Counted(temps, n) == n
  {
    if n > 0 {
      ReadableCountsAll(temps, rain, n - 1);
    }
  }

  /** Without a precipitation list every day reads as dry. */
  lemma {:induction false} NoRainListNoRain(temps: seq<Option<real>>, n: nat)
    requires n <= |temps|
    ensures ActiveRain(temps, None, n) == 0.0
  {
    if n > 0 {
      NoRainListNoRain(temps, n - 1);
    }
  }

  /**
   * The call succeeds exactly when the daily block and the maximum list are
   * present and every day is readable; otherwise the exception names the
   * first failing day.
   */
  lemma LegacyFailsOnFirstUnreadableDay(response: Response)
    ensures LegacyMetrics(response).Ok? <==>
              && response.daily.Some? && DailyValues(response.daily.value, TemperatureMax).Some?
              && var temps := DailyValues(response.daily.value, TemperatureMax).value;
                 var rain := DailyValues(response.daily.value, PrecipitationSum);
                 forall i :: 0 <= i < |temps| ==> !Fails(temps, rain, i)
    ensures LegacyMetrics(response).Err? && response.daily.Some?
            && DailyValues(response.daily.value, TemperatureMax).Some? ==>
              var temps := DailyValues(response.daily.value, TemperatureMax).value;
              var rain := DailyValues(response.daily.value, PrecipitationSum);
              var e := LegacyMetrics(response).error;
              && (e.NullTemperature? || e.UnreadableRain?)
              && e.day < |temps| && Fails(temps, rain, e.day)
              && forall i :: 0 <= i < e.day ==> !Fails(temps, rain, i)
  {
    if response.daily.Some? && DailyValues(response.daily.value, TemperatureMax).Some? {
      var temps := DailyValues(response.daily.value, TemperatureMax).value;
      FirstFailureIsFirst(temps, DailyValues(response.daily.value, PrecipitationSum), |temps|);
    }
  }

  /**
   * Heat-stress days are days above 30 °C and never outnumber the days; the
   * lowest maximum stays `Double.MAX_VALUE` exactly for an empty series and is
   * otherwise the smallest maximum.
   */
  lemma LegacyCountsAndMinimum(temps: seq<Option<real>>, rain: Option<seq<Option<real>>>)
    requires FirstFailure(temps, rain, |temps|).None?
    ensures 0 <= LegacyOf(temps, rain).heatStressDays <= |temps|
    ensures LegacyOf(temps, rain).minTempRecord.None? <==> temps == []
    ensures LegacyOf(temps, rain).minTempRecord.Some? ==>
              (forall i :: 0 <= i < |temps| ==> temps[i].Some? && LegacyOf(temps, rain).minTempRecord.value <= temps[i].value)
              && exists i :: 0 <= i < |temps| && temps[i] == LegacyOf(temps, rain).minTempRecord
  {
    FirstFailureIsFirst(temps, rain, |temps|);
    assert forall i :: 0 <= i < |temps| ==> temps[i].Some? by {
      forall i | 0 <= i < |temps|
        ensures temps[i].Some?
      {
        assert !Fails(temps, rain, i);
      }
    }
    ReadableCountsAll(temps, rain, |temps|);
    CountAboveAntitone(temps, |temps|, HeatStressThreshold, HeatStressThreshold);
    LowestMaxIsMinimum(temps, |temps|);
  }

  /**
   * GTK is ten times the active days' rain over their temperature sum, and 0
   * when no day is above 10 °C; the reported precipitation is that same active
   * rain.
   */
  lemma LegacyGtk(temps: seq<Option<real>>, rain: Option<seq<Option<real>>>)
    ensures var m := LegacyOf(temps, rain);
            && (CountAbove(temps, |temps|, ActiveTempThreshold) == 0 ==> m.gtk == 0.0)
            && (CountAbove(temps, |temps|, ActiveTempThreshold) > 0 ==>
                  m.sumEffectiveTemp > 0.0 && m.gtk == m.sumPrecipitation * GtkMultiplier / m.sumEffectiveTemp)
  {
    var m := LegacyOf(temps, rain);
    var sum := ActiveTempSum(temps, |temps|);
    var r := ActiveRain(temps, rain, |temps|);
    assert m.gtk == Gtk(r, sum) && m.sumEffectiveTemp == sum && m.sumPrecipitation == r;
    ActiveTempSumBounds(temps, |temps|);
    if CountAbove(temps, |temps|, ActiveTempThreshold) > 0 {
      var c := CountAbove(temps, |temps|, ActiveTempThreshold) as real;
      assert sum >= ActiveTempThreshold * c && c >= 1.0;
      assert sum > 0.0;
      assert Gtk(r, sum) == r * GtkMultiplier / sum;
    }
  }

  /** Without a precipitation list the reported rain is 0, and so is GTK. */
  lemma LegacyNoRainList(temps: seq<Option<real>>)
    ensures LegacyOf(temps, None).sumPrecipitation == 0.0 && LegacyOf(temps, None).gtk == 0.0
  {
    NoRainListNoRain(temps, |temps|);
  }

  /**
   * On a readable non-empty series the two calculators agree on GTK, its
   * label, the active-temperature sum, the heat-stress days and the lowest
   * maximum; the older one reports only the active days' rain.
   */
  lemma LegacyAgreesWithNewer(temps: seq<Option<real>>, rain: Option<seq<Option<real>>>,
                              means: Option<seq<Option<real>>>)
    requires FirstFailure(temps, rain, |temps|).None? && temps != []
    ensures var old_ := LegacyOf(temps, rain);
            var new_ := MetricsOf(temps, rain, means);
            && old_.gtk == new_.gtk && old_.stressLevel == new_.stressLevel
            && old_.sumEffectiveTemp == new_.sumEffectiveTemp
            && old_.heatStressDays == new_.heatStressDays
            && old_.minTempRecord == Some(new_.minTempRecord)
            && old_.sumPrecipitation == ActiveRain(temps, rain, |temps|)
  {
    LegacyCountsAndMinimum(temps, rain);
  }
}
