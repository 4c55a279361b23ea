/**
 * The request-level operations of `AgrometricalDataServiceImpl`: metrics of a
 * whole weather response, of the days of a response that fall in a date
 * window, the seasonal breakdown of a harvest year, and the average over
 * several past years.  Weather comes from `OpenMeteoService.GetWeather`, whose
 * HTTP calls are the `fetch` parameter; the clock is the parameter `today`.
 */
module AgroService {
  import opened Wrappers
  import opened Calendar
  import opened Strings
  import opened Means
  import opened WeatherData
  import opened DateUtils
  import opened DateValidator
  import opened OpenMeteoService
  import opened AgroMetrics

  // ---- calculateMetricsFromResponse -------------------------------------------

  /** The response has a daily block with a non-empty list of maximum temperatures. */
  predicate HasTemperatures(response: Response)
  {
    && response.daily.Some?
    && DailyValues(response.daily.value, TemperatureMax).Some?
    && DailyValues(response.daily.value, TemperatureMax).value != []
  }

  /** The metrics of a whole response: the "no data" record when it has no temperatures. */
  function ResponseMetrics(response: Response): AgrometricalData
  {
    if !HasTemperatures(response) then EmptyMetrics()
    else
      var daily := response.daily.value;
      MetricsOf(DailyValues(daily, TemperatureMax).value,
                DailyValues(daily, PrecipitationSum),
                DailyValues(daily, TemperatureMean))
  }

  /** `calculateMetricsFromResponse`. */
  method CalculateMetricsFromResponse(response: Response) returns (m: AgrometricalData)
    ensures m == ResponseMetrics(response)
  {
    if response.daily.None? {
      return EmptyMetrics();
    }
    var daily := response.daily.value;
    var temperatures := DailyValues(daily, TemperatureMax);
    if temperatures.None? || temperatures.value == [] {
      return EmptyMetrics();
    }
    m := ComputeMetrics(temperatures.value, DailyValues(daily, PrecipitationSum), DailyValues(daily, TemperatureMean));
  }

  /**
   * The bare "Нет данных" label appears exactly when the response carries no
   * temperatures; a computed record always carries a GTK label.
   */
  lemma NoDataLabelMeansNoTemperatures(response: Response)
    ensures ResponseMetrics(response).stressLevel == EmptyMetrics().stressLevel <==> !HasTemperatures(response)
    ensures !HasTemperatures(response) ==> ResponseMetrics(response) == EmptyMetrics()
  {
    if HasTemperatures(response) {
      NoGtkLabelIsEmptyLabel(ClassifyGtk(ResponseMetrics(response).gtk));
    }
  }

  /** The metrics of a weather outcome; a failed request stays a failure. */
  function WeatherMetrics(weather: Result<Response, ServiceError>): (r: Result<AgrometricalData, ServiceError>)
    ensures r.Ok? <==> weather.Ok?
    ensures r.Ok? ==> r.value == ResponseMetrics(weather.value)
    ensures r.Err? ==> r.error == weather.error
  {
    if weather.Ok? then Ok(ResponseMetrics(weather.value)) else Err(weather.error)
  }

  /** `calculateHistoricalMetrics`: a historical `getWeather`, then the metrics of its answer. */
  method CalculateHistoricalMetrics(lat: Option<real>, lon: Option<real>, startDate: Option<string>, endDate: Option<string>,
                                    today: Date, settings: WeatherSettings, fetch: WeatherRequest -> Option<Response>)
    returns (weather: Result<Response, ServiceError>, r: Result<AgrometricalData, ServiceError>)
    requires ValidDate(today)
    ensures WeatherOutcome(lat, lon, Some(Historic), None, startDate, endDate, today, settings, fetch, weather)
    ensures r == WeatherMetrics(weather)
  {
    weather := GetWeather(lat, lon, Some(Historic), None, startDate, endDate, today, settings, fetch);
    if weather.Ok? {
      var m := CalculateMetricsFromResponse(weather.value);
      r := Ok(m);
    } else {
      r := Err(weather.error);
    }
  }

  /** `calculateForecastMetrics`: a forecast `getWeather`, then the metrics of its answer. */
  method CalculateForecastMetrics(lat: Option<real>, lon: Option<real>, days: Option<int>,
                                  today: Date, settings: WeatherSettings, fetch: WeatherRequest -> Option<Response>)
    returns (weather: Result<Response, ServiceError>, r: Result<AgrometricalData, ServiceError>)
    requires ValidDate(today)
    ensures WeatherOutcome(lat, lon, Some(Forecast), days, None, None, today, settings, fetch, weather)
    ensures r == WeatherMetrics(weather)
  {
    weather := GetWeather(lat, lon, Some(Forecast), days, None, None, today, settings, fetch);
    if weather.Ok? {
      var m := CalculateMetricsFromResponse(weather.value);
      r := Ok(m);
    } else {
      r := Err(weather.error);
    }
  }

  // ---- computeMetricsForPeriod ---------------------------------------------------

  /** `!date.isBefore(from) && !date.isAfter(to)`: both ends included. */
  predicate InWindow(d: Date, from: Date, to: Date)
  {
    !IsBefore(d, from) && !IsAfter(d, to)
  }

  /** The first `n` time stamps all parse as dates. */
  predicate AllDates(times: seq<string>, n: nat)
    requires n <= |times|
  {
    forall i :: 0 <= i < n ==> ParseIsoDate(times[i]).Some?
  }

  function DateAt(times: seq<string>, i: nat): Date
    requires i < |times| && ParseIsoDate(times[i]).Some?
  {
    ParseIsoDate(times[i]).value
  }

  /** The positions among the first `n` whose date lies in the window, in order. */
  function WindowIndices(times: seq<string>, from: Date, to: Date, n: nat): (idx: seq<nat>)
    requires n <= |times| && AllDates(times, n)
    ensures forall k :: 0 <= k < |idx| ==> idx[k] < n
  {
    if n == 0 then []
    else WindowIndices(times, from, to, n - 1) + (if InWindow(DateAt(times, n - 1), from, to) then [n - 1] else [])
  }

  /** A series cut down to the window: the value at each kept position, null past the series' end. */
  function Window(times: seq<string>, values: Option<seq<Option<real>>>, from: Date, to: Date, n: nat)
    : (w: seq<Option<real>>)
    requires n <= |times| && AllDates(times, n)
  {
    var idx := WindowIndices(times, from, to, n);
    seq(|idx|, k requires 0 <= k < |idx| => ValueAt(values, idx[k]))
  }

  lemma WindowStep(times: seq<string>, values: Option<seq<Option<real>>>, from: Date, to: Date, n: nat)
    requires n < |times| && AllDates(times, n + 1)
    ensures Window(times, values, from, to, n + 1)
         == Window(times, values, from, to, n)
            + (if InWindow(DateAt(times, n), from, to) then [ValueAt(values, n)] else [])
  {
  }

  /** Why a window of a response has no metrics: `LocalDate.parse` throws on a time stamp. */
  datatype PeriodError = UnparseableDate

  /** The metrics of the days of a response that fall in the window. */
  function PeriodMetrics(response: Response, from: Date, to: Date): Result<AgrometricalData, PeriodError>
  {
    if response.daily.None? || response.daily.value.time.None? then Ok(EmptyMetrics())
    else
      var daily := response.daily.value;
      var times := daily.time.value;
      if !AllDates(times, |times|) then Err(UnparseableDate)
      else
        Ok(MetricsOf(Window(times, DailyValues(daily, TemperatureMax), from, to, |times|),
                     Some(Window(times, DailyValues(daily, PrecipitationSum), from, to, |times|)),
                     Some(Window(times, DailyValues(daily, TemperatureMean), from, to, |times|))))
  }

  /** `computeMetricsForPeriod`: filter the three series by date, then compute. */
  method ComputeMetricsForPeriod(response: Response, from: Date, to: Date) returns (r: Result<AgrometricalData, PeriodError>)
    ensures r == PeriodMetrics(response, from, to)
  {
    if response.daily.None? || response.daily.value.time.None? {
      return Ok(EmptyMetrics());
    }
    var daily := response.daily.value;
    var times := daily.time.value;
    var tempMax := DailyValues(daily, TemperatureMax);
    var precip := DailyValues(daily, PrecipitationSum);
    var tempMean := DailyValues(daily, TemperatureMean);
    var filteredTemp: seq<Option<real>> := [];
    var filteredPrecip: seq<Option<real>> := [];
    var filteredMean: seq<Option<real>> := [];
    for i := 0 to |times|
      invariant AllDates(times, i)
      invariant filteredTemp == Window(times, tempMax, from, to, i)
      invariant filteredPrecip == Window(times, precip, from, to, i)
      invariant filteredMean == Window(times, tempMean, from, to, i)
    {
      var date := ParseIsoDate(times[i]);
      if date.None? {
        return Err(UnparseableDate);
      }
      WindowStep(times, tempMax, from, to, i);
      WindowStep(times, precip, from, to, i);
      WindowStep(times, tempMean, from, to, i);
      if !IsBefore(date.value, from) && !IsAfter(date.value, to) {
        filteredTemp := filteredTemp + [ValueAt(tempMax, i)];
        filteredPrecip := filteredPrecip + [ValueAt(precip, i)];
        filteredMean := filteredMean + [ValueAt(tempMean, i)];
      }
    }
    var m := ComputeMetrics(filteredTemp, Some(filteredPrecip), Some(filteredMean));
    r := Ok(m);
  }

  /**
   * The window keeps exactly the positions whose date lies in it, each once and
   * in their original order.
   */
  lemma {:induction false} WindowIndicesExact(times: seq<string>, from: Date, to: Date, n: nat)
    requires n <= |times| && AllDates(times, n)
    ensures var idx := WindowIndices(times, from, to, n);
            && (forall k, l :: 0 <= k < l < |idx| ==> idx[k] < idx[l])
            && (forall i :: 0 <= i < n ==> (i in idx <==> InWindow(DateAt(times, i), from, to)))
  {
    if n > 0 {
      WindowIndicesExact(times, from, to, n - 1);
    }
  }

  /** A window that contains every date keeps every day. */
  lemma {:induction false} WindowKeepsAll(times: seq<string>, from: Date, to: Date, n: nat)
    requires n <= |times| && AllDates(times, n)
    requires forall i :: 0 <= i < n ==> InWindow(DateAt(times, i), from, to)
    ensures WindowIndices(times, from, to, n) == seq(n, i => i)
  {
    if n > 0 {
      WindowKeepsAll(times, from, to, n - 1);
    }
  }

  /** A window that contains no date keeps no day. */
  lemma {:induction false} WindowKeepsNone(times: seq<string>, from: Date, to: Date, n: nat)
    requires n <= |times| && AllDates(times, n)
    requires forall i :: 0 <= i < n ==> !InWindow(DateAt(times, i), from, to)
    ensures WindowIndices(times, from, to, n) == []
  {
    if n > 0 {
      WindowKeepsNone(times, from, to, n - 1);
    }
  }

  /**
   * A window that contains no date gives the metrics of no day at all: zeros
   * with the "below 10 °C" label, not the bare "no data" record.
   */
  lemma EmptyWindowMetrics(response: Response, from: Date, to: Date)
    requires response.daily.Some? && response.daily.value.time.Some?
    requires var times := response.daily.value.time.value;
             AllDates(times, |times|) && forall i :: 0 <= i < |times| ==> !InWindow(DateAt(times, i), from, to)
    ensures PeriodMetrics(response, from, to) == Ok(AgrometricalData(0.0, 0.0, 0.0, 0, 0.0, InterpretGtk(0.0), 0.0, 0, 0))
  {
    var daily := response.daily.value;
    var times := daily.time.value;
    WindowKeepsNone(times, from, to, |times|);
    assert Window(times, DailyValues(daily, TemperatureMax), from, to, |times|) == [];
    assert Window(times, DailyValues(daily, PrecipitationSum), from, to, |times|) == [];
    assert Window(times, DailyValues(daily, TemperatureMean), from, to, |times|) == [];
    EmptySeriesMetrics([], Some([]), Some([]));
  }

  /** Whether a period fails depends only on the time stamps, never on the window. */
  lemma PeriodFailsForAllWindows(response: Response, from: Date, to: Date, from': Date, to': Date)
    ensures PeriodMetrics(response, from, to).Err? <==> PeriodMetrics(response, from', to').Err?
  {
  }

  // ---- calculateSeasonalMetrics --------------------------------------------------

  /** The earliest harvest year: its autumn starts in 2016, the first year with data. */
  const FirstSeasonYear: int := 2017

  /** The breakdown of a harvest year, in the order the service builds it. */
  datatype SeasonalMetrics = SeasonalMetrics(
    year: int,
    precipOctMar: real,
    minTempWinter: real,
    precipAprMay: real,
    tempSumAprMay: real,
    frostRiskSpring: bool,
    gtkAprMay: real,
    precipJunJul: real,
    tempSumJunJul: real,
    heatStressJunJul: int,
    extremeHeatJunJul: int,
    avgTempJunJul: real,
    gtkJunJul: real,
    precipAugSep: real,
    tempSumAugSep: real,
    heatStressAugSep: int,
    gtkAugSep: real,
    gtkAprSep: real,
    tempSumAprSep: real,
    totalHeatStressDays: int,
    minTempVegetation: real,
    longestDryPeriod: int)

  datatype SeasonalError =
    | YearOutOfRange                   // an `IllegalArgumentException` for the year
    | WeatherFailed(cause: ServiceError) // the error of `getWeather`, propagated
    | SeasonDateUnparseable            // `LocalDate.parse` threw on a time stamp

  /** The start of the request: the previous year's October 1st, as text. */
  function SeasonStartText(year: int): string
    requires year >= 1
  {
    DecimalText(year - 1) + "-10-01"
  }

  /** The end of the request: September 30th of the harvest year, as text. */
  function SeasonEndText(year: int): string
    requires year >= 0
  {
    DecimalText(year) + "-09-30"
  }

  lemma StartTextIsIso(year: int)
    requires FirstSeasonYear <= year <= 9999
    ensures SeasonStartText(year) == FormatIsoDate(Date(year - 1, 10, 1))
  {
    DecimalTextOfFourDigits(year - 1);
    assert Padded(10, 2) == "10";
    assert Padded(1, 2) == "01";
    Joined(Padded(year - 1, 4), "10", "01");
  }

  /** A date text built piecewise is the year followed by one literal tail. */
  lemma Joined(y: string, m: string, d: string)
    ensures y + "-" + m + "-" + d == y + ("-" + m + "-" + d)
  {
  }

  lemma EndTextIsIso(year: int)
    requires FirstSeasonYear <= year <= 9999
    ensures SeasonEndText(year) == FormatIsoDate(Date(year, 9, 30))
  {
    DecimalTextOfFourDigits(year);
    assert Padded(9, 2) == "09";
    assert Padded(30, 2) == "30";
    Joined(Padded(year, 4), "09", "30");
  }

  /** The texts sent for a four-digit harvest year denote October 1st before and September 30th. */
  lemma SeasonTextsDenoteSeason(year: int)
    requires FirstSeasonYear <= year <= 9999
    ensures ParseIsoDate(SeasonStartText(year)) == Some(Date(year - 1, 10, 1))
    ensures ParseIsoDate(SeasonEndText(year)) == Some(Date(year, 9, 30))
  {
    StartTextIsIso(year);
    EndTextIsIso(year);
    ParseFormat(Date(year - 1, 10, 1));
    ParseFormat(Date(year, 9, 30));
  }

  function OctMar(year: int): DateRange { DateRange(Date(year - 1, 10, 1), Date(year, 3, 31)) }
  function AprMay(year: int): DateRange { DateRange(Date(year, 4, 1), Date(year, 5, 31)) }
  function JunJul(year: int): DateRange { DateRange(Date(year, 6, 1), Date(year, 7, 31)) }
  function AugSep(year: int): DateRange { DateRange(Date(year, 8, 1), Date(year, 9, 30)) }
  function AprSep(year: int): DateRange { DateRange(Date(year, 4, 1), Date(year, 9, 30)) }

  function PeriodOf(response: Response, window: DateRange): Result<AgrometricalData, PeriodError>
  {
    PeriodMetrics(response, window.start, window.end)
  }

  /** The record built from the five windows' metrics. */
  function Breakdown(year: int, octMar: AgrometricalData, aprMay: AgrometricalData, junJul: AgrometricalData,
                     augSep: AgrometricalData, aprSep: AgrometricalData): SeasonalMetrics
  {
    SeasonalMetrics(
      year,
      octMar.sumPrecipitation, octMar.minTempRecord,
      aprMay.sumPrecipitation, aprMay.sumEffectiveTemp, aprMay.minTempRecord < 0.0, aprMay.gtk,
      junJul.sumPrecipitation, junJul.sumEffectiveTemp, junJul.heatStressDays, junJul.extremeHeatDays,
      junJul.avgTemp, junJul.gtk,
      augSep.sumPrecipitation, augSep.sumEffectiveTemp, augSep.heatStressDays, augSep.gtk,
      aprSep.gtk, aprSep.sumEffectiveTemp, aprSep.heatStressDays, aprSep.minTempRecord, aprSep.longestDryPeriod)
  }

  /** The breakdown of a response for a harvest year. */
  function SeasonalOf(year: int, response: Response): Result<SeasonalMetrics, SeasonalError>
  {
    var octMar := PeriodOf(response, OctMar(year));
    var aprMay := PeriodOf(response, AprMay(year));
    var junJul := PeriodOf(response, JunJul(year));
    var augSep := PeriodOf(response, AugSep(year));
    var aprSep := PeriodOf(response, AprSep(year));
    if octMar.Err? || aprMay.Err? || junJul.Err? || augSep.Err? || aprSep.Err? then Err(SeasonDateUnparseable)
    else Ok(Breakdown(year, octMar.value, aprMay.value, junJul.value, augSep.value, aprSep.value))
  }

  /** The `map` step of `calculateSeasonalMetrics`: the five windows of the response. */
  method SeasonFromResponse(year: int, response: Response) returns (r: Result<SeasonalMetrics, SeasonalError>)
    ensures r == SeasonalOf(year, response)
  {
    var octMar := ComputeMetricsForPeriod(response, Date(year - 1, 10, 1), Date(year, 3, 31));
    var aprMay := ComputeMetricsForPeriod(response, Date(year, 4, 1), Date(year, 5, 31));
    var junJul := ComputeMetricsForPeriod(response, Date(year, 6, 1), Date(year, 7, 31));
    var augSep := ComputeMetricsForPeriod(response, Date(year, 8, 1), Date(year, 9, 30));
    var aprSep := ComputeMetricsForPeriod(response, Date(year, 4, 1), Date(year, 9, 30));
    if octMar.Err? || aprMay.Err? || junJul.Err? || augSep.Err? || aprSep.Err? {
      return Err(SeasonDateUnparseable);
    }
    r := Ok(Breakdown(year, octMar.value, aprMay.value, junJul.value, augSep.value, aprSep.value));
  }

  /**
   * `calculateSeasonalMetrics`: one historical request from the previous
   * October to this September, then the five windows of it.  `weather` is the
   * answer of that request, `None` when the year is refused before asking.
   */
  method CalculateSeasonalMetrics(lat: Option<real>, lon: Option<real>, year: int,
                                  today: Date, settings: WeatherSettings, fetch: WeatherRequest -> Option<Response>)
    returns (weather: Option<Result<Response, ServiceError>>, r: Result<SeasonalMetrics, SeasonalError>)
    requires ValidDate(today)
    ensures weather.None? <==> (year < FirstSeasonYear || year > today.year)
    ensures weather.None? ==> r == Err(YearOutOfRange)
    ensures weather.Some? ==>
              && WeatherOutcome(lat, lon, Some(Historic), None, Some(SeasonStartText(year)), Some(SeasonEndText(year)),
                                today, settings, fetch, weather.value)
              && r == if weather.value.Err? then Err(WeatherFailed(weather.value.error))
                      else SeasonalOf(year, weather.value.value)
  {
    if year < FirstSeasonYear || year > today.year {
      return None, Err(YearOutOfRange);
    }
    var answer := GetWeather(lat, lon, Some(Historic), None, Some(SeasonStartText(year)), Some(SeasonEndText(year)),
                             today, settings, fetch);
    weather := Some(answer);
    if answer.Err? {
      return weather, Err(WeatherFailed(answer.error));
    }
    r := SeasonFromResponse(year, answer.value);
  }

  /**
   * The windows split the requested season: each of its days is in exactly one
   * of October–March and April–September, and each day of April–September in
   * exactly one of April–May, June–July and August–September.
   */
  lemma SeasonWindowsPartition(year: int, d: Date)
    requires ValidDate(d) && InWindow(d, Date(year - 1, 10, 1), Date(year, 9, 30))
    ensures InWindow(d, OctMar(year).start, OctMar(year).end) != InWindow(d, AprSep(year).start, AprSep(year).end)
    ensures InWindow(d, AprSep(year).start, AprSep(year).end) ==>
              var inAprMay := InWindow(d, AprMay(year).start, AprMay(year).end);
              var inJunJul := InWindow(d, JunJul(year).start, JunJul(year).end);
              var inAugSep := InWindow(d, AugSep(year).start, AugSep(year).end);
              (if inAprMay then 1 else 0) + (if inJunJul then 1 else 0) + (if inAugSep then 1 else 0) == 1
  {
  }

  /**
   * The lowest daily maximum of a window is below zero exactly when some day
   * of the window has a maximum temperature below zero.
   */
  lemma WindowFrost(response: Response, from: Date, to: Date)
    requires response.daily.Some? && response.daily.value.time.Some?
    requires PeriodMetrics(response, from, to).Ok?
    ensures var times := response.daily.value.time.value;
            var tempMax := DailyValues(response.daily.value, TemperatureMax);
            PeriodMetrics(response, from, to).value.minTempRecord < 0.0
            <==> exists i :: 0 <= i < |times| && ParseIsoDate(times[i]).Some?
                   && InWindow(DateAt(times, i), from, to)
                   && ValueAt(tempMax, i).Some? && ValueAt(tempMax, i).value < 0.0
  {
    var daily := response.daily.value;
    var times := daily.time.value;
    var tempMax := DailyValues(daily, TemperatureMax);
    assert AllDates(times, |times|);
    var idx := WindowIndices(times, from, to, |times|);
    var w := Window(times, tempMax, from, to, |times|);
    WindowIndicesExact(times, from, to, |times|);
    FrostShowsInLowestMax(w, Some(Window(times, DailyValues(daily, PrecipitationSum), from, to, |times|)),
                          Some(Window(times, DailyValues(daily, TemperatureMean), from, to, |times|)));
    if exists i :: 0 <= i < |times| && InWindow(DateAt(times, i), from, to)
                   && ValueAt(tempMax, i).Some? && ValueAt(tempMax, i).value < 0.0 {
      var i :| 0 <= i < |times| && InWindow(DateAt(times, i), from, to)
               && ValueAt(tempMax, i).Some? && ValueAt(tempMax, i).value < 0.0;
      assert i in idx;
      var k :| 0 <= k < |idx| && idx[k] == i;
      assert w[k] == ValueAt(tempMax, i);
    }
  }

  /**
   * Spring frost is flagged exactly when some day from April 1st to May 31st
   * has a maximum temperature below zero.
   */
  lemma FrostRiskMeansFrostyDay(year: int, response: Response)
    requires SeasonalOf(year, response).Ok?
    requires response.daily.Some? && response.daily.value.time.Some?
    ensures var times := response.daily.value.time.value;
            var tempMax := DailyValues(response.daily.value, TemperatureMax);
            SeasonalOf(year, response).value.frostRiskSpring
            <==> exists i :: 0 <= i < |times| && ParseIsoDate(times[i]).Some?
                   && InWindow(DateAt(times, i), Date(year, 4, 1), Date(year, 5, 31))
                   && ValueAt(tempMax, i).Some? && ValueAt(tempMax, i).value < 0.0
  {
    var aprMay := PeriodOf(response, AprMay(year));
    assert aprMay.Ok? && SeasonalOf(year, response).value.frostRiskSpring == (aprMay.value.minTempRecord < 0.0);
    WindowFrost(response, Date(year, 4, 1), Date(year, 5, 31));
  }

  // ---- calculateAveragedMetrics --------------------------------------------------

  const MinYearsCount: int := 1
  const MaxYearsCount: int := 5

  datatype AveragedError =
    | InvalidYearsCount   // "Years count must be between 1 and 5"
    | InvalidStartFormat  // the start does not split into two parts on '-'
    | InvalidStartNumber  // `NumberFormatException` from a part
    | InvalidStartDate    // `LocalDate.of` threw for some reference year
    | YearRejected(violation: ValidationError)  // the validator refused some reference year's request
    | NoHistoricalData    // every year's request failed

  /** The crop start `MM-dd` as a month and a day, with the errors of `split` and `parseInt`. */
  function ParseCropStart(cropStart: string): (r: Result<(int, int), AveragedError>)
    ensures r.Err? ==> r.error == InvalidStartFormat || r.error == InvalidStartNumber
    ensures r == Err(InvalidStartFormat) <==> |JavaSplit(cropStart, '-')| != 2
    ensures r.Ok? <==> var parts := JavaSplit(cropStart, '-');
                       |parts| == 2 && ParseJavaInt(parts[0]).Some? && ParseJavaInt(parts[1]).Some?
  {
    var parts := JavaSplit(cropStart, '-');
    if |parts| != 2 then Err(InvalidStartFormat)
    else
      var month := ParseJavaInt(parts[0]);
      var day := ParseJavaInt(parts[1]);
      if month.None? || day.None? then Err(InvalidStartNumber) else Ok((month.value, day.value))
  }

  /** A zero-padded `MM-dd` text reads back as its month and day. */
  lemma ParseCropStartPadded(month: nat, day: nat)
    requires month < 100 && day < 100
    ensures ParseCropStart(Padded(month, 2) + "-" + Padded(day, 2)) == Ok((month, day))
  {
    var a, b := Padded(month, 2), Padded(day, 2);
    var s := a + "-" + b;
    assert '-' !in a && '-' !in b by {
      assert forall i :: 0 <= i < 2 ==> IsDigit(a[i]) && IsDigit(b[i]);
    }
    assert s[2] == '-';
    SplitAllPair(a, b, '-');
    assert s == a + ['-'] + b;
    ParseJavaIntPadded(month, 2);
    ParseJavaIntPadded(day, 2);
  }

  /** The start of the period in the year `offset + 1` years before the current one. */
  function ReferenceStart(today: Date, month: int, day: int, offset: int): Date
  {
    Date(today.year - 1 - offset, month, day)
  }

  /** `LocalDate.of` succeeds for each of the first `n` reference years. */
  predicate StartsValid(today: Date, month: int, day: int, n: int)
  {
    forall offset :: 0 <= offset < n ==> ValidDate(ReferenceStart(today, month, day, offset))
  }

  /** The texts of the period requested for one reference year. */
  function YearTexts(today: Date, month: int, day: int, durationDays: int, offset: int): (Option<string>, Option<string>)
    requires ValidDate(ReferenceStart(today, month, day, offset))
  {
    var start := ReferenceStart(today, month, day, offset);
    (Some(IsoText(start)), Some(IsoText(PlusDays(start, durationDays))))
  }

  /**
   * What is thrown while reference year `offset`'s request is being made, before
   * `onErrorResume` is in place: `LocalDate.of` refusing its start, then the
   * validator refusing the coordinates or the period.  Either fails the stream.
   */
  function YearRejection(lat: Option<real>, lon: Option<real>, today: Date, settings: WeatherSettings,
                         month: int, day: int, durationDays: int, offset: int): Option<AveragedError>
    requires ValidDate(today)
  {
    if !ValidDate(ReferenceStart(today, month, day, offset)) then Some(InvalidStartDate)
    else
      var texts := YearTexts(today, month, day, durationDays, offset);
      var rejection := HistoricRejection(lat, lon, texts.0, texts.1, today, settings);
      if rejection.Some? then Some(YearRejected(rejection.value)) else None
  }

  /** `YearRejection` of every reference year. */
  function Rejections(lat: Option<real>, lon: Option<real>, today: Date, settings: WeatherSettings,
                      month: int, day: int, durationDays: int): int -> Option<AveragedError>
  {
    (offset: int) =>
      if ValidDate(today) then YearRejection(lat, lon, today, settings, month, day, durationDays, offset) else None
  }

  /** The first present value among `f(0)`, ..., `f(n - 1)`: the error of the earliest-mapped failing year. */
  function FirstPresent<T>(f: int -> Option<T>, n: int): Option<T>
    decreases n
  {
    if n <= 0 then None
    else if FirstPresent(f, n - 1).Some? then FirstPresent(f, n - 1)
    else f(n - 1)
  }

  /** Nothing is present among the first `n` exactly when no `f(k)` is; otherwise the first present one is. */
  lemma {:induction false} FirstPresentIsFirst<T>(f: int -> Option<T>, n: int)
    ensures FirstPresent(f, n).None? <==> forall k :: 0 <= k < n ==> f(k).None?
    ensures FirstPresent(f, n).Some? ==>
              exists k :: 0 <= k < n && FirstPresent(f, n) == f(k) && forall j :: 0 <= j < k ==> f(j).None?
    decreases n
  {
    if n > 0 {
      FirstPresentIsFirst(f, n - 1);
      if FirstPresent(f, n - 1).None? {
        assert FirstPresent(f, n) == f(n - 1);
      }
    }
  }

  /** Once `f(k)` is the first present value, no later one changes the answer. */
  lemma {:induction false} FirstPresentFrom<T>(f: int -> Option<T>, k: int, n: int)
    requires 0 <= k < n
    requires FirstPresent(f, k).None? && f(k).Some?
    ensures FirstPresent(f, n) == f(k)
    decreases n
  {
    if n > k + 1 {
      FirstPresentFrom(f, k, n - 1);
    }
  }

  /**
   * The metrics of the years whose request succeeded, in year order.  Once no
   * year is rejected the failures left are failed requests and failed merges,
   * which `onErrorResume` drops.
   */
  function Kept(yearly: seq<Result<Response, ServiceError>>): seq<AgrometricalData>
  {
    if yearly == [] then []
    else
      var last := yearly[|yearly| - 1];
      Kept(yearly[..|yearly| - 1]) + (if last.Ok? then [ResponseMetrics(last.value)] else [])
  }

  /** One field of every kept record. */
  function Field(kept: seq<AgrometricalData>, f: AgrometricalData -> real): (v: seq<real>)
    ensures |v| == |kept|
    ensures forall i :: 0 <= i < |kept| ==> v[i] == f(kept[i])
  {
    seq(|kept|, i requires 0 <= i < |kept| => f(kept[i]))
  }

  /** Java's `(int)` cast of a `double`: truncation toward zero. */
  function TruncToInt(x: real): (n: int)
    ensures x >= 0.0 ==> n as real <= x < n as real + 1.0
    ensures x < 0.0 ==> n as real - 1.0 < x <= n as real
  {
    if x >= 0.0 then x.Floor else -((-x).Floor)
  }

  /** The averaged record of the kept years, or the error when none is left. */
  function AveragedOf(kept: seq<AgrometricalData>): (r: Result<AgrometricalData, AveragedError>)
    ensures r.Err? <==> kept == []
    ensures r.Err? ==> r.error == NoHistoricalData
  {
    if kept == [] then Err(NoHistoricalData)
    else
      var gtk := Average(Field(kept, (d: AgrometricalData) => d.gtk));
      Ok(AgrometricalData(
        gtk,
        Average(Field(kept, (d: AgrometricalData) => d.sumPrecipitation)),
        Average(Field(kept, (d: AgrometricalData) => d.sumEffectiveTemp)),
        TruncToInt(Average(Field(kept, (d: AgrometricalData) => d.heatStressDays as real))),
        Average(Field(kept, (d: AgrometricalData) => d.minTempRecord)),
        InterpretGtk(gtk) + " (среднее за " + DecimalText(|kept|) + " лет)",
        0.0,
        0,
        0))
  }

  /** The validation that comes before any request: the years count, then the crop start. */
  function AveragedPrecheck(cropStart: string, yearsCount: int): (r: Result<(int, int), AveragedError>)
    ensures r.Ok? <==> MinYearsCount <= yearsCount <= MaxYearsCount && ParseCropStart(cropStart).Ok?
  {
    if yearsCount < MinYearsCount || yearsCount > MaxYearsCount then Err(InvalidYearsCount)
    else ParseCropStart(cropStart)
  }

  /** `periods` holds the texts of the first `|periods|` reference years, whose starts are valid. */
  predicate RequestedSoFar(today: Date, month: int, day: int, durationDays: int,
                           periods: seq<(Option<string>, Option<string>)>)
  {
    && StartsValid(today, month, day, |periods|)
    && forall k :: 0 <= k < |periods| ==> RequestedAt(today, month, day, durationDays, periods, k)
  }

  /** Entry `k` of `periods` holds the texts of reference year `k`. */
  predicate RequestedAt(today: Date, month: int, day: int, durationDays: int,
                        periods: seq<(Option<string>, Option<string>)>, k: int)
    requires 0 <= k < |periods|
  {
    ValidDate(ReferenceStart(today, month, day, k)) && periods[k] == YearTexts(today, month, day, durationDays, k)
  }

  /** `yearly` holds what `getWeather` answered for each period of `periods`. */
  predicate AnsweredSoFar(lat: Option<real>, lon: Option<real>, today: Date, settings: WeatherSettings,
                          fetch: WeatherRequest -> Option<Response>,
                          periods: seq<(Option<string>, Option<string>)>, yearly: seq<Result<Response, ServiceError>>)
    requires ValidDate(today)
  {
    && |periods| == |yearly|
    && forall k :: 0 <= k < |periods| ==> AnsweredAt(lat, lon, today, settings, fetch, periods, yearly, k)
  }

  /** Entry `k` of `yearly` is what `getWeather` answered for period `k`. */
  predicate AnsweredAt(lat: Option<real>, lon: Option<real>, today: Date, settings: WeatherSettings,
                       fetch: WeatherRequest -> Option<Response>,
                       periods: seq<(Option<string>, Option<string>)>, yearly: seq<Result<Response, ServiceError>>,
                       k: int)
    requires ValidDate(today) && 0 <= k < |periods| && |periods| == |yearly|
  {
    WeatherOutcome(lat, lon, Some(Historic), None, periods[k].0, periods[k].1, today, settings, fetch, yearly[k])
  }

  lemma StartsValidStep(today: Date, month: int, day: int, n: int)
    requires StartsValid(today, month, day, n) && ValidDate(ReferenceStart(today, month, day, n))
    ensures StartsValid(today, month, day, n + 1)
  {
  }

  lemma RequestedStep(today: Date, month: int, day: int, durationDays: int,
                      periods: seq<(Option<string>, Option<string>)>, period: (Option<string>, Option<string>))
    requires RequestedSoFar(today, month, day, durationDays, periods)
    requires ValidDate(ReferenceStart(today, month, day, |periods|))
    requires period == YearTexts(today, month, day, durationDays, |periods|)
    ensures RequestedSoFar(today, month, day, durationDays, periods + [period])
  {
    var p := periods + [period];
    StartsValidStep(today, month, day, |periods|);
    forall k | 0 <= k < |p|
      ensures RequestedAt(today, month, day, durationDays, p, k)
    {
      if k < |periods| {
        assert RequestedAt(today, month, day, durationDays, periods, k);
        assert p[k] == periods[k];
      }
    }
  }

  lemma AnsweredStep(lat: Option<real>, lon: Option<real>, today: Date, settings: WeatherSettings,
                     fetch: WeatherRequest -> Option<Response>,
                     periods: seq<(Option<string>, Option<string>)>, yearly: seq<Result<Response, ServiceError>>,
                     period: (Option<string>, Option<string>), weather: Result<Response, ServiceError>)
    requires ValidDate(today)
    requires AnsweredSoFar(lat, lon, today, settings, fetch, periods, yearly)
    requires WeatherOutcome(lat, lon, Some(Historic), None, period.0, period.1, today, settings, fetch, weather)
    ensures AnsweredSoFar(lat, lon, today, settings, fetch, periods + [period], yearly + [weather])
  {
    var p, y := periods + [period], yearly + [weather];
    forall k | 0 <= k < |p|
      ensures AnsweredAt(lat, lon, today, settings, fetch, p, y, k)
    {
      if k < |periods| {
        assert AnsweredAt(lat, lon, today, settings, fetch, periods, yearly, k);
        assert p[k] == periods[k] && y[k] == yearly[k];
      }
    }
  }

  lemma KeptStep(yearly: seq<Result<Response, ServiceError>>, weather: Result<Response, ServiceError>)
    ensures Kept(yearly + [weather])
         == Kept(yearly) + (if weather.Ok? then [ResponseMetrics(weather.value)] else [])
  {
    assert (yearly + [weather])[..|yearly|] == yearly;
  }

  /** `LocalDate.of` refusing a year's start is that year's rejection. */
  lemma StartRefused(lat: Option<real>, lon: Option<real>, today: Date, settings: WeatherSettings,
                     month: int, day: int, durationDays: int, offset: int)
    requires ValidDate(today) && !ValidDate(Date(today.year - 1 - offset, month, day))
    ensures Rejections(lat, lon, today, settings, month, day, durationDays)(offset) == Some(InvalidStartDate)
  {
    assert !ValidDate(ReferenceStart(today, month, day, offset));
  }

  /** No recorded answer is a validator refusal. */
  predicate NoneRejected(yearly: seq<Result<Response, ServiceError>>)
  {
    forall k :: 0 <= k < |yearly| ==> !(yearly[k].Err? && yearly[k].error.Invalid?)
  }

  /**
   * One reference year of the `flatMap`: build its start with `LocalDate.of`,
   * request its period and keep its metrics when the request succeeds.
   * `failure` is `LocalDate.of` refusing the start or the validator refusing
   * the request, neither of which `onErrorResume` catches.
   */
  method FetchReferenceYear(lat: Option<real>, lon: Option<real>, month: int, day: int, durationDays: int,
                            today: Date, settings: WeatherSettings, fetch: WeatherRequest -> Option<Response>,
                            periods: seq<(Option<string>, Option<string>)>,
                            yearly: seq<Result<Response, ServiceError>>, kept: seq<AgrometricalData>)
    returns (failure: Option<AveragedError>, periods': seq<(Option<string>, Option<string>)>,
             yearly': seq<Result<Response, ServiceError>>, kept': seq<AgrometricalData>)
    requires ValidDate(today)
    requires RequestedSoFar(today, month, day, durationDays, periods)
    requires AnsweredSoFar(lat, lon, today, settings, fetch, periods, yearly)
    requires kept == Kept(yearly)
    requires NoneRejected(yearly)
    ensures failure == Rejections(lat, lon, today, settings, month, day, durationDays)(|periods|)
    ensures failure.None? ==> && |periods'| == |yearly'| == |yearly| + 1
                              && RequestedSoFar(today, month, day, durationDays, periods')
                              && AnsweredSoFar(lat, lon, today, settings, fetch, periods', yearly')
                              && kept' == Kept(yearly')
                              && NoneRejected(yearly')
  {
    var start := Date(today.year - 1 - |periods|, month, day);
    if !ValidDate(start) {
      StartRefused(lat, lon, today, settings, month, day, durationDays, |periods|);
      return Some(InvalidStartDate), periods, yearly, kept;
    }
    var end := PlusDays(start, durationDays);
    var period := (Some(IsoText(start)), Some(IsoText(end)));
    assert start == ReferenceStart(today, month, day, |periods|);
    RequestedStep(today, month, day, durationDays, periods, period);
    var weather, metrics := CalculateHistoricalMetrics(lat, lon, period.0, period.1, today, settings, fetch);
    RejectionOfAnswer(lat, lon, today, settings, fetch, month, day, durationDays, |periods|, weather);
    NoneRejectedStep(yearly, weather);
    AnsweredStep(lat, lon, today, settings, fetch, periods, yearly, period, weather);
    KeptStep(yearly, weather);
    failure := if weather.Err? && weather.error.Invalid? then Some(YearRejected(weather.error.violation)) else None;
    periods' := periods + [period];
    yearly' := yearly + [weather];
    kept' := if metrics.Ok? then kept + [metrics.value] else kept;
  }

  /** A year's rejection shows in its answer as a validator error, and only there. */
  lemma RejectionOfAnswer(lat: Option<real>, lon: Option<real>, today: Date, settings: WeatherSettings,
                          fetch: WeatherRequest -> Option<Response>, month: int, day: int, durationDays: int,
                          offset: int, weather: Result<Response, ServiceError>)
    requires ValidDate(today) && ValidDate(ReferenceStart(today, month, day, offset))
    requires var texts := YearTexts(today, month, day, durationDays, offset);
             WeatherOutcome(lat, lon, Some(Historic), None, texts.0, texts.1, today, settings, fetch, weather)
    ensures Rejections(lat, lon, today, settings, month, day, durationDays)(offset)
         == if weather.Err? && weather.error.Invalid? then Some(YearRejected(weather.error.violation)) else None
  {
    var texts := YearTexts(today, month, day, durationDays, offset);
    InvalidIffRejected(lat, lon, Some(Historic), texts.0, texts.1, today, settings, fetch, weather);
  }

  lemma NoneRejectedStep(yearly: seq<Result<Response, ServiceError>>, weather: Result<Response, ServiceError>)
    requires NoneRejected(yearly)
    ensures NoneRejected(yearly + [weather]) <==> !(weather.Err? && weather.error.Invalid?)
  {
    assert (yearly + [weather])[|yearly|] == weather;
  }

  /**
   * The `flatMap` over the reference years: the historical metrics of the
   * crop's period in each of the `yearsCount` years before the current one.
   * The years are mapped in order, and the first one whose start `LocalDate.of`
   * refuses, or whose request the validator refuses, fails the whole stream
   * with that error (`failure`).  Otherwise `yearly` holds each year's weather
   * answer, none of them a refusal, and `kept` the metrics of the years that
   * succeeded.
   */
  method FetchReferenceYears(lat: Option<real>, lon: Option<real>, month: int, day: int, durationDays: int,
                             yearsCount: int, today: Date, settings: WeatherSettings,
                             fetch: WeatherRequest -> Option<Response>)
    returns (failure: Option<AveragedError>, periods: seq<(Option<string>, Option<string>)>,
             yearly: seq<Result<Response, ServiceError>>, kept: seq<AgrometricalData>)
    requires ValidDate(today) && yearsCount >= 0
    ensures failure == FirstPresent(Rejections(lat, lon, today, settings, month, day, durationDays), yearsCount)
    ensures failure.None? ==> && |yearly| == yearsCount
                              && RequestedSoFar(today, month, day, durationDays, periods)
                              && AnsweredSoFar(lat, lon, today, settings, fetch, periods, yearly)
                              && NoneRejected(yearly)
                              && kept == Kept(yearly)
  {
    var rejections := Rejections(lat, lon, today, settings, month, day, durationDays);
    periods, yearly, kept := [], [], [];
    for offset := 0 to yearsCount
      invariant |yearly| == offset
      invariant FirstPresent(rejections, offset).None?
      invariant RequestedSoFar(today, month, day, durationDays, periods)
      invariant AnsweredSoFar(lat, lon, today, settings, fetch, periods, yearly)
      invariant NoneRejected(yearly)
      invariant kept == Kept(yearly)
    {
      var yearFailure;
      yearFailure, periods, yearly, kept := FetchReferenceYear(lat, lon, month, day, durationDays, today, settings,
                                                               fetch, periods, yearly, kept);
      if yearFailure.Some? {
        FirstPresentFrom(rejections, offset, yearsCount);
        return yearFailure, periods, yearly, kept;
      }
    }
    failure := None;
  }

  /**
   * `calculateAveragedMetrics`: check the years count and the crop start,
   * fetch the reference years, fail with the first rejected year's error,
   * drop the years whose request or merge failed and average the rest.
   */
  method CalculateAveragedMetrics(lat: Option<real>, lon: Option<real>, cropStart: string, durationDays: int,
                                  yearsCount: int, today: Date, settings: WeatherSettings,
                                  fetch: WeatherRequest -> Option<Response>)
    returns (periods: seq<(Option<string>, Option<string>)>, yearly: seq<Result<Response, ServiceError>>,
             r: Result<AgrometricalData, AveragedError>)
    requires ValidDate(today)
    ensures AveragedPrecheck(cropStart, yearsCount).Err? ==> r == Err(AveragedPrecheck(cropStart, yearsCount).error)
    ensures AveragedPrecheck(cropStart, yearsCount).Ok? ==>
              var (month, day) := AveragedPrecheck(cropStart, yearsCount).value;
              var failure := FirstPresent(Rejections(lat, lon, today, settings, month, day, durationDays), yearsCount);
              if failure.Some? then r == Err(failure.value)
              else
                && |yearly| == yearsCount
                && RequestedSoFar(today, month, day, durationDays, periods)
                && AnsweredSoFar(lat, lon, today, settings, fetch, periods, yearly)
                && NoneRejected(yearly)
                && r == AveragedOf(Kept(yearly))
  {
    var precheck := AveragedPrecheck(cropStart, yearsCount);
    if precheck.Err? {
      return [], [], Err(precheck.error);
    }
    var (month, day) := precheck.value;
    var failure, kept;
    failure, periods, yearly, kept := FetchReferenceYears(lat, lon, month, day, durationDays, yearsCount,
                                                           today, settings, fetch);
    if failure.Some? {
      return periods, yearly, Err(failure.value);
    }
    r := AveragedOf(kept);
  }

  // ---- what the average means ----------------------------------------------------

  /** `Kept` keeps one record per successful year, so it is empty exactly when every year failed. */
  lemma {:induction false} KeptCountsSuccesses(yearly: seq<Result<Response, ServiceError>>)
    ensures |Kept(yearly)| <= |yearly|
    ensures Kept(yearly) == [] <==> forall k :: 0 <= k < |yearly| ==> yearly[k].Err?
  {
    if yearly != [] {
      var init := yearly[..|yearly| - 1];
      KeptCountsSuccesses(init);
      assert forall k :: 0 <= k < |init| ==> init[k] == yearly[k];
    }
  }

  /** Each averaged field lies between the least and the greatest value of the kept years. */
  lemma AveragedWithinYears(kept: seq<AgrometricalData>, f: AgrometricalData -> real, lo: real, hi: real)
    requires kept != []
    requires forall i :: 0 <= i < |kept| ==> lo <= f(kept[i]) <= hi
    ensures lo <= Average(Field(kept, f)) <= hi
  {
    AverageBounds(Field(kept, f), lo, hi);
  }

  /** The averaged heat-stress days lie between the least and greatest count of the kept years. */
  lemma AveragedHeatWithinYears(kept: seq<AgrometricalData>, lo: int, hi: int)
    requires kept != []
    requires forall i :: 0 <= i < |kept| ==> lo <= kept[i].heatStressDays <= hi
    ensures lo <= AveragedOf(kept).value.heatStressDays <= hi
  {
    var v := Field(kept, (d: AgrometricalData) => d.heatStressDays as real);
    AverageBounds(v, lo as real, hi as real);
  }

  /** With one year kept, its values come back unchanged with the "1 year" label. */
  lemma AveragedSingleYear(m: AgrometricalData)
    ensures AveragedOf([m]) == Ok(AgrometricalData(m.gtk, m.sumPrecipitation, m.sumEffectiveTemp, m.heatStressDays,
                                                   m.minTempRecord, InterpretGtk(m.gtk) + " (среднее за 1 лет)",
                                                   0.0, 0, 0))
  {
    assert NumDigits(1) == 1;
    assert DecimalText(1) == "1";
    AverageOfConstant(Field([m], (d: AgrometricalData) => d.gtk), m.gtk);
    AverageOfConstant(Field([m], (d: AgrometricalData) => d.sumPrecipitation), m.sumPrecipitation);
    AverageOfConstant(Field([m], (d: AgrometricalData) => d.sumEffectiveTemp), m.sumEffectiveTemp);
    AverageOfConstant(Field([m], (d: AgrometricalData) => d.heatStressDays as real), m.heatStressDays as real);
    AverageOfConstant(Field([m], (d: AgrometricalData) => d.minTempRecord), m.minTempRecord);
    assert TruncToInt(m.heatStressDays as real) == m.heatStressDays;
    assert InterpretGtk(m.gtk) + " (среднее за " + DecimalText(1) + " лет)"
        == InterpretGtk(m.gtk) + " (среднее за 1 лет)";
  }

  lemma FieldAppend(p: seq<AgrometricalData>, q: seq<AgrometricalData>, f: AgrometricalData -> real)
    ensures Field(p + q, f) == Field(p, f) + Field(q, f)
  {
  }

  lemma {:induction false} FieldPermutation(a: seq<AgrometricalData>, b: seq<AgrometricalData>, f: AgrometricalData -> real)
    requires multiset(a) == multiset(b)
    ensures multiset(Field(a, f)) == multiset(Field(b, f))
    decreases |a|
  {
    if a == [] {
      assert |b| == |multiset(b)| == 0;
    } else {
      var x := a[|a| - 1];
      var init := a[..|a| - 1];
      var i := PermutationWithoutLast(a, b);
      FieldPermutation(init, b[..i] + b[i + 1..], f);
      assert a == init + [x];
      FieldAppend(init, [x], f);
      assert b == b[..i] + [x] + b[i + 1..];
      FieldAppend(b[..i] + [x], b[i + 1..], f);
      FieldAppend(b[..i], [x], f);
      FieldAppend(b[..i], b[i + 1..], f);
    }
  }

  /**
   * The years' answers may arrive in any order; the average does not depend on
   * it.
   */
  lemma AveragedOrderFree(a: seq<AgrometricalData>, b: seq<AgrometricalData>)
    requires multiset(a) == multiset(b)
    ensures AveragedOf(a) == AveragedOf(b)
  {
    assert |a| == |multiset(a)| == |multiset(b)| == |b|;
    forall f: AgrometricalData -> real
      ensures Average(Field(a, f)) == Average(Field(b, f))
    {
      FieldPermutation(a, b, f);
      AveragePermutation(Field(a, f), Field(b, f));
    }
  }
}
