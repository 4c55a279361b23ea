# AgroPlanPro agro services — a verified model of the decision logic

AgroPlanPro plans what to grow on an agricultural field. This project models,
in Dafny, the deterministic logic inside its three services and proves properties of it.

**weather-service**
- The agro-metric calculators: the newer `AgrometricalDataServiceImpl` and the older
  `AgrometricalDataService`. They fold a daily weather series into the Selyaninov
  hydrothermal coefficient (GTK), the active-temperature sum, precipitation totals,
  heat-day counts, the lowest daily maximum, the mean temperature and the longest dry
  spell. They also interpret GTK as a moisture label.
- The request-level operations of the calculator: metrics for a date window, the seasonal
  breakdown of a harvest year, and the average over several past years.
- The Open-Meteo gateway (`OpenMeteoService`). It validates a request (`DateValidator`),
  then fetches a forecast, one historical period, or a long period split into three-month
  chunks (`DateUtils`). It drops chunks that fail and merges the surviving answers in order
  (`OpenMeteoMapper`, `HourlyMapper`, `DailyMapper`; the daily merge derives soil series
  from the hourly readings).

**agriculture-field-service**
- The rule-based disease risk assessment (`DiseaseRiskService`). A forecast → last year →
  fallback tier chain feeds three abiotic classifiers (drought, frost, heat) and the
  evaluation of the crop's disease rules, which degrades the level on a partial match.
  The results combine into an overall risk by taking the maximum, and recommendations
  are generated from them.
- The five forecast-window disease scorers (`DiseaseRiskForecastServiceImpl`).
- The rotation-aware crop recommender (`RotationRecommendationServiceImpl`). It checks
  rotation rules and repetition, estimates profit, then applies a stable two-key sort
  and dense ranks.
- The retry policy of the weather-service client (`WeatherServiceClient`).
- The conversion between coordinate lists and polygon rings, including ring closing
  (`AgriculturalFieldMapper`).
- The crop-name lookup (`SupportedCrop`).

**market-service**
- The page selection of the grain-price scraper (`parser_all_crops.py`):
  - link de-duplication;
  - reading the date from a link's path;
  - keeping the latest page of each half-month;
  - choosing the price column for a class.

**How the model is built**
- Network calls, the clock and the prediction services are parameters: a `fetch` oracle
  that answers `None` for a failed call, a per-attempt outcome, and `today`.
- Nulls are `Option` values. A thrown exception is the `Failure` of a `Result`.
- Doubles are exact reals.
- The library's stable sorts are one stable insertion sort (`Sorting.SortBy`), proved to
  give a sorted permutation of its input that keeps tied elements in input order.
- Loops that update state in the source are methods with loop invariants. Each is proved
  to compute a specification function, and the promised properties are proved about that
  function as lemmas.
- The field mapper keeps Java's `Coordinate[]` arrays.

## Model

| member | source | states |
|---|---|---|
| AgroMetrics.ClassifyGtk | weather-service/src/main/java/com/omstu/weatherservice/service/impl/AgrometricalDataServiceImpl.java:270-277 | each of the six GTK bands (no data at exactly 0, severe drought, dry, optimal, excess, waterlogging) holds exactly when GTK lies in its interval |
| AgroMetrics.ClassifyGtkMonotone | weather-service/src/main/java/com/omstu/weatherservice/service/impl/AgrometricalDataServiceImpl.java:272-276 | for a positive GTK, a larger value never lands in a drier band |
| AgroMetrics.GtkLabelsDistinct | weather-service/src/main/java/com/omstu/weatherservice/service/impl/AgrometricalDataServiceImpl.java:271-276 | the six labels are pairwise different, so a label identifies its band |
| AgroMetrics.NoGtkLabelIsEmptyLabel | weather-service/src/main/java/com/omstu/weatherservice/service/impl/AgrometricalDataServiceImpl.java:279-281 | no band label equals the bare "no data" label of the empty record |
| AgroMetrics.Gtk | weather-service/src/main/java/com/omstu/weatherservice/service/impl/AgrometricalDataServiceImpl.java:166-169 | GTK is 0 when the active temperature sum is not positive; otherwise GTK times that sum is ten times the active rain |
| AgroMetrics.ComputeMetrics | weather-service/src/main/java/com/omstu/weatherservice/service/impl/AgrometricalDataServiceImpl.java:104-164 | the day loop yields exactly the reference record: every sum, count, minimum, mean and longest dry run of the series |
| AgroMetrics.CountAboveAntitone | weather-service/src/main/java/com/omstu/weatherservice/service/impl/AgrometricalDataServiceImpl.java:131-134 | a higher temperature threshold counts no more days, and no threshold counts more than the non-null days |
| AgroMetrics.HeatDaysNested | weather-service/src/main/java/com/omstu/weatherservice/service/impl/AgrometricalDataServiceImpl.java:131-132 | extreme-heat days (above 35 °C) never outnumber heat-stress days (above 30 °C), which never outnumber the non-null days |
| AgroMetrics.ActiveTempSumBounds | weather-service/src/main/java/com/omstu/weatherservice/service/impl/AgrometricalDataServiceImpl.java:134-137 | the active temperature sum is at least 10 °C per day above 10 °C, and 0 when there is no such day |
| AgroMetrics.GtkOfSeries | weather-service/src/main/java/com/omstu/weatherservice/service/impl/AgrometricalDataServiceImpl.java:154 | GTK is 0 when no day is above 10 °C; otherwise the active sum is positive and GTK times it is ten times the active days' rain |
| AgroMetrics.AllRainCoversActiveRain | weather-service/src/main/java/com/omstu/weatherservice/service/impl/AgrometricalDataServiceImpl.java:125-137 | with no negative readings, the reported rain of all days is at least the active days' rain, which is non-negative |
| AgroMetrics.LowestMaxIsMinimum | weather-service/src/main/java/com/omstu/weatherservice/service/impl/AgrometricalDataServiceImpl.java:130 | the lowest maximum is absent exactly when no day is non-null; otherwise it is one day's maximum and no day's maximum is lower |
| AgroMetrics.FrostShowsInLowestMax | weather-service/src/main/java/com/omstu/weatherservice/service/impl/AgrometricalDataServiceImpl.java:157 | the reported minimum is below zero exactly when some non-null day's maximum is below zero |
| AgroMetrics.DryRunAtMostCounted | weather-service/src/main/java/com/omstu/weatherservice/service/impl/AgrometricalDataServiceImpl.java:145-151 | the current dry streak and the longest dry period never exceed the non-null days |
| AgroMetrics.LongestDryIsLongestRun | weather-service/src/main/java/com/omstu/weatherservice/service/impl/AgrometricalDataServiceImpl.java:146-148 | the longest dry period is the longest of the dry streaks ending on each day, and it is reached by one of them |
| AgroMetrics.DryRunIsDry | weather-service/src/main/java/com/omstu/weatherservice/service/impl/AgrometricalDataServiceImpl.java:146-151 | every non-null day inside the streak ending at a day had less than 1 mm of rain |
| AgroMetrics.DrySpanCounted | weather-service/src/main/java/com/omstu/weatherservice/service/impl/AgrometricalDataServiceImpl.java:145-151 | a span whose non-null days are all dry lies inside the dry streak ending at its last day, so that streak and the longest dry period are at least its non-null days |
| AgroMetrics.NoCountedDays | weather-service/src/main/java/com/omstu/weatherservice/service/impl/AgrometricalDataServiceImpl.java:120-123 | when every maximum is null, all sums, counts, the minimum, the mean count and the dry period stay at their start values |
| AgroMetrics.EmptySeriesMetrics | weather-service/src/main/java/com/omstu/weatherservice/service/impl/AgrometricalDataServiceImpl.java:154-163 | a series with no non-null maximum gives the all-zero record labelled with the GTK-0 label |
| AgroMetricsLegacy.CalculateMetrics | weather-service/src/main/java/com/omstu/weatherservice/service/impl/AgrometricalDataService.java:13-59 | the older calculator's loop yields exactly its reference outcome: the record, or the exception of the first unreadable day |
| AgroMetricsLegacy.FirstFailureSticks | weather-service/src/main/java/com/omstu/weatherservice/service/impl/AgrometricalDataService.java:23-25 | once a day has thrown, later days do not change the exception |
| AgroMetricsLegacy.FirstFailureIsFirst | weather-service/src/main/java/com/omstu/weatherservice/service/impl/AgrometricalDataService.java:24-25 | no exception exactly when every day is readable; otherwise the exception names a failing day (null maximum or unreadable rain) and every earlier day is readable |
| AgroMetricsLegacy.ReadableCountsAll | weather-service/src/main/java/com/omstu/weatherservice/service/impl/AgrometricalDataService.java:23-24 | a series with no exception counts every day |
| AgroMetricsLegacy.NoRainListNoRain | weather-service/src/main/java/com/omstu/weatherservice/service/impl/AgrometricalDataService.java:25 | without a precipitation list the active rain is 0 |
| AgroMetricsLegacy.LegacyFailsOnFirstUnreadableDay | weather-service/src/main/java/com/omstu/weatherservice/service/impl/AgrometricalDataService.java:13-25 | the call succeeds exactly when the daily block and the maximum list are present and every day is readable; otherwise it fails at the first unreadable day |
| AgroMetricsLegacy.LegacyCountsAndMinimum | weather-service/src/main/java/com/omstu/weatherservice/service/impl/AgrometricalDataService.java:20-35 | heat-stress days are at most the days; the minimum stays at Double.MAX_VALUE exactly for an empty series and is otherwise the smallest maximum, reached by a day |
| AgroMetricsLegacy.LegacyGtk | weather-service/src/main/java/com/omstu/weatherservice/service/impl/AgrometricalDataService.java:44-49 | GTK is 0 when no day is above 10 °C; otherwise the active sum is positive and GTK is ten times the reported rain over it |
| AgroMetricsLegacy.LegacyNoRainList | weather-service/src/main/java/com/omstu/weatherservice/service/impl/AgrometricalDataService.java:25 | without a precipitation list the reported rain and GTK are 0 |
| AgroMetricsLegacy.LegacyAgreesWithNewer | weather-service/src/main/java/com/omstu/weatherservice/service/impl/AgrometricalDataService.java:51-58 | on a readable non-empty series the older and newer calculators agree on GTK, label, active sum, heat-stress days and minimum; the older one reports only the active days' rain |
| Means.Average | weather-service/src/main/java/com/omstu/weatherservice/service/impl/AgrometricalDataServiceImpl.java:222-224 | the mean times the count is the sum, and 0 for no values (`average().orElse(0.0)`) |
| Means.AverageBounds | weather-service/src/main/java/com/omstu/weatherservice/service/impl/AgrometricalDataServiceImpl.java:222-240 | a mean of values lies between any lower and upper bound of the values |
| Means.AverageOfConstant | weather-service/src/main/java/com/omstu/weatherservice/service/impl/AgrometricalDataServiceImpl.java:222-240 | the mean of equal values is that value |
| Means.SumPermutation | weather-service/src/main/java/com/omstu/weatherservice/service/impl/AgrometricalDataServiceImpl.java:222-240 | the sum of the values does not depend on their order |
| Means.AveragePermutation | weather-service/src/main/java/com/omstu/weatherservice/service/impl/AgrometricalDataServiceImpl.java:214-224 | the mean does not depend on the order in which the yearly results arrive |
| AgroService.CalculateMetricsFromResponse | weather-service/src/main/java/com/omstu/weatherservice/service/impl/AgrometricalDataServiceImpl.java:57-71 | the result is the reference metrics of the response: the bare "no data" record without a daily block or without maximum temperatures, else the metrics of the three series |
| AgroService.NoDataLabelMeansNoTemperatures | weather-service/src/main/java/com/omstu/weatherservice/service/impl/AgrometricalDataServiceImpl.java:58-68 | the bare "Нет данных" label appears exactly when the response has no temperatures, and then the whole record is the empty one |
| AgroService.WeatherMetrics | weather-service/src/main/java/com/omstu/weatherservice/service/impl/AgrometricalDataServiceImpl.java:40-41 | a failed weather request stays the same failure; a successful one yields the metrics of its answer |
| AgroService.CalculateHistoricalMetrics | weather-service/src/main/java/com/omstu/weatherservice/service/impl/AgrometricalDataServiceImpl.java:33-44 | the call asks the weather service for a historical period and returns the metrics of exactly that answer |
| AgroService.CalculateForecastMetrics | weather-service/src/main/java/com/omstu/weatherservice/service/impl/AgrometricalDataServiceImpl.java:46-54 | the call asks the weather service for a forecast and returns the metrics of exactly that answer |
| AgroService.WindowIndices | weather-service/src/main/java/com/omstu/weatherservice/service/impl/AgrometricalDataServiceImpl.java:92-99 | every kept position is a position of the series |
| AgroService.ComputeMetricsForPeriod | weather-service/src/main/java/com/omstu/weatherservice/service/impl/AgrometricalDataServiceImpl.java:76-102 | the filter loop and computation yield exactly the metrics of the days whose date lies in the window, with positions past a short list read as null |
| AgroService.WindowIndicesExact | weather-service/src/main/java/com/omstu/weatherservice/service/impl/AgrometricalDataServiceImpl.java:92-94 | the window keeps a position exactly when its date lies between the bounds inclusive, each once and in increasing order |
| AgroService.WindowKeepsAll | weather-service/src/main/java/com/omstu/weatherservice/service/impl/AgrometricalDataServiceImpl.java:94-98 | a window containing every date keeps every day |
| AgroService.WindowKeepsNone | weather-service/src/main/java/com/omstu/weatherservice/service/impl/AgrometricalDataServiceImpl.java:94-98 | a window containing no date keeps no day |
| AgroService.EmptyWindowMetrics | weather-service/src/main/java/com/omstu/weatherservice/service/impl/AgrometricalDataServiceImpl.java:100-101 | a window that holds no day gives the all-zero metrics with the GTK-0 label, not the bare "no data" record |
| AgroService.PeriodFailsForAllWindows | weather-service/src/main/java/com/omstu/weatherservice/service/impl/AgrometricalDataServiceImpl.java:92-93 | whether an unparsable time stamp fails the period depends only on the time stamps, never on the window |
| AgroService.SeasonTextsDenoteSeason | weather-service/src/main/java/com/omstu/weatherservice/service/impl/AgrometricalDataServiceImpl.java:295-296 | the request texts for a four-digit harvest year read back as October 1st of the year before and September 30th |
| AgroService.SeasonFromResponse | weather-service/src/main/java/com/omstu/weatherservice/service/impl/AgrometricalDataServiceImpl.java:299-342 | the map step yields exactly the reference season: the five windows' metrics placed in the response fields |
| AgroService.CalculateSeasonalMetrics | weather-service/src/main/java/com/omstu/weatherservice/service/impl/AgrometricalDataServiceImpl.java:284-345 | a year before 2017 or after the current year is refused before any request; otherwise one historical request from October 1st to September 30th is made, its failure passed on, and its answer split into the five windows |
| AgroService.SeasonWindowsPartition | weather-service/src/main/java/com/omstu/weatherservice/service/impl/AgrometricalDataServiceImpl.java:300-313 | each day of the season lies in exactly one of October–March and April–September, and each day of April–September in exactly one of April–May, June–July and August–September |
| AgroService.WindowFrost | weather-service/src/main/java/com/omstu/weatherservice/service/impl/AgrometricalDataServiceImpl.java:130 | a window's minimum is below zero exactly when some dated day in it has a maximum temperature below zero |
| AgroService.FrostRiskMeansFrostyDay | weather-service/src/main/java/com/omstu/weatherservice/service/impl/AgrometricalDataServiceImpl.java:324 | spring frost risk is flagged exactly when some day from April 1st to May 31st has a maximum temperature below zero |
| AgroService.ParseCropStart | weather-service/src/main/java/com/omstu/weatherservice/service/impl/AgrometricalDataServiceImpl.java:185-193 | the crop start fails with the format error exactly when splitting at '-' does not give two parts, and succeeds exactly when both parts parse as Java integers |
| AgroService.ParseCropStartPadded | weather-service/src/main/java/com/omstu/weatherservice/service/impl/AgrometricalDataServiceImpl.java:184-193 | a zero-padded `MM-dd` text reads back as its month and day |
| AgroService.Field | weather-service/src/main/java/com/omstu/weatherservice/service/impl/AgrometricalDataServiceImpl.java:222-240 | one field of each kept record, in order |
| AgroService.TruncToInt | weather-service/src/main/java/com/omstu/weatherservice/service/impl/AgrometricalDataServiceImpl.java:234-236 | the `(int)` cast truncates toward zero |
| AgroService.AveragedOf | weather-service/src/main/java/com/omstu/weatherservice/service/impl/AgrometricalDataServiceImpl.java:215-219 | averaging fails with "no historical data" exactly when no year was kept |
| AgroService.AveragedPrecheck | weather-service/src/main/java/com/omstu/weatherservice/service/impl/AgrometricalDataServiceImpl.java:179-193 | the precheck passes exactly when the years count is 1 to 5 and the crop start parses |
| AgroService.FetchReferenceYear | weather-service/src/main/java/com/omstu/weatherservice/service/impl/AgrometricalDataServiceImpl.java:198-212 | a year's failure is `LocalDate.of` refusing its start or the validator refusing its request, which `onErrorResume` does not catch; without one, the year's answer is recorded, no recorded answer is a refusal, and its metrics are kept exactly when the request succeeded |
| AgroService.FetchReferenceYears | weather-service/src/main/java/com/omstu/weatherservice/service/impl/AgrometricalDataServiceImpl.java:197-213 | the stream fails with the error of the first year, in offset order, whose start is invalid or whose request the validator refuses; without one, each of the years before the current one is requested once, in order, and the successful ones' metrics are kept |
| AgroService.CalculateAveragedMetrics | weather-service/src/main/java/com/omstu/weatherservice/service/impl/AgrometricalDataServiceImpl.java:171-267 | a bad years count or crop start is the matching error; otherwise the first rejected year's error (invalid start, refused coordinates or period) fails the call; without one, the result is the average of the metrics of the years whose request succeeded |
| AgroService.FirstPresentIsFirst | weather-service/src/main/java/com/omstu/weatherservice/service/impl/AgrometricalDataServiceImpl.java:197-213 | the stream has no failure exactly when no year is rejected; otherwise its failure is the rejection of a year before which none is rejected |
| AgroService.FirstPresentFrom | weather-service/src/main/java/com/omstu/weatherservice/service/impl/AgrometricalDataServiceImpl.java:197-213 | once a year is the first rejected one, the later years do not change the stream's failure |
| AgroService.StartRefused | weather-service/src/main/java/com/omstu/weatherservice/service/impl/AgrometricalDataServiceImpl.java:200 | a reference start that is not a calendar date is that year's rejection, as an invalid start date |
| AgroService.RejectionOfAnswer | weather-service/src/main/java/com/omstu/weatherservice/service/impl/AgrometricalDataServiceImpl.java:206-207 | a year's rejection shows in its weather answer as a validator error carrying the same violation, and a year without one has no such answer |
| AgroService.KeptCountsSuccesses | weather-service/src/main/java/com/omstu/weatherservice/service/impl/AgrometricalDataServiceImpl.java:208-216 | the kept list has one entry per successful year, so it is empty exactly when every year failed |
| AgroService.AveragedWithinYears | weather-service/src/main/java/com/omstu/weatherservice/service/impl/AgrometricalDataServiceImpl.java:222-240 | each averaged field lies between the least and the greatest value of the kept years |
| AgroService.AveragedHeatWithinYears | weather-service/src/main/java/com/omstu/weatherservice/service/impl/AgrometricalDataServiceImpl.java:234-236 | the averaged heat-stress days lie between the least and the greatest count of the kept years |
| AgroService.AveragedSingleYear | weather-service/src/main/java/com/omstu/weatherservice/service/impl/AgrometricalDataServiceImpl.java:249-259 | with one year kept its values come back unchanged, labelled "(среднее за 1 лет)", with the other fields 0 |
| AgroService.AveragedOrderFree | weather-service/src/main/java/com/omstu/weatherservice/service/impl/AgrometricalDataServiceImpl.java:197-214 | the average does not depend on the order in which the years' answers arrive |
| AgroService.StartTextIsIso | weather-service/src/main/java/com/omstu/weatherservice/service/impl/AgrometricalDataServiceImpl.java:295 | the season's start text is the ISO text of October 1st of the year before |
| AgroService.EndTextIsIso | weather-service/src/main/java/com/omstu/weatherservice/service/impl/AgrometricalDataServiceImpl.java:296 | the season's end text is the ISO text of September 30th of the year |
| Calendar.DaysInMonth | weather-service/src/main/java/com/omstu/weatherservice/service/utils/DateUtils.java:46-47 | a month has 28 to 31 days; 29 exactly for February of a leap year, 31 exactly for the seven long months |
| Calendar.Trichotomy | weather-service/src/main/java/com/omstu/weatherservice/validation/DateValidator.java:92 | of two dates exactly one is before, equal to or after the other |
| Calendar.NextDay | weather-service/src/main/java/com/omstu/weatherservice/service/utils/DateUtils.java:51 | `plusDays(1)` gives a valid date strictly after the given one |
| Calendar.NextDayIsNext | weather-service/src/main/java/com/omstu/weatherservice/service/utils/DateUtils.java:51 | no valid date lies strictly between a date and its next day |
| Calendar.PrevDay | weather-service/src/main/java/com/omstu/weatherservice/service/utils/DateUtils.java:70 | `minusDays(1)` gives the valid date whose next day is the given one |
| Calendar.PlusDays | weather-service/src/main/java/com/omstu/weatherservice/service/impl/AgrometricalDataServiceImpl.java:201 | `plusDays(n)` gives a valid date, later for positive n, earlier for negative n, the same for 0 |
| Calendar.PlusMonths | weather-service/src/main/java/com/omstu/weatherservice/service/utils/DateUtils.java:70 | `plusMonths(n)` moves n months and clamps the day of month to the length of the month reached |
| Calendar.AtEndOfMonth | weather-service/src/main/java/com/omstu/weatherservice/service/utils/DateUtils.java:44-47 | the end of a date's month is a valid date of the same month, not before the date, and the next day starts a month |
| Calendar.TruncDiv | weather-service/src/main/java/com/omstu/weatherservice/service/utils/DateUtils.java:27 | Java long division truncates toward zero |
| Calendar.MonthsBetweenCountsWholeMonths | weather-service/src/main/java/com/omstu/weatherservice/service/utils/DateUtils.java:27 | `MONTHS.between` from a date to a later one counts whole months: the month difference, less one when the day of month is not reached |
| Calendar.IsoText | weather-service/src/main/java/com/omstu/weatherservice/service/impl/AgrometricalDataServiceImpl.java:207 | `LocalDate.toString` of a date in years 0 to 9999 parses back to the date; outside them the text is refused |
| Calendar.ParseIsoDate | weather-service/src/main/java/com/omstu/weatherservice/validation/DateValidator.java:38-39 | an accepted ISO text denotes a valid date of years 0 to 9999 |
| Calendar.ParseFormat | weather-service/src/main/java/com/omstu/weatherservice/validation/DateValidator.java:38-39 | parsing the ISO text of a date gives the date back |
| Calendar.FormatParse | weather-service/src/main/java/com/omstu/weatherservice/validation/DateValidator.java:38-39 | a text the parser accepts is exactly the ISO text of the date it denotes |
| DateUtils.IsLongPeriodCountsWholeMonths | weather-service/src/main/java/com/omstu/weatherservice/service/utils/DateUtils.java:26-29 | a period is long exactly when its whole months exceed the threshold |
| DateUtils.TilesWithin | weather-service/src/main/java/com/omstu/weatherservice/service/utils/DateUtils.java:38-55 | each range of a tiling lies inside the period |
| DateUtils.SplitByMonths | weather-service/src/main/java/com/omstu/weatherservice/service/utils/DateUtils.java:38-55 | an empty period gives no range; otherwise the ranges tile the period day after day, each inside one calendar month and all but the last ending at their month's end |
| DateUtils.ThreeMonthsEnd | weather-service/src/main/java/com/omstu/weatherservice/service/utils/DateUtils.java:70 | three months less a day after a date is a valid date after it |
| DateUtils.ChunkUnderThreeMonths | weather-service/src/main/java/com/omstu/weatherservice/service/utils/DateUtils.java:70-71 | a chunk never spans three whole months, whatever day it starts on |
| DateUtils.SplitByThreeMonths | weather-service/src/main/java/com/omstu/weatherservice/service/utils/DateUtils.java:64-79 | the loop gives the reference split: nothing for an empty period, otherwise chunks that tile the period, each ending three months less a day after its start or at the end date |
| DateUtils.ThreeMonthSplitTiles | weather-service/src/main/java/com/omstu/weatherservice/service/utils/DateUtils.java:69-76 | the three-month chunks of a non-empty period tile it, day after day |
| DateUtils.ThreeMonthSplitShort | weather-service/src/main/java/com/omstu/weatherservice/service/utils/DateUtils.java:70-71 | every three-month chunk spans at most two whole months |
| DateUtils.ThreeMonthSplitChunks | weather-service/src/main/java/com/omstu/weatherservice/service/utils/DateUtils.java:70-73 | each chunk ends three months less a day after its start, or at the end date when that comes first |
| DateValidator.MaxHistoricalDate | weather-service/src/main/java/com/omstu/weatherservice/validation/DateValidator.java:99-100 | the last historical date is today less the lag: not after today for a non-negative lag, before today for a positive one |
| DateValidator.ValidateCoordinates | weather-service/src/main/java/com/omstu/weatherservice/validation/DateValidator.java:74-89 | coordinates pass exactly when both are present, latitude within ±90 and longitude within ±180; missing ones give the "required" error |
| DateValidator.ValidateForecastDays | weather-service/src/main/java/com/omstu/weatherservice/validation/DateValidator.java:55-65 | forecast days pass exactly when present and 1 to 16; missing or non-positive and above 16 give their own errors |
| DateValidator.ValidateDateOrder | weather-service/src/main/java/com/omstu/weatherservice/validation/DateValidator.java:91-96 | the order check passes exactly when the start is not after the end |
| DateValidator.ValidateHistoricalDateBounds | weather-service/src/main/java/com/omstu/weatherservice/validation/DateValidator.java:98-119 | the bounds pass exactly when the start is not before the configured first historical date (2016-01-01 unless set), the end not after the last, and the start not in the future; the first failing check names the error |
| DateValidator.ValidateHistoricalPeriod | weather-service/src/main/java/com/omstu/weatherservice/validation/DateValidator.java:28-47 | a period passes exactly when both dates are present, in ISO form, in order and within the bounds; missing and non-ISO dates give their own errors |
| DateValidator.FutureCheckIsRedundant | weather-service/src/main/java/com/omstu/weatherservice/validation/DateValidator.java:115-118 | with a non-negative lag, the future-start check never fires after the other checks passed |
| DateValidator.AcceptedPeriodIsHistorical | weather-service/src/main/java/com/omstu/weatherservice/validation/DateValidator.java:28-47 | an accepted period parses, starts no earlier than the first historical date, is in order, and with a non-negative lag ends no later than today |
| Calendar.FormatIsoDate | weather-service/src/main/java/com/omstu/weatherservice/service/impl/AgrometricalDataServiceImpl.java:207 | the ISO text of a date is ten characters with dashes at positions 4 and 7 |
| Calendar.OrdOrders | weather-service/src/main/java/com/omstu/weatherservice/validation/DateValidator.java:92 | the day count orders valid dates exactly like `isBefore` and is one-to-one |
| Calendar.EarlierMonthIsBefore | weather-service/src/main/java/com/omstu/weatherservice/service/utils/DateUtils.java:70 | a date in an earlier month is before any date of a later month |
| ResponseMapper.CombineResponses | weather-service/src/main/java/com/omstu/weatherservice/mapper/OpenMeteoMapper.java:17-42 | no responses is an error; a malformed hourly stamp, or else a null soil reading of a merged date, is the matching error exactly when it occurs; otherwise the first response's coordinates and elevation with the merged hourly and daily blocks |
| ResponseMapper.ConcatTimeAppend | weather-service/src/main/java/com/omstu/weatherservice/mapper/OpenMeteoMapper.java:26-28 | merging the answers of two consecutive chunks keeps the first chunk's time stamps followed by the second's |
| HourlyMapper.CombinedSeriesAreTheCopiedOnes | weather-service/src/main/java/com/omstu/weatherservice/mapper/HourlyMapper.java:49-67 | exactly the time stamps and the eighteen listed series are copied; the other five hourly series stay empty |
| HourlyMapper.NoSeries | weather-service/src/main/java/com/omstu/weatherservice/mapper/HourlyMapper.java:20-45 | the fresh result holds every series, all empty |
| HourlyMapper.AppendBlock | weather-service/src/main/java/com/omstu/weatherservice/mapper/HourlyMapper.java:49-67 | one block appends its copied series to the accumulated ones and leaves the others unchanged |
| HourlyMapper.CombineHourlyList | weather-service/src/main/java/com/omstu/weatherservice/mapper/HourlyMapper.java:15-72 | an empty list gives null; otherwise every series is present, the copied ones are the in-order concatenation over the non-null blocks and the rest are empty |
| HourlyMapper.ConcatSeriesAppend | weather-service/src/main/java/com/omstu/weatherservice/mapper/HourlyMapper.java:47-69 | merging is associative: the merge of two lists is the first list's merge followed by the second's, series by series |
| HourlyMapper.ConcatSeriesLength | weather-service/src/main/java/com/omstu/weatherservice/mapper/HourlyMapper.java:74-78 | a merged series is as long as its non-null pieces together |
| DailyMapper.NoSeries | weather-service/src/main/java/com/omstu/weatherservice/mapper/DailyMapper.java:149-162 | the fresh accumulator holds every copied daily series, all empty |
| DailyMapper.AppendBlock | weather-service/src/main/java/com/omstu/weatherservice/mapper/DailyMapper.java:39-50 | one non-null block appends each of its copied series to the accumulated one |
| DailyMapper.CombineDailyData | weather-service/src/main/java/com/omstu/weatherservice/mapper/DailyMapper.java:34-55 | the dates and each copied series are the in-order concatenation over the non-null daily blocks |
| DailyMapper.AddHourAt | weather-service/src/main/java/com/omstu/weatherservice/mapper/DailyMapper.java:64-74 | adding the hour at index j puts its present soil readings into the bucket of its stamp's date and leaves every other date's bucket as it was |
| DailyMapper.GroupHourlyDataByDate | weather-service/src/main/java/com/omstu/weatherservice/mapper/DailyMapper.java:57-89 | each date's bucket holds, in order, the soil readings of the hours stamped with that date, null readings included, skipping null blocks, blocks without stamps and series too short for the hour; a stamp shorter than a date makes the grouping fail |
| DailyMapper.CalculateSoilParameters | weather-service/src/main/java/com/omstu/weatherservice/mapper/DailyMapper.java:91-141 | fails exactly when some date's bucket holds a null reading, which `calculateAverage` cannot unbox; otherwise for each date, in order, the mean of its bucket's readings of each soil series, 0 for an empty or missing bucket |
| DailyMapper.SoilMeans | weather-service/src/main/java/com/omstu/weatherservice/mapper/DailyMapper.java:94-103 | the reference soil series, defined when no reading is null: for each date the mean of that date's readings over all hourly blocks |
| DailyMapper.SoilSeriesMatch | weather-service/src/main/java/com/omstu/weatherservice/mapper/DailyMapper.java:91-110 | the means of the grouped buckets are the reference soil series |
| DailyMapper.ReadableBuckets | weather-service/src/main/java/com/omstu/weatherservice/mapper/DailyMapper.java:91-103 | the grouped buckets of the dates hold no null reading exactly when those dates' hourly soil readings hold none |
| DailyMapper.WithSoil | weather-service/src/main/java/com/omstu/weatherservice/mapper/DailyMapper.java:112-130 | the built block keeps the copied series unchanged and adds the three soil series |
| DailyMapper.BuildDailyMerges | weather-service/src/main/java/com/omstu/weatherservice/mapper/DailyMapper.java:27-31 | the three steps together build the merged daily block |
| DailyMapper.CombineDailyList | weather-service/src/main/java/com/omstu/weatherservice/mapper/DailyMapper.java:22-32 | no daily blocks give null; otherwise a malformed hourly stamp fails the merge, and so does, exactly when it occurs, a null soil reading of a merged date; without either, the merged block whose soil series are the per-date means of the hourly readings |
| OpenMeteoService.Fetched | weather-service/src/main/java/com/omstu/weatherservice/service/impl/OpenMeteoService.java:148-155 | a single request either yields its answer or fails with the request's error |
| OpenMeteoService.ChunkRequests | weather-service/src/main/java/com/omstu/weatherservice/service/impl/OpenMeteoService.java:123-128 | one historical request per chunk, in chunk order, for exactly that chunk's dates |
| OpenMeteoService.SurvivorsEmpty | weather-service/src/main/java/com/omstu/weatherservice/service/impl/OpenMeteoService.java:129-135 | no answer is collected exactly when every chunk request fails |
| OpenMeteoService.SurvivorsAllSucceed | weather-service/src/main/java/com/omstu/weatherservice/service/impl/OpenMeteoService.java:123-135 | when every chunk request succeeds, every answer is collected, in chunk order |
| OpenMeteoService.FetchChunks | weather-service/src/main/java/com/omstu/weatherservice/service/impl/OpenMeteoService.java:123-135 | the sequential fetch keeps the answers of the requests that succeed, in request order, dropping the failures |
| OpenMeteoService.GetHistoricalDataInChunks | weather-service/src/main/java/com/omstu/weatherservice/service/impl/OpenMeteoService.java:115-143 | the period is split in three-month chunks, the surviving answers merged; no survivor is the merge error |
| OpenMeteoService.GetHistoricalWeather | weather-service/src/main/java/com/omstu/weatherservice/service/impl/OpenMeteoService.java:90-109 | an invalid period fails with its violation; a long period is fetched in chunks; a short one with a single request |
| OpenMeteoService.GetWeather | weather-service/src/main/java/com/omstu/weatherservice/service/impl/OpenMeteoService.java:61-72 | coordinates are checked first; a forecast checks its days and makes one request; every other type goes the historical way |
| OpenMeteoService.InvalidRequestFails | weather-service/src/main/java/com/omstu/weatherservice/service/impl/OpenMeteoService.java:61-93 | a request the validator refuses fails with the violation, whatever the network would answer |
| OpenMeteoService.HistoricRejection | weather-service/src/main/java/com/omstu/weatherservice/service/impl/OpenMeteoService.java:61-93 | a historical request is refused exactly when the coordinates or the period fail validation, coordinates first |
| OpenMeteoService.InvalidIffRejected | weather-service/src/main/java/com/omstu/weatherservice/service/impl/OpenMeteoService.java:61-93 | a non-forecast request's answer is a validator error exactly when the coordinates or the period are refused, and then it is that refusal, whatever the network answers |
| OpenMeteoService.ChunkRequestsCoverPeriod | weather-service/src/main/java/com/omstu/weatherservice/service/impl/OpenMeteoService.java:118-128 | the chunk requests of a valid period ask for every day of it exactly once, in order, each inside the period and spanning at most two whole months |
| OpenMeteoService.TilingRequests | weather-service/src/main/java/com/omstu/weatherservice/service/impl/OpenMeteoService.java:123-128 | requests built from a tiling by short ranges tile the period and are short |
| Strings.DigitsValue | weather-service/src/main/java/com/omstu/weatherservice/service/impl/AgrometricalDataServiceImpl.java:192-193 | the value of n decimal digits is below 10 to the n |
| Strings.Padded | weather-service/src/main/java/com/omstu/weatherservice/service/impl/AgrometricalDataServiceImpl.java:295-296 | a number written with exactly the given count of digits |
| Strings.PaddedValue | weather-service/src/main/java/com/omstu/weatherservice/service/impl/AgrometricalDataServiceImpl.java:192-193 | reading a zero-padded numeral gives the number back when it fits the width |
| Strings.ValuePadded | weather-service/src/main/java/com/omstu/weatherservice/service/impl/AgrometricalDataServiceImpl.java:192-193 | writing the value of a digit string at its own width gives the string back |
| Strings.NumDigits | weather-service/src/main/java/com/omstu/weatherservice/service/impl/AgrometricalDataServiceImpl.java:295 | the digit count of a number is the least width it fits in |
| Strings.DecimalText | weather-service/src/main/java/com/omstu/weatherservice/service/impl/AgrometricalDataServiceImpl.java:295 | the decimal text of a number is digits only, without a leading zero |
| Strings.DecimalTextValue | weather-service/src/main/java/com/omstu/weatherservice/service/impl/AgrometricalDataServiceImpl.java:295 | reading a number's decimal text gives the number back |
| Strings.DecimalTextOfFourDigits | weather-service/src/main/java/com/omstu/weatherservice/service/impl/AgrometricalDataServiceImpl.java:295-296 | a four-digit year is written as its four digits |
| Strings.ParseJavaInt | agriculture-field-service/src/main/java/com/omstu/agriculturefield/disease/service/impl/DiseaseRiskService.java:316 | `Integer.parseInt` accepts only a sign-or-digit start and values within the 32-bit range |
| Strings.ParseJavaIntPadded | weather-service/src/main/java/com/omstu/weatherservice/service/impl/AgrometricalDataServiceImpl.java:192-193 | zero-padded numerals such as "03" parse to their value |
| Strings.SplitAll | weather-service/src/main/java/com/omstu/weatherservice/service/impl/AgrometricalDataServiceImpl.java:185 | the pieces between separators hold no separator and there is at least one |
| Strings.JoinSplitAll | agriculture-field-service/src/main/java/com/omstu/agriculturefield/disease/service/impl/DiseaseRiskService.java:313 | joining the pieces with the separator gives back the text |
| Strings.DropTrailingEmpty | agriculture-field-service/src/main/java/com/omstu/agriculturefield/disease/service/impl/DiseaseRiskService.java:313 | removing trailing empty pieces keeps a prefix ending in a non-empty piece and drops only empty ones |
| Strings.JavaSplit | agriculture-field-service/src/main/java/com/omstu/agriculturefield/disease/service/impl/DiseaseRiskService.java:313 | `String.split`: the text itself when the separator does not occur, otherwise the pieces without trailing empty ones |
| Strings.SplitAllWithoutSep | weather-service/src/main/java/com/omstu/weatherservice/service/impl/AgrometricalDataServiceImpl.java:185 | text without the separator splits into itself alone |
| Strings.SplitAllPair | weather-service/src/main/java/com/omstu/weatherservice/service/impl/AgrometricalDataServiceImpl.java:185 | two separator-free pieces joined by the separator split back into the two |
| Strings.TrimStart | agriculture-field-service/src/main/java/com/omstu/agriculturefield/disease/model/enums/SupportedCrop.java:29 | the leading blanks are removed and the rest is kept |
| Strings.TrimEnd | agriculture-field-service/src/main/java/com/omstu/agriculturefield/disease/model/enums/SupportedCrop.java:29 | the trailing blanks are removed and the rest is kept |
| Strings.Trim | agriculture-field-service/src/main/java/com/omstu/agriculturefield/disease/service/impl/DiseaseRiskService.java:316 | `String.trim` leaves text that neither starts nor ends with a blank |
| Strings.TrimRemovesPadding | agriculture-field-service/src/main/java/com/omstu/agriculturefield/disease/model/enums/SupportedCrop.java:29 | trimming removes exactly the blank padding around a text |
| Sorting.InsertPermutes | agriculture-field-service/src/main/java/com/omstu/agriculturefield/disease/service/impl/DiseaseRiskService.java:298 | inserting into a sorted list adds exactly the inserted element |
| Sorting.InsertSorted | agriculture-field-service/src/main/java/com/omstu/agriculturefield/disease/service/impl/DiseaseRiskService.java:298 | inserting into a sorted list keeps it sorted |
| Sorting.InsertWithKey | agriculture-field-service/src/main/java/com/omstu/agriculturefield/rotation/service/impl/RotationRecommendationServiceImpl.java:236-241 | insertion places the new element after the equal-key elements already present |
| Sorting.SortPermutes | agriculture-field-service/src/main/java/com/omstu/agriculturefield/disease/service/impl/DiseaseRiskService.java:298 | sorting returns a permutation of its input |
| Sorting.SortSorted | agriculture-field-service/src/main/java/com/omstu/agriculturefield/disease/service/impl/DiseaseRiskForecastServiceImpl.java:58 | sorting orders the output by key under the given total order (the callers pass "higher risk or higher rank first") |
| Sorting.SortStable | agriculture-field-service/src/main/java/com/omstu/agriculturefield/rotation/service/impl/RotationRecommendationServiceImpl.java:236-241 | the sort is stable: elements with equal keys keep their input order |
| DiseaseRisk.RiskLevelToScore | agriculture-field-service/src/main/java/com/omstu/agriculturefield/disease/service/impl/DiseaseRiskService.java:528-535 | every level's representative score lies strictly between 0 and 1 |
| DiseaseRisk.ScoreLevelRoundTrip | agriculture-field-service/src/main/java/com/omstu/agriculturefield/disease/service/impl/DiseaseRiskService.java:528-542 | mapping a level to its score and back gives the level |
| DiseaseRisk.ScoreToRiskLevelMonotone | agriculture-field-service/src/main/java/com/omstu/agriculturefield/disease/service/impl/DiseaseRiskService.java:537-542 | a higher score never gives a lower level |
| DiseaseRisk.RiskLevelToScoreMonotone | agriculture-field-service/src/main/java/com/omstu/agriculturefield/disease/service/impl/DiseaseRiskService.java:528-535 | level scores are ordered exactly like the levels |
| DiseaseRisk.Round2 | agriculture-field-service/src/main/java/com/omstu/agriculturefield/disease/service/impl/DiseaseRiskService.java:143 | rounding half up to two decimals moves a value by at most half a hundredth |
| DiseaseRisk.Round2Idempotent | agriculture-field-service/src/main/java/com/omstu/agriculturefield/disease/service/impl/DiseaseRiskService.java:287 | rounding a rounded value changes nothing |
| DiseaseRisk.DroughtGtkDecides | agriculture-field-service/src/main/java/com/omstu/agriculturefield/disease/service/impl/DiseaseRiskService.java:209-213 | with GTK below 1.0 the dry spell plays no part and the drought risk is at least MEDIUM |
| DiseaseRisk.DroughtMonotone | agriculture-field-service/src/main/java/com/omstu/agriculturefield/disease/service/impl/DiseaseRiskService.java:202-222 | a longer dry spell never lowers the drought risk; nor does a lower GTK while both stay on one side of 1.0 |
| DiseaseRisk.DroughtNotMonotoneAcrossOne | agriculture-field-service/src/main/java/com/omstu/agriculturefield/disease/service/impl/DiseaseRiskService.java:209-220 | across GTK 1.0 the order breaks: GTK 0.8 is MEDIUM whatever the dry spell, while GTK 1.5 with a 20-day dry spell is CRITICAL |
| DiseaseRisk.FrostMonotone | agriculture-field-service/src/main/java/com/omstu/agriculturefield/disease/service/impl/DiseaseRiskService.java:228-237 | a colder minimum never lowers the frost risk |
| DiseaseRisk.HeatMonotone | agriculture-field-service/src/main/java/com/omstu/agriculturefield/disease/service/impl/DiseaseRiskService.java:243-253 | more hot or extremely hot days never lower the heat-stress risk |
| DiseaseRisk.KindRanks | agriculture-field-service/src/main/java/com/omstu/agriculturefield/disease/service/impl/DiseaseRiskService.java:327-386 | the eight tests are numbered in the order the rule evaluation runs them |
| DiseaseRisk.TestsExactly | agriculture-field-service/src/main/java/com/omstu/agriculturefield/disease/service/impl/DiseaseRiskService.java:327-386 | the first n tests report, in order and once each, exactly those among them that fire, never more than the thresholds they test |
| DiseaseRisk.TriggeredExactly | agriculture-field-service/src/main/java/com/omstu/agriculturefield/disease/service/impl/DiseaseRiskService.java:307-389 | the triggered list holds, once each, exactly the conditions whose threshold and reading are present and whose comparison holds |
| DiseaseRisk.TestedAll | agriculture-field-service/src/main/java/com/omstu/agriculturefield/disease/service/impl/DiseaseRiskService.java:393-405 | the eight threshold checks cover exactly the thresholds counted, except humidity, which is counted but never compared |
| DiseaseRisk.ConditionCount | agriculture-field-service/src/main/java/com/omstu/agriculturefield/disease/service/impl/DiseaseRiskService.java:393-406 | the total condition count is between 1 and 9 and at least the number of thresholds set |
| DiseaseRisk.CountTotalConditions | agriculture-field-service/src/main/java/com/omstu/agriculturefield/disease/service/impl/DiseaseRiskService.java:393-406 | the counter loop yields the thresholds set, but at least 1 |
| DiseaseRisk.TriggeredWithinTotal | agriculture-field-service/src/main/java/com/omstu/agriculturefield/disease/service/impl/DiseaseRiskService.java:271-279 | triggered conditions never outnumber the total; a rule with a humidity threshold never matches fully |
| DiseaseRisk.SeasonMatchMeans | agriculture-field-service/src/main/java/com/omstu/agriculturefield/disease/service/impl/DiseaseRiskService.java:311-324 | with readable parts, a rule is in season exactly when one of its parts names the current month |
| DiseaseRisk.SeasonMatchStep | agriculture-field-service/src/main/java/com/omstu/agriculturefield/disease/service/impl/DiseaseRiskService.java:315-320 | the season scan stops at an unreadable part with its error or at a matching one, otherwise moves on |
| DiseaseRisk.SeasonCheck | agriculture-field-service/src/main/java/com/omstu/agriculturefield/disease/service/impl/DiseaseRiskService.java:311-320 | the season loop gives the reference scan of the comma-split, trimmed parts |
| DiseaseRisk.TestsInOrder | agriculture-field-service/src/main/java/com/omstu/agriculturefield/disease/service/impl/DiseaseRiskService.java:327-386 | the eight tests run in source order, each appending at most its own condition |
| DiseaseRisk.TestAndAppend | agriculture-field-service/src/main/java/com/omstu/agriculturefield/disease/service/impl/DiseaseRiskService.java:327-332 | one test appends its condition exactly when threshold and reading are present and the comparison holds |
| DiseaseRisk.EvaluateRule | agriculture-field-service/src/main/java/com/omstu/agriculturefield/disease/service/impl/DiseaseRiskService.java:307-389 | the rule evaluation gives the reference outcome: out of season nothing, otherwise the triggered conditions in order |
| DiseaseRisk.AdjustMonotone | agriculture-field-service/src/main/java/com/omstu/agriculturefield/disease/service/impl/DiseaseRiskService.java:410-425 | the adjustment never raises a level, and a larger match ratio never gives a lower one |
| DiseaseRisk.AdjustOneStep | agriculture-field-service/src/main/java/com/omstu/agriculturefield/disease/service/impl/DiseaseRiskService.java:412-418 | a match ratio in [0.5, 0.8) lowers the level by exactly one step, bottoming out at LOW |
| DiseaseRisk.ItemOfRule | agriculture-field-service/src/main/java/com/omstu/agriculturefield/disease/service/impl/DiseaseRiskService.java:271-293 | an item's ratio lies in (0, 1], its score is the weighted ratio to within rounding, its level at most the rule's and the rule's own when all conditions are met |
| DiseaseRisk.ItemOfShare | agriculture-field-service/src/main/java/com/omstu/agriculturefield/disease/service/impl/DiseaseRiskService.java:276-288 | the same for any non-empty triggered list no longer than the condition count |
| DiseaseRisk.UnsortedItemsErrSticks | agriculture-field-service/src/main/java/com/omstu/agriculturefield/disease/service/impl/DiseaseRiskService.java:268-269 | once a rule's evaluation fails, the whole pass fails with that error |
| DiseaseRisk.OneRule | agriculture-field-service/src/main/java/com/omstu/agriculturefield/disease/service/impl/DiseaseRiskService.java:268-294 | one rule yields an item exactly when it is in season and some condition fires |
| DiseaseRisk.UnsortedItemsShape | agriculture-field-service/src/main/java/com/omstu/agriculturefield/disease/service/impl/DiseaseRiskService.java:268-294 | the pass yields at most one item per rule, each with at least one triggered condition |
| DiseaseRisk.ScoreOrderTotal | agriculture-field-service/src/main/java/com/omstu/agriculturefield/disease/service/impl/DiseaseRiskService.java:298 | "score at least" is a total order, so the sort by descending score is well defined |
| DiseaseRisk.DiseaseRisksOrdered | agriculture-field-service/src/main/java/com/omstu/agriculturefield/disease/service/impl/DiseaseRiskService.java:262-300 | the disease list is a permutation of the rules' items with non-increasing scores, equal scores keeping rule order |
| DiseaseRisk.RiskItem | agriculture-field-service/src/main/java/com/omstu/agriculturefield/disease/service/impl/DiseaseRiskService.java:276-293 | the item holds the adjusted level and the rounded weighted score |
| DiseaseRisk.AssessDiseaseRisks | agriculture-field-service/src/main/java/com/omstu/agriculturefield/disease/service/impl/DiseaseRiskService.java:262-300 | the loop over the rules followed by the sort gives the reference disease list |
| DiseaseRisk.MaxItemScoreIsMaximum | agriculture-field-service/src/main/java/com/omstu/agriculturefield/disease/service/impl/DiseaseRiskService.java:124-127 | the best disease score bounds every item's score and is one of them |
| DiseaseRisk.SortedBestFirst | agriculture-field-service/src/main/java/com/omstu/agriculturefield/disease/service/impl/DiseaseRiskService.java:124-127 | on the sorted list the best score is the first item's |
| DiseaseRisk.OverallIsMaximum | agriculture-field-service/src/main/java/com/omstu/agriculturefield/disease/service/impl/DiseaseRiskService.java:129-132 | the overall score is at least each of the four and equal to one of them |
| DiseaseRisk.SeasonWarning | agriculture-field-service/src/main/java/com/omstu/agriculturefield/disease/service/impl/DiseaseRiskService.java:544-553 | every calendar month has a note and no other number does; March and April are spring, November to February winter |
| DiseaseRisk.SeriousItemsAlerted | agriculture-field-service/src/main/java/com/omstu/agriculturefield/disease/service/impl/DiseaseRiskService.java:506-517 | every HIGH or CRITICAL disease gets an alert naming it |
| DiseaseRisk.AlertsNameSeriousItems | agriculture-field-service/src/main/java/com/omstu/agriculturefield/disease/service/impl/DiseaseRiskService.java:506-512 | every disease alert names a HIGH or CRITICAL disease |
| DiseaseRisk.AlertsAreDiseaseLines | agriculture-field-service/src/main/java/com/omstu/agriculturefield/disease/service/impl/DiseaseRiskService.java:510-517 | the disease part holds only alerts and their deadlines |
| DiseaseRisk.DiseaseAlertsEmpty | agriculture-field-service/src/main/java/com/omstu/agriculturefield/disease/service/impl/DiseaseRiskService.java:506-517 | the disease part is empty exactly when no disease is HIGH or CRITICAL |
| DiseaseRisk.AbioticMeaning | agriculture-field-service/src/main/java/com/omstu/agriculturefield/disease/service/impl/DiseaseRiskService.java:481-504 | no abiotic line exactly when drought, frost and heat are LOW; the GTK warning exactly with serious drought and GTK below 0.4 |
| DiseaseRisk.RecommendationsMeaning | agriculture-field-service/src/main/java/com/omstu/agriculturefield/disease/service/impl/DiseaseRiskService.java:475-525 | recommendations are never empty; the all-clear line appears, alone, exactly when nothing is at risk; serious diseases are alerted |
| DiseaseRisk.AbioticLines | agriculture-field-service/src/main/java/com/omstu/agriculturefield/disease/service/impl/DiseaseRiskService.java:481-504 | the drought, frost and heat lines are the reference abiotic recommendations |
| DiseaseRisk.GenerateRecommendations | agriculture-field-service/src/main/java/com/omstu/agriculturefield/disease/service/impl/DiseaseRiskService.java:475-525 | the method gives the reference recommendations |
| DiseaseRisk.AppendDiseaseAlerts | agriculture-field-service/src/main/java/com/omstu/agriculturefield/disease/service/impl/DiseaseRiskService.java:510-517 | the loop appends the serious diseases' alerts, in order, after what came before |
| DiseaseRisk.AppendAlerts | agriculture-field-service/src/main/java/com/omstu/agriculturefield/disease/service/impl/DiseaseRiskService.java:511-516 | one disease appends its alert and, when it has one, its deadline, and only when it is serious |
| DiseaseRisk.OverallDominates | agriculture-field-service/src/main/java/com/omstu/agriculturefield/disease/service/impl/DiseaseRiskService.java:97-158 | the overall level is at least each abiotic level and each disease's level; the first disease holds the best score; humidity is left empty |
| DiseaseRisk.BuildRiskResponse | agriculture-field-service/src/main/java/com/omstu/agriculturefield/disease/service/impl/DiseaseRiskService.java:97-158 | the method gives the reference response |
| DiseaseRisk.FallbackShape | agriculture-field-service/src/main/java/com/omstu/agriculturefield/disease/service/impl/DiseaseRiskService.java:163-194 | the fallback is MEDIUM at 0.5 throughout and advises in three lines: data unavailable, the season's note, retry later |
| DiseaseRisk.TierSelection | agriculture-field-service/src/main/java/com/omstu/agriculturefield/disease/service/impl/DiseaseRiskService.java:53-95 | the response comes from the forecast exactly when it arrives, from last year's data exactly when only that arrives, otherwise from the fallback, which never fails |
| DiseaseRisk.HistoricalWindow | agriculture-field-service/src/main/java/com/omstu/agriculturefield/disease/service/impl/DiseaseRiskService.java:86-90 | the historical window starts on today's date one year earlier, sent in ISO form |
| DiseaseForecast.Checks | agriculture-field-service/src/main/java/com/omstu/agriculturefield/disease/service/impl/DiseaseRiskForecastServiceImpl.java:89-269 | every disease model runs exactly three checks |
| DiseaseForecast.ThreeChecks | agriculture-field-service/src/main/java/com/omstu/agriculturefield/disease/service/impl/DiseaseRiskForecastServiceImpl.java:89-122 | the score is the sum of the three increments, the factor lines those of the checks that fired, in order |
| DiseaseForecast.ScoreOf | agriculture-field-service/src/main/java/com/omstu/agriculturefield/disease/service/impl/DiseaseRiskForecastServiceImpl.java:89-269 | a disease's score is never negative and at most 1.0, because the top bands of its three checks add up to exactly 1.0, so `Math.min(score, 1.0)` never changes it |
| DiseaseForecast.ScoreReachesOne | agriculture-field-service/src/main/java/com/omstu/agriculturefield/disease/service/impl/DiseaseRiskForecastServiceImpl.java:89-269 | the score is 1.0 exactly when all three checks fire in their top band |
| DiseaseForecast.FactorsAtMostFired | agriculture-field-service/src/main/java/com/omstu/agriculturefield/disease/service/impl/DiseaseRiskForecastServiceImpl.java:129-161 | factor lines never outnumber the checks that fired, and are fewer exactly when a silent band fired |
| DiseaseForecast.ItemMeaning | agriculture-field-service/src/main/java/com/omstu/agriculturefield/disease/service/impl/DiseaseRiskForecastServiceImpl.java:112-122 | an item's score is the disease's score, its level that score's level, its advice the level's advice, with at most one factor line per fired check |
| DiseaseForecast.SilentBands | agriculture-field-service/src/main/java/com/omstu/agriculturefield/disease/service/impl/DiseaseRiskForecastServiceImpl.java:89-122 | leaf rust, fusarium and alternaria write a factor line for every check that fires |
| DiseaseForecast.SeptoriaSilentTemperature | agriculture-field-service/src/main/java/com/omstu/agriculturefield/disease/service/impl/DiseaseRiskForecastServiceImpl.java:141-146 | septoria's lower temperature band (10-25 °C outside 15-20 °C) adds to the score without a factor line |
| DiseaseForecast.AlternationNeedsBoth | agriculture-field-service/src/main/java/com/omstu/agriculturefield/disease/service/impl/DiseaseRiskForecastServiceImpl.java:250-254 | alternaria's alternation increment is added exactly when the air is humid (70 % or more) and the week's rain is below 5 mm |
| DiseaseForecast.EmptyWindowScoresZero | agriculture-field-service/src/main/java/com/omstu/agriculturefield/disease/service/impl/DiseaseRiskForecastServiceImpl.java:89-269 | a window with every reading missing scores 0 and LOW without factor lines for every disease |
| DiseaseForecast.AssessLeafRust | agriculture-field-service/src/main/java/com/omstu/agriculturefield/disease/service/impl/DiseaseRiskForecastServiceImpl.java:89-123 | the leaf rust scorer gives the reference item |
| DiseaseForecast.AssessSeptoria | agriculture-field-service/src/main/java/com/omstu/agriculturefield/disease/service/impl/DiseaseRiskForecastServiceImpl.java:129-162 | the septoria scorer gives the reference item |
| DiseaseForecast.AssessFusarium | agriculture-field-service/src/main/java/com/omstu/agriculturefield/disease/service/impl/DiseaseRiskForecastServiceImpl.java:168-197 | the fusarium scorer gives the reference item |
| DiseaseForecast.AssessDownyMildew | agriculture-field-service/src/main/java/com/omstu/agriculturefield/disease/service/impl/DiseaseRiskForecastServiceImpl.java:203-235 | the downy mildew scorer gives the reference item |
| DiseaseForecast.AssessAlternaria | agriculture-field-service/src/main/java/com/omstu/agriculturefield/disease/service/impl/DiseaseRiskForecastServiceImpl.java:241-270 | the alternaria scorer gives the reference item |
| DiseaseForecast.Finish | agriculture-field-service/src/main/java/com/omstu/agriculturefield/disease/service/impl/DiseaseRiskForecastServiceImpl.java:114-122 | the common tail: level from the unclamped score, the clamped score, the level's advice |
| DiseaseForecast.Ordinal | agriculture-field-service/src/main/java/com/omstu/agriculturefield/disease/service/impl/DiseaseRiskForecastServiceImpl.java:58 | a level's position in the enum declaration order, its first occurrence |
| DiseaseForecast.AtLeastNatTotal | agriculture-field-service/src/main/java/com/omstu/agriculturefield/disease/service/impl/DiseaseRiskForecastServiceImpl.java:58 | the comparison on positions is a total order |
| DiseaseForecast.ByLevelShape | agriculture-field-service/src/main/java/com/omstu/agriculturefield/disease/service/impl/DiseaseRiskForecastServiceImpl.java:58 | the sort keeps the items, puts later-declared levels first, and keeps equal levels in input order |
| DiseaseForecast.CropName | agriculture-field-service/src/main/java/com/omstu/agriculturefield/disease/service/impl/DiseaseRiskForecastServiceImpl.java:43-44 | the crop of the latest planting, or "Неизвестно" without any |
| DiseaseForecast.RisksShape | agriculture-field-service/src/main/java/com/omstu/agriculturefield/disease/service/impl/DiseaseRiskForecastServiceImpl.java:48-58 | no window gives no item; otherwise one item per disease model, five in all, sorted by level, latest-declared first, equal levels in scorer order |
| DiseaseForecast.OrdinalIsSeverity | agriculture-field-service/src/main/java/com/omstu/agriculturefield/disease/service/impl/DiseaseRiskForecastServiceImpl.java:58 | with LOW, MEDIUM, HIGH, CRITICAL declared in that order a level's position is its severity |
| DiseaseForecast.DeclaredAscendingMeansSevereFirst | agriculture-field-service/src/main/java/com/omstu/agriculturefield/disease/service/impl/DiseaseRiskForecastServiceImpl.java:58 | with that declaration order the list runs from the most to the least severe level |
| DiseaseForecast.ScoreWindow | agriculture-field-service/src/main/java/com/omstu/agriculturefield/disease/service/impl/DiseaseRiskForecastServiceImpl.java:50-56 | the five scorers run in the service's order, each item appended |
| DiseaseForecast.AssessRisk | agriculture-field-service/src/main/java/com/omstu/agriculturefield/disease/service/impl/DiseaseRiskForecastServiceImpl.java:37-61 | an unknown field is an error; otherwise the field's name, the latest crop, today's date and the sorted risk list |
| Rotation.CostOf | agriculture-field-service/src/main/java/com/omstu/agriculturefield/rotation/service/impl/RotationRecommendationServiceImpl.java:87 | the cost table's value, or 15000 for an unlisted crop; always between 12000 and 25000 |
| Rotation.ProfitMeaning | agriculture-field-service/src/main/java/com/omstu/agriculturefield/rotation/service/impl/RotationRecommendationServiceImpl.java:85-89 | profit without both predictions is 0; with both it is at most a tenth of yield times price less 12000, and rises with the price for a non-negative yield |
| Rotation.FirstRule | agriculture-field-service/src/main/java/com/omstu/agriculturefield/rotation/service/impl/RotationRecommendationServiceImpl.java:203-207 | the first rule in table order for the predecessor and the candidate, or none exactly when no rule matches |
| Rotation.RecentCount | agriculture-field-service/src/main/java/com/omstu/agriculturefield/rotation/service/impl/RotationRecommendationServiceImpl.java:218-226 | the count never exceeds the history's length |
| Rotation.RecentOnceIff | agriculture-field-service/src/main/java/com/omstu/agriculturefield/rotation/service/impl/RotationRecommendationServiceImpl.java:219-225 | the count is at least 1 exactly when some planting is a recent planting of the candidate |
| Rotation.RepeatedIff | agriculture-field-service/src/main/java/com/omstu/agriculturefield/rotation/service/impl/RotationRecommendationServiceImpl.java:228-230 | the count is at least 2 exactly when two different plantings are recent plantings of the candidate |
| Rotation.LaterPlantingsCount | agriculture-field-service/src/main/java/com/omstu/agriculturefield/rotation/service/impl/RotationRecommendationServiceImpl.java:222 | a planting after the target year still counts as recent |
| Rotation.ViolationCases | agriculture-field-service/src/main/java/com/omstu/agriculturefield/rotation/service/impl/RotationRecommendationServiceImpl.java:197-233 | a forbidding rule wins, with its reason or the default text; otherwise a violation exactly when the crop was planted twice recently |
| Rotation.CountRecentPlantings | agriculture-field-service/src/main/java/com/omstu/agriculturefield/rotation/service/impl/RotationRecommendationServiceImpl.java:218-226 | the loop over the history gives the reference count |
| Rotation.CheckRotationViolation | agriculture-field-service/src/main/java/com/omstu/agriculturefield/rotation/service/impl/RotationRecommendationServiceImpl.java:197-233 | the loop-based violation check gives the reference violation |
| Rotation.CandidateItemMeaning | agriculture-field-service/src/main/java/com/omstu/agriculturefield/rotation/service/impl/RotationRecommendationServiceImpl.java:79-100 | a candidate is compliant exactly when no violation was found, then without reason; without seasonal weather there is no yield; a missing prediction gives profit 0 |
| Rotation.Candidates | agriculture-field-service/src/main/java/com/omstu/agriculturefield/rotation/service/impl/RotationRecommendationServiceImpl.java:78-101 | one item per crop type |
| Rotation.CandidateAt | agriculture-field-service/src/main/java/com/omstu/agriculturefield/rotation/service/impl/RotationRecommendationServiceImpl.java:79-101 | the k-th item is that of the k-th crop type |
| Rotation.CandidateClean | agriculture-field-service/src/main/java/com/omstu/agriculturefield/rotation/service/impl/RotationRecommendationServiceImpl.java:199-201 | without planting history every candidate is compliant and carries no reason |
| Rotation.CandidateCrop | agriculture-field-service/src/main/java/com/omstu/agriculturefield/rotation/service/impl/RotationRecommendationServiceImpl.java:91-92 | the k-th item is for the k-th crop type |
| Rotation.RankBeforeTotal | agriculture-field-service/src/main/java/com/omstu/agriculturefield/rotation/service/impl/RotationRecommendationServiceImpl.java:237-241 | "compliant first, then higher profit" is a total order |
| Rotation.Ranked | agriculture-field-service/src/main/java/com/omstu/agriculturefield/rotation/service/impl/RotationRecommendationServiceImpl.java:235-259 | ranking keeps the number of items |
| Rotation.RankedMeaning | agriculture-field-service/src/main/java/com/omstu/agriculturefield/rotation/service/impl/RotationRecommendationServiceImpl.java:235-259 | ranks run 1 to N, only the rank changes, compliant items come first, profit does not increase within each group, equal keys keep input order |
| Rotation.RankItems | agriculture-field-service/src/main/java/com/omstu/agriculturefield/rotation/service/impl/RotationRecommendationServiceImpl.java:235-259 | the sort and the renumbering loop give the reference ranking |
| Rotation.EvaluateCandidate | agriculture-field-service/src/main/java/com/omstu/agriculturefield/rotation/service/impl/RotationRecommendationServiceImpl.java:80-100 | the loop body gives the reference candidate item |
| Rotation.RankedKeepsCrops | agriculture-field-service/src/main/java/com/omstu/agriculturefield/rotation/service/impl/RotationRecommendationServiceImpl.java:235-259 | ranking drops no crop |
| Rotation.RankedInventsNone | agriculture-field-service/src/main/java/com/omstu/agriculturefield/rotation/service/impl/RotationRecommendationServiceImpl.java:235-259 | ranking invents no crop, and keeps an all-compliant list all compliant |
| Rotation.RecommendationsOutcome | agriculture-field-service/src/main/java/com/omstu/agriculturefield/rotation/service/impl/RotationRecommendationServiceImpl.java:64-106 | an unknown field is the only error; otherwise the list is the ranked candidates |
| Rotation.EveryCropRanked | agriculture-field-service/src/main/java/com/omstu/agriculturefield/rotation/service/impl/RotationRecommendationServiceImpl.java:74-103 | the list has one item per crop type and every type appears in it |
| Rotation.OnlyKnownCrops | agriculture-field-service/src/main/java/com/omstu/agriculturefield/rotation/service/impl/RotationRecommendationServiceImpl.java:74-103 | every item is for one of the crop types |
| Rotation.RanksAndCompliance | agriculture-field-service/src/main/java/com/omstu/agriculturefield/rotation/service/impl/RotationRecommendationServiceImpl.java:103-105 | ranks run 1 to N and compliant crops come first |
| Rotation.FirstPlantingAllCompliant | agriculture-field-service/src/main/java/com/omstu/agriculturefield/rotation/service/impl/RotationRecommendationServiceImpl.java:76-80 | a field without planting history has no rotation violation |
| Rotation.GetRecommendations | agriculture-field-service/src/main/java/com/omstu/agriculturefield/rotation/service/impl/RotationRecommendationServiceImpl.java:64-106 | the service method gives the reference response |
| Rotation.EvaluateCandidates | agriculture-field-service/src/main/java/com/omstu/agriculturefield/rotation/service/impl/RotationRecommendationServiceImpl.java:76-101 | the candidate loop gives the reference item list |
| WeatherClient.ClassOf | agriculture-field-service/src/main/java/com/omstu/agriculturefield/disease/service/impl/WeatherServiceClient.java:122 | a status is a server error exactly for 500-599 and a client error exactly for 400-499 |
| WeatherClient.RetryableStatus | agriculture-field-service/src/main/java/com/omstu/agriculturefield/disease/service/impl/WeatherServiceClient.java:120-129 | of the HTTP errors exactly the 5xx ones and 429 are retried; other 4xx ones never |
| WeatherClient.Run | agriculture-field-service/src/main/java/com/omstu/agriculturefield/disease/service/impl/WeatherServiceClient.java:116-144 | a call makes between one attempt and the budget plus one; every attempt but the last failed retryably; it yields a value exactly when the last attempt returned one; a retryable last failure means the budget is used up |
| WeatherClient.Get | agriculture-field-service/src/main/java/com/omstu/agriculturefield/disease/service/impl/WeatherServiceClient.java:39-108 | a GET yields only a value some attempt returned, nothing after a first non-retryable failure, and the first attempt's value when it succeeds; it never fails |
| WeatherClient.StopsAtFirstBody | agriculture-field-service/src/main/java/com/omstu/agriculturefield/disease/service/impl/WeatherServiceClient.java:116-144 | no attempt is made after the first success |
| WeatherClient.SucceedsAtIff | agriculture-field-service/src/main/java/com/omstu/agriculturefield/disease/service/impl/WeatherServiceClient.java:116-144 | after j retryable failures the call completes with d after exactly j + 1 attempts exactly when attempt j returns d |
| WeatherClient.RunSkips | agriculture-field-service/src/main/java/com/omstu/agriculturefield/disease/service/impl/WeatherServiceClient.java:119-139 | a retryable failure within the budget hands the call to the next attempt |
| WeatherClient.DefaultAttempts | agriculture-field-service/src/main/java/com/omstu/agriculturefield/disease/service/impl/WeatherServiceClient.java:117 | with the default configuration a call makes at most three attempts |
| WeatherClient.ExhaustedIsEmpty | agriculture-field-service/src/main/java/com/omstu/agriculturefield/disease/service/impl/WeatherServiceClient.java:55-58 | a call whose attempts all fail retryably uses the whole budget and completes empty |
| WeatherClient.Backoff | agriculture-field-service/src/main/java/com/omstu/agriculturefield/disease/service/impl/WeatherServiceClient.java:117-118 | the delay before a retry never exceeds the configured timeout |
| WeatherClient.BackoffIsConstant | agriculture-field-service/src/main/java/com/omstu/agriculturefield/disease/service/impl/WeatherServiceClient.java:117-118 | since the minimum and the cap are the same, every retry waits exactly the configured timeout |
| SupportedCrop.EveryCropListed | agriculture-field-service/src/main/java/com/omstu/agriculturefield/disease/model/enums/SupportedCrop.java:7-16 | `values()` lists every crop |
| SupportedCrop.Lower | agriculture-field-service/src/main/java/com/omstu/agriculturefield/disease/model/enums/SupportedCrop.java:29 | lower-casing leaves no capital and keeps a character that is not one |
| SupportedCrop.LowerText | agriculture-field-service/src/main/java/com/omstu/agriculturefield/disease/model/enums/SupportedCrop.java:29 | lower-casing a text lower-cases each character in place |
| SupportedCrop.Lookup | agriculture-field-service/src/main/java/com/omstu/agriculturefield/disease/model/enums/SupportedCrop.java:30-34 | the first listed crop whose name matches ignoring case, or none exactly when no crop matches |
| SupportedCrop.FromRussianName | agriculture-field-service/src/main/java/com/omstu/agriculturefield/disease/model/enums/SupportedCrop.java:24-40 | null means wheat; a found crop matches the trimmed, lower-cased name; the error is raised only when no crop matches |
| SupportedCrop.SupportedIffFound | agriculture-field-service/src/main/java/com/omstu/agriculturefield/disease/model/enums/SupportedCrop.java:42-54 | a non-null name is supported exactly when the lookup finds it; null is unsupported yet looks up as wheat |
| SupportedCrop.NamesAreLower | agriculture-field-service/src/main/java/com/omstu/agriculturefield/disease/model/enums/SupportedCrop.java:7-16 | every crop name is already lower case |
| SupportedCrop.NamesDistinct | agriculture-field-service/src/main/java/com/omstu/agriculturefield/disease/model/enums/SupportedCrop.java:7-16 | the ten names are pairwise distinct |
| SupportedCrop.AtMostOneMatch | agriculture-field-service/src/main/java/com/omstu/agriculturefield/disease/model/enums/SupportedCrop.java:30-34 | at most one crop matches any name, so the search order does not matter |
| SupportedCrop.FindsOwnName | agriculture-field-service/src/main/java/com/omstu/agriculturefield/disease/model/enums/SupportedCrop.java:24-34 | each crop is found by its own name with any blank padding |
| FieldMapper.ToCoordinates | agriculture-field-service/src/main/java/com/omstu/agriculturefield/mapper/AgriculturalFieldMapper.java:45-49 | the points read exactly when each has at least two numbers, the first two becoming x and y in order; otherwise the first short point is reported |
| FieldMapper.ClosedRing | agriculture-field-service/src/main/java/com/omstu/agriculturefield/mapper/AgriculturalFieldMapper.java:51-58 | the result is closed; it is the ring itself exactly when the ring was closed, otherwise the ring with its first coordinate appended |
| FieldMapper.ClosingIsIdempotent | agriculture-field-service/src/main/java/com/omstu/agriculturefield/mapper/AgriculturalFieldMapper.java:51-58 | closing a ring twice closes it once |
| FieldMapper.Rings | agriculture-field-service/src/main/java/com/omstu/agriculturefield/mapper/AgriculturalFieldMapper.java:73-93 | the rings read exactly when each ring reads, one closed polygon per ring in order |
| FieldMapper.RingList | agriculture-field-service/src/main/java/com/omstu/agriculturefield/mapper/AgriculturalFieldMapper.java:105-113 | one [x, y] pair per exterior-ring coordinate, in ring order |
| FieldMapper.MultiListOf | agriculture-field-service/src/main/java/com/omstu/agriculturefield/mapper/AgriculturalFieldMapper.java:119-142 | null for null; otherwise one pair list per component polygon, in order |
| FieldMapper.ReadCoordinates | agriculture-field-service/src/main/java/com/omstu/agriculturefield/mapper/AgriculturalFieldMapper.java:43-49 | the coordinate array holds the points' first two numbers, or the first short point is reported |
| FieldMapper.CloseRing | agriculture-field-service/src/main/java/com/omstu/agriculturefield/mapper/AgriculturalFieldMapper.java:51-58 | a fresh array one longer receives the ring and its first coordinate when the ring is open; otherwise the array itself is kept, unchanged |
| FieldMapper.ListToPolygon | agriculture-field-service/src/main/java/com/omstu/agriculturefield/mapper/AgriculturalFieldMapper.java:37-62 | a null or empty list gives no polygon; otherwise the polygon on the closed ring |
| FieldMapper.FailureExtends | agriculture-field-service/src/main/java/com/omstu/agriculturefield/mapper/AgriculturalFieldMapper.java:73-80 | once a ring fails to read the whole list fails with that error |
| FieldMapper.RingsStep | agriculture-field-service/src/main/java/com/omstu/agriculturefield/mapper/AgriculturalFieldMapper.java:73-93 | one more ring fails the list with its own error or adds its closed polygon |
| FieldMapper.ReadRing | agriculture-field-service/src/main/java/com/omstu/agriculturefield/mapper/AgriculturalFieldMapper.java:74-92 | reading one ring's points and closing it gives that ring's polygon |
| FieldMapper.ListToMultiPolygon | agriculture-field-service/src/main/java/com/omstu/agriculturefield/mapper/AgriculturalFieldMapper.java:65-96 | a null or empty list gives no multipolygon; otherwise one closed polygon per ring, in order |
| FieldMapper.PolygonToList | agriculture-field-service/src/main/java/com/omstu/agriculturefield/mapper/AgriculturalFieldMapper.java:100-116 | null for null; otherwise one [x, y] pair per exterior-ring coordinate |
| FieldMapper.MultiPolygonToList | agriculture-field-service/src/main/java/com/omstu/agriculturefield/mapper/AgriculturalFieldMapper.java:120-142 | null for null; otherwise one pair list per component polygon, in order |
| FieldMapper.ListRoundTrip | agriculture-field-service/src/main/java/com/omstu/agriculturefield/mapper/AgriculturalFieldMapper.java:37-62 | a non-empty list of pairs comes back unchanged when closed, with its first pair appended otherwise |
| FieldMapper.PairsReadBack | agriculture-field-service/src/main/java/com/omstu/agriculturefield/mapper/AgriculturalFieldMapper.java:105-113 | the pairs of a ring read back to the same ring |
| FieldMapper.PolygonRoundTrip | agriculture-field-service/src/main/java/com/omstu/agriculturefield/mapper/AgriculturalFieldMapper.java:37-116 | a stored polygon with a non-empty closed shell survives the trip to pairs and back |
| FieldMapper.MultiPolygonRoundTrip | agriculture-field-service/src/main/java/com/omstu/agriculturefield/mapper/AgriculturalFieldMapper.java:65-142 | the same for a non-empty multipolygon of non-empty closed shells |
| FieldMapper.ClosingKeepsOrder | agriculture-field-service/src/main/java/com/omstu/agriculturefield/mapper/AgriculturalFieldMapper.java:55-56 | closing never reorders: the ring is a prefix of the closed ring, at most one shorter |
| PriceScraper.Resolved | market-service/parser_all_crops.py:163-166 | the addresses are exactly the resolved hrefs of the links that are present and name the date-page marker |
| PriceScraper.Dedup | market-service/parser_all_crops.py:167-168 | no address repeats, and exactly the input's addresses remain |
| PriceScraper.FirstIndex | market-service/parser_all_crops.py:167 | the first position of an element |
| PriceScraper.DedupKeepsFirstSeenOrder | market-service/parser_all_crops.py:162-168 | addresses stay in the order they were first seen |
| PriceScraper.CollectUrls | market-service/parser_all_crops.py:162-168 | the link loop gives the resolved, qualifying addresses without repeats, first-seen order |
| PriceScraper.ResolvedStep | market-service/parser_all_crops.py:163-166 | one more link adds its resolved address exactly when it qualifies |
| PriceScraper.DedupStep | market-service/parser_all_crops.py:167-168 | one more address is appended exactly when it is new |
| PriceScraper.Truncate | market-service/parser_all_crops.py:175-176 | without a limit the list is kept; with one, its first min(limit, length) addresses |
| PriceScraper.PyInt | market-service/parser_all_crops.py:220-222 | `int()` reads a non-empty digit string as its decimal value |
| PriceScraper.ZFill2 | market-service/parser_all_crops.py:224 | `zfill(2)` pads to two characters and leaves longer text alone; a single digit gets a leading zero |
| PriceScraper.DateOf | market-service/parser_all_crops.py:194-225 | a date is read only from an address having the marker segment |
| PriceScraper.DateOfOnlyIf | market-service/parser_all_crops.py:194-225 | an address has a date only when the segment after the marker's first occurrence splits on '-' into three integers, which give the bucket "Y-MM" and the day |
| PriceScraper.SplitAllConcat | market-service/parser_all_crops.py:194 | splitting at a separator splits each side on its own |
| PriceScraper.DateSplits | market-service/parser_all_crops.py:211-217 | a Y-M-D text of digit strings splits on '-' into its three parts |
| PriceScraper.SiteAddressSegments | market-service/parser_all_crops.py:192-194 | the path segments of a site address are its prefix's, the marker, the date and the rest's |
| PriceScraper.DateOfSegments | market-service/parser_all_crops.py:201-225 | the date segment after the marker's first occurrence gives bucket "Y-MM" and the day |
| PriceScraper.DateOfSiteAddress | market-service/parser_all_crops.py:192-225 | an address of the site's form falls in bucket "Y-M", M padded to two digits, with day D |
| PriceScraper.MonthKeys | market-service/parser_all_crops.py:190-225 | the bucket keys are exactly the buckets of the dated pages |
| PriceScraper.EntriesAreDated | market-service/parser_all_crops.py:225 | every entry of a bucket is a listed page dated in that bucket |
| PriceScraper.EntriesEmptyIff | market-service/parser_all_crops.py:184-225 | a bucket is empty exactly when no page falls in it |
| PriceScraper.FileUnderMonth | market-service/parser_all_crops.py:225 | filing one page keeps the buckets in first-created order and adds the page to its bucket |
| PriceScraper.MonthKeysStep | market-service/parser_all_crops.py:190-225 | one more page adds its bucket key exactly when it is dated |
| PriceScraper.EntriesStep | market-service/parser_all_crops.py:225 | one more page joins exactly the bucket of its date |
| PriceScraper.GroupByMonth | market-service/parser_all_crops.py:184-229 | the buckets are created in first-seen order and each holds its pages in list order |
| PriceScraper.LexTotal | market-service/parser_all_crops.py:235 | string comparison is total |
| PriceScraper.LexTransitive | market-service/parser_all_crops.py:235 | string comparison is transitive |
| PriceScraper.LexAntisymmetric | market-service/parser_all_crops.py:235 | string comparison is antisymmetric |
| PriceScraper.KeyOrderTotal | market-service/parser_all_crops.py:235 | the bucket-key order is a total order |
| PriceScraper.EntryOrderTotal | market-service/parser_all_crops.py:236 | the (day, address) order is a total order |
| PriceScraper.Half | market-service/parser_all_crops.py:239-246 | a half holds exactly the bucket's entries with day at most 15, or above 15 |
| PriceScraper.SortedKeysSame | market-service/parser_all_crops.py:235 | sorting the bucket keys keeps exactly the same keys |
| PriceScraper.PicksOfMonth | market-service/parser_all_crops.py:236-246 | one bucket: sort, then keep the last page of each non-empty half |
| PriceScraper.SelectHalfMonths | market-service/parser_all_crops.py:234-248 | the buckets are walked in key order and each contributes its picks |
| PriceScraper.PicksStep | market-service/parser_all_crops.py:235-246 | one more bucket appends its own picks |
| PriceScraper.LastOfHalfIsLargest | market-service/parser_all_crops.py:241 | the last entry of a half of a sorted bucket is the largest of that half |
| PriceScraper.SortKeepsEntries | market-service/parser_all_crops.py:236 | sorting a bucket keeps its entries |
| PriceScraper.HalfEndsWithLatest | market-service/parser_all_crops.py:236-246 | after sorting, each non-empty half ends with its largest entry |
| PriceScraper.PickIsLatest | market-service/parser_all_crops.py:239-246 | a half's pick exists exactly when a page falls in the half, and then it is the page with the latest day, ties going to the larger address |
| PriceScraper.HalfEmptyIff | market-service/parser_all_crops.py:240 | a half is empty exactly when no page of the bucket falls in it |
| PriceScraper.HalfLastIsEntry | market-service/parser_all_crops.py:241 | the last entry of a non-empty half is a page of the bucket in that half |
| PriceScraper.MonthPicksAtMostTwo | market-service/parser_all_crops.py:238-246 | each month contributes at most two pages |
| PriceScraper.SelectPages | market-service/parser_all_crops.py:162-248 | collecting, limiting, grouping and selecting give the reference page list |
| PriceScraper.NoLinksNoPages | market-service/parser_all_crops.py:170-172 | no qualifying link gives no page |
| PriceScraper.PicksAreCollected | market-service/parser_all_crops.py:234-248 | every selected page is one of the grouped addresses |
| PriceScraper.SelectedPagesAreLinks | market-service/parser_all_crops.py:162-248 | every selected page is a followed link of the calendar page, among the first limit of them |
| PriceScraper.PriceColumn | market-service/parser_all_crops.py:302-310 | class 4 reads column 6, class 5 column 10, every other class or none column 2 |
| PriceScraper.TableUsableIff | market-service/parser_all_crops.py:296-314 | a table that has 'руб/т' rows is read exactly when it has at least eleven columns for class 5, seven for class 4 and three for any other class |

## Left out

- Reactor and WebClient plumbing (`block`, Mono/Flux operators, the HTTP request strategies, `getDaysWeather`): these are network I/O. Every fetch is an oracle parameter that answers `None` where the call fails or completes empty.
- Controllers, CRUD services, JPA repositories, MapStruct mappers and entities: these are routing and persistence. The repository filter that selects a crop's active disease rules is not modelled; the rules arrive already filtered. The "field not found" exception is the only lookup outcome kept.
- The frontend, the ML service (its yield and price predictions are per-crop `Option<real>` parameters) and `AgroWeatherCalculator`'s two unused helpers.
- The wall clock: `LocalDate.now()`, the current month and the current year are parameters.
- The `LocalDateTime.now()` fallback for a planting record without a date (`RotationRecommendationServiceImpl.java:266`): the model takes every planting's year as given.
- IEEE 754 doubles: every quantity is an exact `real`. `Math.round(x*100)/100.0` is `Round2`, the exact floor of x·100 + 0.5 over 100. NaN and infinities do not arise. The `Double.MAX_VALUE` start of the older minimum is `None`.
- `String.format` texts and the recommendation and description strings: outcomes are enumerated values or fixed strings. Any text that only embeds numbers is not reproduced character for character.
- DiseaseRisk.AssessFieldRisk: does not model the assessment's description texts or its `LocalDateTime.now()` timestamp.
- JTS geometry: the centroid, `LinearRing` validity (minimum point count) and the geometry factory are not modelled. Rings are arrays of coordinate pairs, and a null point inside a point list is not modelled.
- java.time is limited to what the services use: proleptic Gregorian dates of years 0–9999, day and month arithmetic, `ChronoUnit.MONTHS.between`, and the `yyyy-MM-dd` text form.
- `Integer.parseInt` reads ASCII digits with an optional sign and no overflow. Python's `int()` also accepts surrounding whitespace, underscores and non-ASCII digits; the scraper's date reader accepts only ASCII digits.
- `urljoin` is a parameter of the scraper, as are the Selenium and pandas steps: `driver.get`, `read_html`, `pd.to_numeric`, `to_csv`, the 404 page check, the calendar URL and the loops over years, crops and classes.
- PriceScraper.TableUsableIff: covers only the column test. The scraper also skips a table whose HTML lacks 'руб/т' (`parser_all_crops.py:276`) or whose 'руб/т' row filter leaves it empty (`parser_all_crops.py:292-296`), and stops at the first table it reads (`parser_all_crops.py:337`). These steps work on parsed HTML, which is not modelled.
- The Reactor back-off jitter and the actual delays: the retry model keeps which errors are retried, how many attempts are made and the back-off cap.
- Logging everywhere.
- `SupportedCrop`'s `equalsIgnoreCase`: case folding covers Latin and basic Cyrillic letters only (the crop names use nothing else).
- Shape mismatches between source files: each file gets its own datatypes, matching how that file uses them.
  - `DiseaseRiskForecastServiceImpl` builds its items and response with 6 and 5 arguments, so `DiseaseForecast` declares those shapes.
  - `HourlyMapper` calls accessors that the `Hourly` record does not declare, so `HourlyMapper` merges the series it names.
- The `RiskLevel` enum is not part of this model. Its declaration order, which decides the forecast items' sort, is the parameter `declOrder`.
- Where the design description and the code disagree, the model follows the code. A candidate crop without a yield or price prediction gets an estimated profit of 0 (`RotationRecommendationServiceImpl.java:85`) and is ranked by that 0; it is not placed after every candidate with a prediction. Because the profit is never null, the `Double.MIN_VALUE` branch of `rankItems` is never taken and has no counterpart in the model.
