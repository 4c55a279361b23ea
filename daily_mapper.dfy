/**
 * `DailyMapper.combineDailyList`: merges the daily blocks of several responses
 * in input order and derives three daily soil series from the hourly blocks of
 * the same responses (the mean of each date's hourly readings).
 */
module DailyMapper {
  import opened Wrappers
  import opened WeatherData
  import opened Means

  /** The daily series copied from the daily blocks. */
  const CopiedSeries: set<DailySeries> := {
    TemperatureMax, TemperatureMin, TemperatureMean,
    RelativeHumidityMean, RelativeHumidityMin,
    PrecipitationSum, ReferenceEvapotranspiration,
    WindSpeedMax, WindGustsMax, ShortwaveRadiationSum, DailySunshine
  }

  /** The three daily soil means, computed from the hourly blocks instead of copied. */
  const SoilMeanSeries: set<DailySeries> := {SoilTemperature0cmMean, SoilTemperature6cmMean, SoilMoisture0to1cmMean}

  /** The daily series a merged block carries. */
  const AllDailySeries: set<DailySeries> := CopiedSeries + SoilMeanSeries

  // ---- combineDailyData ---------------------------------------------------

  /** `combineLists` reads a null series as nothing to add. */
  function SeriesOf(d: Daily, s: DailySeries): seq<Option<real>>
  {
    if s in d.series then d.series[s] else []
  }

  /** Reference: series `s` of all non-null daily blocks, one block after another. */
  function ConcatSeries(blocks: seq<Option<Daily>>, s: DailySeries): seq<Option<real>>
  {
    if blocks == [] then []
    else ConcatSeries(blocks[..|blocks| - 1], s)
         + (if blocks[|blocks| - 1].Some? then SeriesOf(blocks[|blocks| - 1].value, s) else [])
  }

  /** Reference: the dates of all non-null daily blocks, one block after another. */
  function ConcatDates(blocks: seq<Option<Daily>>): seq<string>
  {
    if blocks == [] then []
    else ConcatDates(blocks[..|blocks| - 1])
         + (if blocks[|blocks| - 1].Some? then blocks[|blocks| - 1].value.time.GetOr([]) else [])
  }

  lemma StepDaily(blocks: seq<Option<Daily>>, i: int)
    requires 0 <= i < |blocks|
    ensures ConcatDates(blocks[..i + 1])
         == ConcatDates(blocks[..i]) + (if blocks[i].Some? then blocks[i].value.time.GetOr([]) else [])
    ensures forall s ::
              ConcatSeries(blocks[..i + 1], s)
              == ConcatSeries(blocks[..i], s) + (if blocks[i].Some? then SeriesOf(blocks[i].value, s) else [])
  {
    assert blocks[..i + 1][..i] == blocks[..i];
  }

  function NoSeries(): (r: map<DailySeries, seq<Option<real>>>)
    ensures r.Keys == CopiedSeries
    ensures forall s :: s in r ==> r[s] == []
  {
    map s | s in CopiedSeries :: []
  }

  function AppendBlock(series: map<DailySeries, seq<Option<real>>>, d: Daily): (r: map<DailySeries, seq<Option<real>>>)
    requires series.Keys == CopiedSeries
    ensures r.Keys == CopiedSeries
    ensures forall s :: s in r ==> r[s] == series[s] + SeriesOf(d, s)
  {
    map s | s in CopiedSeries :: series[s] + SeriesOf(d, s)
  }

  /** `combineDailyData`: each copied series, and the dates, concatenated over the non-null blocks. */
  method CombineDailyData(blocks: seq<Option<Daily>>) returns (time: seq<string>, series: map<DailySeries, seq<Option<real>>>)
    ensures time == ConcatDates(blocks)
    ensures series.Keys == CopiedSeries
    ensures forall s :: s in series ==> series[s] == ConcatSeries(blocks, s)
  {
    time := [];
    series := NoSeries();
    var i := 0;
    while i < |blocks|
      invariant 0 <= i <= |blocks|
      invariant time == ConcatDates(blocks[..i])
      invariant series.Keys == CopiedSeries
      invariant forall s :: s in series ==> series[s] == ConcatSeries(blocks[..i], s)
    {
      StepDaily(blocks, i);
      if blocks[i].Some? {
        var daily := blocks[i].value;
        time := time + daily.time.GetOr([]);
        series := AppendBlock(series, daily);
      }
      i := i + 1;
    }
    assert blocks[..i] == blocks;
  }

  // ---- groupHourlyDataByDate ----------------------------------------------

  /** The hourly readings of one date, for the three soil series. */
  datatype SoilReadings = SoilReadings(temp0cm: seq<Option<real>>, temp6cm: seq<Option<real>>,
                                       moisture: seq<Option<real>>)

  /** `getOrDefault(date, new HourlyDataForDate())`. */
  function BucketOf(buckets: map<string, SoilReadings>, date: string): SoilReadings
  {
    if date in buckets then buckets[date] else SoilReadings([], [], [])
  }

  /** Every time stamp of the blocks that are read has at least the ten characters of a date. */
  predicate StampsHaveDates(blocks: seq<Option<Hourly>>)
  {
    forall i :: 0 <= i < |blocks| && blocks[i].Some? && blocks[i].value.time.Some? ==>
      StampsFrom(blocks[i].value, |blocks[i].value.time.value|)
  }

  /** The first `n` time stamps of a block have at least ten characters. */
  predicate StampsFrom(h: Hourly, n: nat)
    requires h.time.Some? && n <= |h.time.value|
  {
    forall j :: 0 <= j < n ==> |h.time.value[j]| >= 10
  }

  /** `addIfPresent`: the reading at `index`, null or not, when the series is non-null and long enough. */
  function ReadingAt(h: Hourly, s: HourlySeries, index: nat): seq<Option<real>>
  {
    if s in h.series && index < |h.series[s]| then [h.series[s][index]] else []
  }

  /** Reference: the readings of series `s` among the first `n` hours of a block whose stamp has date `date`. */
  function ReadingsInBlock(h: Hourly, date: string, s: HourlySeries, n: nat): seq<Option<real>>
    requires h.time.Some? && n <= |h.time.value| && StampsFrom(h, n)
  {
    if n == 0 then []
    else ReadingsInBlock(h, date, s, n - 1)
         + (if h.time.value[n - 1][..10] == date then ReadingAt(h, s, n - 1) else [])
  }

  /** Reference: the readings of series `s` on date `date` over all blocks, in order. */
  function ReadingsOn(blocks: seq<Option<Hourly>>, date: string, s: HourlySeries): seq<Option<real>>
    requires StampsHaveDates(blocks)
  {
    if blocks == [] then []
    else
      var last := blocks[|blocks| - 1];
      ReadingsOn(blocks[..|blocks| - 1], date, s)
      + (if last.Some? && last.value.time.Some?
         then ReadingsInBlock(last.value, date, s, |last.value.time.value|) else [])
  }

  function ExpectedBucket(blocks: seq<Option<Hourly>>, date: string): SoilReadings
    requires StampsHaveDates(blocks)
  {
    SoilReadings(
      ReadingsOn(blocks, date, SoilTemperature0cm),
      ReadingsOn(blocks, date, SoilTemperature6cm),
      ReadingsOn(blocks, date, SoilMoisture0To1Cm))
  }

  lemma StampsHaveDatesStep(blocks: seq<Option<Hourly>>, i: int)
    requires 0 <= i < |blocks| && StampsHaveDates(blocks[..i])
    requires blocks[i].Some? && blocks[i].value.time.Some? ==>
               StampsFrom(blocks[i].value, |blocks[i].value.time.value|)
    ensures StampsHaveDates(blocks[..i + 1])
  {
    assert forall k :: 0 <= k < i ==> blocks[..i + 1][k] == blocks[..i][k];
  }

  lemma StampsHaveDatesPrefix(blocks: seq<Option<Hourly>>, i: int)
    requires 0 <= i <= |blocks| && StampsHaveDates(blocks[..i])
    requires i < |blocks| && blocks[i].Some? && blocks[i].value.time.Some?
    requires !StampsFrom(blocks[i].value, |blocks[i].value.time.value|)
    ensures !StampsHaveDates(blocks)
  {
  }

  lemma StepReadingsOn(blocks: seq<Option<Hourly>>, i: int, date: string, s: HourlySeries)
    requires 0 <= i < |blocks| && StampsHaveDates(blocks[..i + 1])
    ensures StampsHaveDates(blocks[..i])
    ensures ReadingsOn(blocks[..i + 1], date, s)
         == ReadingsOn(blocks[..i], date, s)
            + (if blocks[i].Some? && blocks[i].value.time.Some?
               then ReadingsInBlock(blocks[i].value, date, s, |blocks[i].value.time.value|) else [])
  {
    assert blocks[..i + 1][..i] == blocks[..i];
  }

  /** The buckets expected after the blocks of `prefix` and the first `j` hours of `h`. */
  function Partial(prefix: seq<Option<Hourly>>, h: Hourly, j: nat, date: string): SoilReadings
    requires StampsHaveDates(prefix) && h.time.Some? && j <= |h.time.value| && StampsFrom(h, j)
  {
    SoilReadings(
      ReadingsOn(prefix, date, SoilTemperature0cm) + ReadingsInBlock(h, date, SoilTemperature0cm, j),
      ReadingsOn(prefix, date, SoilTemperature6cm) + ReadingsInBlock(h, date, SoilTemperature6cm, j),
      ReadingsOn(prefix, date, SoilMoisture0To1Cm) + ReadingsInBlock(h, date, SoilMoisture0To1Cm, j))
  }

  /** `computeIfAbsent` and the three `addIfPresent` calls for hour `j` of `h`. */
  function AddHour(buckets: map<string, SoilReadings>, h: Hourly, j: nat): map<string, SoilReadings>
    requires h.time.Some? && j < |h.time.value| && |h.time.value[j]| >= 10
  {
    var date := h.time.value[j][..10];
    var bucket := BucketOf(buckets, date);
    buckets[date := SoilReadings(
      bucket.temp0cm + ReadingAt(h, SoilTemperature0cm, j),
      bucket.temp6cm + ReadingAt(h, SoilTemperature6cm, j),
      bucket.moisture + ReadingAt(h, SoilMoisture0To1Cm, j))]
  }

  lemma AddHourStep(buckets: map<string, SoilReadings>, prefix: seq<Option<Hourly>>, h: Hourly, j: nat)
    requires StampsHaveDates(prefix) && h.time.Some? && j < |h.time.value| && StampsFrom(h, j + 1)
    requires forall date :: BucketOf(buckets, date) == Partial(prefix, h, j, date)
    ensures forall date :: BucketOf(AddHour(buckets, h, j), date) == Partial(prefix, h, j + 1, date)
  {
    forall date
      ensures BucketOf(AddHour(buckets, h, j), date) == Partial(prefix, h, j + 1, date)
    {
      AddHourAt(buckets, prefix, h, j, date);
    }
  }

  lemma AddHourAt(buckets: map<string, SoilReadings>, prefix: seq<Option<Hourly>>, h: Hourly, j: nat, date: string)
    requires StampsHaveDates(prefix) && h.time.Some? && j < |h.time.value| && StampsFrom(h, j + 1)
    requires BucketOf(buckets, date) == Partial(prefix, h, j, date)
    ensures BucketOf(AddHour(buckets, h, j), date) == Partial(prefix, h, j + 1, date)
  {
    var p0, p6, pm := ReadingsOn(prefix, date, SoilTemperature0cm), ReadingsOn(prefix, date, SoilTemperature6cm),
                      ReadingsOn(prefix, date, SoilMoisture0To1Cm);
    var b0, b6, bm := ReadingsInBlock(h, date, SoilTemperature0cm, j), ReadingsInBlock(h, date, SoilTemperature6cm, j),
                      ReadingsInBlock(h, date, SoilMoisture0To1Cm, j);
    if date != h.time.value[j][..10] {
      assert BucketOf(AddHour(buckets, h, j), date) == BucketOf(buckets, date);
    } else {
      assert BucketOf(AddHour(buckets, h, j), date) == SoilReadings(
        (p0 + b0) + ReadingAt(h, SoilTemperature0cm, j),
        (p6 + b6) + ReadingAt(h, SoilTemperature6cm, j),
        (pm + bm) + ReadingAt(h, SoilMoisture0To1Cm, j));
      assert (p0 + b0) + ReadingAt(h, SoilTemperature0cm, j) == p0 + (b0 + ReadingAt(h, SoilTemperature0cm, j));
      assert (p6 + b6) + ReadingAt(h, SoilTemperature6cm, j) == p6 + (b6 + ReadingAt(h, SoilTemperature6cm, j));
      assert (pm + bm) + ReadingAt(h, SoilMoisture0To1Cm, j) == pm + (bm + ReadingAt(h, SoilMoisture0To1Cm, j));
    }
  }

  lemma BlockDone(buckets: map<string, SoilReadings>, blocks: seq<Option<Hourly>>, i: int)
    requires 0 <= i < |blocks| && StampsHaveDates(blocks[..i + 1])
    requires blocks[i].Some? && blocks[i].value.time.Some?
    requires StampsHaveDates(blocks[..i])
    requires forall date :: BucketOf(buckets, date) == Partial(blocks[..i], blocks[i].value, |blocks[i].value.time.value|, date)
    ensures forall date :: BucketOf(buckets, date) == ExpectedBucket(blocks[..i + 1], date)
  {
    forall date
      ensures BucketOf(buckets, date) == ExpectedBucket(blocks[..i + 1], date)
    {
      StepReadingsOn(blocks, i, date, SoilTemperature0cm);
      StepReadingsOn(blocks, i, date, SoilTemperature6cm);
      StepReadingsOn(blocks, i, date, SoilMoisture0To1Cm);
    }
  }

  lemma BlockSkipped(buckets: map<string, SoilReadings>, blocks: seq<Option<Hourly>>, i: int)
    requires 0 <= i < |blocks| && StampsHaveDates(blocks[..i + 1])
    requires !(blocks[i].Some? && blocks[i].value.time.Some?)
    requires forall date :: BucketOf(buckets, date) == ExpectedBucket(blocks[..i], date)
    ensures forall date :: BucketOf(buckets, date) == ExpectedBucket(blocks[..i + 1], date)
  {
    forall date
      ensures BucketOf(buckets, date) == ExpectedBucket(blocks[..i + 1], date)
    {
      StepReadingsOn(blocks, i, date, SoilTemperature0cm);
      StepReadingsOn(blocks, i, date, SoilTemperature6cm);
      StepReadingsOn(blocks, i, date, SoilMoisture0To1Cm);
    }
  }

  /**
   * `groupHourlyDataByDate`: the soil readings of each date, in order; blocks
   * that are null or have no time stamps are skipped.  Fails when a stamp is
   * shorter than a date.
   */
  method GroupHourlyDataByDate(blocks: seq<Option<Hourly>>) returns (r: Option<map<string, SoilReadings>>)
    ensures r.None? <==> !StampsHaveDates(blocks)
    ensures r.Some? ==> forall date :: BucketOf(r.value, date) == ExpectedBucket(blocks, date)
  {
    var buckets: map<string, SoilReadings> := map[];
    var i := 0;
    while i < |blocks|
      invariant 0 <= i <= |blocks|
      invariant StampsHaveDates(blocks[..i])
      invariant forall date :: BucketOf(buckets, date) == ExpectedBucket(blocks[..i], date)
    {
      if blocks[i].Some? && blocks[i].value.time.Some? {
        var hourly := blocks[i].value;
        var j := 0;
        while j < |hourly.time.value|
          invariant 0 <= j <= |hourly.time.value|
          invariant StampsFrom(hourly, j)
          invariant forall date :: BucketOf(buckets, date) == Partial(blocks[..i], hourly, j, date)
        {
          if |hourly.time.value[j]| < 10 {
            StampsHaveDatesPrefix(blocks, i);
            return None;
          }
          AddHourStep(buckets, blocks[..i], hourly, j);
          buckets := AddHour(buckets, hourly, j);
          j := j + 1;
        }
        StampsHaveDatesStep(blocks, i);
        BlockDone(buckets, blocks, i);
      } else {
        StampsHaveDatesStep(blocks, i);
        BlockSkipped(buckets, blocks, i);
      }
      i := i + 1;
    }
    assert blocks[..i] == blocks;
    r := Some(buckets);
  }

  // ---- calculateAverage, calculateSoilParameters, combineDailyList ----------

  /** No reading of the list is null. */
  predicate AllPresent(v: seq<Option<real>>)
  {
    forall k :: 0 <= k < |v| ==> v[k].Some?
  }

  /** The values of a list without nulls. */
  function Values(v: seq<Option<real>>): (r: seq<real>)
    requires AllPresent(v)
    ensures |r| == |v|
    ensures forall k :: 0 <= k < |v| ==> v[k] == Some(r[k])
  {
    seq(|v|, k requires 0 <= k < |v| => v[k].value)
  }

  /** `calculateAverage` can unbox every reading of the bucket's three lists. */
  predicate Readable(bucket: SoilReadings)
  {
    AllPresent(bucket.temp0cm) && AllPresent(bucket.temp6cm) && AllPresent(bucket.moisture)
  }

  /** `SoilParameters`: one mean per date for each soil series. */
  datatype SoilParameters = SoilParameters(temp0cm: seq<real>, temp6cm: seq<real>, moisture: seq<real>)

  /** The buckets of the first `n` dates are readable. */
  predicate ReadableUpTo(dates: seq<string>, buckets: map<string, SoilReadings>, n: int)
    requires 0 <= n <= |dates|
  {
    forall k :: 0 <= k < n ==> Readable(BucketOf(buckets, dates[k]))
  }

  /** The first `n` entries of `params` are the means of the first `n` dates' buckets. */
  predicate MeansUpTo(dates: seq<string>, buckets: map<string, SoilReadings>, params: SoilParameters, n: int)
    requires 0 <= n <= |dates| && ReadableUpTo(dates, buckets, n)
  {
    && |params.temp0cm| == |params.temp6cm| == |params.moisture| == n
    && forall k :: 0 <= k < n ==>
         && params.temp0cm[k] == Average(Values(BucketOf(buckets, dates[k]).temp0cm))
         && params.temp6cm[k] == Average(Values(BucketOf(buckets, dates[k]).temp6cm))
         && params.moisture[k] == Average(Values(BucketOf(buckets, dates[k]).moisture))
  }

  /**
   * `calculateSoilParameters`: for each date, the mean of that date's readings
   * of each soil series (0 for none); `None` when a bucket of a date holds a
   * null reading, which `calculateAverage` cannot unbox.
   */
  method CalculateSoilParameters(dates: seq<string>, buckets: map<string, SoilReadings>)
    returns (r: Option<SoilParameters>)
    ensures r.None? <==> !ReadableUpTo(dates, buckets, |dates|)
    ensures r.Some? ==> ReadableUpTo(dates, buckets, |dates|) && MeansUpTo(dates, buckets, r.value, |dates|)
  {
    var params := SoilParameters([], [], []);
    for k := 0 to |dates|
      invariant ReadableUpTo(dates, buckets, k)
      invariant MeansUpTo(dates, buckets, params, k)
    {
      var bucket := BucketOf(buckets, dates[k]);
      if !Readable(bucket) {
        return None;
      }
      params := SoilParameters(params.temp0cm + [Average(Values(bucket.temp0cm))],
                               params.temp6cm + [Average(Values(bucket.temp6cm))],
                               params.moisture + [Average(Values(bucket.moisture))]);
    }
    r := Some(params);
  }

  /** Every hourly reading of soil series `s` on each of `dates` is present. */
  predicate SoilReadable(hourlies: seq<Option<Hourly>>, dates: seq<string>, s: HourlySeries)
    requires StampsHaveDates(hourlies)
  {
    forall k :: 0 <= k < |dates| ==> AllPresent(ReadingsOn(hourlies, dates[k], s))
  }

  /** The three soil series of `dates` hold no null reading. */
  predicate SoilsReadable(hourlies: seq<Option<Hourly>>, dates: seq<string>)
    requires StampsHaveDates(hourlies)
  {
    && SoilReadable(hourlies, dates, SoilTemperature0cm)
    && SoilReadable(hourlies, dates, SoilTemperature6cm)
    && SoilReadable(hourlies, dates, SoilMoisture0To1Cm)
  }

  /** The daily soil mean derived from hourly series `s` for each of `dates`. */
  function SoilMeans(hourlies: seq<Option<Hourly>>, dates: seq<string>, s: HourlySeries): (r: seq<Option<real>>)
    requires StampsHaveDates(hourlies) && SoilReadable(hourlies, dates, s)
    ensures |r| == |dates|
    ensures forall k :: 0 <= k < |dates| ==> r[k] == Some(Average(Values(ReadingsOn(hourlies, dates[k], s))))
  {
    if dates == [] then []
    else
      var init := dates[..|dates| - 1];
      assert forall k :: 0 <= k < |init| ==> init[k] == dates[k];
      SoilMeans(hourlies, init, s) + [Some(Average(Values(ReadingsOn(hourlies, dates[|dates| - 1], s))))]
  }

  /** Values that are all present, as a nullable list. */
  function Present(v: seq<real>): (r: seq<Option<real>>)
    ensures |r| == |v|
    ensures forall k :: 0 <= k < |v| ==> r[k] == Some(v[k])
  {
    seq(|v|, k requires 0 <= k < |v| => Some(v[k]))
  }

  /** The readings of soil series `s` in a bucket. */
  function Pick(bucket: SoilReadings, s: HourlySeries): seq<Option<real>>
  {
    if s == SoilTemperature0cm then bucket.temp0cm
    else if s == SoilTemperature6cm then bucket.temp6cm
    else bucket.moisture
  }

  /** The grouped buckets of `dates` are readable exactly when the dates' hourly soil readings are. */
  lemma ReadableBuckets(hourlies: seq<Option<Hourly>>, dates: seq<string>, buckets: map<string, SoilReadings>)
    requires StampsHaveDates(hourlies)
    requires forall date :: BucketOf(buckets, date) == ExpectedBucket(hourlies, date)
    ensures ReadableUpTo(dates, buckets, |dates|) <==> SoilsReadable(hourlies, dates)
  {
    if ReadableUpTo(dates, buckets, |dates|) {
      forall k | 0 <= k < |dates|
        ensures AllPresent(ReadingsOn(hourlies, dates[k], SoilTemperature0cm))
        ensures AllPresent(ReadingsOn(hourlies, dates[k], SoilTemperature6cm))
        ensures AllPresent(ReadingsOn(hourlies, dates[k], SoilMoisture0To1Cm))
      {
        assert Readable(BucketOf(buckets, dates[k]));
      }
    }
  }

  /** A column of per-date means of the grouped readings of `s` is the reference soil series. */
  lemma SoilSeriesMatch(hourlies: seq<Option<Hourly>>, dates: seq<string>, means: seq<real>, s: HourlySeries,
                        buckets: map<string, SoilReadings>)
    requires StampsHaveDates(hourlies)
    requires s == SoilTemperature0cm || s == SoilTemperature6cm || s == SoilMoisture0To1Cm
    requires forall date :: BucketOf(buckets, date) == ExpectedBucket(hourlies, date)
    requires SoilReadable(hourlies, dates, s)
    requires |means| == |dates|
    requires forall k :: 0 <= k < |dates| ==>
               AllPresent(Pick(BucketOf(buckets, dates[k]), s))
               && means[k] == Average(Values(Pick(BucketOf(buckets, dates[k]), s)))
    ensures Present(means) == SoilMeans(hourlies, dates, s)
  {
    forall k | 0 <= k < |dates|
      ensures Present(means)[k] == SoilMeans(hourlies, dates, s)[k]
    {
      assert Pick(ExpectedBucket(hourlies, dates[k]), s) == ReadingsOn(hourlies, dates[k], s);
    }
  }

  /** `buildDaily`: the copied series with the three soil series added. */
  function WithSoil(copied: map<DailySeries, seq<Option<real>>>, temp0cm: seq<real>, temp6cm: seq<real>, moisture: seq<real>)
    : (r: map<DailySeries, seq<Option<real>>>)
    requires copied.Keys == CopiedSeries
    ensures r.Keys == AllDailySeries
    ensures forall s :: s in copied ==> r[s] == copied[s]
    ensures r[SoilTemperature0cmMean] == Present(temp0cm)
    ensures r[SoilTemperature6cmMean] == Present(temp6cm)
    ensures r[SoilMoisture0to1cmMean] == Present(moisture)
  {
    copied[SoilTemperature0cmMean := Present(temp0cm)]
          [SoilTemperature6cmMean := Present(temp6cm)]
          [SoilMoisture0to1cmMean := Present(moisture)]
  }

  /** `d` is the merge of `dailies` with soil means derived from `hourlies`. */
  predicate MergedDaily(dailies: seq<Option<Daily>>, hourlies: seq<Option<Hourly>>, d: Daily)
    requires StampsHaveDates(hourlies)
  {
    && SoilsReadable(hourlies, ConcatDates(dailies))
    && d.time == Some(ConcatDates(dailies))
    && d.series.Keys == AllDailySeries
    && (forall s :: s in CopiedSeries ==> d.series[s] == ConcatSeries(dailies, s))
    && d.series[SoilTemperature0cmMean] == SoilMeans(hourlies, ConcatDates(dailies), SoilTemperature0cm)
    && d.series[SoilTemperature6cmMean] == SoilMeans(hourlies, ConcatDates(dailies), SoilTemperature6cm)
    && d.series[SoilMoisture0to1cmMean] == SoilMeans(hourlies, ConcatDates(dailies), SoilMoisture0To1Cm)
  }

  /** The three steps of `combineDailyList` together build the merged block. */
  lemma BuildDailyMerges(dailies: seq<Option<Daily>>, hourlies: seq<Option<Hourly>>,
                         time: seq<string>, copied: map<DailySeries, seq<Option<real>>>,
                         buckets: map<string, SoilReadings>, params: SoilParameters)
    requires StampsHaveDates(hourlies)
    requires time == ConcatDates(dailies)
    requires copied.Keys == CopiedSeries
    requires forall s :: s in copied ==> copied[s] == ConcatSeries(dailies, s)
    requires forall date :: BucketOf(buckets, date) == ExpectedBucket(hourlies, date)
    requires ReadableUpTo(time, buckets, |time|) && MeansUpTo(time, buckets, params, |time|)
    ensures MergedDaily(dailies, hourlies,
                        Daily(Some(time), WithSoil(copied, params.temp0cm, params.temp6cm, params.moisture)))
  {
    ReadableBuckets(hourlies, time, buckets);
    SoilSeriesMatch(hourlies, time, params.temp0cm, SoilTemperature0cm, buckets);
    SoilSeriesMatch(hourlies, time, params.temp6cm, SoilTemperature6cm, buckets);
    SoilSeriesMatch(hourlies, time, params.moisture, SoilMoisture0To1Cm, buckets);
  }

  /**
   * `combineDailyList`: null for no daily blocks; otherwise the merged daily
   * block, whose soil series hold, for each of its dates, the mean of that
   * date's hourly readings over all hourly blocks (0 when there are none).
   * A malformed hourly time stamp makes the merge fail, and so does a null
   * soil reading of one of the merged dates.
   */
  method CombineDailyList(dailies: seq<Option<Daily>>, hourlies: seq<Option<Hourly>>)
    returns (r: Result<Option<Daily>, MergeError>)
    ensures dailies == [] ==> r == Ok(None)
    ensures dailies != [] && !StampsHaveDates(hourlies) ==> r == Err(MalformedTimestamp)
    ensures dailies != [] && StampsHaveDates(hourlies) && !SoilsReadable(hourlies, ConcatDates(dailies)) ==>
              r == Err(NullSoilReading)
    ensures dailies != [] && StampsHaveDates(hourlies) && SoilsReadable(hourlies, ConcatDates(dailies)) ==> r.Ok?
    ensures dailies != [] && r.Ok? ==>
              StampsHaveDates(hourlies) && r.value.Some? && MergedDaily(dailies, hourlies, r.value.value)
  {
    if dailies == [] {
      return Ok(None);
    }
    var time, copied := CombineDailyData(dailies);
    var grouped := GroupHourlyDataByDate(hourlies);
    if grouped.None? {
      return Err(MalformedTimestamp);
    }
    var params := CalculateSoilParameters(time, grouped.value);
    ReadableBuckets(hourlies, time, grouped.value);
    if params.None? {
      return Err(NullSoilReading);
    }
    BuildDailyMerges(dailies, hourlies, time, copied, grouped.value, params.value);
    r := Ok(Some(Daily(Some(time), WithSoil(copied, params.value.temp0cm, params.value.temp6cm, params.value.moisture))));
  }
}
