/**
 * `HourlyMapper.combineHourlyList`: merges the hourly blocks of several
 * responses into one, series by series, in input order.
 */
module HourlyMapper {
  import opened Wrappers
  import opened WeatherData

  /** Every hourly series a block can carry. */
  const AllSeries: set<HourlySeries> := {
    Temperature, RelativeHumidity, SurfacePressure, DewPoint,
    Precipitation, Rain, Snowfall, PrecipitationProbability,
    WindSpeed, WindGusts, WindDirection, ShortwaveRadiation, UvIndex, HourlySunshine,
    SoilTemperature0cm, SoilTemperature6cm, SoilTemperature18cm, SoilTemperature54cm,
    SoilMoisture0To1Cm, SoilMoisture1To3Cm, SoilMoisture3To9Cm, SoilMoisture9To27Cm, SoilMoisture27To81Cm
  }

  /**
   * The series the merge copies.  Dew point, precipitation probability, wind
   * gusts, wind direction and sunshine are not among them and stay empty.
   */
  const CombinedSeries: set<HourlySeries> := {
    Temperature, RelativeHumidity, SurfacePressure,
    Precipitation, Rain, Snowfall,
    WindSpeed, ShortwaveRadiation, UvIndex,
    SoilTemperature0cm, SoilTemperature6cm, SoilTemperature18cm, SoilTemperature54cm,
    SoilMoisture0To1Cm, SoilMoisture1To3Cm, SoilMoisture3To9Cm, SoilMoisture9To27Cm, SoilMoisture27To81Cm
  }

  /** The series the merge copies, as a test on one series. */
  predicate IsCombined(s: HourlySeries)
  {
    !(s.DewPoint? || s.PrecipitationProbability? || s.WindGusts? || s.WindDirection? || s.HourlySunshine?)
  }

  lemma CombinedSeriesAreTheCopiedOnes(s: HourlySeries)
    ensures s in AllSeries
    ensures s in CombinedSeries <==> IsCombined(s)
  {
  }

  /** `combineLists` reads a null series as nothing to add. */
  function SeriesOf(h: Hourly, s: HourlySeries): seq<Option<real>>
  {
    if s in h.series then h.series[s] else []
  }

  /** Reference: series `s` of all non-null blocks, one block after another. */
  function ConcatSeries(blocks: seq<Option<Hourly>>, s: HourlySeries): seq<Option<real>>
  {
    if blocks == [] then []
    else ConcatSeries(blocks[..|blocks| - 1], s)
         + (if blocks[|blocks| - 1].Some? then SeriesOf(blocks[|blocks| - 1].value, s) else [])
  }

  /** Reference: the time stamps of all non-null blocks, one block after another. */
  function ConcatTime(blocks: seq<Option<Hourly>>): seq<string>
  {
    if blocks == [] then []
    else ConcatTime(blocks[..|blocks| - 1])
         + (if blocks[|blocks| - 1].Some? then blocks[|blocks| - 1].value.time.GetOr([]) else [])
  }

  /** The merge after one more block, in terms of the merge before it. */
  lemma StepPrefix(blocks: seq<Option<Hourly>>, i: int)
    requires 0 <= i < |blocks|
    ensures ConcatTime(blocks[..i + 1])
         == ConcatTime(blocks[..i]) + (if blocks[i].Some? then blocks[i].value.time.GetOr([]) else [])
    ensures forall s ::
              ConcatSeries(blocks[..i + 1], s)
              == ConcatSeries(blocks[..i], s) + (if blocks[i].Some? then SeriesOf(blocks[i].value, s) else [])
  {
    assert blocks[..i + 1][..i] == blocks[..i];
  }

  /** The freshly allocated result: every series present and empty. */
  function NoSeries(): (r: map<HourlySeries, seq<Option<real>>>)
    ensures r.Keys == AllSeries
    ensures forall s :: s in r ==> r[s] == []
  {
    map s | s in AllSeries :: []
  }

  /** The `combineLists` calls for one block: each copied series grows by the block's. */
  function AppendBlock(series: map<HourlySeries, seq<Option<real>>>, h: Hourly)
    : (r: map<HourlySeries, seq<Option<real>>>)
    requires series.Keys == AllSeries
    ensures r.Keys == AllSeries
    ensures forall s :: s in AllSeries ==>
              r[s] == series[s] + (if IsCombined(s) then SeriesOf(h, s) else [])
  {
    map s | s in AllSeries :: series[s] + (if IsCombined(s) then SeriesOf(h, s) else [])
  }

  /**
   * `combineHourlyList`: null for an empty list (a null list behaves the same);
   * otherwise every series is present, the copied ones hold the in-order
   * concatenation over the non-null blocks and the others are empty.
   */
  method CombineHourlyList(blocks: seq<Option<Hourly>>) returns (r: Option<Hourly>)
    ensures blocks == [] <==> r.None?
    ensures r.Some? ==> r.value.time == Some(ConcatTime(blocks))
    ensures r.Some? ==> r.value.series.Keys == AllSeries
    ensures r.Some? ==> forall s :: s in AllSeries ==>
              r.value.series[s] == (if IsCombined(s) then ConcatSeries(blocks, s) else [])
  {
    if blocks == [] {
      return None;
    }
    var time: seq<string> := [];
    var series := NoSeries();
    var i := 0;
    while i < |blocks|
      invariant 0 <= i <= |blocks|
      invariant time == ConcatTime(blocks[..i])
      invariant series.Keys == AllSeries
      invariant forall s :: s in AllSeries ==>
                  series[s] == (if IsCombined(s) then ConcatSeries(blocks[..i], s) else [])
    {
      StepPrefix(blocks, i);
      if blocks[i].Some? {
        var h := blocks[i].value;
        time := time + h.time.GetOr([]);
        series := AppendBlock(series, h);
      }
      i := i + 1;
    }
    assert blocks[..i] == blocks;
    r := Some(Hourly(Some(time), series));
  }

  /**
   * Merging is associative: merging the concatenation of two lists of blocks
   * gives, series by series, the first list's merge followed by the second's.
   */
  lemma {:induction false} ConcatSeriesAppend(a: seq<Option<Hourly>>, b: seq<Option<Hourly>>, s: HourlySeries)
    ensures ConcatSeries(a + b, s) == ConcatSeries(a, s) + ConcatSeries(b, s)
  {
    if b == [] {
      assert a + b == a;
    } else {
      var init := b[..|b| - 1];
      var last := b[|b| - 1];
      var piece := if last.Some? then SeriesOf(last.value, s) else [];
      ConcatSeriesAppend(a, init, s);
      assert (a + b)[..|a + b| - 1] == a + init && (a + b)[|a + b| - 1] == last;
      assert ConcatSeries(a + b, s) == ConcatSeries(a + init, s) + piece;
      assert ConcatSeries(b, s) == ConcatSeries(init, s) + piece;
      assert ConcatSeries(a, s) + ConcatSeries(init, s) + piece == ConcatSeries(a, s) + (ConcatSeries(init, s) + piece);
    }
  }

  /** A merged series is as long as the pieces it was merged from together. */
  lemma {:induction false} ConcatSeriesLength(blocks: seq<Option<Hourly>>, s: HourlySeries)
    ensures |ConcatSeries(blocks, s)| == SumLengths(blocks, s)
  {
    if blocks != [] {
      ConcatSeriesLength(blocks[..|blocks| - 1], s);
    }
  }

  function SumLengths(blocks: seq<Option<Hourly>>, s: HourlySeries): nat
  {
    if blocks == [] then 0
    else SumLengths(blocks[..|blocks| - 1], s)
         + (if blocks[|blocks| - 1].Some? then |SeriesOf(blocks[|blocks| - 1].value, s)| else 0)
  }
}
