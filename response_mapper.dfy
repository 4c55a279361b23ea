/**
 * `OpenMeteoMapper.combineResponses`: merges the answers to the chunked
 * requests of a long period into one answer.
 */
module ResponseMapper {
  import opened Wrappers
  import opened WeatherData
  import HourlyMapper
  import DailyMapper

  function Hourlies(responses: seq<Response>): (r: seq<Option<Hourly>>)
    ensures |r| == |responses|
    ensures forall i :: 0 <= i < |r| ==> r[i] == responses[i].hourly
  {
    seq(|responses|, i requires 0 <= i < |responses| => responses[i].hourly)
  }

  function Dailies(responses: seq<Response>): (r: seq<Option<Daily>>)
    ensures |r| == |responses|
    ensures forall i :: 0 <= i < |r| ==> r[i] == responses[i].daily
  {
    seq(|responses|, i requires 0 <= i < |responses| => responses[i].daily)
  }

  /**
   * `merged` is the merge of non-empty `responses`: the coordinates of the
   * first, and the in-order merges of the hourly and of the daily blocks.
   */
  predicate IsMergeOf(responses: seq<Response>, merged: Response)
  {
    && responses != []
    && merged.latitude == responses[0].latitude
    && merged.longitude == responses[0].longitude
    && merged.elevation == responses[0].elevation
    && merged.hourly.Some?
    && merged.hourly.value.time == Some(HourlyMapper.ConcatTime(Hourlies(responses)))
    && merged.hourly.value.series.Keys == HourlyMapper.AllSeries
    && (forall s :: s in HourlyMapper.AllSeries ==>
          merged.hourly.value.series[s]
          == (if HourlyMapper.IsCombined(s) then HourlyMapper.ConcatSeries(Hourlies(responses), s) else []))
    && DailyMapper.StampsHaveDates(Hourlies(responses))
    && merged.daily.Some?
    && DailyMapper.MergedDaily(Dailies(responses), Hourlies(responses), merged.daily.value)
  }

  /** What `combineResponses` yields or throws for `responses`. */
  predicate MergeOutcome(responses: seq<Response>, r: Result<Response, MergeError>)
  {
    && (responses == [] ==> r == Err(NoSuccessfulResponses))
    && (responses != [] && !DailyMapper.StampsHaveDates(Hourlies(responses)) ==> r == Err(MalformedTimestamp))
    && (responses != [] && DailyMapper.StampsHaveDates(Hourlies(responses)) ==>
          (r.Err? <==> !DailyMapper.SoilsReadable(Hourlies(responses), DailyMapper.ConcatDates(Dailies(responses)))))
    && (responses != [] && DailyMapper.StampsHaveDates(Hourlies(responses)) && r.Err? ==> r.error == NullSoilReading)
    && (r.Ok? ==> IsMergeOf(responses, r.value))
  }

  /**
   * `combineResponses`: fails on no responses; otherwise the coordinates of the
   * first response with the merged hourly block and the merged daily block.
   */
  method CombineResponses(responses: seq<Response>) returns (r: Result<Response, MergeError>)
    ensures MergeOutcome(responses, r)
  {
    if responses == [] {
      return Err(NoSuccessfulResponses);
    }
    var first := responses[0];
    var hourly := HourlyMapper.CombineHourlyList(Hourlies(responses));
    var daily := DailyMapper.CombineDailyList(Dailies(responses), Hourlies(responses));
    if daily.Err? {
      return Err(daily.error);
    }
    r := Ok(Response(first.latitude, first.longitude, first.elevation, hourly, daily.value));
  }

  /**
   * Merging the answers of two consecutive request chunks keeps the time
   * stamps of the first chunk followed by those of the second.
   */
  lemma {:induction false} ConcatTimeAppend(a: seq<Option<Hourly>>, b: seq<Option<Hourly>>)
    ensures HourlyMapper.ConcatTime(a + b) == HourlyMapper.ConcatTime(a) + HourlyMapper.ConcatTime(b)
  {
    if b == [] {
      assert a + b == a;
    } else {
      ConcatTimeAppend(a, b[..|b| - 1]);
      assert (a + b)[..|a + b| - 1] == a + b[..|b| - 1];
    }
  }
}
