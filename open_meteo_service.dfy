/**
 * `OpenMeteoService.getWeather`: validates a request, then fetches a forecast,
 * one historical period, or a long historical period in three-month chunks
 * whose answers are merged.  The HTTP calls are a parameter `fetch` that
 * answers a request with a response, or with `None` when the call fails.
 */
module OpenMeteoService {
  import opened Wrappers
  import opened Calendar
  import opened WeatherData
  import opened DateUtils
  import opened DateValidator
  import opened ResponseMapper

  /** `WeatherRequestType`; a null type is `None`. */
  datatype RequestType = Forecast | Historic

  /**
   * A call to the weather API.  A historical request carries its dates; the
   * text sent is their ISO form, which for a validated period is the text the
   * caller gave (`Calendar.FormatParse`).
   */
  datatype WeatherRequest =
    | ForecastRequest(lat: real, lon: real, days: int)
    | HistoricalRequest(lat: real, lon: real, start: Date, end: Date)

  datatype ServiceError =
    | Invalid(violation: ValidationError)  // an `IllegalArgumentException` from the validator
    | RequestFailed                        // the error of a single request, propagated
    | MergeFailed(reason: MergeError)      // an exception from merging the chunks

  /**
   * `minHistoricalDate` (by default `DefaultMinHistoricalDate`),
   * `historicalDataLagDays` and `longPeriodThresholdMonths` of the configuration.
   */
  datatype WeatherSettings = WeatherSettings(minHistoricalDate: Date, historicalDataLagDays: int,
                                             longPeriodThresholdMonths: int)

  /** The outcome of a request that is not recovered from. */
  function Fetched(answer: Option<Response>): (r: Result<Response, ServiceError>)
    ensures r.Ok? <==> answer.Some?
    ensures r.Ok? ==> r.value == answer.value
    ensures r.Err? ==> r.error == RequestFailed
  {
    if answer.Some? then Ok(answer.value) else Err(RequestFailed)
  }

  /** One historical request per range, in range order. */
  function ChunkRequests(lat: real, lon: real, ranges: seq<DateRange>): (r: seq<WeatherRequest>)
    ensures |r| == |ranges|
    ensures forall i :: 0 <= i < |r| ==> r[i] == HistoricalRequest(lat, lon, ranges[i].start, ranges[i].end)
  {
    seq(|ranges|, i requires 0 <= i < |ranges| => HistoricalRequest(lat, lon, ranges[i].start, ranges[i].end))
  }

  /** Reference: the answers of the requests that succeed, in request order (`onErrorResume` drops the rest). */
  function Survivors(requests: seq<WeatherRequest>, fetch: WeatherRequest -> Option<Response>): seq<Response>
  {
    if requests == [] then []
    else
      var last := fetch(requests[|requests| - 1]);
      Survivors(requests[..|requests| - 1], fetch) + (if last.Some? then [last.value] else [])
  }

  /** No answer survives exactly when every request fails. */
  lemma {:induction false} SurvivorsEmpty(requests: seq<WeatherRequest>, fetch: WeatherRequest -> Option<Response>)
    ensures Survivors(requests, fetch) == [] <==> forall i :: 0 <= i < |requests| ==> fetch(requests[i]).None?
  {
    if requests != [] {
      var init := requests[..|requests| - 1];
      SurvivorsEmpty(init, fetch);
      assert forall i :: 0 <= i < |init| ==> init[i] == requests[i];
    }
  }

  /** When every request succeeds, every answer is kept, in request order. */
  lemma {:induction false} SurvivorsAllSucceed(requests: seq<WeatherRequest>, fetch: WeatherRequest -> Option<Response>)
    requires forall i :: 0 <= i < |requests| ==> fetch(requests[i]).Some?
    ensures |Survivors(requests, fetch)| == |requests|
    ensures forall i :: 0 <= i < |requests| ==> Survivors(requests, fetch)[i] == fetch(requests[i]).value
  {
    if requests != [] {
      var init := requests[..|requests| - 1];
      assert forall i :: 0 <= i < |init| ==> init[i] == requests[i];
      SurvivorsAllSucceed(init, fetch);
    }
  }

  /** The `concatMap` over the chunks: fetch one after another, keep the answers that arrive. */
  method FetchChunks(requests: seq<WeatherRequest>, fetch: WeatherRequest -> Option<Response>)
    returns (responses: seq<Response>)
    ensures responses == Survivors(requests, fetch)
  {
    responses := [];
    for i := 0 to |requests|
      invariant responses == Survivors(requests[..i], fetch)
    {
      assert requests[..i + 1][..i] == requests[..i];
      var answer := fetch(requests[i]);
      if answer.Some? {
        responses := responses + [answer.value];
      }
    }
    assert requests[..|requests|] == requests;
  }

  /** The merge of the surviving chunk answers, with a merge failure as a service error. */
  predicate ServesMerge(survivors: seq<Response>, r: Result<Response, ServiceError>)
  {
    match r
    case Ok(v) => MergeOutcome(survivors, Ok(v))
    case Err(e) => e.MergeFailed? && MergeOutcome(survivors, Err(e.reason))
  }

  /** `getHistoricalDataInChunks`. */
  method GetHistoricalDataInChunks(lat: real, lon: real, start: Date, end: Date,
                                   fetch: WeatherRequest -> Option<Response>)
    returns (r: Result<Response, ServiceError>)
    requires ValidDate(start) && ValidDate(end)
    ensures ServesMerge(Survivors(ChunkRequests(lat, lon, ThreeMonthSplit(start, end)), fetch), r)
  {
    var ranges := SplitByThreeMonths(start, end);
    var responses := FetchChunks(ChunkRequests(lat, lon, ranges), fetch);
    var merged := CombineResponses(responses);
    if merged.Err? {
      return Err(MergeFailed(merged.error));
    }
    r := Ok(merged.value);
  }

  /** What `getHistoricalWeather` yields for a validated position. */
  predicate HistoricalOutcome(lat: real, lon: real, startDate: Option<string>, endDate: Option<string>,
                              today: Date, settings: WeatherSettings,
                              fetch: WeatherRequest -> Option<Response>, r: Result<Response, ServiceError>)
    requires ValidDate(today)
  {
    var invalid := ValidateHistoricalPeriod(startDate, endDate, today,
                                            settings.minHistoricalDate, settings.historicalDataLagDays);
    if invalid.Some? then r == Err(Invalid(invalid.value))
    else
      var start := ParseIsoDate(startDate.value).value;
      var end := ParseIsoDate(endDate.value).value;
      if IsLongPeriod(start, end, settings.longPeriodThresholdMonths)
      then ServesMerge(Survivors(ChunkRequests(lat, lon, ThreeMonthSplit(start, end)), fetch), r)
      else r == Fetched(fetch(HistoricalRequest(lat, lon, start, end)))
  }

  /** `getHistoricalWeather`: validate the period, then one request or the chunked fetch. */
  method GetHistoricalWeather(lat: real, lon: real, startDate: Option<string>, endDate: Option<string>,
                              today: Date, settings: WeatherSettings,
                              fetch: WeatherRequest -> Option<Response>)
    returns (r: Result<Response, ServiceError>)
    requires ValidDate(today)
    ensures HistoricalOutcome(lat, lon, startDate, endDate, today, settings, fetch, r)
  {
    var invalid := ValidateHistoricalPeriod(startDate, endDate, today,
                                            settings.minHistoricalDate, settings.historicalDataLagDays);
    if invalid.Some? {
      return Err(Invalid(invalid.value));
    }
    var start := ParseIsoDate(startDate.value).value;
    var end := ParseIsoDate(endDate.value).value;
    if IsLongPeriod(start, end, settings.longPeriodThresholdMonths) {
      r := GetHistoricalDataInChunks(lat, lon, start, end, fetch);
      return;
    }
    r := Fetched(fetch(HistoricalRequest(lat, lon, start, end)));
  }

  /**
   * What `getWeather` yields: coordinates are checked first; a forecast then
   * checks the number of days and makes one request; any other type, null
   * included, goes the historical way.
   */
  predicate WeatherOutcome(lat: Option<real>, lon: Option<real>, kind: Option<RequestType>, days: Option<int>,
                           startDate: Option<string>, endDate: Option<string>,
                           today: Date, settings: WeatherSettings, fetch: WeatherRequest -> Option<Response>,
                           r: Result<Response, ServiceError>)
    requires ValidDate(today)
  {
    var invalid := ValidateCoordinates(lat, lon);
    if invalid.Some? then r == Err(Invalid(invalid.value))
    else if kind == Some(Forecast) then
      r == if ValidateForecastDays(days).Some? then Err(Invalid(ValidateForecastDays(days).value))
           else Fetched(fetch(ForecastRequest(lat.value, lon.value, days.value)))
    else HistoricalOutcome(lat.value, lon.value, startDate, endDate, today, settings, fetch, r)
  }

  /** `getWeather`. */
  method GetWeather(lat: Option<real>, lon: Option<real>, kind: Option<RequestType>, days: Option<int>,
                    startDate: Option<string>, endDate: Option<string>,
                    today: Date, settings: WeatherSettings, fetch: WeatherRequest -> Option<Response>)
    returns (r: Result<Response, ServiceError>)
    requires ValidDate(today)
    ensures WeatherOutcome(lat, lon, kind, days, startDate, endDate, today, settings, fetch, r)
  {
    var invalid := ValidateCoordinates(lat, lon);
    if invalid.Some? {
      return Err(Invalid(invalid.value));
    }
    if kind == Some(Forecast) {
      var badDays := ValidateForecastDays(days);
      if badDays.Some? {
        return Err(Invalid(badDays.value));
      }
      r := Fetched(fetch(ForecastRequest(lat.value, lon.value, days.value)));
    } else {
      r := GetHistoricalWeather(lat.value, lon.value, startDate, endDate, today, settings, fetch);
    }
  }

  /** A request the validator refuses never reaches the network and fails with the violation. */
  lemma InvalidRequestFails(lat: Option<real>, lon: Option<real>, kind: Option<RequestType>, days: Option<int>,
                            startDate: Option<string>, endDate: Option<string>,
                            today: Date, settings: WeatherSettings, fetch: WeatherRequest -> Option<Response>,
                            r: Result<Response, ServiceError>)
    requires ValidDate(today)
    requires WeatherOutcome(lat, lon, kind, days, startDate, endDate, today, settings, fetch, r)
    requires ValidateCoordinates(lat, lon).Some?
             || (kind == Some(Forecast) && ValidateForecastDays(days).Some?)
             || (kind != Some(Forecast)
                 && ValidateHistoricalPeriod(startDate, endDate, today,
                                             settings.minHistoricalDate, settings.historicalDataLagDays).Some?)
    ensures r.Err? && r.error.Invalid?
  {
  }

  /**
   * What the validator refuses in a historical `getWeather` call: the
   * coordinates first, then the period.  These refusals are thrown while the
   * call is being made, before any request exists.
   */
  function HistoricRejection(lat: Option<real>, lon: Option<real>, startDate: Option<string>,
                             endDate: Option<string>, today: Date, settings: WeatherSettings)
    : (r: Option<ValidationError>)
    requires ValidDate(today)
    ensures r.None? <==> ValidateCoordinates(lat, lon).None?
                         && ValidateHistoricalPeriod(startDate, endDate, today, settings.minHistoricalDate,
                                                     settings.historicalDataLagDays).None?
  {
    var coordinates := ValidateCoordinates(lat, lon);
    if coordinates.Some? then coordinates
    else ValidateHistoricalPeriod(startDate, endDate, today, settings.minHistoricalDate, settings.historicalDataLagDays)
  }

  /**
   * A historical call fails with a validator error exactly when the validator
   * refuses it, and then with that refusal; every other failure is a failed
   * request or a failed merge.
   */
  lemma InvalidIffRejected(lat: Option<real>, lon: Option<real>, kind: Option<RequestType>,
                           startDate: Option<string>, endDate: Option<string>,
                           today: Date, settings: WeatherSettings, fetch: WeatherRequest -> Option<Response>,
                           r: Result<Response, ServiceError>)
    requires ValidDate(today) && kind != Some(Forecast)
    requires WeatherOutcome(lat, lon, kind, None, startDate, endDate, today, settings, fetch, r)
    ensures (r.Err? && r.error.Invalid?) <==> HistoricRejection(lat, lon, startDate, endDate, today, settings).Some?
    ensures HistoricRejection(lat, lon, startDate, endDate, today, settings).Some? ==>
              r == Err(Invalid(HistoricRejection(lat, lon, startDate, endDate, today, settings).value))
    ensures r.Err? && !r.error.Invalid? ==> r.error.RequestFailed? || r.error.MergeFailed?
  {
    if HistoricRejection(lat, lon, startDate, endDate, today, settings).None? {
      var start := ParseIsoDate(startDate.value).value;
      var end := ParseIsoDate(endDate.value).value;
      if IsLongPeriod(start, end, settings.longPeriodThresholdMonths) {
        assert ServesMerge(Survivors(ChunkRequests(lat.value, lon.value, ThreeMonthSplit(start, end)), fetch), r);
      }
    }
  }

  /**
   * The chunk requests of a validated period together ask for every day of
   * it exactly once, each for a piece inside it no longer than three months.
   */
  lemma ChunkRequestsCoverPeriod(lat: real, lon: real, start: Date, end: Date)
    requires ValidDate(start) && ValidDate(end) && !IsAfter(start, end)
    ensures var requests := ChunkRequests(lat, lon, ThreeMonthSplit(start, end));
            && requests != []
            && requests[0].start == start
            && requests[|requests| - 1].end == end
            && (forall i :: 0 <= i < |requests| - 1 ==>
                  ValidDate(requests[i].end) && NextDay(requests[i].end) == requests[i + 1].start)
            && (forall i :: 0 <= i < |requests| ==>
                  && ValidDate(requests[i].start) && ValidDate(requests[i].end)
                  && !IsBefore(requests[i].start, start) && !IsAfter(requests[i].end, end)
                  && !IsAfter(requests[i].start, requests[i].end)
                  && MonthsBetween(requests[i].start, requests[i].end) <= 2)
  {
    var ranges := ThreeMonthSplit(start, end);
    ThreeMonthSplitTiles(start, end);
    ThreeMonthSplitShort(start, end);
    TilingRequests(lat, lon, ranges, start, end);
  }

  /** The requests of a tiling by short ranges inherit the tiling and the shortness. */
  lemma TilingRequests(lat: real, lon: real, ranges: seq<DateRange>, start: Date, end: Date)
    requires Tiles(ranges, start, end)
    requires forall i :: 0 <= i < |ranges| ==> MonthsBetween(ranges[i].start, ranges[i].end) <= 2
    ensures var requests := ChunkRequests(lat, lon, ranges);
            && requests != []
            && requests[0].start == start
            && requests[|requests| - 1].end == end
            && (forall i :: 0 <= i < |requests| - 1 ==>
                  ValidDate(requests[i].end) && NextDay(requests[i].end) == requests[i + 1].start)
            && (forall i :: 0 <= i < |requests| ==>
                  && ValidDate(requests[i].start) && ValidDate(requests[i].end)
                  && !IsBefore(requests[i].start, start) && !IsAfter(requests[i].end, end)
                  && !IsAfter(requests[i].start, requests[i].end)
                  && MonthsBetween(requests[i].start, requests[i].end) <= 2)
  {
    TilesWithin(ranges, start, end);
  }
}
