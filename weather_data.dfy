/**
 * The weather service's view of an Open-Meteo answer: an hourly block, a daily
 * block and the response around them.  Every list of the records may be null;
 * a series missing from a block's `series` map is a null list.
 */
module WeatherData {
  import opened Wrappers

  /** The hourly series of an hourly block, besides its time stamps. */
  datatype HourlySeries =
    | Temperature | RelativeHumidity | SurfacePressure | DewPoint
    | Precipitation | Rain | Snowfall | PrecipitationProbability
    | WindSpeed | WindGusts | WindDirection | ShortwaveRadiation | UvIndex | HourlySunshine
    | SoilTemperature0cm | SoilTemperature6cm | SoilTemperature18cm | SoilTemperature54cm
    | SoilMoisture0To1Cm | SoilMoisture1To3Cm | SoilMoisture3To9Cm | SoilMoisture9To27Cm | SoilMoisture27To81Cm

  /** Hourly readings, one per time stamp `yyyy-MM-ddTHH:mm`; a single reading may be null. */
  datatype Hourly = Hourly(time: Option<seq<string>>, series: map<HourlySeries, seq<Option<real>>>)

  /** The daily series of a daily block, besides its dates. */
  datatype DailySeries =
    | TemperatureMax | TemperatureMin | TemperatureMean
    | RelativeHumidityMean | RelativeHumidityMin
    | PrecipitationSum | ReferenceEvapotranspiration
    | WindSpeedMax | WindGustsMax | ShortwaveRadiationSum | DailySunshine
    | SoilTemperature0cmMean | SoilTemperature6cmMean | SoilMoisture0to1cmMean

  /** Daily values, one per date `yyyy-MM-dd`; a single value may be null. */
  datatype Daily = Daily(time: Option<seq<string>>, series: map<DailySeries, seq<Option<real>>>)

  datatype Response = Response(
    latitude: Option<real>,
    longitude: Option<real>,
    elevation: Option<real>,
    hourly: Option<Hourly>,
    daily: Option<Daily>)

  /** Why merging responses can fail. */
  datatype MergeError =
    | NoSuccessfulResponses  // `IllegalStateException` from an empty list of responses
    | MalformedTimestamp     // an hourly time stamp shorter than a date: `substring(0, 10)` throws
    | NullSoilReading        // a null hourly soil reading of a merged date: unboxing it throws

  /** A daily series as a nullable list. */
  function DailyValues(d: Daily, s: DailySeries): Option<seq<Option<real>>>
  {
    if s in d.series then Some(d.series[s]) else None
  }
}
