/**
 * `DateValidator` of the weather service: guard clauses on the coordinates,
 * the number of forecast days and a historical period.  Each rejection is an
 * `IllegalArgumentException`; here it is the `ValidationError` it reports.
 * The clock is a parameter: `today` stands for `LocalDate.now()`.
 */
module DateValidator {
  import opened Wrappers
  import opened Calendar

  datatype ValidationError =
    | MissingDates
    | NotIsoDates
    | StartAfterEnd
    | BeforeMinDate(minDate: Date)
    | AfterMaxDate(maxDate: Date, lagDays: int)
    | StartInFuture
    | NonPositiveForecastDays
    | TooManyForecastDays
    | MissingCoordinates
    | LatitudeOutOfRange
    | LongitudeOutOfRange

  /** The default of the configured `minHistoricalDate`. */
  const DefaultMinHistoricalDate: Date := Date(2016, 1, 1)

  /** The largest number of forecast days the API serves. */
  const MaxForecastDays: int := 16

  /** `getMaxHistoricalDate`: today less the configured lag. */
  function MaxHistoricalDate(today: Date, lagDays: int): (d: Date)
    requires ValidDate(today)
    ensures ValidDate(d)
    ensures lagDays >= 0 ==> !IsAfter(d, today)
    ensures lagDays > 0 ==> IsBefore(d, today)
  {
    PlusDays(today, -lagDays)
  }

  /** `validateCoordinates`. */
  function ValidateCoordinates(lat: Option<real>, lon: Option<real>): (r: Option<ValidationError>)
    ensures r.None? <==> lat.Some? && lon.Some?
                         && -90.0 <= lat.value <= 90.0 && -180.0 <= lon.value <= 180.0
    ensures r == Some(MissingCoordinates) <==> lat.None? || lon.None?
    ensures r.Some? ==> r.value in {MissingCoordinates, LatitudeOutOfRange, LongitudeOutOfRange}
  {
    if lat.None? || lon.None? then Some(MissingCoordinates)
    else if lat.value < -90.0 || lat.value > 90.0 then Some(LatitudeOutOfRange)
    else if lon.value < -180.0 || lon.value > 180.0 then Some(LongitudeOutOfRange)
    else None
  }

  /** `validateForecastDays`. */
  function ValidateForecastDays(days: Option<int>): (r: Option<ValidationError>)
    ensures r.None? <==> days.Some? && 1 <= days.value <= MaxForecastDays
    ensures r == Some(NonPositiveForecastDays) <==> days.None? || days.value <= 0
    ensures r == Some(TooManyForecastDays) <==> days.Some? && days.value > MaxForecastDays
  {
    if days.None? || days.value <= 0 then Some(NonPositiveForecastDays)
    else if days.value > MaxForecastDays then Some(TooManyForecastDays)
    else None
  }

  /** `validateDateOrder`. */
  function ValidateDateOrder(start: Date, end: Date): (r: Option<ValidationError>)
    ensures r.None? <==> !IsBefore(end, start)
  {
    if IsAfter(start, end) then Some(StartAfterEnd) else None
  }

  /**
   * `validateHistoricalDateBounds`: the checks in the order the source makes
   * them, against the configured first historical date `minDate` and lag.
   */
  function ValidateHistoricalDateBounds(start: Date, end: Date, today: Date, minDate: Date, lagDays: int)
    : (r: Option<ValidationError>)
    requires ValidDate(today)
    ensures r.None? <==> !IsBefore(start, minDate)
                         && !IsAfter(end, MaxHistoricalDate(today, lagDays))
                         && !IsAfter(start, today)
    ensures IsBefore(start, minDate) ==> r == Some(BeforeMinDate(minDate))
    ensures !IsBefore(start, minDate) && IsAfter(end, MaxHistoricalDate(today, lagDays)) ==>
              r == Some(AfterMaxDate(MaxHistoricalDate(today, lagDays), lagDays))
  {
    var maxDate := MaxHistoricalDate(today, lagDays);
    if IsBefore(start, minDate) then Some(BeforeMinDate(minDate))
    else if IsAfter(end, maxDate) then Some(AfterMaxDate(maxDate, lagDays))
    else if IsAfter(start, today) then Some(StartInFuture)
    else None
  }

  /**
   * `validateHistoricalPeriod`: both dates present and in ISO form, in order,
   * and within the bounds.
   */
  function ValidateHistoricalPeriod(startDate: Option<string>, endDate: Option<string>, today: Date,
                                    minDate: Date, lagDays: int)
    : (r: Option<ValidationError>)
    requires ValidDate(today)
    ensures r.None? <==>
              && startDate.Some? && endDate.Some?
              && ParseIsoDate(startDate.value).Some? && ParseIsoDate(endDate.value).Some?
              && AcceptedPeriod(ParseIsoDate(startDate.value).value, ParseIsoDate(endDate.value).value,
                                today, minDate, lagDays)
    ensures r == Some(MissingDates) <==> startDate.None? || endDate.None?
    ensures r == Some(NotIsoDates) <==>
              startDate.Some? && endDate.Some?
              && (ParseIsoDate(startDate.value).None? || ParseIsoDate(endDate.value).None?)
  {
    if startDate.None? || endDate.None? then Some(MissingDates)
    else
      var start := ParseIsoDate(startDate.value);
      var end := ParseIsoDate(endDate.value);
      if start.None? || end.None? then Some(NotIsoDates)
      else if ValidateDateOrder(start.value, end.value).Some? then ValidateDateOrder(start.value, end.value)
      else ValidateHistoricalDateBounds(start.value, end.value, today, minDate, lagDays)
  }

  /** A period the validator lets through, stated as one condition. */
  predicate AcceptedPeriod(start: Date, end: Date, today: Date, minDate: Date, lagDays: int)
    requires ValidDate(today)
  {
    && !IsAfter(start, end)
    && !IsBefore(start, minDate)
    && !IsAfter(end, MaxHistoricalDate(today, lagDays))
    && !IsAfter(start, today)
  }

  /**
   * With a lag of zero days or more the future-start check never fires: a
   * start that passed the other checks is at most the end, which is at most
   * today.
   */
  lemma FutureCheckIsRedundant(start: Date, end: Date, today: Date, minDate: Date, lagDays: int)
    requires ValidDate(today) && lagDays >= 0
    requires !IsAfter(start, end) && !IsAfter(end, MaxHistoricalDate(today, lagDays))
    ensures ValidateHistoricalDateBounds(start, end, today, minDate, lagDays) != Some(StartInFuture)
  {
    assert !IsAfter(start, today);
  }

  /** An accepted period lies between the first historical date and today. */
  lemma AcceptedPeriodIsHistorical(startDate: string, endDate: string, today: Date, minDate: Date, lagDays: int)
    requires ValidDate(today)
    requires ValidateHistoricalPeriod(Some(startDate), Some(endDate), today, minDate, lagDays).None?
    ensures ParseIsoDate(startDate).Some? && ParseIsoDate(endDate).Some?
    ensures !IsBefore(ParseIsoDate(startDate).value, minDate)
    ensures !IsAfter(ParseIsoDate(startDate).value, ParseIsoDate(endDate).value)
    ensures lagDays >= 0 ==> !IsAfter(ParseIsoDate(endDate).value, today)
  {
  }
}
