/** Event-time rules of frontend/app/lib/dateUtils.ts. Times are integer milliseconds
    since the epoch, epochs are integer seconds, and the clock is the parameter `now`. */
module DateUtils {
  import opened Types

  const MsPerSecond := 1000
  const OneHourMs := 60 * 60 * 1000
  const TwoHoursMs := 2 * 60 * 60 * 1000
  const ThreeMinutesMs := 3 * 60 * 1000

  const InvalidDateMessage := "Invalid event date. Please select a valid date."
  const PastDateMessage := "Event date must be in the future."
  const TooSoonMessage := "Event must be scheduled at least 2 hours from now to allow for registration."

  /** `dateToEpoch`: the whole seconds of a time value, rounded down (`Math.floor`). */
  function DateToEpoch(ms: int): (epoch: int)
    ensures epoch * MsPerSecond <= ms < epoch * MsPerSecond + MsPerSecond
  {
    ms / MsPerSecond
  }

  /** `epochToDate`: the time value at the start of a second. */
  function EpochToDate(epoch: int): (ms: int)
    ensures ms % MsPerSecond == 0
    ensures DateToEpoch(ms) == epoch
  {
    epoch * MsPerSecond
  }

  /** Going through whole seconds truncates a time value by less than a second. */
  lemma EpochTruncates(ms: int)
    ensures EpochToDate(DateToEpoch(ms)) <= ms < EpochToDate(DateToEpoch(ms)) + MsPerSecond
  {
  }

  /** What `validateAndGenerateEventTimes` returns: the event time and the registration
      window, each epoch also converted back to a time value. */
  datatype EventTimes = EventTimes(
    eventDate: int,
    regStartTime: int,
    regEndTime: int,
    regStartTimeDate: int,
    regEndTimeDate: int)

  /** `validateAndGenerateEventTimes`, with the parsed event date (None for an Invalid
      Date) and one reading of the clock. The thrown errors become `Failure`s. */
  function ValidateAndGenerateEventTimes(eventDate: Option<int>, now: int): (r: Result<EventTimes, string>)
    ensures eventDate.None? ==> r == Failure(InvalidDateMessage)
    ensures eventDate.Some? && eventDate.value <= now ==> r == Failure(PastDateMessage)
    ensures eventDate.Some? && now < eventDate.value < now + TwoHoursMs ==> r == Failure(TooSoonMessage)
    ensures r.Success? <==> eventDate.Some? && eventDate.value >= now + TwoHoursMs
    ensures r.Success? ==> r.value.regStartTime < r.value.regEndTime
  {
    match eventDate
    case None => Failure(InvalidDateMessage)
    case Some(date) =>
      if date <= now then Failure(PastDateMessage)
      else if date < now + TwoHoursMs then Failure(TooSoonMessage)
      else
        var regStartTime := DateToEpoch(now + ThreeMinutesMs);
        var regEndTime := DateToEpoch(date - OneHourMs);
        Success(EventTimes(date, regStartTime, regEndTime, EpochToDate(regStartTime), EpochToDate(regEndTime)))
  }

  /** On success the registration window opens within the second that ends three minutes
      from now, closes in the second that holds the moment one hour before the event, and
      the event date is the parsed one. */
  lemma RegistrationWindow(eventDate: Option<int>, now: int)
    requires ValidateAndGenerateEventTimes(eventDate, now).Success?
    ensures var t := ValidateAndGenerateEventTimes(eventDate, now).value;
      && t.eventDate == eventDate.value
      && t.regStartTime == DateToEpoch(now + ThreeMinutesMs)
      && t.regEndTime == DateToEpoch(t.eventDate - OneHourMs)
      && t.regStartTimeDate == EpochToDate(t.regStartTime)
      && t.regEndTimeDate == EpochToDate(t.regEndTime)
      && now + ThreeMinutesMs - MsPerSecond < t.regStartTimeDate <= now + ThreeMinutesMs
      && t.eventDate - OneHourMs - MsPerSecond < t.regEndTimeDate <= t.eventDate - OneHourMs
      && t.regStartTimeDate < t.regEndTimeDate < t.eventDate
  {
  }

  /** The earliest accepted event is exactly two hours ahead; one millisecond sooner is
      refused. */
  lemma TwoHourBoundary(now: int)
    ensures ValidateAndGenerateEventTimes(Some(now + TwoHoursMs), now).Success?
    ensures ValidateAndGenerateEventTimes(Some(now + TwoHoursMs - 1), now) == Failure(TooSoonMessage)
  {
  }
}
