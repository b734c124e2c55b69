/** Records shared by the pages and components (frontend/app/types/event.ts), and the
    small wrappers the model uses for JavaScript's missing values, NaN and exceptions. */
module Types {

  datatype Option<+T> = None | Some(value: T)

  datatype Result<+T, +E> = Success(value: T) | Failure(error: E)

  /** A JavaScript number produced from user text by `Number(text)`: NaN or a finite value. */
  datatype JsNumber = NaN | Num(value: real)

  /** `x >= c` on a JavaScript number: every comparison with NaN is false. */
  predicate AtLeast(x: JsNumber, c: real) {
    x.Num? && x.value >= c
  }

  /** `x > c` on a JavaScript number. */
  predicate Above(x: JsNumber, c: real) {
    x.Num? && x.value > c
  }

  /** `Math.round(x)`: the nearest integer, halves rounded up. */
  function Round(x: real): (n: int)
    ensures n as real - 0.5 <= x < n as real + 0.5
  {
    (x + 0.5).Floor
  }

  /** `new Date(text).getTime()`: milliseconds since the epoch, None for an Invalid Date. */
  type DateParser = string -> Option<int>

  /** `new Date(text) > new Date()`, with the current time `now` in milliseconds. An Invalid
      Date compares as NaN, so it is never in the future. */
  predicate IsAfter(time: Option<int>, now: int) {
    time.Some? && time.value > now
  }

  /** A value caught by a `catch` block: an `Error` with its message, or anything else. */
  datatype Thrown = ErrorObject(message: string) | NonError

  /** `error instanceof Error ? error.message : fallback` */
  function MessageOf(t: Thrown, fallback: string): (m: string)
    ensures t.ErrorObject? ==> m == t.message
    ensures t.NonError? ==> m == fallback
  {
    match t
    case ErrorObject(msg) => msg
    case NonError => fallback
  }

  datatype EventCategory = Conference | Concert | Workshop | Meetup | Sports | Exhibition | Other

  /** The string each category is stored as. */
  function CategoryName(c: EventCategory): string {
    match c
    case Conference => "conference"
    case Concert => "concert"
    case Workshop => "workshop"
    case Meetup => "meetup"
    case Sports => "sports"
    case Exhibition => "exhibition"
    case Other => "other"
  }

  /** An event as listed on the events page and shown by an event card. */
  datatype Event = Event(
    id: string,
    title: string,
    description: string,
    imageUrl: string,
    date: string,
    location: string,
    category: string,
    ticketPrice: real,
    totalTickets: int,
    availableTickets: int,
    organizer: string,
    contractAddress: string,
    isActive: bool,
    createdAt: string)

  /** The create-event form. The two numeric fields hold `Number(text)` of what was typed,
      which is NaN for text that is not a number. */
  datatype EventFormData = EventFormData(
    title: string,
    description: string,
    imageUrl: string,
    date: string,
    location: string,
    category: string,
    ticketPrice: JsNumber,
    totalTickets: JsNumber)
}
