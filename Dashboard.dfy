/** The aggregates and classifiers of the user dashboard, frontend/app/dashboard/page.tsx.
    The page's lists of created events and owned tickets are parameters, `parse` reads a
    date string and `now` is the current time in milliseconds. */
module Dashboard {
  import opened Types
  import opened JsString

  /** An event the user created, as the page lists it. */
  datatype CreatedEvent = CreatedEvent(
    id: string,
    title: string,
    imageUrl: string,
    date: string,
    location: string,
    ticketsSold: int,
    totalTickets: int,
    revenue: string,
    status: string)

  /** A ticket the user owns, as the page lists it. */
  datatype OwnedTicket = OwnedTicket(
    id: string,
    eventId: string,
    eventTitle: string,
    eventImage: string,
    eventDate: string,
    eventLocation: string,
    tokenId: int,
    purchasePrice: string,
    purchaseDate: string,
    isUsed: bool)

  datatype TicketStatus = Used | Valid | Expired

  /** The badge of a ticket: Used when it has been used, otherwise Valid while its event
      is still ahead and Expired after that. A date that does not parse is never ahead. */
  function TicketStatusOf(t: OwnedTicket, parse: DateParser, now: int): (s: TicketStatus)
    ensures s == Used <==> t.isUsed
    ensures s == Valid <==> !t.isUsed && IsAfter(parse(t.eventDate), now)
    ensures s == Expired <==> !t.isUsed && !IsAfter(parse(t.eventDate), now)
  {
    if t.isUsed then Used else if IsAfter(parse(t.eventDate), now) then Valid else Expired
  }

  /** The badge text. */
  function TicketStatusText(s: TicketStatus): (text: string)
    ensures text == "Used" <==> s == Used
    ensures text == "Valid" <==> s == Valid
    ensures text == "Expired" <==> s == Expired
  {
    match s
    case Used => "Used"
    case Valid => "Valid"
    case Expired => "Expired"
  }

  /** The Show QR Code button: the ticket is unused and its event is still ahead. */
  predicate ShowQrCode(t: OwnedTicket, parse: DateParser, now: int) {
    !t.isUsed && IsAfter(parse(t.eventDate), now)
  }

  /** The QR button is shown exactly on the tickets whose badge reads Valid. */
  lemma ShowQrCodeIffValid(t: OwnedTicket, parse: DateParser, now: int)
    ensures ShowQrCode(t, parse, now) <==> TicketStatusOf(t, parse, now) == Valid
    ensures ShowQrCode(t, parse, now) ==> TicketStatusText(TicketStatusOf(t, parse, now)) == "Valid"
  {
  }

  /** Tickets Sold: `reduce((sum, event) => sum + event.ticketsSold, 0)`, folded from
      the left. */
  function TicketsSold(events: seq<CreatedEvent>): int {
    if events == [] then 0
    else TicketsSold(events[..|events| - 1]) + events[|events| - 1].ticketsSold
  }

  /** The capacity of the listed events, summed front to back. */
  function Capacity(events: seq<CreatedEvent>): int {
    if events == [] then 0 else events[0].totalTickets + Capacity(events[1..])
  }

  /** Sums of ticketsSold over a list, front to back: an independent definition. */
  function SoldFrom(events: seq<CreatedEvent>): int {
    if events == [] then 0 else events[0].ticketsSold + SoldFrom(events[1..])
  }

  /** The front-to-back sum splits over concatenation. */
  lemma {:induction false} SoldFromAppend(a: seq<CreatedEvent>, b: seq<CreatedEvent>)
    ensures SoldFrom(a + b) == SoldFrom(a) + SoldFrom(b)
  {
    if a != [] {
      assert (a + b)[1..] == a[1..] + b;
      SoldFromAppend(a[1..], b);
    } else {
      assert a + b == b;
    }
  }

  /** The page's left fold is the sum of ticketsSold over the events. */
  lemma {:induction false} TicketsSoldIsSum(events: seq<CreatedEvent>)
    ensures TicketsSold(events) == SoldFrom(events)
  {
    if events != [] {
      var init, last := events[..|events| - 1], events[|events| - 1];
      assert events == init + [last];
      TicketsSoldIsSum(init);
      SoldFromAppend(init, [last]);
    }
  }

  /** Adding an event to the list adds its tickets sold to the total. */
  lemma TicketsSoldAppend(a: seq<CreatedEvent>, b: seq<CreatedEvent>)
    ensures TicketsSold(a + b) == TicketsSold(a) + TicketsSold(b)
  {
    TicketsSoldIsSum(a + b);
    TicketsSoldIsSum(a);
    TicketsSoldIsSum(b);
    SoldFromAppend(a, b);
  }

  /** Every event sold between none and all of its tickets. */
  predicate SalesWithinCapacity(events: seq<CreatedEvent>) {
    forall i :: 0 <= i < |events| ==> 0 <= events[i].ticketsSold <= events[i].totalTickets
  }

  /** When every event sold between none and all of its tickets, so does the total. */
  lemma {:induction false} TicketsSoldBounded(events: seq<CreatedEvent>)
    requires SalesWithinCapacity(events)
    ensures 0 <= TicketsSold(events) <= Capacity(events)
  {
    TicketsSoldIsSum(events);
    SoldFromBounded(events);
  }

  lemma {:induction false} SoldFromBounded(events: seq<CreatedEvent>)
    requires SalesWithinCapacity(events)
    ensures 0 <= SoldFrom(events) <= Capacity(events)
  {
    if events != [] {
      SoldFromBounded(events[1..]);
    }
  }

  /** Active Events: the number of created events whose status is "active". */
  function ActiveEventCount(events: seq<CreatedEvent>): (n: nat)
    ensures n <= |events|
    ensures n == |events| <==> forall i :: 0 <= i < |events| ==> events[i].status == "active"
    ensures n == 0 <==> forall i :: 0 <= i < |events| ==> events[i].status != "active"
  {
    if events == [] then 0
    else
      var rest := ActiveEventCount(events[1..]);
      assert forall i :: 1 <= i < |events| ==> events[i] == events[1..][i - 1];
      (if events[0].status == "active" then 1 else 0) + rest
  }

  /** One event counts exactly when its status is "active", and the count of a
      concatenation is the sum of the counts. */
  lemma ActiveEventCountSingle(e: CreatedEvent)
    ensures ActiveEventCount([e]) == if e.status == "active" then 1 else 0
  {
    assert [e][1..] == [];
  }

  lemma {:induction false} ActiveEventCountAppend(a: seq<CreatedEvent>, b: seq<CreatedEvent>)
    ensures ActiveEventCount(a + b) == ActiveEventCount(a) + ActiveEventCount(b)
  {
    if a == [] {
      assert a + b == b;
    } else {
      assert (a + b)[0] == a[0];
      assert (a + b)[1..] == a[1..] + b;
      ActiveEventCountAppend(a[1..], b);
    }
  }

  /** Upcoming Events: the owned tickets whose event is still ahead and that are unused. */
  function UpcomingTicketCount(tickets: seq<OwnedTicket>, parse: DateParser, now: int): (n: nat)
    ensures n <= |tickets|
  {
    if tickets == [] then 0
    else
      (if IsAfter(parse(tickets[0].eventDate), now) && !tickets[0].isUsed then 1 else 0)
        + UpcomingTicketCount(tickets[1..], parse, now)
  }

  /** The number of tickets with a given badge. */
  function StatusCount(tickets: seq<OwnedTicket>, s: TicketStatus, parse: DateParser, now: int): nat {
    if tickets == [] then 0
    else
      (if TicketStatusOf(tickets[0], parse, now) == s then 1 else 0)
        + StatusCount(tickets[1..], s, parse, now)
  }

  /** Upcoming Events counts exactly the tickets whose badge reads Valid, which are the
      tickets that offer a QR code. */
  lemma {:induction false} UpcomingCountsValid(tickets: seq<OwnedTicket>, parse: DateParser, now: int)
    ensures UpcomingTicketCount(tickets, parse, now) == StatusCount(tickets, Valid, parse, now)
  {
    if tickets != [] {
      UpcomingCountsValid(tickets[1..], parse, now);
    }
  }

  /** Every ticket has exactly one badge: the three counts add up to the number of
      tickets. */
  lemma {:induction false} StatusCountsPartition(tickets: seq<OwnedTicket>, parse: DateParser, now: int)
    ensures StatusCount(tickets, Used, parse, now) + StatusCount(tickets, Valid, parse, now)
      + StatusCount(tickets, Expired, parse, now) == |tickets|
  {
    if tickets != [] {
      StatusCountsPartition(tickets[1..], parse, now);
    }
  }

  /** The Rate column: `Math.round((ticketsSold / totalTickets) * 100)`. */
  function SaleRate(sold: int, total: int): (rate: int)
    requires total > 0
    ensures rate as real - 0.5 <= (sold as real / total as real) * 100.0 < rate as real + 0.5
    ensures 0 <= sold <= total ==> 0 <= rate <= 100
    ensures sold == total ==> rate == 100
  {
    var x := (sold as real / total as real) * 100.0;
    FractionBounds(sold, total);
    Round(x)
  }

  /** A fraction of at most all tickets is between 0 and 100 percent. */
  lemma FractionBounds(sold: int, total: int)
    requires total > 0
    ensures 0 <= sold ==> 0.0 <= (sold as real / total as real) * 100.0
    ensures sold <= total ==> (sold as real / total as real) * 100.0 <= 100.0
    ensures sold == total ==> (sold as real / total as real) * 100.0 == 100.0
  {
    var q := sold as real / total as real;
    assert q * total as real == sold as real;
    if q > 1.0 {
      assert (q - 1.0) * total as real > 0.0;
    }
    if q < 0.0 {
      assert (0.0 - q) * total as real > 0.0;
    }
  }
}
