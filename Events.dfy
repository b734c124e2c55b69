/** Search, category filter and sort of the events list in frontend/app/events/page.tsx.
    The list is a parameter, and `parse` reads an event's date string. */
module Events {
  import opened Types
  import opened JsString

  /** The three controls of the page. */
  datatype Filters = Filters(searchQuery: string, selectedCategory: string, sortBy: string)

  const InitialFilters := Filters("", "all", "date")

  /** The lower-cased query occurs in the lower-cased title, description or location. */
  predicate MatchesSearch(e: Event, query: string) {
    var q := ToLower(query);
    Includes(ToLower(e.title), q) || Includes(ToLower(e.description), q) || Includes(ToLower(e.location), q)
  }

  /** "all" or the event's own category. */
  predicate MatchesCategory(e: Event, category: string) {
    category == "all" || e.category == category
  }

  /** The filter predicate of the page. */
  predicate Matches(e: Event, f: Filters) {
    MatchesSearch(e, f.searchQuery) && MatchesCategory(e, f.selectedCategory)
  }

  /** An empty query matches every event and "all" matches every category, so the page
      starts out listing every event. */
  lemma EmptyQueryAllCategoriesMatch(e: Event, sortBy: string)
    ensures Matches(e, Filters("", "all", sortBy))
    ensures Matches(e, InitialFilters)
  {
    assert ToLower("") == "";
  }

  /** `Array.prototype.filter`: the elements that pass `keep`, in their order. Each
      element occurs in the result as often as in the input if it passes, and not at all
      otherwise. */
  function Keep(s: seq<Event>, keep: Event -> bool): (r: seq<Event>)
    ensures |r| <= |s|
    ensures forall e :: multiset(r)[e] == if keep(e) then multiset(s)[e] else 0
  {
    if s == [] then []
    else
      assert s == [s[0]] + s[1..];
      var rest := Keep(s[1..], keep);
      if keep(s[0]) then [s[0]] + rest else rest
  }

  /** The filter keeps the order of the list: the filter of a concatenation is the
      concatenation of the filters. */
  lemma {:induction false} KeepAppend(a: seq<Event>, b: seq<Event>, keep: Event -> bool)
    ensures Keep(a + b, keep) == Keep(a, keep) + Keep(b, keep)
  {
    if a == [] {
      assert a + b == b;
    } else {
      assert (a + b)[0] == a[0];
      assert (a + b)[1..] == a[1..] + b;
      KeepAppend(a[1..], b, keep);
    }
  }

  /** `events.filter(...)` with the page's predicate. */
  function FilterEvents(events: seq<Event>, f: Filters): (r: seq<Event>)
    ensures |r| <= |events|
    ensures forall e :: multiset(r)[e] == if Matches(e, f) then multiset(events)[e] else 0
  {
    Keep(events, e => Matches(e, f))
  }

  /** Filtering keeps the order of the list: one event is kept exactly when it matches,
      and the filter of a concatenation is the concatenation of the filters. */
  lemma FilterEventsSingle(e: Event, f: Filters)
    ensures FilterEvents([e], f) == if Matches(e, f) then [e] else []
  {
    assert [e][1..] == [];
  }

  lemma FilterEventsAppend(a: seq<Event>, b: seq<Event>, f: Filters)
    ensures FilterEvents(a + b, f) == FilterEvents(a, f) + FilterEvents(b, f)
  {
    KeepAppend(a, b, e => Matches(e, f));
  }

  /** The comparator of the page: negative puts a before b. None is NaN, which a date
      comparison yields when either date string does not parse. */
  function Compare(a: Event, b: Event, sortBy: string, parse: DateParser): Option<real> {
    if sortBy == "price" then Some(a.ticketPrice - b.ticketPrice)
    else if sortBy == "popularity" then
      Some(((b.totalTickets - b.availableTickets) - (a.totalTickets - a.availableTickets)) as real)
    else if sortBy == "availability" then Some((b.availableTickets - a.availableTickets) as real)
    else match (parse(a.date), parse(b.date))
      case (Some(ta), Some(tb)) => Some((ta - tb) as real)
      case _ => None
  }

  /** The number each comparator orders by, smallest first: the price, minus the tickets
      sold, minus the tickets left, or the event time. A date that does not parse gets 0
      here; the comparator gives NaN for it and leaves the order to the engine. */
  function SortKey(e: Event, sortBy: string, parse: DateParser): real {
    if sortBy == "price" then e.ticketPrice
    else if sortBy == "popularity" then -((e.totalTickets - e.availableTickets) as real)
    else if sortBy == "availability" then -(e.availableTickets as real)
    else match parse(e.date)
      case Some(t) => t as real
      case None => 0.0
  }

  /** The comparator is the difference of the sort keys wherever it is a number. */
  lemma CompareIsKeyDifference(a: Event, b: Event, sortBy: string, parse: DateParser)
    ensures Compare(a, b, sortBy, parse).Some? ==>
      Compare(a, b, sortBy, parse).value == SortKey(a, sortBy, parse) - SortKey(b, sortBy, parse)
    ensures sortBy in {"price", "popularity", "availability"} ==> Compare(a, b, sortBy, parse).Some?
  {
  }

  /** Keys never decrease down the list. */
  predicate Sorted(s: seq<Event>, key: Event -> real) {
    forall i, j :: 0 <= i < j < |s| ==> key(s[i]) <= key(s[j])
  }

  /** Sorted by the page's order. */
  predicate SortedBy(s: seq<Event>, sortBy: string, parse: DateParser) {
    Sorted(s, e => SortKey(e, sortBy, parse))
  }

  /** Putting an element in front of a sorted list keeps it sorted when its key is at most
      the key of the old head. */
  lemma SortedCons(x: Event, r: seq<Event>, key: Event -> real)
    requires Sorted(r, key)
    requires r != [] ==> key(x) <= key(r[0])
    ensures Sorted([x] + r, key)
  {
    var xr := [x] + r;
    forall i, j | 0 <= i < j < |xr| ensures key(xr[i]) <= key(xr[j]) {
      if i == 0 {
        assert xr[j] == r[j - 1];
        if j > 1 {
          assert key(r[0]) <= key(r[j - 1]);
        }
      } else {
        assert xr[i] == r[i - 1] && xr[j] == r[j - 1];
      }
    }
  }

  /** Inserts e before the first element whose key is not smaller. */
  function Insert(e: Event, s: seq<Event>, key: Event -> real): (r: seq<Event>)
    requires Sorted(s, key)
    ensures |r| == |s| + 1 && (r[0] == e || (|s| > 0 && r[0] == s[0]))
    ensures Sorted(r, key)
    ensures multiset(r) == multiset(s) + multiset{e}
  {
    if s == [] || key(e) <= key(s[0]) then
      SortedCons(e, s, key);
      [e] + s
    else
      assert s == [s[0]] + s[1..];
      var rest := Insert(e, s[1..], key);
      assert |s| > 1 ==> key(s[0]) <= key(s[1]);
      SortedCons(s[0], rest, key);
      [s[0]] + rest
  }

  /** Insertion sort by the key. Each element is inserted ahead of the equal keys that
      come after it in the input, so the sort is stable, as `Array.prototype.sort` is. */
  function Sort(s: seq<Event>, key: Event -> real): (r: seq<Event>)
    ensures Sorted(r, key)
    ensures multiset(r) == multiset(s)
  {
    if s == [] then []
    else
      assert s == [s[0]] + s[1..];
      Insert(s[0], Sort(s[1..], key), key)
  }

  /** `Array.prototype.sort` with the page's comparator: the result is ordered and holds
      the same events as the input. */
  function SortEvents(s: seq<Event>, sortBy: string, parse: DateParser): (r: seq<Event>)
    ensures SortedBy(r, sortBy, parse)
    ensures multiset(r) == multiset(s)
  {
    Sort(s, e => SortKey(e, sortBy, parse))
  }

  /** `filteredEvents`: filter, then sort. */
  function FilteredEvents(events: seq<Event>, f: Filters, parse: DateParser): (r: seq<Event>)
    ensures SortedBy(r, f.sortBy, parse)
    ensures forall e :: multiset(r)[e] == if Matches(e, f) then multiset(events)[e] else 0
    ensures forall e :: e in r <==> e in events && Matches(e, f)
  {
    var r := SortEvents(FilterEvents(events, f), f.sortBy, parse);
    assert forall e :: e in r <==> multiset(r)[e] > 0;
    assert forall e :: e in events <==> multiset(events)[e] > 0;
    r
  }

  /** Sorting by price: ticket prices never decrease down the list. */
  lemma PriceSortAscending(events: seq<Event>, f: Filters, parse: DateParser, i: int, j: int)
    requires f.sortBy == "price"
    requires 0 <= i < j < |FilteredEvents(events, f, parse)|
    ensures FilteredEvents(events, f, parse)[i].ticketPrice <= FilteredEvents(events, f, parse)[j].ticketPrice
  {
  }

  /** Sorting by popularity: tickets sold never increase down the list. */
  lemma PopularitySortDescending(events: seq<Event>, f: Filters, parse: DateParser, i: int, j: int)
    requires f.sortBy == "popularity"
    requires 0 <= i < j < |FilteredEvents(events, f, parse)|
    ensures var r := FilteredEvents(events, f, parse);
      r[i].totalTickets - r[i].availableTickets >= r[j].totalTickets - r[j].availableTickets
  {
  }

  /** Sorting by availability: tickets left never increase down the list. */
  lemma AvailabilitySortDescending(events: seq<Event>, f: Filters, parse: DateParser, i: int, j: int)
    requires f.sortBy == "availability"
    requires 0 <= i < j < |FilteredEvents(events, f, parse)|
    ensures var r := FilteredEvents(events, f, parse);
      r[i].availableTickets >= r[j].availableTickets
  {
  }

  /** Any other sort order sorts by date: event times never decrease down the list (for
      dates that parse). */
  lemma DateSortAscending(events: seq<Event>, f: Filters, parse: DateParser, i: int, j: int)
    requires f.sortBy !in {"price", "popularity", "availability"}
    requires 0 <= i < j < |FilteredEvents(events, f, parse)|
    requires parse(FilteredEvents(events, f, parse)[i].date).Some?
    requires parse(FilteredEvents(events, f, parse)[j].date).Some?
    ensures var r := FilteredEvents(events, f, parse);
      parse(r[i].date).value <= parse(r[j].date).value
  {
    var r := FilteredEvents(events, f, parse);
    assert SortKey(r[i], f.sortBy, parse) <= SortKey(r[j], f.sortBy, parse);
  }

  /** The Clear Filters button: empty query, all categories, same sort order. */
  function ClearFilters(f: Filters): (r: Filters)
    ensures r.searchQuery == "" && r.selectedCategory == "all" && r.sortBy == f.sortBy
  {
    Filters("", "all", f.sortBy)
  }

  /** After Clear Filters every event is listed again. */
  lemma ClearFiltersShowsAll(events: seq<Event>, f: Filters, parse: DateParser)
    ensures multiset(FilteredEvents(events, ClearFilters(f), parse)) == multiset(events)
  {
    var g := ClearFilters(f);
    var r := FilteredEvents(events, g, parse);
    forall e ensures multiset(r)[e] == multiset(events)[e] {
      EmptyQueryAllCategoriesMatch(e, f.sortBy);
    }
  }

  /** The results line: "<n> event found" for one event, "<n> events found" otherwise. */
  function CountLabel(n: nat): (r: string)
    ensures n == 1 ==> r == "1 event found"
    ensures n != 1 ==> r == NatToDecimal(n) + " events found"
  {
    NatToDecimal(n) + " event" + (if n != 1 then "s" else "") + " found"
  }
}
