/** Status badge, availability bar and category chip of
    frontend/app/components/EventCard.tsx. */
module EventCard {
  import opened Types
  import opened JsString

  datatype EventStatus = Live | Upcoming | Ended

  /** `getEventStatus`, on the active flag, the parsed event date (None for an Invalid
      Date, which compares as NaN) and the current time. Live is tested first, so an
      active event whose date has passed shows Live, not Ended. */
  function GetEventStatus(isActive: bool, eventDate: Option<int>, now: int): (s: EventStatus)
    ensures s == Ended <==> !isActive
    ensures s == Upcoming <==> isActive && IsAfter(eventDate, now)
    ensures s == Live <==> isActive && !IsAfter(eventDate, now)
  {
    var isUpcoming := IsAfter(eventDate, now);
    var isLive := isActive && !isUpcoming;
    var isPast := !isActive || (eventDate.Some? && eventDate.value < now);
    if isLive then Live else if isPast then Ended else Upcoming
  }

  /** An active event whose date has passed, or whose date does not parse, is shown as
      Live; only an inactive event is shown as Ended. */
  lemma ActivePastEventShowsLive(e: Event, parse: DateParser, now: int)
    requires e.isActive
    requires parse(e.date).None? || parse(e.date).value <= now
    ensures GetEventStatus(e.isActive, parse(e.date), now) == Live
    ensures GetEventStatus(false, parse(e.date), now) == Ended
  {
  }

  datatype BarColor = Green | Yellow | Red

  /** `(availableTickets / totalTickets) * 100` */
  function AvailabilityPercentage(available: int, total: int): real
    requires total > 0
  {
    (available as real / total as real) * 100.0
  }

  /** The availability bar: green above 50%, yellow above 20%, red otherwise. In ticket
      counts: green when more than half are left, red when at most a fifth are left. */
  function AvailabilityColor(available: int, total: int): (c: BarColor)
    requires total > 0
    ensures c == Green <==> 2 * available > total
    ensures c == Yellow <==> 5 * available > total && 2 * available <= total
    ensures c == Red <==> 5 * available <= total
  {
    var pct := AvailabilityPercentage(available, total);
    PercentageThresholds(available, total);
    if pct > 50.0 then Green else if pct > 20.0 then Yellow else Red
  }

  /** The percentage thresholds restated on ticket counts. */
  lemma PercentageThresholds(available: int, total: int)
    requires total > 0
    ensures AvailabilityPercentage(available, total) > 50.0 <==> 2 * available > total
    ensures AvailabilityPercentage(available, total) > 20.0 <==> 5 * available > total
  {
    var a, t := available as real, total as real;
    var q := a / t;
    assert q * t == a;
    assert AvailabilityPercentage(available, total) == q * 100.0;
    QuotientAbove(a, t, q, 0.5);
    QuotientAbove(a, t, q, 0.2);
  }

  /** For a positive divisor, a / t exceeds c exactly when a exceeds c * t. */
  lemma QuotientAbove(a: real, t: real, q: real, c: real)
    requires t > 0.0 && q * t == a
    ensures q > c <==> a > c * t
  {
    if q > c {
      assert (q - c) * t > 0.0;
    } else {
      assert (c - q) * t >= 0.0;
    }
  }

  /** The classes of each category chip. */
  const CategoryColors: map<string, string> := map[
    "conference" := "bg-black/10 text-black dark:bg-black/30 dark:text-white",
    "concert" := "bg-purple-100 text-purple-800 dark:bg-purple-900/30 dark:text-purple-300",
    "workshop" := "bg-green-100 text-green-800 dark:bg-green-900/30 dark:text-green-300",
    "meetup" := "bg-orange-100 text-orange-800 dark:bg-orange-900/30 dark:text-orange-300",
    "sports" := "bg-red-100 text-red-800 dark:bg-red-900/30 dark:text-red-300",
    "exhibition" := "bg-indigo-100 text-indigo-800 dark:bg-indigo-900/30 dark:text-indigo-300",
    "other" := "bg-gray-100 text-gray-800 dark:bg-gray-900/30 dark:text-gray-300"
  ]

  /** `getCategoryColor`: the category's own classes, the "other" classes for anything
      unknown. */
  function GetCategoryColor(category: string): (r: string)
    ensures category in CategoryColors ==> r == CategoryColors[category]
    ensures category !in CategoryColors ==> r == CategoryColors["other"]
  {
    if category in CategoryColors then CategoryColors[category] else CategoryColors["other"]
  }

  /** The colour table has exactly the seven categories as keys, each with its own
      classes, so a string that is not a category name falls back to the "other" look. */
  lemma CategoryColorsCoverCategories(s: string)
    ensures s in CategoryColors <==> exists c :: CategoryName(c) == s
    ensures forall c, d :: c != d ==> GetCategoryColor(CategoryName(c)) != GetCategoryColor(CategoryName(d))
  {
    if s in CategoryColors {
      var c :| c in {Conference, Concert, Workshop, Meetup, Sports, Exhibition, Other} && CategoryName(c) == s;
    }
  }

  /** The category chip, `Capitalize` of the stored name, reads back as that name when
      lower-cased, so distinct categories get distinct chips. */
  lemma CategoryLabels(c: EventCategory, d: EventCategory)
    ensures ToLower(Capitalize(CategoryName(c))) == CategoryName(c)
    ensures Capitalize(CategoryName(c)) == Capitalize(CategoryName(d)) <==> c == d
  {
    NamesHaveNoUpper(c);
    NamesHaveNoUpper(d);
    CapitalizeChangesOnlyCase(CategoryName(c));
    CapitalizeChangesOnlyCase(CategoryName(d));
    ToLowerOfNoUpper(CategoryName(c));
    ToLowerOfNoUpper(CategoryName(d));
    if c != d {
      CategoryColorsCoverCategories(CategoryName(c));
    }
  }

  lemma NamesHaveNoUpper(c: EventCategory)
    ensures NoUpper(CategoryName(c))
  {
    var n := CategoryName(c);
    forall i | 0 <= i < |n| ensures !('A' <= n[i] <= 'Z') {
    }
  }
}
