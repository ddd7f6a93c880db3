/**
 * The event search screen of
 * frontend/src/screens/HomeScreens/EventScreens/SearchEvents/SearchEvent.tsx:
 * its filter record and the list of active filter keys, the normalisation of
 * fetched records into screen records, the instant local text search, and the
 * save toggle that keeps the master list, the shown list and the open detail
 * record in step.
 *
 * React state is a `class` whose fields are the screen's state variables; every
 * handler is a method that overwrites them. Each `setX(prev => ...)` of one
 * handler is applied in order, which is what React's batching yields for them.
 */
module SearchScreen {
  import opened Text
  import opened Seqs
  import opened Wrappers
  import opened EventsApi

  // ---------------------------------------------------------------------------
  // Filters

  datatype Range = Range(min: int, max: int)

  datatype DateRange = DateRange(startDate: string, endDate: string)

  /** The screen's `filters` state. Ratings are in tenths of a star. */
  datatype Filters = Filters(
    eventName: string,
    location: string,
    budget: Range,
    dateRange: DateRange,
    minRating: int,
    verifiedOnly: bool,
    category: string,
    sortBy: string)

  /** The initial filters, which `clearAllFilters` restores. */
  const DefaultFilters := Filters("", "", Range(0, 100000), DateRange("", ""), 0, false, "", "relevance")

  /** The keys of the filter record. */
  datatype FilterKey = EventNameKey | LocationKey | BudgetKey | DateRangeKey | MinRatingKey | VerifiedOnlyKey | CategoryKey | SortByKey

  /** A value `updateFilter` may store under a key. */
  datatype FilterValue = Text(text: string) | Number(number: int) | Flag(flag: bool)
                       | Span(range: Range) | Period(period: DateRange)

  /** `value` has the shape of the field stored under `key`. */
  predicate Fits(key: FilterKey, value: FilterValue) {
    match key
    case EventNameKey | LocationKey | CategoryKey | SortByKey => value.Text?
    case BudgetKey => value.Span?
    case DateRangeKey => value.Period?
    case MinRatingKey => value.Number?
    case VerifiedOnlyKey => value.Flag?
  }

  /** `filters[key]`. */
  function Get(f: Filters, key: FilterKey): (v: FilterValue)
    ensures Fits(key, v)
  {
    match key
    case EventNameKey => Text(f.eventName)
    case LocationKey => Text(f.location)
    case BudgetKey => Span(f.budget)
    case DateRangeKey => Period(f.dateRange)
    case MinRatingKey => Number(f.minRating)
    case VerifiedOnlyKey => Flag(f.verifiedOnly)
    case CategoryKey => Text(f.category)
    case SortByKey => Text(f.sortBy)
  }

  /** `{...prev, [key]: value}`: the only field that changes is `key`'s, and it becomes `value`. */
  function SetFilter(f: Filters, key: FilterKey, value: FilterValue): (r: Filters)
    requires Fits(key, value)
    ensures Get(r, key) == value
    ensures forall k | k != key :: Get(r, k) == Get(f, k)
  {
    match key
    case EventNameKey => f.(eventName := value.text)
    case LocationKey => f.(location := value.text)
    case BudgetKey => f.(budget := value.range)
    case DateRangeKey => f.(dateRange := value.period)
    case MinRatingKey => f.(minRating := value.number)
    case VerifiedOnlyKey => f.(verifiedOnly := value.flag)
    case CategoryKey => f.(category := value.text)
    case SortByKey => f.(sortBy := value.text)
  }

  /** Two filter records that agree on every key are equal. */
  lemma FiltersByKeys(f: Filters, g: Filters)
    requires forall k :: Get(f, k) == Get(g, k)
    ensures f == g
  {
    assert Get(f, EventNameKey) == Get(g, EventNameKey) && Get(f, LocationKey) == Get(g, LocationKey);
    assert Get(f, BudgetKey) == Get(g, BudgetKey) && Get(f, DateRangeKey) == Get(g, DateRangeKey);
    assert Get(f, MinRatingKey) == Get(g, MinRatingKey) && Get(f, VerifiedOnlyKey) == Get(g, VerifiedOnlyKey);
    assert Get(f, CategoryKey) == Get(g, CategoryKey) && Get(f, SortByKey) == Get(g, SortByKey);
  }

  /** Storing a key's current value changes nothing; storing twice keeps the second value. */
  lemma SetFilterLaws(f: Filters, key: FilterKey, v: FilterValue, w: FilterValue)
    requires Fits(key, v) && Fits(key, w)
    ensures SetFilter(f, key, Get(f, key)) == f
    ensures SetFilter(SetFilter(f, key, v), key, w) == SetFilter(f, key, w)
  {
    FiltersByKeys(SetFilter(f, key, Get(f, key)), f);
    FiltersByKeys(SetFilter(SetFilter(f, key, v), key, w), SetFilter(f, key, w));
  }

  /**
   * The test `value && value !== '' && value !== 0 && value !== false`: JavaScript
   * truthiness. An object, such as a budget range, is truthy whatever it holds.
   */
  predicate Truthy(v: FilterValue) {
    match v
    case Text(s) => s != ""
    case Number(n) => n != 0
    case Flag(b) => b
    case Span(_) => true
    case Period(_) => true
  }

  /**
   * The active-filter list after `updateFilter(key, value)`: a truthy value
   * appends `key` unless it is already listed; a falsy one removes `key` and
   * keeps the other keys in their order.
   */
  function UpdateActive(active: seq<FilterKey>, key: FilterKey, value: FilterValue): (r: seq<FilterKey>)
    ensures Truthy(value) ==> key in r && active <= r && |r| <= |active| + 1
    ensures !Truthy(value) ==> key !in r && IsSubseq(r, active)
    ensures forall k | k != key :: k in r <==> k in active
    ensures NoDup(active) ==> NoDup(r)
  {
    if Truthy(value) then
      if key in active then active else active + [key]
    else
      var other := (k: FilterKey) => k != key;
      FilterSubseq(active, other);
      FilterMembers(active, other);
      FilterNoDupIf(active, other);
      Filter(active, other)
  }

  /** A truthy value leaves `key` listed exactly once in a duplicate-free list. */
  lemma UpdateActiveOnce(active: seq<FilterKey>, key: FilterKey, value: FilterValue)
    requires NoDup(active) && Truthy(value)
    ensures multiset(UpdateActive(active, key, value))[key] == 1
  {
    NoDupOccursOnce(UpdateActive(active, key, value), key);
  }

  /** `FilterNoDup`, stated as an implication so that a function body can use it unconditionally. */
  lemma FilterNoDupIf<T>(s: seq<T>, p: T -> bool)
    ensures NoDup(s) ==> NoDup(Filter(s, p))
  {
    if NoDup(s) {
      FilterNoDup(s, p);
    }
  }

  // ---------------------------------------------------------------------------
  // Screen records

  /**
   * A record as the screen keeps it: the object literal built in `loadEvents`.
   * `contact` and `availability` are opaque objects and are not modelled.
   */
  datatype EventRecord = EventRecord(
    id: string,
    title: string,
    serviceType: string,
    date: string,
    location: string,
    area: string,
    address: string,
    budget: int,
    minPrice: int,
    maxPrice: int,
    image: string,
    rating: int,
    reviewCount: int,
    isSaved: bool,
    isVerified: bool,
    distance: string,
    description: string,
    vendorName: string,
    yearsInBusiness: int,
    totalBookings: int,
    completedBookings: int,
    responseTime: string,
    responseRate: int,
    searchKeywords: seq<string>,
    serviceAreas: seq<string>)

  /**
   * The per-record transform of `loadEvents`, each field taken with its `||`
   * chain. `formatDate` stands for `new Date(s).toLocaleDateString()`, which
   * depends on the locale.
   */
  function Transform(e: ApiRecord, formatDate: string -> string): (r: EventRecord)
    ensures e.dbId != "" ==> r.id == e.dbId
    ensures e.dbId == "" ==> r.id == e.id
    ensures e.name != "" ==> r.title == e.name
    ensures e.name == "" ==> r.title == e.title
    ensures r.serviceType != "" && r.location != "" && r.image != ""
    ensures e.serviceType != "" ==> r.serviceType == e.serviceType
    ensures e.serviceType == "" ==> r.serviceType == "General"
    ensures e.city != "" ==> r.location == e.city
    ensures e.city == "" && e.locationCity != "" ==> r.location == e.locationCity
    ensures e.city == "" && e.locationCity == "" ==> r.location == "Location not set"
    ensures e.createdAt != "" ==> r.date == formatDate(e.createdAt)
    ensures e.createdAt == "" ==> r.date == "Coming Soon"
    ensures e.pricingAverage != 0 ==> r.budget == e.pricingAverage
    ensures e.pricingAverage == 0 ==> r.budget == e.pricingMin
    ensures e.featuredImage != "" ==> r.image == e.featuredImage
    ensures e.featuredImage == "" && e.image != "" ==> r.image == e.image
    ensures e.featuredImage == "" && e.image == "" ==> r.image == "https://via.placeholder.com/300x200"
    ensures e.businessName != "" ==> r.vendorName == e.businessName
    ensures e.businessName == "" ==> r.vendorName == e.name
    ensures r.minPrice == e.pricingMin && r.maxPrice == e.pricingMax && r.rating == e.rating
    ensures r.area == e.area && r.address == e.address && r.reviewCount == e.reviewCount
    ensures r.description == e.description && r.yearsInBusiness == e.yearsInBusiness
    ensures r.totalBookings == e.totalBookings && r.completedBookings == e.completedBookings
    ensures r.responseTime == e.responseTime && r.responseRate == e.responseRate
    ensures !r.isSaved && r.isVerified == e.verified && r.distance == "Nearby"
    ensures r.searchKeywords == e.searchKeywords && r.serviceAreas == e.serviceAreas
  {
    EventRecord(
      Or(e.dbId, e.id),
      Or(e.name, e.title),
      Or(e.serviceType, "General"),
      if e.createdAt != "" then formatDate(e.createdAt) else "Coming Soon",
      Or(Or(e.city, e.locationCity), "Location not set"),
      e.area,
      e.address,
      OrNumber(OrNumber(e.pricingAverage, e.pricingMin), 0),
      e.pricingMin,
      e.pricingMax,
      Or(Or(e.featuredImage, e.image), "https://via.placeholder.com/300x200"),
      e.rating,
      e.reviewCount,
      false,
      e.verified,
      "Nearby",
      e.description,
      Or(e.businessName, e.name),
      e.yearsInBusiness,
      e.totalBookings,
      e.completedBookings,
      e.responseTime,
      e.responseRate,
      e.searchKeywords,
      e.serviceAreas)
  }

  /** `apiEvents.map(...)`: one screen record per fetched record, in order, none saved. */
  function TransformAll(s: seq<ApiRecord>, formatDate: string -> string): (r: seq<EventRecord>)
    ensures |r| == |s|
    ensures forall i | 0 <= i < |s| :: r[i] == Transform(s[i], formatDate)
    ensures forall i | 0 <= i < |r| :: !r[i].isSaved
  {
    seq(|s|, i requires 0 <= i < |s| => Transform(s[i], formatDate))
  }

  // ---------------------------------------------------------------------------
  // Local search

  /** A record matches a query when one of its searchable texts includes it, ignoring case. */
  predicate Matches(e: EventRecord, query: string) {
    var q := Lower(query);
    || Contains(Lower(e.title), q)
    || Contains(Lower(e.serviceType), q)
    || Contains(Lower(e.location), q)
    || Contains(Lower(e.vendorName), q)
    || exists i | 0 <= i < |e.searchKeywords| :: Contains(Lower(e.searchKeywords[i]), q)
  }

  /**
   * The list `handleSearch` shows: all records for a query that trims to empty,
   * otherwise exactly the matching records, in their order. Matching uses the
   * untrimmed query.
   */
  function SearchResults(events: seq<EventRecord>, query: string): (r: seq<EventRecord>)
    ensures IsBlank(query) ==> r == events
    ensures !IsBlank(query) ==> IsSubseq(r, events)
    ensures !IsBlank(query) ==> forall e :: e in r <==> e in events && Matches(e, query)
  {
    TrimEmptyIff(query);
    if Trim(query) == "" then events
    else
      var hit := (e: EventRecord) => Matches(e, query);
      FilterSubseq(events, hit);
      FilterMembers(events, hit);
      Filter(events, hit)
  }

  /** Matching ignores the case of the query, so the shown list does too. */
  lemma SearchIgnoresCase(events: seq<EventRecord>, query: string)
    requires !IsBlank(query)
    ensures forall e :: e in SearchResults(events, query) <==> e in SearchResults(events, Lower(query))
  {
    LowerIdempotent(query);
    var k :| 0 <= k < |query| && !IsSpace(query[k]);
    LowerKeepsSpace(query[k]);
    assert !IsSpace(Lower(query)[k]);
    assert forall e :: Matches(e, query) == Matches(e, Lower(query));
  }

  // ---------------------------------------------------------------------------
  // Saving

  /** `{...event, isSaved: !event.isSaved}` for the record with the given id. */
  function Toggle(e: EventRecord, id: string): (r: EventRecord)
    ensures e.id == id ==> r.isSaved == !e.isSaved && r.(isSaved := e.isSaved) == e
    ensures e.id != id ==> r == e
  {
    if e.id == id then e.(isSaved := !e.isSaved) else e
  }

  /** `prev.map(...)` of `toggleSaveEvent`. */
  function ToggleAll(s: seq<EventRecord>, id: string): (r: seq<EventRecord>)
    ensures |r| == |s|
    ensures forall i | 0 <= i < |s| :: r[i] == Toggle(s[i], id)
  {
    seq(|s|, i requires 0 <= i < |s| => Toggle(s[i], id))
  }

  /** Toggling the same id twice restores the list. */
  lemma ToggleAllTwice(s: seq<EventRecord>, id: string)
    ensures ToggleAll(ToggleAll(s, id), id) == s
  {
    assert forall i | 0 <= i < |s| :: Toggle(Toggle(s[i], id), id) == s[i];
  }

  /** Toggling keeps a shown list inside the master list when it was inside it before. */
  lemma ToggleKeepsInside(shown: seq<EventRecord>, all: seq<EventRecord>, id: string)
    requires forall e | e in shown :: e in all
    ensures forall e | e in ToggleAll(shown, id) :: e in ToggleAll(all, id)
  {
    forall e | e in ToggleAll(shown, id)
      ensures e in ToggleAll(all, id)
    {
      var i :| 0 <= i < |ToggleAll(shown, id)| && ToggleAll(shown, id)[i] == e;
      assert shown[i] in all;
      var j :| 0 <= j < |all| && all[j] == shown[i];
      assert ToggleAll(all, id)[j] == e;
    }
  }

  /** Right after a load nothing is saved, so one toggle saves exactly the records with that id. */
  lemma ToggleAfterLoad(s: seq<ApiRecord>, formatDate: string -> string, id: string)
    ensures forall i | 0 <= i < |s| ::
      ToggleAll(TransformAll(s, formatDate), id)[i].isSaved <==> TransformAll(s, formatDate)[i].id == id
  {
  }

  /** The detail record after `toggleSaveEvent(id)`: toggled only when it is open and has that id. */
  function ToggleSelected(selected: Option<EventRecord>, id: string): (r: Option<EventRecord>)
    ensures r.Some? <==> selected.Some?
    ensures selected.Some? ==> r.value == Toggle(selected.value, id)
  {
    if selected.Some? && selected.value.id == id then Some(Toggle(selected.value, id)) else selected
  }

  /** Toggling the detail record twice restores it. */
  lemma ToggleSelectedTwice(selected: Option<EventRecord>, id: string)
    ensures ToggleSelected(ToggleSelected(selected, id), id) == selected
  {
  }

  // ---------------------------------------------------------------------------
  // The request the screen sends

  /**
   * `fetchEvents(filters)` is given the screen's filter record itself. The
   * adapter reads `location`, `minRating`, `verifiedOnly`, `sortBy`,
   * `category` and `budget` from it; `page`, `limit`, `query`, `serviceType`,
   * `budgetMin` and `budgetMax` are keys the record does not have.
   */
  function AsQueryFilters(f: Filters): (q: QueryFilters)
    ensures q.location == f.location && q.minRating == f.minRating && q.verifiedOnly == f.verifiedOnly
    ensures q.sortBy == f.sortBy && q.category == f.category
    ensures q.budget == Some(EventsApi.Budget(f.budget.min, f.budget.max))
    ensures q.query == "" && q.serviceType == "" && q.budgetMin == 0 && q.budgetMax == 0
  {
    QueryFilters(0, 0, f.sortBy, "", "", f.location, 0, 0, f.minRating, f.verifiedOnly, f.category,
                 Some(EventsApi.Budget(f.budget.min, f.budget.max)))
  }

  /**
   * The search request for the screen's filters never carries the category,
   * the budget or a text query: they are not under the keys the request reads.
   * The demo fallback does read `category` and `budget`.
   */
  lemma RequestIgnoresCategoryAndBudget(f: Filters, request: SearchParams)
    requires IsSearchParams(AsQueryFilters(f), request)
    ensures request.serviceId.None? && request.minBudget.None? && request.maxBudget.None?
    ensures request.query.None?
    ensures forall c: string, b: Range :: IsSearchParams(AsQueryFilters(f.(category := c, budget := b)), request)
  {
  }

  /** With the initial filters the request is page 1, 20 per page, sorted by relevance, and nothing else. */
  lemma DefaultRequest(request: SearchParams)
    requires IsSearchParams(AsQueryFilters(DefaultFilters), request)
    ensures request == SearchParams(1, 20, "relevance", None, None, None, None, None, None, None)
  {
  }

  // ---------------------------------------------------------------------------
  // Filter chips

  /** The keys that have a removable chip in the active-filter bar. */
  predicate HasChip(key: FilterKey) {
    key == CategoryKey || key == LocationKey || key == BudgetKey || key == MinRatingKey || key == VerifiedOnlyKey
  }

  /** The value each chip's close button passes to `updateFilter`. */
  function ChipReset(key: FilterKey): (v: FilterValue)
    requires HasChip(key)
    ensures Fits(key, v) && v == Get(DefaultFilters, key)
  {
    match key
    case CategoryKey => Text("")
    case LocationKey => Text("")
    case BudgetKey => Span(Range(0, 100000))
    case MinRatingKey => Number(0)
    case VerifiedOnlyKey => Flag(false)
  }

  /**
   * As written, closing the budget chip passes the default range, an object and
   * so truthy: `budget` is listed as active afterwards although the budget is
   * back at its default, so the filter badge still counts it and "Clear" stays
   * enabled. Every other chip's reset value is falsy.
   */
  lemma BudgetChipLeavesBudgetActive(active: seq<FilterKey>)
    ensures Get(SetFilter(DefaultFilters, BudgetKey, ChipReset(BudgetKey)), BudgetKey) == Get(DefaultFilters, BudgetKey)
    ensures BudgetKey in UpdateActive(active, BudgetKey, ChipReset(BudgetKey))
    ensures forall k | HasChip(k) && k != BudgetKey :: k !in UpdateActive(active, k, ChipReset(k))
    ensures UpdateActive([BudgetKey], BudgetKey, ChipReset(BudgetKey)) == [BudgetKey]
  {
  }

  /** The list after closing a chip as intended: its key is removed and the others stay in order. */
  function CloseChip(active: seq<FilterKey>, key: FilterKey): (r: seq<FilterKey>)
    ensures key !in r && IsSubseq(r, active)
    ensures forall k | k != key :: k in r <==> k in active
    ensures NoDup(active) ==> NoDup(r)
  {
    var other := (k: FilterKey) => k != key;
    FilterSubseq(active, other);
    FilterMembers(active, other);
    FilterNoDupIf(active, other);
    Filter(active, other)
  }

  /** Closing a chip as intended agrees with `updateFilter` on every chip but the budget's. */
  lemma CloseChipAgrees(active: seq<FilterKey>, key: FilterKey)
    requires HasChip(key) && key != BudgetKey
    ensures CloseChip(active, key) == UpdateActive(active, key, ChipReset(key))
  {
  }

  // ---------------------------------------------------------------------------
  // The screen

  class Screen {
    var filters: Filters
    var activeFilters: seq<FilterKey>
    var events: seq<EventRecord>
    var filteredEvents: seq<EventRecord>
    var selectedEvent: Option<EventRecord>
    var detailVisible: bool
    var searchQuery: string
    var totalEvents: int

    /** No key is listed twice, and every shown record is one of the loaded records. */
    ghost predicate Valid()
      reads this
    {
      NoDup(activeFilters) && forall e | e in filteredEvents :: e in events
    }

    /** The state right after mounting. */
    constructor ()
      ensures Valid()
      ensures filters == DefaultFilters && activeFilters == [] && searchQuery == ""
      ensures events == [] && filteredEvents == [] && selectedEvent == None && !detailVisible && totalEvents == 0
    {
      filters := DefaultFilters;
      activeFilters := [];
      events := [];
      filteredEvents := [];
      selectedEvent := None;
      detailVisible := false;
      searchQuery := "";
      totalEvents := 0;
    }

    /**
     * The body of `loadEvents`, run with the filters its closure holds: query
     * the adapter with them, and on a successful result replace both lists by
     * the transformed records and the total by `result.total || length`. The
     * fallback result is unsuccessful, so demo records never reach the screen.
     */
    method LoadWith(f: Filters, outcome: Outcome, formatDate: string -> string) returns (request: SearchParams)
      requires Valid()
      modifies this
      ensures Valid()
      ensures IsSearchParams(AsQueryFilters(f), request)
      ensures outcome.Responded? ==>
        var fetched := TransformAll(Normalize(outcome.response).data, formatDate);
        && events == fetched && filteredEvents == fetched
        && totalEvents == (if Normalize(outcome.response).total != 0 then Normalize(outcome.response).total else |fetched|)
      ensures outcome.Failed? ==>
        events == old(events) && filteredEvents == old(filteredEvents) && totalEvents == old(totalEvents)
      ensures filters == old(filters) && activeFilters == old(activeFilters)
      ensures selectedEvent == old(selectedEvent) && detailVisible == old(detailVisible) && searchQuery == old(searchQuery)
    {
      var result;
      request, result := FetchEvents(AsQueryFilters(f), outcome);
      if result.success {
        var transformed := TransformAll(result.data, formatDate);
        events := transformed;
        filteredEvents := transformed;
        totalEvents := if result.total != 0 then result.total else |transformed|;
      }
    }

    /** `loadEvents` as the current render defines it: with the current filters. */
    method LoadEvents(outcome: Outcome, formatDate: string -> string) returns (request: SearchParams)
      requires Valid()
      modifies this
      ensures Valid()
      ensures IsSearchParams(AsQueryFilters(old(filters)), request)
      ensures outcome.Responded? ==>
        var fetched := TransformAll(Normalize(outcome.response).data, formatDate);
        && events == fetched && filteredEvents == fetched
        && totalEvents == (if Normalize(outcome.response).total != 0 then Normalize(outcome.response).total else |fetched|)
      ensures outcome.Failed? ==>
        events == old(events) && filteredEvents == old(filteredEvents) && totalEvents == old(totalEvents)
      ensures filters == old(filters) && activeFilters == old(activeFilters)
      ensures selectedEvent == old(selectedEvent) && detailVisible == old(detailVisible) && searchQuery == old(searchQuery)
    {
      request := LoadWith(filters, outcome, formatDate);
    }

    /**
     * `onRefresh`: its `useCallback` has no dependencies, so it keeps the
     * `loadEvents` of the first render, whose closure holds the initial filters.
     * Whatever filters are stored now, the request is the default one; the
     * lists change as a load changes them, and the filters stay as they are.
     */
    method Refresh(outcome: Outcome, formatDate: string -> string) returns (request: SearchParams)
      requires Valid()
      modifies this
      ensures Valid()
      ensures IsSearchParams(AsQueryFilters(DefaultFilters), request)
      ensures request == SearchParams(1, 20, "relevance", None, None, None, None, None, None, None)
      ensures outcome.Responded? ==>
        var fetched := TransformAll(Normalize(outcome.response).data, formatDate);
        && events == fetched && filteredEvents == fetched
        && totalEvents == (if Normalize(outcome.response).total != 0 then Normalize(outcome.response).total else |fetched|)
      ensures outcome.Failed? ==>
        events == old(events) && filteredEvents == old(filteredEvents) && totalEvents == old(totalEvents)
      ensures filters == old(filters) && activeFilters == old(activeFilters)
      ensures selectedEvent == old(selectedEvent) && detailVisible == old(detailVisible) && searchQuery == old(searchQuery)
    {
      request := LoadWith(DefaultFilters, outcome, formatDate);
      DefaultRequest(request);
    }

    /** `handleSearch(query)`: remember the query and show the records it selects. */
    method HandleSearch(query: string)
      requires Valid()
      modifies this
      ensures Valid()
      ensures searchQuery == query && filteredEvents == SearchResults(events, query)
      ensures filters == old(filters) && activeFilters == old(activeFilters) && events == old(events)
      ensures selectedEvent == old(selectedEvent) && detailVisible == old(detailVisible) && totalEvents == old(totalEvents)
    {
      var shown: seq<EventRecord>;
      if Trim(query) == "" {
        shown := events;
      } else {
        shown := Filter(events, (e: EventRecord) => Matches(e, query));
      }
      assert shown == SearchResults(events, query);
      searchQuery := query;
      filteredEvents := shown;
    }

    /** `updateFilter(key, value)`: store the value, then list or unlist the key by its truthiness. */
    method UpdateFilter(key: FilterKey, value: FilterValue)
      requires Valid() && Fits(key, value)
      modifies this
      ensures Valid()
      ensures filters == SetFilter(old(filters), key, value)
      ensures activeFilters == UpdateActive(old(activeFilters), key, value)
      ensures events == old(events) && filteredEvents == old(filteredEvents)
      ensures selectedEvent == old(selectedEvent) && detailVisible == old(detailVisible) && searchQuery == old(searchQuery) && totalEvents == old(totalEvents)
    {
      filters := SetFilter(filters, key, value);
      var active := activeFilters;
      if Truthy(value) {
        if key !in active {
          active := active + [key];
        }
      } else {
        active := Filter(active, (k: FilterKey) => k != key);
      }
      assert active == UpdateActive(activeFilters, key, value);
      activeFilters := active;
    }

    /** The close button of a chip, resetting its field and unlisting its key (the intended effect). */
    method RemoveChip(key: FilterKey)
      requires Valid() && HasChip(key)
      modifies this
      ensures Valid()
      ensures filters == SetFilter(old(filters), key, ChipReset(key))
      ensures activeFilters == CloseChip(old(activeFilters), key) && key !in activeFilters
      ensures events == old(events) && filteredEvents == old(filteredEvents)
      ensures selectedEvent == old(selectedEvent) && detailVisible == old(detailVisible) && searchQuery == old(searchQuery) && totalEvents == old(totalEvents)
    {
      filters := SetFilter(filters, key, ChipReset(key));
      activeFilters := CloseChip(activeFilters, key);
    }

    /** `clearAllFilters`: default filters, no active key, empty query; the lists are left as they are. */
    method ClearAllFilters()
      requires Valid()
      modifies this
      ensures Valid()
      ensures filters == DefaultFilters && activeFilters == [] && searchQuery == ""
      ensures events == old(events) && filteredEvents == old(filteredEvents)
      ensures selectedEvent == old(selectedEvent) && detailVisible == old(detailVisible) && totalEvents == old(totalEvents)
    {
      filters := DefaultFilters;
      activeFilters := [];
      searchQuery := "";
    }

    /**
     * The `[filters]` effect: every filter change stores a new `filters` object,
     * so the render that follows runs `loadEvents` again with the new filters.
     * Each of the three filter handlers, followed by that reload, is one step here.
     */
    method UpdateFilterThenReload(key: FilterKey, value: FilterValue, outcome: Outcome, formatDate: string -> string)
      returns (request: SearchParams)
      requires Valid() && Fits(key, value)
      modifies this
      ensures Valid()
      ensures filters == SetFilter(old(filters), key, value)
      ensures activeFilters == UpdateActive(old(activeFilters), key, value)
      ensures IsSearchParams(AsQueryFilters(filters), request)
      ensures outcome.Responded? ==>
        var fetched := TransformAll(Normalize(outcome.response).data, formatDate);
        && events == fetched && filteredEvents == fetched
        && totalEvents == (if Normalize(outcome.response).total != 0 then Normalize(outcome.response).total else |fetched|)
      ensures outcome.Failed? ==>
        events == old(events) && filteredEvents == old(filteredEvents) && totalEvents == old(totalEvents)
      ensures selectedEvent == old(selectedEvent) && detailVisible == old(detailVisible) && searchQuery == old(searchQuery)
    {
      UpdateFilter(key, value);
      request := LoadEvents(outcome, formatDate);
    }

    /** Closing a chip, then the reload its new `filters` triggers. */
    method RemoveChipThenReload(key: FilterKey, outcome: Outcome, formatDate: string -> string)
      returns (request: SearchParams)
      requires Valid() && HasChip(key)
      modifies this
      ensures Valid()
      ensures filters == SetFilter(old(filters), key, ChipReset(key))
      ensures activeFilters == CloseChip(old(activeFilters), key)
      ensures IsSearchParams(AsQueryFilters(filters), request)
      ensures outcome.Responded? ==>
        var fetched := TransformAll(Normalize(outcome.response).data, formatDate);
        && events == fetched && filteredEvents == fetched
        && totalEvents == (if Normalize(outcome.response).total != 0 then Normalize(outcome.response).total else |fetched|)
      ensures outcome.Failed? ==>
        events == old(events) && filteredEvents == old(filteredEvents) && totalEvents == old(totalEvents)
      ensures selectedEvent == old(selectedEvent) && detailVisible == old(detailVisible) && searchQuery == old(searchQuery)
    {
      RemoveChip(key);
      request := LoadEvents(outcome, formatDate);
    }

    /**
     * Clearing every filter, then the reload: the request carries no filter at
     * all, and a successful response replaces both lists, so the list shown
     * agrees with the emptied query again.
     */
    method ClearAllThenReload(outcome: Outcome, formatDate: string -> string) returns (request: SearchParams)
      requires Valid()
      modifies this
      ensures Valid()
      ensures filters == DefaultFilters && activeFilters == [] && searchQuery == ""
      ensures IsSearchParams(AsQueryFilters(DefaultFilters), request)
      ensures request == SearchParams(1, 20, "relevance", None, None, None, None, None, None, None)
      ensures outcome.Responded? ==>
        var fetched := TransformAll(Normalize(outcome.response).data, formatDate);
        && events == fetched && filteredEvents == fetched && filteredEvents == SearchResults(events, searchQuery)
        && totalEvents == (if Normalize(outcome.response).total != 0 then Normalize(outcome.response).total else |fetched|)
      ensures outcome.Failed? ==>
        events == old(events) && filteredEvents == old(filteredEvents) && totalEvents == old(totalEvents)
      ensures selectedEvent == old(selectedEvent) && detailVisible == old(detailVisible)
    {
      ClearAllFilters();
      request := LoadEvents(outcome, formatDate);
      DefaultRequest(request);
    }

    /** `handleEventPress(event)`: open the detail view on `event`. */
    method SelectEvent(event: EventRecord)
      requires Valid()
      modifies this
      ensures Valid()
      ensures selectedEvent == Some(event) && detailVisible
      ensures filters == old(filters) && activeFilters == old(activeFilters) && events == old(events)
      ensures filteredEvents == old(filteredEvents) && searchQuery == old(searchQuery) && totalEvents == old(totalEvents)
    {
      selectedEvent := Some(event);
      detailVisible := true;
    }

    /** The detail modal's close button and its request to close: hide the view, keeping the record. */
    method CloseDetail()
      requires Valid()
      modifies this
      ensures Valid()
      ensures !detailVisible && selectedEvent == old(selectedEvent)
      ensures filters == old(filters) && activeFilters == old(activeFilters) && events == old(events)
      ensures filteredEvents == old(filteredEvents) && searchQuery == old(searchQuery) && totalEvents == old(totalEvents)
    {
      detailVisible := false;
    }

    /** `toggleSaveEvent(id)`: flip `isSaved` on every record with that id, in both lists and in the detail view. */
    method ToggleSaveEvent(id: string)
      requires Valid()
      modifies this
      ensures Valid()
      ensures events == ToggleAll(old(events), id) && filteredEvents == ToggleAll(old(filteredEvents), id)
      ensures selectedEvent == ToggleSelected(old(selectedEvent), id)
      ensures detailVisible == old(detailVisible)
      ensures filters == old(filters) && activeFilters == old(activeFilters)
      ensures searchQuery == old(searchQuery) && totalEvents == old(totalEvents)
    {
      ToggleKeepsInside(filteredEvents, events, id);
      events := ToggleAll(events, id);
      filteredEvents := ToggleAll(filteredEvents, id);
      if selectedEvent.Some? && selectedEvent.value.id == id {
        selectedEvent := Some(Toggle(selectedEvent.value, id));
      }
    }
  }

  /** Saving the same record twice in a row leaves the screen as it was. */
  method ToggleTwiceRestores(s: Screen, id: string)
    requires s.Valid()
    modifies s
    ensures s.events == old(s.events) && s.filteredEvents == old(s.filteredEvents)
    ensures s.selectedEvent == old(s.selectedEvent)
    ensures s.filters == old(s.filters) && s.activeFilters == old(s.activeFilters)
    ensures s.searchQuery == old(s.searchQuery) && s.totalEvents == old(s.totalEvents)
    ensures s.detailVisible == old(s.detailVisible)
  {
    ToggleAllTwice(s.events, id);
    ToggleAllTwice(s.filteredEvents, id);
    ToggleSelectedTwice(s.selectedEvent, id);
    s.ToggleSaveEvent(id);
    s.ToggleSaveEvent(id);
  }
}
