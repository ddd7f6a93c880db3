/**
 * The event query adapter of frontend/src/config/eventsApi.js: the filter object
 * becomes the body of one search request, the response envelope is normalised,
 * and any failure falls back to eight fixed demo records narrowed by the same
 * filters. Also the fixed category list and the case-insensitive icon and colour
 * lookups.
 *
 * JavaScript objects are duck-typed; a key that is absent, `undefined` or `null`
 * is modelled by the falsy value of its type (`''`, `0`, `false`, an empty list),
 * which every `||` and `if (x)` in the adapter treats the same way.
 */
module EventsApi {
  import opened Text
  import opened Seqs
  import opened Wrappers

  datatype Budget = Budget(min: int, max: int)

  /**
   * The keys of the filter object that `fetchEvents` and `getMockEvents` read.
   * Ratings are integers in tenths of a star (4.8 is 48).
   */
  datatype QueryFilters = QueryFilters(
    page: int,
    limit: int,
    sortBy: string,
    query: string,
    serviceType: string,
    location: string,
    budgetMin: int,
    budgetMax: int,
    minRating: int,
    verifiedOnly: bool,
    category: string,
    budget: Option<Budget>)

  /** The default argument `filters = {}`. */
  const NoFilters := QueryFilters(0, 0, "", "", "", "", 0, 0, 0, false, "", None)

  /**
   * An event object as the backend or the demo set delivers it: the union of the
   * keys that the screen's transform and the demo filters read. `dbId` is the
   * `_id` key; `locationCity` is `location.city`; `pricing*` are `pricing.*`.
   */
  datatype ApiRecord = ApiRecord(
    dbId: string,
    id: string,
    name: string,
    title: string,
    serviceType: string,
    category: string,
    createdAt: string,
    date: string,
    city: string,
    locationCity: string,
    area: string,
    address: string,
    pricingAverage: int,
    pricingMin: int,
    pricingMax: int,
    price: int,
    featuredImage: string,
    image: string,
    images: seq<string>,
    rating: int,
    reviewCount: int,
    reviews: int,
    attendees: int,
    isSaved: bool,
    verified: bool,
    distance: string,
    description: string,
    businessName: string,
    vendorName: string,
    yearsInBusiness: int,
    totalBookings: int,
    completedBookings: int,
    responseTime: string,
    responseRate: int,
    searchKeywords: seq<string>,
    serviceAreas: seq<string>)

  // ---------------------------------------------------------------------------
  // The search request

  /**
   * The body of the search request. `page`, `limit` and `sort` are always sent;
   * every other key is either absent (`None`) or carries its value.
   */
  datatype SearchParams = SearchParams(
    page: int,
    limit: int,
    sort: string,
    query: Option<string>,
    serviceId: Option<string>,
    city: Option<string>,
    minBudget: Option<int>,
    maxBudget: Option<int>,
    rating: Option<int>,
    verified: Option<bool>)

  /** `o` is present exactly when `present`, and then carries `v`. */
  predicate Carries<T(==)>(o: Option<T>, present: bool, v: T) {
    o == if present then Some(v) else None
  }

  /**
   * `r` is the request body for `f`: `page`, `limit` and `sort` with their `||`
   * defaults, and each optional key exactly when its source field is truthy,
   * carrying that field's value (`verified` only ever carries `true`).
   */
  predicate IsSearchParams(f: QueryFilters, r: SearchParams) {
    && r.page == (if f.page != 0 then f.page else 1)
    && r.limit == (if f.limit != 0 then f.limit else 20)
    && r.sort == (if f.sortBy != "" then f.sortBy else "relevance")
    && Carries(r.query, f.query != "", f.query)
    && Carries(r.serviceId, f.serviceType != "", f.serviceType)
    && Carries(r.city, f.location != "", f.location)
    && Carries(r.minBudget, f.budgetMin != 0, f.budgetMin)
    && Carries(r.maxBudget, f.budgetMax != 0, f.budgetMax)
    && Carries(r.rating, f.minRating != 0, f.minRating)
    && Carries(r.verified, f.verifiedOnly, true)
  }

  /** One `if (filters.x) searchParams.k = filters.x`: the key is set only when the field is truthy. */
  method OptionalKey<T(==)>(present: bool, v: T) returns (o: Option<T>)
    ensures Carries(o, present, v)
  {
    o := None;
    if present {
      o := Some(v);
    }
  }

  /** Builds `searchParams` as `fetchEvents` does: three keys, then one conditional assignment per optional key. */
  method BuildSearchParams(f: QueryFilters) returns (params: SearchParams)
    ensures IsSearchParams(f, params)
  {
    params := SearchParams(
      if f.page != 0 then f.page else 1,
      if f.limit != 0 then f.limit else 20,
      if f.sortBy != "" then f.sortBy else "relevance",
      None, None, None, None, None, None, None);
    var query := OptionalKey(f.query != "", f.query);
    var serviceId := OptionalKey(f.serviceType != "", f.serviceType);
    var city := OptionalKey(f.location != "", f.location);
    var minBudget := OptionalKey(f.budgetMin != 0, f.budgetMin);
    var maxBudget := OptionalKey(f.budgetMax != 0, f.budgetMax);
    var rating := OptionalKey(f.minRating != 0, f.minRating);
    var verified := OptionalKey(f.verifiedOnly, true);
    params := params.(query := query, serviceId := serviceId, city := city, minBudget := minBudget,
                      maxBudget := maxBudget, rating := rating, verified := verified);
  }

  // ---------------------------------------------------------------------------
  // The response envelope

  /** The `data` object of a response: `data.results` may be missing, `data.total` 0 or missing. */
  datatype ResultsEnvelope = ResultsEnvelope(results: Option<seq<ApiRecord>>, total: int)

  /** A decoded search response, in either of the two shapes the backend may send. */
  datatype SearchResponse = SearchResponse(
    success: bool,
    data: Option<ResultsEnvelope>,
    results: Option<seq<ApiRecord>>,
    total: int,
    message: string)

  /** What the single network call ended in: a decoded body, or any failure. */
  datatype Outcome = Responded(response: SearchResponse) | Failed

  /** The value `fetchEvents` resolves to. */
  datatype QueryResult = QueryResult(success: bool, data: seq<ApiRecord>, total: int, message: string)

  /**
   * The success-path envelope. An array is truthy even when empty, so a present
   * `data.results` wins over `results` whatever its length; totals fall through
   * on 0.
   */
  function Normalize(resp: SearchResponse): (r: QueryResult)
    ensures r.success
    ensures resp.data.Some? && resp.data.value.results.Some? ==> r.data == resp.data.value.results.value
    ensures !(resp.data.Some? && resp.data.value.results.Some?) && resp.results.Some? ==> r.data == resp.results.value
    ensures !(resp.data.Some? && resp.data.value.results.Some?) && resp.results.None? ==> r.data == []
    ensures resp.data.Some? && resp.data.value.total != 0 ==> r.total == resp.data.value.total
    ensures !(resp.data.Some? && resp.data.value.total != 0) ==> r.total == resp.total
    ensures r.message == if resp.message != "" then resp.message else "Events fetched successfully"
  {
    QueryResult(
      resp.success || true,
      if resp.data.Some? && resp.data.value.results.Some? then resp.data.value.results.value
      else if resp.results.Some? then resp.results.value
      else [],
      if resp.data.Some? && resp.data.value.total != 0 then resp.data.value.total
      else if resp.total != 0 then resp.total
      else 0,
      if resp.message != "" then resp.message else "Events fetched successfully")
  }

  /** The fallback result: demo data, a total fixed at 8, and a fixed message. */
  function Fallback(f: QueryFilters): (r: QueryResult)
    ensures !r.success && r.total == 8 && r.message == "Using demo data"
    ensures IsSubseq(r.data, MockEvents)
    ensures forall e :: e in r.data <==> e in MockEvents && Keep(f, e)
  {
    QueryResult(false, DemoEvents(f), 8, "Using demo data")
  }

  /**
   * `fetchEvents(filters)`: builds the request body, sends it once, and turns the
   * outcome into a result. A failure of any kind never escapes: it yields the
   * fallback.
   */
  method FetchEvents(f: QueryFilters, outcome: Outcome) returns (request: SearchParams, result: QueryResult)
    ensures IsSearchParams(f, request)
    ensures outcome.Responded? ==> result == Normalize(outcome.response)
    ensures outcome.Failed? ==> result == Fallback(f)
  {
    request := BuildSearchParams(f);
    match outcome {
      case Responded(resp) =>
        result := Normalize(resp);
      case Failed =>
        var demo := GetMockEvents(f);
        result := QueryResult(false, demo, 8, "Using demo data");
    }
  }

  // ---------------------------------------------------------------------------
  // The demo records

  /** One demo record; every key the demo objects do not have is absent. */
  function DemoRecord(id: string, name: string, category: string, date: string, city: string,
                      price: int, image: string, rating: int, reviews: int, attendees: int,
                      isSaved: bool, verified: bool, distance: string, description: string,
                      vendorName: string): ApiRecord
  {
    ApiRecord(
      id, "", name, "", "", category, "", date, "", city, "", "",
      0, 0, 0, price, "", "", [image],
      rating, 0, reviews, attendees, isSaved, verified, distance, description,
      "", vendorName, 0, 0, 0, "", 0, [], [])
  }

  /** The eight fixed demo records, in their fixed order. */
  const MockEvents: seq<ApiRecord> := [Mock1, Mock2, Mock3, Mock4, Mock5, Mock6, Mock7, Mock8]

  const Mock1 := DemoRecord("1", "Summer Music Festival 2024", "Music", "2024-06-15", "Mumbai", 1500,
    "https://images.unsplash.com/photo-1533174072545-7a4b6ad7a6c3?w=800", 48, 120, 1200,
    false, true, "2.5 km", "Annual summer music festival featuring top artists", "Music Events Co.")
  const Mock2 := DemoRecord("2", "Tech Innovation Summit", "Tech", "2024-07-22", "Bangalore", 3000,
    "https://images.unsplash.com/photo-1540575467063-178a50c2df87?w=800", 49, 85, 500,
    true, true, "5.1 km", "Technology and innovation conference", "Tech Hub India")
  const Mock3 := DemoRecord("3", "Sarah & John Wedding", "Wedding", "2024-08-05", "Delhi", 500000,
    "https://images.unsplash.com/photo-1519225421980-715cb0215aed?w=800", 47, 45, 300,
    false, false, "1.2 km", "Beautiful wedding ceremony", "Perfect Weddings")
  const Mock4 := DemoRecord("4", "Food & Wine Expo", "Food", "2024-09-12", "Mumbai", 800,
    "https://images.unsplash.com/photo-1555939594-58d7cb561ad1?w=800", 46, 210, 800,
    false, true, "3.7 km", "Food and wine tasting event", "Foodie Events")
  const Mock5 := DemoRecord("5", "Yoga Retreat Weekend", "Wellness", "2024-10-18", "Goa", 5000,
    "https://images.unsplash.com/photo-1544367567-0f2fcb009e0b?w=800", 49, 89, 100,
    true, true, "8.5 km", "Weekend yoga and meditation retreat", "Wellness Center")
  const Mock6 := DemoRecord("6", "Startup Pitch Night", "Business", "2024-11-25", "Bangalore", 0,
    "https://images.unsplash.com/photo-1559136555-9303baea8ebd?w=800", 45, 56, 200,
    false, false, "2.3 km", "Startup pitching competition", "Startup India")
  const Mock7 := DemoRecord("7", "Wedding Planner Conference", "Wedding", "2024-12-10", "Delhi", 2500,
    "https://images.unsplash.com/photo-1465495976277-4387d4b0e4a6?w=800", 48, 78, 150,
    false, true, "4.2 km", "Conference for wedding planners", "Wedding Professionals")
  const Mock8 := DemoRecord("8", "Free Community Music Jam", "Music", "2024-06-20", "Mumbai", 0,
    "https://images.unsplash.com/photo-1511379938547-c1f69419868d?w=800", 43, 34, 80,
    false, false, "1.8 km", "Free community music event", "Local Artists Group")

  /** Each demo predicate, holding trivially when its filter is not active. */
  predicate CategoryOk(f: QueryFilters, e: ApiRecord) {
    f.category != "" ==> Contains(Lower(e.category), Lower(f.category))
  }

  predicate CityOk(f: QueryFilters, e: ApiRecord) {
    f.location != "" ==> Contains(Lower(e.locationCity), Lower(f.location))
  }

  predicate MinBudgetOk(f: QueryFilters, e: ApiRecord) {
    f.budget.Some? && f.budget.value.min >= 0 ==> e.price >= f.budget.value.min
  }

  predicate MaxBudgetOk(f: QueryFilters, e: ApiRecord) {
    f.budget.Some? && f.budget.value.max > 0 ==> e.price <= f.budget.value.max
  }

  predicate RatingOk(f: QueryFilters, e: ApiRecord) {
    f.minRating > 0 ==> e.rating >= f.minRating
  }

  predicate VerifiedOk(f: QueryFilters, e: ApiRecord) {
    f.verifiedOnly ==> e.verified
  }

  /** A demo record survives the filters when it satisfies every active predicate. */
  predicate Keep(f: QueryFilters, e: ApiRecord) {
    CategoryOk(f, e) && CityOk(f, e) && MinBudgetOk(f, e) && MaxBudgetOk(f, e)
    && RatingOk(f, e) && VerifiedOk(f, e)
  }

  /** The records of `events` that survive `f`, in their order. */
  function Narrowed(events: seq<ApiRecord>, f: QueryFilters): (r: seq<ApiRecord>)
    ensures IsSubseq(r, events)
    ensures forall e :: e in r <==> e in events && Keep(f, e)
  {
    var keep := (e: ApiRecord) => Keep(f, e);
    FilterSubseq(events, keep);
    FilterMembers(events, keep);
    Filter(events, keep)
  }

  /** The demo records that survive `f`, in their fixed order. */
  function DemoEvents(f: QueryFilters): seq<ApiRecord> {
    Narrowed(MockEvents, f)
  }

  /** One link of the chain: an optional filter by `q` refines the accumulated filter `acc` to `acc2`. */
  lemma Narrow(s: seq<ApiRecord>, acc: ApiRecord -> bool, active: bool, q: ApiRecord -> bool,
               acc2: ApiRecord -> bool)
    requires forall x :: acc2(x) == (acc(x) && (active ==> q(x)))
    ensures (if active then Filter(Filter(s, acc), q) else Filter(s, acc)) == Filter(s, acc2)
  {
    if active {
      FilterFilter(s, acc, q, acc2);
    } else {
      FilterFilter(s, acc, x => true, acc2);
      FilterAll(Filter(s, acc), x => true);
    }
  }

  /** One `if (active) filtered = filtered.filter(q)` of the chain, where `filtered` is `s` narrowed by `acc`. */
  method NarrowBy(filtered: seq<ApiRecord>, active: bool, q: ApiRecord -> bool,
                  ghost s: seq<ApiRecord>, ghost acc: ApiRecord -> bool, ghost acc2: ApiRecord -> bool)
    returns (r: seq<ApiRecord>)
    requires filtered == Filter(s, acc)
    requires forall x :: acc2(x) == (acc(x) && (active ==> q(x)))
    ensures r == Filter(s, acc2)
  {
    Narrow(s, acc, active, q, acc2);
    r := filtered;
    if active {
      r := Filter(filtered, q);
    }
  }

  /** The filter chain of `getMockEvents`: copy the list, then narrow it by each active filter in turn. */
  method ApplyDemoFilters(events: seq<ApiRecord>, f: QueryFilters) returns (filtered: seq<ApiRecord>)
    ensures filtered == Narrowed(events, f)
  {
    ghost var acc0: ApiRecord -> bool := (e: ApiRecord) => true;
    ghost var acc1: ApiRecord -> bool := (e: ApiRecord) => CategoryOk(f, e);
    ghost var acc2: ApiRecord -> bool := (e: ApiRecord) => CategoryOk(f, e) && CityOk(f, e);
    ghost var acc3: ApiRecord -> bool := (e: ApiRecord) => CategoryOk(f, e) && CityOk(f, e) && MinBudgetOk(f, e);
    ghost var acc4: ApiRecord -> bool :=
      (e: ApiRecord) => CategoryOk(f, e) && CityOk(f, e) && MinBudgetOk(f, e) && MaxBudgetOk(f, e);
    ghost var acc5: ApiRecord -> bool :=
      (e: ApiRecord) => CategoryOk(f, e) && CityOk(f, e) && MinBudgetOk(f, e) && MaxBudgetOk(f, e) && RatingOk(f, e);
    FilterAll(events, acc0);
    filtered := events;
    filtered := NarrowBy(filtered, f.category != "",
      (e: ApiRecord) => Contains(Lower(e.category), Lower(f.category)), events, acc0, acc1);
    filtered := NarrowBy(filtered, f.location != "",
      (e: ApiRecord) => Contains(Lower(e.locationCity), Lower(f.location)), events, acc1, acc2);
    filtered := NarrowBy(filtered, f.budget.Some? && f.budget.value.min >= 0,
      (e: ApiRecord) => f.budget.Some? && e.price >= f.budget.value.min, events, acc2, acc3);
    filtered := NarrowBy(filtered, f.budget.Some? && f.budget.value.max > 0,
      (e: ApiRecord) => f.budget.Some? && e.price <= f.budget.value.max, events, acc3, acc4);
    filtered := NarrowBy(filtered, f.minRating > 0,
      (e: ApiRecord) => e.rating >= f.minRating, events, acc4, acc5);
    filtered := NarrowBy(filtered, f.verifiedOnly,
      (e: ApiRecord) => e.verified, events, acc5, (e: ApiRecord) => Keep(f, e));
  }

  /** `getMockEvents`: the demo records narrowed by `f`. */
  method GetMockEvents(f: QueryFilters) returns (filtered: seq<ApiRecord>)
    ensures filtered == DemoEvents(f)
  {
    filtered := ApplyDemoFilters(MockEvents, f);
  }

  /** With `{}` every demo record is returned. */
  lemma DemoWithoutFilters()
    ensures DemoEvents(NoFilters) == MockEvents
  {
    assert forall e :: Keep(NoFilters, e);
    FilterAll(MockEvents, e => Keep(NoFilters, e));
  }

  /** The screen's default budget `{min: 0, max: 100000}` as a demo filter object. */
  const DefaultBudgetFilter := NoFilters.(budget := Some(Budget(0, 100000)))

  /** The default budget admits every demo record but the 500000-priced '3'. */
  lemma DefaultBudgetVerdicts()
    ensures Keep(DefaultBudgetFilter, Mock1) && Keep(DefaultBudgetFilter, Mock2) && !Keep(DefaultBudgetFilter, Mock3)
    ensures Keep(DefaultBudgetFilter, Mock4) && Keep(DefaultBudgetFilter, Mock5) && Keep(DefaultBudgetFilter, Mock6)
    ensures Keep(DefaultBudgetFilter, Mock7) && Keep(DefaultBudgetFilter, Mock8)
  {
    assert Mock1.price == 1500 && Mock2.price == 3000 && Mock3.price == 500000 && Mock4.price == 800;
    assert Mock5.price == 5000 && Mock6.price == 0 && Mock7.price == 2500 && Mock8.price == 0;
  }

  /** The demo list around record '3'. */
  lemma MockEventsAroundThree()
    ensures MockEvents == [Mock1, Mock2] + [Mock3] + [Mock4, Mock5, Mock6, Mock7, Mock8]
    ensures [Mock1, Mock2] + [Mock4, Mock5, Mock6, Mock7, Mock8] == [Mock1, Mock2, Mock4, Mock5, Mock6, Mock7, Mock8]
  {
  }

  /** With the budget `{0, 100000}` only the 500000-priced record '3' is dropped. */
  lemma DemoWithDefaultBudget()
    ensures DemoEvents(DefaultBudgetFilter) == [Mock1, Mock2, Mock4, Mock5, Mock6, Mock7, Mock8]
  {
    DefaultBudgetVerdicts();
    MockEventsAroundThree();
    FilterDropsOne([Mock1, Mock2], Mock3, [Mock4, Mock5, Mock6, Mock7, Mock8], e => Keep(DefaultBudgetFilter, e));
  }

  /** A record whose category is one of the demo set's other categories fails the category filter 'Music'. */
  lemma NotMusic(e: ApiRecord)
    requires e.category in {"Tech", "Wedding", "Food", "Wellness", "Business"}
    ensures !Keep(MusicFilter, e)
  {
    assert Lower("Music") == "music";
    assert 'm' !in e.category && 'M' !in e.category;
    forall i | 0 <= i < |Lower(e.category)|
      ensures Lower(e.category)[i] != 'm'
    {
      assert e.category[i] in e.category;
    }
    NotContainsMissingHead(Lower(e.category), "music");
  }

  /** A record whose category is 'Music' passes the category filter 'Music'. */
  lemma IsMusic(e: ApiRecord)
    requires e.category == "Music"
    ensures Keep(MusicFilter, e)
  {
    assert Lower("Music") <= Lower(e.category)[0..];
  }

  /** The category filter 'Music': the demo filter object with only `category` set. */
  const MusicFilter := NoFilters.(category := "Music")

  /** The category filter 'Music' admits '1' and '8' and rejects the six others. */
  lemma MusicVerdicts()
    ensures Keep(MusicFilter, Mock1) && Keep(MusicFilter, Mock8)
    ensures !Keep(MusicFilter, Mock2) && !Keep(MusicFilter, Mock3) && !Keep(MusicFilter, Mock4)
    ensures !Keep(MusicFilter, Mock5) && !Keep(MusicFilter, Mock6) && !Keep(MusicFilter, Mock7)
  {
    IsMusic(Mock1);
    IsMusic(Mock8);
    NotMusic(Mock2);
    NotMusic(Mock3);
    NotMusic(Mock4);
    NotMusic(Mock5);
    NotMusic(Mock6);
    NotMusic(Mock7);
  }

  /** The six demo records between '1' and '8'. */
  const MiddleEvents: seq<ApiRecord> := [Mock2, Mock3, Mock4, Mock5, Mock6, Mock7]

  /** The demo list is '1', the six middle records, then '8'. */
  lemma MockEventsSplit()
    ensures MockEvents == [Mock1] + MiddleEvents + [Mock8]
  {
  }

  /** None of the records between '1' and '8' passes the category filter 'Music'. */
  lemma MiddleNotMusic()
    ensures forall z | z in MiddleEvents :: !Keep(MusicFilter, z)
  {
    MusicVerdicts();
  }

  /** With category 'Music' exactly the records '1' and '8' remain, in that order. */
  lemma DemoMusic()
    ensures DemoEvents(MusicFilter) == [Mock1, Mock8]
  {
    IsMusic(Mock1);
    IsMusic(Mock8);
    MiddleNotMusic();
    MockEventsSplit();
    FilterKeepsEnds(Mock1, MiddleEvents, Mock8, e => Keep(MusicFilter, e));
  }

  // ---------------------------------------------------------------------------
  // Categories

  datatype Category = Category(id: string, name: string, icon: string, color: string, count: int)

  /** `getDefaultCategories`. */
  const DefaultCategories: seq<Category> := [
    Category("1", "Wedding", "heart", "#FF69B4", 24),
    Category("2", "Music", "musical-notes", "#FF6B6B", 18),
    Category("3", "Business", "business", "#4ECDC4", 15),
    Category("4", "Food", "restaurant", "#118AB2", 22),
    Category("5", "Sports", "basketball", "#FF8C00", 12),
    Category("6", "Education", "school", "#2E8B57", 8),
    Category("7", "Wellness", "fitness", "#9370DB", 14),
    Category("8", "Religious", "star", "#06D6A0", 9)
  ]

  /**
   * `fetchCategories`: no remote call is made; both its paths return the fixed
   * list, whose ids run from '1' to '8'.
   */
  function FetchCategories(): (r: seq<Category>)
    ensures |r| == 8
    ensures forall i | 0 <= i < 8 :: r[i].id == ["1", "2", "3", "4", "5", "6", "7", "8"][i]
  {
    DefaultCategories
  }

  const IconMap: map<string, string> := map[
    "wedding" := "heart", "music" := "musical-notes", "business" := "business",
    "corporate" := "briefcase", "food" := "restaurant", "sports" := "basketball",
    "education" := "school", "wellness" := "fitness", "health" := "medkit",
    "religious" := "star", "cultural" := "flower", "entertainment" := "film",
    "technology" := "laptop", "art" := "palette", "fashion" := "shirt",
    "charity" := "hand-left", "conference" := "mic", "party" := "wine",
    "birthday" := "gift"]

  const ColorMap: map<string, string> := map[
    "wedding" := "#FF69B4", "music" := "#FF6B6B", "business" := "#4ECDC4",
    "corporate" := "#4ECDC4", "food" := "#118AB2", "sports" := "#FF8C00",
    "education" := "#2E8B57", "wellness" := "#9370DB", "health" := "#9370DB",
    "religious" := "#06D6A0", "cultural" := "#06D6A0", "entertainment" := "#FFD166",
    "technology" := "#073B4C", "art" := "#EF476F", "fashion" := "#FF9A8B",
    "charity" := "#7209B7", "conference" := "#3A86FF", "party" := "#FF006E",
    "birthday" := "#FB5607"]

  /** `getCategoryIcon`: the icon of the lower-cased name, `'grid'` exactly for unknown names. */
  function CategoryIcon(categoryName: string): (icon: string)
    ensures icon == "grid" <==> Lower(categoryName) !in IconMap
    ensures Lower(categoryName) in IconMap ==> icon == IconMap[Lower(categoryName)]
  {
    var lowerName := Lower(categoryName);
    if lowerName in IconMap then IconMap[lowerName] else "grid"
  }

  /** `getCategoryColor`: the colour of the lower-cased name, `'#6C757D'` exactly for unknown names. */
  function CategoryColor(categoryName: string): (color: string)
    ensures color == "#6C757D" <==> Lower(categoryName) !in ColorMap
    ensures Lower(categoryName) in ColorMap ==> color == ColorMap[Lower(categoryName)]
  {
    var lowerName := Lower(categoryName);
    if lowerName in ColorMap then ColorMap[lowerName] else "#6C757D"
  }

  /** Both lookups ignore case: a name and its lower-cased form get the same icon and colour. */
  lemma LookupsIgnoreCase(categoryName: string)
    ensures CategoryIcon(categoryName) == CategoryIcon(Lower(categoryName))
    ensures CategoryColor(categoryName) == CategoryColor(Lower(categoryName))
  {
    LowerIdempotent(categoryName);
  }

  /** Upper-case spellings find the same entries; the demo category 'Tech' has no entry. */
  lemma LookupExamples()
    ensures CategoryIcon("WEDDING") == "heart" && CategoryColor("WEDDING") == "#FF69B4"
    ensures CategoryIcon("Tech") == "grid" && CategoryColor("Tech") == "#6C757D"
  {
    assert Lower("WEDDING") == "wedding";
    assert Lower("Tech") == "tech";
  }
}
