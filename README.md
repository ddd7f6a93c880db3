# Event search and sign-up front end, modelled in Dafny

This project models the decision-making core of a React Native event-booking
app. That core has six pieces:

- **The event query adapter** (`frontend/src/config/eventsApi.js`). It turns a
  filter object into a search-request body and normalises the two response
  shapes the backend may send. On any failure it falls back to eight fixed demo
  records, narrowed by the same filters. It also holds the fixed category list
  and the case-insensitive icon and colour lookups.
- **The search screen** (`SearchEvent.tsx`). It keeps a filter record and the
  list of "active" filter keys, and normalises fetched records with `||`
  chains. It filters the shown list locally by a text query. It keeps the save
  toggle consistent across the master list, the shown list and the open detail
  record.
- **The debounced search bar** (`SearchBar.js`). It is a state machine over an
  abstract clock. A keystroke re-arms a single timer. The timer reports the
  last text once, and only when that text differs from the parent's value. The
  clear and recent-search buttons report at once.
- **The registration form** (`Register.tsx`). Each regular expression is
  written as a predicate. The error map is exactly the set of rules that fired,
  with their messages. The submit-button condition is related to the rules in
  both directions.
- **The sign-in form** (`Login.tsx`).
- **The URL builder of `apiClient.get`** (`apiClient.js`). It is proved to keep
  exactly the defined parameters, in order. The query string splits back into
  them.

State that the source updates in place is modelled as Dafny classes: the
screen, the two forms and the search bar. Their methods overwrite the fields,
and their `ensures` clauses tie the new state to specification functions. The
lemmas beside those functions carry the properties.

I/O is modelled as parameters:

- The network call of `fetchEvents` is an `Outcome` parameter: a decoded
  response, or a failure.
- `encodeURIComponent` is a function parameter `enc`.
- Date formatting with `toLocaleDateString` is a function parameter
  `formatDate`.
- Time reaches the search bar as the `now` of each step.

JavaScript values that may be absent, `undefined` or `null` are modelled by the
falsy value of their type (`''`, `0`, `false`, `[]`). Every `||` and `if (x)`
in the source treats those alike. Ratings are integers in tenths of a star.

Files:

- `wrappers.dfy`: `Option`.
- `text.dfy`: `trim`, `\s`, ASCII `toLowerCase`, `includes`, `||`, `\d`.
- `seqs.dfy`: `filter`, sublists, duplicate-free lists.
- `events_api.dfy`: the adapter.
- `search_screen.dfy`: the search screen.
- `search_bar.dfy`: the search bar.
- `form_rules.dfy`: the field rules shared by both forms.
- `register_form.dfy`: the registration form.
- `login_form.dfy`: the sign-in form.
- `api_client.dfy`: the URL builder.

## Model

| member | source | states |
|---|---|---|
| Text.TrimEmptyIff | frontend/src/screens/AuthScreens/Register.tsx:35 | `!s.trim()` holds exactly when every character of `s` is JavaScript white space |
| Text.Trim | frontend/src/screens/AuthScreens/Register.tsx:35 | `trim()`: the text without its leading and trailing JavaScript white space (its contract is stated by `TrimEmptyIff`) |
| Text.Lower | frontend/src/screens/HomeScreens/EventScreens/SearchEvents/SearchEvent.tsx:138 | lower-casing keeps the length and maps each character on its own (ASCII letters only) |
| Text.LowerIdempotent | frontend/src/screens/HomeScreens/EventScreens/SearchEvents/SearchEvent.tsx:138-143 | lower-casing an already lower-cased text changes nothing |
| Text.Contains | frontend/src/screens/HomeScreens/EventScreens/SearchEvents/SearchEvent.tsx:138 | `s.includes(t)`: `t` is a prefix of `s` or of one of its suffixes (characterised by `ContainsIff`) |
| Text.ContainsIff | frontend/src/screens/HomeScreens/EventScreens/SearchEvents/SearchEvent.tsx:138 | `s.includes(t)` holds exactly when `t` occurs in `s` at some offset |
| Text.NotContainsMissingHead | frontend/src/config/eventsApi.js:297-301 | a needle whose first character never occurs in the text is not included |
| Text.Or | frontend/src/screens/HomeScreens/EventScreens/SearchEvents/SearchEvent.tsx:86-112 | the string fallback (`a` or else `b`) is `a` when `a` is non-empty and `b` otherwise, and is non-empty iff either operand is |
| Text.OrNumber | frontend/src/screens/HomeScreens/EventScreens/SearchEvents/SearchEvent.tsx:93 | the numeric fallback is `a` when `a` is non-zero and `b` otherwise, and is non-zero iff either is |
| Text.LowerKeepsSpace | frontend/src/screens/HomeScreens/EventScreens/SearchEvents/SearchEvent.tsx:134-138 | lower-casing a character never turns white space into non-white space or back |
| Text.Digits | frontend/src/screens/AuthScreens/Register.tsx:47 | `replace(/\D/g, '')` keeps exactly the digits, no more characters than the input |
| Text.DigitsAreFilter | frontend/src/screens/AuthScreens/Register.tsx:47 | `replace(/\D/g, '')` is exactly the order-preserving filter of the text by the digit class, so it is a sublist of the input |
| Seqs.FilterSubseq | frontend/src/config/eventsApi.js:297-299 | `filter` keeps an order-preserving sublist |
| Seqs.FilterMembers | frontend/src/config/eventsApi.js:297-299 | an element survives `filter` exactly when it was in the list and satisfies the predicate |
| Seqs.FilterAll | frontend/src/config/eventsApi.js:295 | a filter whose predicate holds throughout returns the whole list |
| Seqs.FilterFilter | frontend/src/config/eventsApi.js:297-323 | two successive filters equal one filter by the conjunction |
| Seqs.NoDupOccursOnce | frontend/src/screens/HomeScreens/EventScreens/SearchEvents/SearchEvent.tsx:158-159 | in a duplicate-free list a present element occurs exactly once |
| Seqs.FilterNoDup | frontend/src/screens/HomeScreens/EventScreens/SearchEvents/SearchEvent.tsx:162 | filtering keeps a list duplicate-free |
| EventsApi.OptionalKey | frontend/src/config/eventsApi.js:23-29 | a conditional assignment sets the key exactly when the field is truthy, with that field's value |
| EventsApi.IsSearchParams | frontend/src/config/eventsApi.js:16-29 | the request body for a filter object: `page`, `limit`, `sort` with their defaults, and each optional key exactly when its field is truthy (the reference `BuildSearchParams` is proved against) |
| EventsApi.BuildSearchParams | frontend/src/config/eventsApi.js:16-29 | the request body has `page`/`limit`/`sort` with defaults 1, 20, `'relevance'`, and each optional key exactly when its source field is truthy |
| EventsApi.Normalize | frontend/src/config/eventsApi.js:37-42 | success is always true; a present `data.results` wins (even empty), then `results`, then `[]`; total falls through zeros; default message |
| EventsApi.Fallback | frontend/src/config/eventsApi.js:44-52 | the failure result is unsuccessful, has total 8 and message `'Using demo data'`, and holds exactly the demo records passing the filters, in order |
| EventsApi.FetchEvents | frontend/src/config/eventsApi.js:11-53 | the request is built from the filters; a response is normalised; any failure yields the fallback |
| EventsApi.Narrowed | frontend/src/config/eventsApi.js:294-325 | the demo filter chain keeps an order-preserving sublist whose members are exactly the records satisfying every active predicate |
| EventsApi.Narrow | frontend/src/config/eventsApi.js:297-323 | one optional `filter` step refines the accumulated predicate by the step's predicate when it is active |
| EventsApi.NarrowBy | frontend/src/config/eventsApi.js:297-299 | one `if (active) filtered = filtered.filter(q)` step yields the list filtered by the refined predicate |
| EventsApi.ApplyDemoFilters | frontend/src/config/eventsApi.js:295-325 | the six conditional filters in sequence equal the one-pass `Narrowed` |
| EventsApi.GetMockEvents | frontend/src/config/eventsApi.js:154-326 | `getMockEvents` returns the demo records narrowed by the filters |
| EventsApi.CategoryOk | frontend/src/config/eventsApi.js:297-301 | with a category given, the lower-cased record category includes the lower-cased filter |
| EventsApi.CityOk | frontend/src/config/eventsApi.js:303-307 | with a location given, the lower-cased `location.city` includes the lower-cased filter |
| EventsApi.MinBudgetOk | frontend/src/config/eventsApi.js:309-311 | with a budget whose minimum is at least 0, the price is at least that minimum |
| EventsApi.MaxBudgetOk | frontend/src/config/eventsApi.js:313-315 | with a budget whose maximum is positive, the price is at most that maximum |
| EventsApi.RatingOk | frontend/src/config/eventsApi.js:317-319 | with a positive minimum rating, the rating is at least that minimum |
| EventsApi.VerifiedOk | frontend/src/config/eventsApi.js:321-323 | with `verifiedOnly`, the record is verified |
| EventsApi.Keep | frontend/src/config/eventsApi.js:297-323 | a demo record survives the chain exactly when it passes all six filters |
| EventsApi.DemoWithoutFilters | frontend/src/config/eventsApi.js:294-325 | with `{}` all eight demo records come back, in order |
| EventsApi.DefaultBudgetVerdicts | frontend/src/config/eventsApi.js:309-315 | the budget `{0, 100000}` admits every demo record except the one priced 500000 |
| EventsApi.DemoWithDefaultBudget | frontend/src/config/eventsApi.js:309-315 | with the budget `{0, 100000}` the result is the seven other records, in order |
| EventsApi.NotMusic | frontend/src/config/eventsApi.js:297-301 | a record of the demo categories other than Music fails the category filter `'Music'` |
| EventsApi.IsMusic | frontend/src/config/eventsApi.js:297-301 | a record of category `'Music'` passes that filter |
| EventsApi.MusicVerdicts | frontend/src/config/eventsApi.js:297-301 | the filter `'Music'` admits records 1 and 8 and rejects the six others |
| EventsApi.DemoMusic | frontend/src/config/eventsApi.js:297-301 | with category `'Music'` exactly records 1 and 8 remain, in that order |
| EventsApi.FetchCategories | frontend/src/config/eventsApi.js:60-73 | both paths return the fixed eight categories with ids `'1'` to `'8'` |
| EventsApi.CategoryIcon | frontend/src/config/eventsApi.js:347-372 | the icon of the lower-cased name; `'grid'` exactly when the name is unknown |
| EventsApi.CategoryColor | frontend/src/config/eventsApi.js:377-402 | the colour of the lower-cased name; `'#6C757D'` exactly when the name is unknown |
| EventsApi.LookupsIgnoreCase | frontend/src/config/eventsApi.js:347-402 | a name and its lower-cased form get the same icon and colour |
| EventsApi.LookupExamples | frontend/src/config/eventsApi.js:347-402 | `'WEDDING'` finds the wedding entries; the demo category `'Tech'` has no entry and gets the defaults |
| SearchScreen.Get | frontend/src/screens/HomeScreens/EventScreens/SearchEvents/SearchEvent.tsx:41-53 | each key of the filter record holds a value of that key's shape |
| SearchScreen.SetFilter | frontend/src/screens/HomeScreens/EventScreens/SearchEvents/SearchEvent.tsx:151-154 | `{...prev, [key]: value}` stores `value` under `key` and leaves every other key unchanged |
| SearchScreen.FiltersByKeys | frontend/src/screens/HomeScreens/EventScreens/SearchEvents/SearchEvent.tsx:41-53 | two filter records agreeing on every key are equal |
| SearchScreen.SetFilterLaws | frontend/src/screens/HomeScreens/EventScreens/SearchEvents/SearchEvent.tsx:151-154 | storing a key's current value is a no-op; the second of two stores wins |
| SearchScreen.Truthy | frontend/src/screens/HomeScreens/EventScreens/SearchEvents/SearchEvent.tsx:157 | `value && value !== '' && value !== 0 && value !== false`: non-empty text, non-zero number, `true`, or any object |
| SearchScreen.UpdateActive | frontend/src/screens/HomeScreens/EventScreens/SearchEvents/SearchEvent.tsx:157-163 | a truthy value lists the key, extending the list by at most that key; a falsy one unlists it keeping the rest in order; other keys are untouched; no duplicates arise |
| SearchScreen.UpdateActiveOnce | frontend/src/screens/HomeScreens/EventScreens/SearchEvents/SearchEvent.tsx:158-159 | after a truthy update the key is listed exactly once |
| SearchScreen.Transform | frontend/src/screens/HomeScreens/EventScreens/SearchEvents/SearchEvent.tsx:85-113 | each field takes the first truthy link of its chain: id from `_id`, else `id`; title from `name`, else `title`; service type, else `'General'`; location from `city`, else `location.city`, else `'Location not set'`; the formatted date, else `'Coming Soon'`; budget from the average, else the minimum (0 when both are 0); image from `featuredImage`, else `image`, else the placeholder; vendor from `businessName`, else `name`; the other fields (`area`, `address`, prices, rating, counts, description, response data, keywords, service areas) passed through; never saved; distance `'Nearby'` |
| SearchScreen.TransformAll | frontend/src/screens/HomeScreens/EventScreens/SearchEvents/SearchEvent.tsx:85-113 | one screen record per fetched record, in order, none saved |
| SearchScreen.Matches | frontend/src/screens/HomeScreens/EventScreens/SearchEvents/SearchEvent.tsx:137-145 | a record matches when the lower-cased query occurs in its lower-cased title, service type, location, vendor name or one of its keywords |
| SearchScreen.SearchResults | frontend/src/screens/HomeScreens/EventScreens/SearchEvents/SearchEvent.tsx:132-148 | a blank query shows every record; otherwise an order-preserving sublist holding exactly the records that match |
| SearchScreen.SearchIgnoresCase | frontend/src/screens/HomeScreens/EventScreens/SearchEvents/SearchEvent.tsx:137-145 | a query and its lower-cased form show the same records |
| SearchScreen.Toggle | frontend/src/screens/HomeScreens/EventScreens/SearchEvents/SearchEvent.tsx:189 | the record with the id has `isSaved` flipped and nothing else changed; others are unchanged |
| SearchScreen.ToggleAll | frontend/src/screens/HomeScreens/EventScreens/SearchEvents/SearchEvent.tsx:187-196 | the map keeps length and toggles each position |
| SearchScreen.ToggleAllTwice | frontend/src/screens/HomeScreens/EventScreens/SearchEvents/SearchEvent.tsx:186-196 | toggling the same id twice restores the list |
| SearchScreen.ToggleKeepsInside | frontend/src/screens/HomeScreens/EventScreens/SearchEvents/SearchEvent.tsx:186-196 | toggling both lists keeps the shown records among the loaded ones |
| SearchScreen.ToggleAfterLoad | frontend/src/screens/HomeScreens/EventScreens/SearchEvents/SearchEvent.tsx:186-196 | right after a load, one toggle saves exactly the records with that id |
| SearchScreen.ToggleSelected | frontend/src/screens/HomeScreens/EventScreens/SearchEvents/SearchEvent.tsx:199-201 | the open detail record is toggled when it has the id; no record is opened or closed |
| SearchScreen.ToggleSelectedTwice | frontend/src/screens/HomeScreens/EventScreens/SearchEvents/SearchEvent.tsx:199-201 | toggling the detail record twice restores it |
| SearchScreen.AsQueryFilters | frontend/src/screens/HomeScreens/EventScreens/SearchEvents/SearchEvent.tsx:79 | the screen hands its filter record to the adapter as is: the shared keys pass through, and the adapter's `query`/`serviceType`/`budgetMin`/`budgetMax` are absent |
| SearchScreen.RequestIgnoresCategoryAndBudget | frontend/src/config/eventsApi.js:16-29 | the request for the screen's filters never carries a service, a budget or a query, and changing the category or budget leaves it unchanged |
| SearchScreen.DefaultRequest | frontend/src/screens/HomeScreens/EventScreens/SearchEvents/SearchEvent.tsx:41-53 | the initial filters request page 1, 20 per page, by relevance, and nothing else |
| SearchScreen.ChipReset | frontend/src/screens/HomeScreens/EventScreens/SearchEvents/SearchEvent.tsx:573-611 | each chip's close button stores that key's initial value |
| SearchScreen.BudgetChipLeavesBudgetActive | frontend/src/screens/HomeScreens/EventScreens/SearchEvents/SearchEvent.tsx:593 | as written, closing the budget chip restores the default budget but leaves `budget` listed as active; every other chip's key is unlisted |
| SearchScreen.CloseChip | frontend/src/screens/HomeScreens/EventScreens/SearchEvents/SearchEvent.tsx:573-611 | closing a chip unlists its key and keeps the others in order, without duplicates |
| SearchScreen.CloseChipAgrees | frontend/src/screens/HomeScreens/EventScreens/SearchEvents/SearchEvent.tsx:573-611 | for every chip but the budget's, the intended close equals what `updateFilter` does |
| SearchScreen.Screen.constructor | frontend/src/screens/HomeScreens/EventScreens/SearchEvents/SearchEvent.tsx:29-55 | the initial state: default filters, nothing active, loaded, shown or selected |
| SearchScreen.Screen.LoadWith | frontend/src/screens/HomeScreens/EventScreens/SearchEvents/SearchEvent.tsx:76-125 | the body of `loadEvents` with the filters its closure holds: the request is built from them; on a response both lists become the transformed records and the total is `result.total`, or the length when that is 0; on failure nothing changes |
| SearchScreen.Screen.LoadEvents | frontend/src/screens/HomeScreens/EventScreens/SearchEvents/SearchEvent.tsx:76-125 | `loadEvents` as the current render defines it: the request is built from the current filters; on a response both lists become the transformed records and the total is `result.total`, or the length when that is 0; on failure the fallback is unsuccessful and nothing changes |
| SearchScreen.Screen.Refresh | frontend/src/screens/HomeScreens/EventScreens/SearchEvents/SearchEvent.tsx:127-130 | pull-to-refresh runs the first render's `loadEvents`, so the request is the default one whatever filters are stored, and the lists change as a load changes them |
| SearchScreen.Screen.HandleSearch | frontend/src/screens/HomeScreens/EventScreens/SearchEvents/SearchEvent.tsx:132-148 | stores the query and shows `SearchResults`; the loaded list is unchanged |
| SearchScreen.Screen.UpdateFilter | frontend/src/screens/HomeScreens/EventScreens/SearchEvents/SearchEvent.tsx:150-164 | stores the value and updates the active list by truthiness, keeping it duplicate-free |
| SearchScreen.Screen.RemoveChip | frontend/src/screens/HomeScreens/EventScreens/SearchEvents/SearchEvent.tsx:588-597 | the corrected chip close: resets the field and unlists its key |
| SearchScreen.Screen.ClearAllFilters | frontend/src/screens/HomeScreens/EventScreens/SearchEvents/SearchEvent.tsx:166-179 | default filters, no active key, empty query; the lists are not refiltered |
| SearchScreen.Screen.UpdateFilterThenReload | frontend/src/screens/HomeScreens/EventScreens/SearchEvents/SearchEvent.tsx:63-65 | `updateFilter` followed by the reload the new `filters` trigger: the request is built from the new filters; a response replaces both lists and sets the total to `result.total || length`; a failure keeps lists and total |
| SearchScreen.Screen.RemoveChipThenReload | frontend/src/screens/HomeScreens/EventScreens/SearchEvents/SearchEvent.tsx:63-65 | closing a chip followed by the reload: the request is built from the reset filters; a response replaces both lists and sets the total to `result.total || length`; a failure keeps lists and total |
| SearchScreen.Screen.ClearAllThenReload | frontend/src/screens/HomeScreens/EventScreens/SearchEvents/SearchEvent.tsx:63-65 | `clearAllFilters` followed by the reload: the request is the default one, and a response makes the shown list the full loaded list again, as the empty query asks, and sets the total to `result.total || length`; a failure keeps lists and total |
| SearchScreen.Screen.SelectEvent | frontend/src/screens/HomeScreens/EventScreens/SearchEvents/SearchEvent.tsx:181-184 | opens the detail view on the record |
| SearchScreen.Screen.CloseDetail | frontend/src/screens/HomeScreens/EventScreens/SearchEvents/SearchEvent.tsx:303-309 | the modal's close button and back request hide the detail view; the selected record and everything else stay |
| SearchScreen.Screen.ToggleSaveEvent | frontend/src/screens/HomeScreens/EventScreens/SearchEvents/SearchEvent.tsx:186-202 | toggles the id in both lists and in the open detail record, keeping the shown list inside the loaded one |
| SearchScreen.ToggleTwiceRestores | frontend/src/screens/HomeScreens/EventScreens/SearchEvents/SearchEvent.tsx:186-202 | saving the same record twice restores both lists and the detail record, and leaves the filters, the active list, the query, the total and the detail flag as they were |
| SearchBar.Arm | frontend/src/components/SearchBar.js:43-59 | a changed text cancels the pending timer and arms one due a delay later against the current value; an unchanged text leaves everything as it was |
| SearchBar.Render | frontend/src/components/SearchBar.js:43-64 | after a render and its effects, a new parent value has replaced the text, and a pending timer always carries the current text |
| SearchBar.Mount | frontend/src/components/SearchBar.js:37-59 | mounting shows the parent's value and arms a timer with nothing to report |
| SearchBar.Step | frontend/src/components/SearchBar.js:43-107 | every event keeps the invariant that a pending timer carries the current text |
| SearchBar.KeystrokeIsSilent | frontend/src/components/SearchBar.js:138-139 | a keystroke calls nothing; it re-arms the timer exactly when the text changed |
| SearchBar.TickReportsOnce | frontend/src/components/SearchBar.js:48-52 | a tick reports the current text exactly when the timer is due and the text differs from the value it was armed against, and a later tick reports nothing |
| SearchBar.ValuePropSyncs | frontend/src/components/SearchBar.js:62-64 | a new parent value replaces the text at once, without a call |
| SearchBar.ClearReportsAtOnce | frontend/src/components/SearchBar.js:92-96 | clearing calls `onClear`, then `onChangeText('')`, with no debounce |
| SearchBar.SubmitSearchesOnly | frontend/src/components/SearchBar.js:98-101 | submitting calls only `onSearch` with the current text and changes no state |
| SearchBar.RecentReportsAtOnce | frontend/src/components/SearchBar.js:103-107 | pressing a recent search reports it at once and shows it |
| SearchBar.OnSearchScreen | frontend/src/screens/HomeScreens/EventScreens/SearchEvents/SearchEvent.tsx:511-517 | with the search screen's props, clearing reports `''` alone and submitting calls nothing |
| SearchBar.Run | frontend/src/components/SearchBar.js:43-107 | any run of events keeps the timer invariant |
| SearchBar.TypingIsSilent | frontend/src/components/SearchBar.js:43-59 | a burst of keystrokes calls nothing, keeps the parent value and leaves the last text shown |
| SearchBar.BurstReportsLastTextOnce | frontend/src/components/SearchBar.js:43-59 | after a burst, only the last keystroke's timer is pending; a tick before it is due calls nothing, and a due tick reports the final text alone, unless it equals the parent value |
| SearchBar.LastKey | frontend/src/components/SearchBar.js:43-59 | the index of the last keystroke, -1 when there is none, and never -1 for a run that starts with one |
| SearchBar.IsBurst | frontend/src/components/SearchBar.js:43-59 | a burst: keystrokes that each change the text, mixed with ticks each earlier than the due time of the keystroke before it |
| SearchBar.Pending | frontend/src/components/SearchBar.js:43-59 | the state a burst leaves shows the last keystroke's text and keeps the parent value and the timer invariant |
| SearchBar.BurstStart | frontend/src/components/SearchBar.js:43-59 | the first keystroke of a burst calls nothing and arms its own timer |
| SearchBar.BurstPrefix | frontend/src/components/SearchBar.js:43-59 | a burst without its last event is a burst |
| SearchBar.BurstExtends | frontend/src/components/SearchBar.js:43-59 | a keystroke that changes the text, or a tick before the pending timer is due, keeps the run silent, with only the last keystroke's timer pending |
| SearchBar.BurstState | frontend/src/components/SearchBar.js:43-59 | after any burst nothing has been called and the only pending timer is the last keystroke's, due one delay after it |
| SearchBar.DebouncedBurstReportsOnce | frontend/src/components/SearchBar.js:43-59 | in a burst with early ticks, the first tick at or after the last keystroke's due time reports that keystroke's text and nothing else (nothing when it equals the parent value); no intermediate text is reported |
| SearchBarComponent.Bar.constructor | frontend/src/components/SearchBar.js:37-59 | the instance starts in `Mount`'s state |
| SearchBarComponent.Bar.SetInputValue | frontend/src/components/SearchBar.js:43-59 | `setInputValue` followed by the debounce effect is `Arm` |
| SearchBarComponent.Bar.Rerender | frontend/src/components/SearchBar.js:43-64 | overwrites the fields as `Render` describes |
| SearchBarComponent.Bar.Keystroke | frontend/src/components/SearchBar.js:138-139 | the instance follows `Step` for a keystroke |
| SearchBarComponent.Bar.Tick | frontend/src/components/SearchBar.js:48-52 | the timer callback follows `Step` for a tick |
| SearchBarComponent.Bar.ValueChanged | frontend/src/components/SearchBar.js:62-64 | the sync effect follows `Step` |
| SearchBarComponent.Bar.HandleClear | frontend/src/components/SearchBar.js:92-96 | `handleClear` follows `Step` |
| SearchBarComponent.Bar.HandleSubmit | frontend/src/components/SearchBar.js:98-101 | `handleSubmit` follows `Step` |
| SearchBarComponent.Bar.HandleRecentSearchPress | frontend/src/components/SearchBar.js:103-107 | `handleRecentSearchPress` follows `Step` |
| FormRules.EmailShapeIff | frontend/src/screens/AuthScreens/Register.tsx:42 | the email pattern accepts exactly the texts with no white space, one `@` not first, and a `.` later that is neither right after the `@` nor last |
| FormRules.IsEmail | frontend/src/screens/AuthScreens/Register.tsx:42 | `/^[^\s@]+@[^\s@]+\.[^\s@]+$/`: three non-empty runs free of white space and `@`, joined by `@` and then `.` |
| FormRules.EmailNotBlank | frontend/src/screens/AuthScreens/Register.tsx:40-44 | an address the pattern accepts is never blank |
| FormRules.EmailExamples | frontend/src/screens/AuthScreens/Register.tsx:42 | `a@b.in` is accepted; `a@b` and `a b@c.in` are refused |
| FormRules.EmailRule | frontend/src/screens/AuthScreens/Register.tsx:40-44 | "Email is required" iff blank; "Please enter a valid email" iff not blank and not matching; no error iff matching |
| FormRules.PhoneDigitsIff | frontend/src/screens/AuthScreens/Register.tsx:47 | on the digits of a phone the pattern means 1 to 16 digits not starting with 0 |
| FormRules.IsPhoneNumber | frontend/src/screens/AuthScreens/Register.tsx:47 | `/^[\+]?[1-9][\d]{0,15}$/`: an optional `+`, then 1 to 16 digits, the first not 0 |
| FormRules.PhoneRule | frontend/src/screens/AuthScreens/Register.tsx:47-49 | no error iff the phone is blank or its digits pass; otherwise the one phone message |
| FormRules.PhoneWithoutDigits | frontend/src/screens/AuthScreens/Register.tsx:47-49 | a non-blank phone without digits is refused |
| FormRules.SingleLinePassword | frontend/src/screens/AuthScreens/Register.tsx:56 | on one line, the composition pattern means a lower-case letter, an upper-case letter and a digit somewhere |
| FormRules.IsComposed | frontend/src/screens/AuthScreens/Register.tsx:56 | `/(?=.*[a-z])(?=.*[A-Z])(?=.*\d)/`: some position after which, on one line each, a lower-case letter, an upper-case letter and a digit follow |
| FormRules.ComposedNotBlank | frontend/src/screens/AuthScreens/Register.tsx:56 | a composed password is not blank |
| FormRules.PasswordRule | frontend/src/screens/AuthScreens/Register.tsx:52-58 | each of the three messages exactly in its case, in priority order; no error iff at least 6 characters and composed |
| FormRules.LoginPasswordRule | frontend/src/screens/AuthScreens/Login.tsx:36-40 | required, then at least 6 characters, each message exactly in its case |
| FormRules.RegisteredPasswordSignsIn | frontend/src/screens/AuthScreens/Register.tsx:52-58 | every password registration accepts, sign-in accepts; `abcdef` shows the converse fails |
| RegisterForm.SetFieldText | frontend/src/screens/AuthScreens/Register.tsx:77-80 | `{...prev, [field]: value}` changes that field only |
| RegisterForm.ConfirmRule | frontend/src/screens/AuthScreens/Register.tsx:61-65 | each confirmation message exactly in its case; no error iff non-empty and equal to the password |
| RegisterForm.Rule | frontend/src/screens/AuthScreens/Register.tsx:34-70 | the message each of the six checks sets for its field, or none |
| RegisterForm.PassesEach | frontend/src/screens/AuthScreens/Register.tsx:31-73 | the form passes iff each of the six rules is silent |
| RegisterForm.PassesIff | frontend/src/screens/AuthScreens/Register.tsx:31-73 | passing means non-blank name, matching email, blank or valid phone, a long composed password, an equal confirmation, and accepted terms |
| RegisterForm.AgreesOnAll | frontend/src/screens/AuthScreens/Register.tsx:72-73 | once every key is checked, the map holds exactly the fired rules, and it is empty iff none fired |
| RegisterForm.Record | frontend/src/screens/AuthScreens/Register.tsx:35-70 | one conditional assignment sets the key exactly when its rule fired |
| RegisterForm.CollectErrors | frontend/src/screens/AuthScreens/Register.tsx:31-73 | the map holds exactly the keys whose rule fired, with their messages, and is empty iff no rule fired |
| RegisterForm.IsFormValid | frontend/src/screens/AuthScreens/Register.tsx:142-151 | enabled iff the four required texts are non-blank, terms are accepted and nothing is loading |
| RegisterForm.PassingFormIsSubmittable | frontend/src/screens/AuthScreens/Register.tsx:142-151 | a form that passes every rule has its submit button enabled |
| RegisterForm.SubmittableFormMayFail | frontend/src/screens/AuthScreens/Register.tsx:142-151 | an enabled button does not mean the rules pass: a malformed address still enables it |
| RegisterForm.RegisterScreen.constructor | frontend/src/screens/AuthScreens/Register.tsx:20-29 | empty form, no errors, not loading, terms not accepted |
| RegisterForm.RegisterScreen.ValidateForm | frontend/src/screens/AuthScreens/Register.tsx:31-74 | the stored map is exactly the fired rules; the result is true iff it is empty iff every rule passes |
| RegisterForm.RegisterScreen.HandleInputChange | frontend/src/screens/AuthScreens/Register.tsx:76-88 | stores the text; a truthy message under that key becomes `''`; the keys stay the same, the edited field's entry is silent, and every other entry keeps its message |
| RegisterForm.RegisterScreen.ToggleTerms | frontend/src/screens/AuthScreens/Register.tsx:239 | flips the terms flag and changes nothing else |
| LoginForm.SignInDisabled | frontend/src/screens/AuthScreens/Login.tsx:145 | the button is disabled when the email or the password is empty, or a sign-in is loading |
| LoginForm.PassingFormEnabled | frontend/src/screens/AuthScreens/Login.tsx:145 | a form that passes validation has its button enabled |
| LoginForm.EnabledFormMayFail | frontend/src/screens/AuthScreens/Login.tsx:145 | a single-space email enables the button yet gets "Email is required" |
| LoginForm.LoginScreen.constructor | frontend/src/screens/AuthScreens/Login.tsx:22-25 | empty fields, no errors, not loading |
| LoginForm.LoginScreen.SetEmail | frontend/src/screens/AuthScreens/Login.tsx:114 | stores the email and leaves the errors |
| LoginForm.LoginScreen.SetPassword | frontend/src/screens/AuthScreens/Login.tsx:125 | stores the password and leaves the errors |
| LoginForm.LoginScreen.ValidateForm | frontend/src/screens/AuthScreens/Login.tsx:27-44 | each key is present exactly when its rule fired, with its message; the result is true iff the map is empty iff the email matches and the password has at least 6 characters |
| ApiClient.Entry | frontend/src/config/apiClient.js:22-27 | the map callback yields a pair exactly for a value other than `undefined` and `null` |
| ApiClient.Entries | frontend/src/config/apiClient.js:21-27 | the map keeps the order and the length of the keys |
| ApiClient.Truthy | frontend/src/config/apiClient.js:28 | `.filter(Boolean)`: drops `null` and `''`, keeping the other texts in order |
| ApiClient.Join | frontend/src/config/apiClient.js:29 | `.join(sep)`: the parts with the separator between consecutive ones |
| ApiClient.QueryString | frontend/src/config/apiClient.js:21-29 | the map, filter and join chain of `get` |
| ApiClient.BuildUrl | frontend/src/config/apiClient.js:17-34 | without parameters, or with none defined, the URL is base plus endpoint; otherwise `?` and the defined pairs joined by `&` are appended |
| ApiClient.Pairs | frontend/src/config/apiClient.js:21-28 | the pairs of the defined parameters, in order: as many as the parameters when all are defined, none when none is, and the first parameter's pair first when it is defined |
| ApiClient.QueryPairs | frontend/src/config/apiClient.js:21-28 | mapping then `filter(Boolean)` gives exactly the pairs of the defined parameters, in order |
| ApiClient.PairsNonEmpty | frontend/src/config/apiClient.js:24-28 | every pair is non-empty, and some pair exists iff some parameter is defined |
| ApiClient.JoinEmptyIff | frontend/src/config/apiClient.js:29-31 | a join of non-empty parts is empty iff there are no parts |
| ApiClient.SplitJoin | frontend/src/config/apiClient.js:29 | joined parts without the separator split back into themselves |
| ApiClient.PairsAvoid | frontend/src/config/apiClient.js:24 | when the encoder never emits `&`, no pair contains it |
| ApiClient.QueryStringSplits | frontend/src/config/apiClient.js:21-29 | the query string splits at `&` back into exactly the defined pairs |

## Left out

- I/O. The network call, `console.log`, `Alert`, `Keyboard.dismiss`, navigation and animations are left out. Where an outcome matters, it is a parameter.
- `fetchEventById`, `saveEvent` and `unsaveEvent` of `eventsApi.js` are not part of this model. Neither are the rest of `apiClient.js` (`post`, headers, token storage), `handleLogin`, `handleRegister` and the authentication context: they are network and storage glue.
- The `loading` and `refreshing` flags, the modal visibility flags other than the detail view, and `categories` with the effect that loads them (`fetchCategories` on the screen) are left out. These only drive rendering. Pull-to-refresh is modelled by `Refresh`; only its `refreshing` flag is left out.
- Concurrency. Two overlapping `loadEvents` calls, and a parent update arriving between a handler and its render, are not modelled. Each handler is one atomic step, and the state updates inside one handler apply in order, which is how React batches them.
- Records with neither `name` nor `title` are left out. For them `title` is `undefined`, and `handleSearch` would throw on `toLowerCase`. The model gives `title` the value `''`.
- The `contact` and `availability` objects of a screen record are left out: they are opaque pass-through values.
- A response body of `null` or `undefined` is left out. The adapter would throw inside its `try` and fall back to demo data, which `Failed` already covers.
- Object keys that come from the prototype (`'constructor'` and the like) are left out of the icon and colour lookups. The maps are plain Dafny maps.
- `Object.keys` order for integer-like keys is left out: `params` is given in the order `Object.keys` yields.
- FormRules.PasswordRule: the length test counts Dafny characters (code points), not the UTF-16 units of JavaScript's `length`. A password such as `Ab1` followed by two emoji is 5 characters here but 7 units in the program, so the model gives the length message where the program accepts the length.
- FormRules.LoginPasswordRule: the same counting as `PasswordRule`. A password with characters outside the Basic Multilingual Plane can be refused here as too short while sign-in accepts its length.
- Text.Lower: only ASCII letters are lower-cased. Unicode lower-casing and UTF-16 code units are not modelled, so lengths count Dafny characters.
- SearchScreen.Transform: `new Date(s).toLocaleDateString()` is the uninterpreted parameter `formatDate`. The contract says the date text is `formatDate` of `createdAt`, or `'Coming Soon'` when that is missing, and nothing about the formatted text itself.
- ApiClient.BuildUrl: `encodeURIComponent` is the uninterpreted parameter `enc`. The split round trip assumes only that it never emits `&`.
- SearchBar.Step: changes of the `debounceTime` prop after mounting, and the cleanup on unmount, are not modelled. The delay is fixed per instance, and the clock is the `now` of each step.
- SearchBar.Step: `isFocused`, the cancel button and the recent-search list rendering are left out: they only affect display.
- The `[filters]` effect of the search screen is modelled by the three `…ThenReload` methods, each a filter handler followed by `LoadEvents`. The bare handlers `UpdateFilter`, `RemoveChip` and `ClearAllFilters` describe the state before that reload.
- SearchScreen.Screen.HandleSearch: the model filters the current `events`. In the program the search bar's timer calls the `onChangeText` of the render that armed it (the effect at `SearchBar.js:43-59` depends on `inputValue` and `debounceTime` only), so a `handleSearch` that fires after a reload can filter the list of an earlier render. Then `filteredEvents` may hold records that are no longer in `events`, and the screen invariant `Valid` (shown list inside the loaded list) does not hold. That stale-closure interleaving is not modelled.
- Demo fallback records never reach the screen list. `LoadEvents` keeps the old lists because the fallback is unsuccessful; that is the behaviour of the code, stated in its contract.

## Findings

| source | as written | input that shows it | evidently intended | confidence | as-written member | corrected member |
|---|---|---|---|---|---|---|
| frontend/src/screens/HomeScreens/EventScreens/SearchEvents/SearchEvent.tsx:593 | closing the budget chip calls `updateFilter('budget', { min: 0, max: 100000 })`; an object is truthy, so `budget` stays in `activeFilters` | latent in the shipped screen: no control sets a budget other than the default, and the chip bar only shows once `activeFilters` is non-empty, which only a chip can make it. Once a filter control calls `updateFilter('budget', {min: 500, max: 100000})`, `budget` is listed; pressing the budget chip's close button then restores the default budget, yet the list stays `['budget']`, so the badge would show 1 and "Clear" would stay enabled for a default budget | closing a chip unlists its key, as every other chip's close does | not executed | SearchScreen.BudgetChipLeavesBudgetActive | SearchScreen.CloseChip |
