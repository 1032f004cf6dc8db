# Storage Finder, modelled in Dafny

Storage Finder is a demo storefront for self-storage units. It has a client-side catalog
with filtering and sorting, and a chat widget backed by a small serverless endpoint. The
endpoint answers from canned FAQ text when the message contains a topic keyword. Otherwise
it forwards the conversation to a language-model provider and falls back to fixed text.

This project models the decision and state logic of those parts:

- `chat_api.dfy` (module `ChatApi`) models the endpoint `api/chat.js`.
  - The FAQ keyword table is an ordered sequence of `(topic, keywords)` records, in the
    insertion order that `Object.entries` iterates.
  - `findFAQMatch` is a nested loop with early return (`FindFaqMatch`). It is proved equal
    to a first-match-wins reference function.
  - `handler` is a pure function `Resolve` from the request method, the message, the history,
    whether an API key is configured, and the provider (a function parameter) to a response
    of status, headers and body.
- `catalog.dfy` (module `Catalog`) models `StorageService`.
  - `SearchFilters` and the partial-update merge of `updateFilters` are modelled.
  - `filterAndSort` copies the list, applies the three filters and sorts the copy in place
    with an array-based insertion sort. It is proved sound, complete, a permutation of the
    passing units, and sorted by the chosen key.
- `search_filters.dfy` (module `SearchFilters`) models the filter panel as a class. It keeps
  its local filter copy and pushes single-field updates to the service.
- `chatbot.dfy` (module `Chatbot`) models the chat widget as a class over its flags, its
  input and its append-only message log.
  - `sendMessage` returns the request it would post.
  - The `next` and `error` callbacks of the HTTP subscription are the methods `OnResponse`
    and `OnError`.
- `unit_card.dfy` (module `UnitCard`) models the card's getters as functions of the unit, and
  `getStarArray` as a loop.
- `unit_model.dfy` (module `UnitModel`) transcribes the model types and the two label tables.
- `js_builtins.dfy` (module `JsBuiltins`) defines the JavaScript built-ins the code relies on:
  `slice` with negative indices, `includes`, `toLowerCase` and `trim`.
- `wrappers.dfy` (module `Wrappers`) defines `Option`.

A reply produced by the provider carries the source tag `'claude'` (api/chat.js:182),
modelled as `Source.Claude`.

The FAQ table has a notable consequence, proved as lemmas about the behaviour as written.
The climate keyword `ac` occurs inside `access` and `facilities`, and climate is declared
before security and access. So the widget's "24-Hour Access" quick question, "Can I access my
unit anytime?", gets the climate answer (`AccessQuickQuestionGetsClimate`). Its "Security"
quick question never gets the security answer (`SecurityQuickQuestionMissesSecurity`). No
message mentioning "access" ever gets the access answer (`AccessNeverReachesAccessTopic`).

## Model

| member | source | states |
|---|---|---|
| `ChatApi.FirstMatchSpec` | api/chat.js:89-100 | The scan's answer is None exactly when no topic has a keyword in the lower-cased message. Otherwise it is the topic of the earliest matching entry, and every earliest match determines the answer. |
| `ChatApi.FaqMatch` | api/chat.js:89-100 | What `findFAQMatch` answers is None exactly when no topic has a keyword in the lower-cased message. Otherwise it is the topic of the earliest matching entry. |
| `ChatApi.FindFaqMatch` | api/chat.js:89-100 | The nested topic/keyword loop with early return finds nothing exactly when no topic matches. Otherwise it returns the earliest matching topic, equal to the reference scan over the lower-cased message. |
| `ChatApi.FaqMatchIgnoresCase` | api/chat.js:90 | A message and its lower-cased form get the same FAQ answer. |
| `ChatApi.KeywordSurvivesLowering` | api/chat.js:90-94 | A lower-case keyword occurring in the raw message still occurs after lower-casing. |
| `ChatApi.FirstMatchWithin` | api/chat.js:92-97 | If entry k matches, the answer is the topic of entry k or of an earlier entry. |
| `ChatApi.PayMeansPricing` | api/chat.js:76-97 | Every message whose lower-cased form contains "pay" gets the pricing answer, never the payment answer. |
| `ChatApi.AcShadowsLaterTopics` | api/chat.js:76-97 | A message whose lower-cased form contains "ac" gets the pricing, sizes or climate answer. |
| `ChatApi.AccessNeverReachesAccessTopic` | api/chat.js:76-97 | A message whose lower-cased form contains "access" gets the pricing, sizes or climate answer, never the access one. |
| `ChatApi.AccessQuestionGetsClimate` | api/chat.js:76-97 | "Can I access my unit anytime?" gets the climate answer. |
| `ChatApi.EntryMissesByMissingChars` | api/chat.js:92-96 | A topic does not match when each of its keywords has a character the message lacks. |
| `ChatApi.ProviderMessages` | api/chat.js:150-156 | The provider conversation is the last min(6, n) history entries in order, then one user entry with the message. Its length is at most 7. |
| `ChatApi.Resolve` | api/chat.js:102-197 | CORS headers are always set. OPTIONS gives 200 with no body. Other non-POST methods give 405 "Method not allowed". A POST with a missing or empty message gives 400 "Message is required". A POST with a message gives 200 with a reply, where source faq holds exactly on a FAQ hit and source fallback with the help text exactly on a miss without a key. The provider is called exactly on a miss with a key, with model, 500 tokens and the windowed history. Its success gives source claude with text and usage, and any failure gives the apology with source error. |
| `ChatApi.PostWithMessageIsOk` | api/chat.js:118-196 | Every POST with a non-empty message yields status 200, whatever the provider does. |
| `ChatApi.ProviderIrrelevantWithoutCall` | api/chat.js:122-146 | When no provider call is made, the response does not depend on the provider. |
| `ChatApi.HowMuchIsPricing` | api/chat.js:77 | "How much does a unit cost?" gets 200 with the pricing answer and source faq, without a provider call. |
| `UnitModel.ParseSize` | src/app/models/storage-unit.model.ts:17 | The size literals parse back to their sizes, and only they parse. |
| `UnitModel.ParseFeature` | src/app/models/storage-unit.model.ts:19-27 | The feature literals parse back to their features, and only they parse. |
| `UnitModel.ParseAvailability` | src/app/models/storage-unit.model.ts:10 | The availability literals parse back to their tags, and only they parse. |
| `UnitModel.SizeLabelsDistinct` | src/app/models/storage-unit.model.ts:29-34 | Distinct sizes have distinct labels and distinct dimensions. |
| `UnitModel.FeatureLabelsDistinct` | src/app/models/storage-unit.model.ts:36-45 | Distinct features have distinct labels. |
| `Catalog.Merge` | src/app/services/storage.service.ts:193-198 | Each field present in the partial update takes the update's value, and every absent field keeps the current value. |
| `Catalog.MergeNoUpdate` | src/app/services/storage.service.ts:193-198 | An empty update leaves the filters unchanged. |
| `Catalog.MergeIdempotent` | src/app/services/storage.service.ts:193-198 | Applying the same update twice equals applying it once. |
| `Catalog.MergeFullUpdate` | src/app/services/storage.service.ts:193-198 | An update with every field replaces the state outright. |
| `Catalog.Where` | src/app/services/storage.service.ts:161-175 | `filter` keeps exactly the elements satisfying the predicate, each as often as in the input. |
| `Catalog.SortedByMeaning` | src/app/services/storage.service.ts:178-188 | Sorted by price or distance means non-decreasing in it. Sorted by rating means non-increasing rating. |
| `Catalog.SortInPlace` | src/app/services/storage.service.ts:178-188 | The in-place sort leaves the array sorted by the chosen key and a permutation of its old contents. |
| `Catalog.ApplyFilters` | src/app/services/storage.service.ts:158-175 | The filtered copy holds each unit that passes the size, truthy price cap and feature filters exactly as often as the input, and nothing else. |
| `Catalog.FilterAndSort` | src/app/services/storage.service.ts:157-191 | The result is a permutation of exactly the passing input units. Every unit in it passes, it is no longer than the input, and it is sorted by `sortBy`. |
| `Catalog.FilterSoundAndComplete` | src/app/services/storage.service.ts:157-175 | A unit is in the result if and only if it is in the input and passes every active filter. |
| `Catalog.InactiveFiltersPassAll` | src/app/services/storage.service.ts:161-175 | Size "all", a null or 0 price cap, and an empty feature list filter nothing. |
| `Catalog.StorageService.constructor` | src/app/services/storage.service.ts:137-143 | The service starts with the eight listings and the default filters (Austin, all sizes, no cap, no features, by distance). |
| `Catalog.StorageService.GetUnits` | src/app/services/storage.service.ts:149-155 | The listings are filtered and sorted under the given filters, as in `FilterAndSort`. |
| `Catalog.StorageService.UpdateFilters` | src/app/services/storage.service.ts:193-202 | The stored filters become the merge of the old ones with the update, which `getFilters` then returns. |
| `Catalog.StorageService.GetFilters` | src/app/services/storage.service.ts:200-202 | Returns the stored filter state, which after `UpdateFilters(u)` is the merge of the previous state with `u`. |
| `SearchFilters.Toggled` | src/app/components/search-filters/search-filters.component.ts:83-85 | An absent feature is appended at the end. A present feature is removed with every occurrence, and every other feature keeps its count (multiset with the feature's count set to zero). |
| `SearchFilters.Without` | src/app/components/search-filters/search-filters.component.ts:84 | Filtering out a feature keeps every other feature as often as it occurs and drops the feature entirely, so the length falls by the feature's count. |
| `SearchFilters.WithoutAbsent` | src/app/components/search-filters/search-filters.component.ts:84 | Filtering out an absent feature leaves the list unchanged. |
| `SearchFilters.DistinctCountsOnce` | src/app/components/search-filters/search-filters.component.ts:111 | A list without repeats holds each of its features exactly once. |
| `SearchFilters.WithoutKeepsDistinct` | src/app/components/search-filters/search-filters.component.ts:84 | Filtering a feature out of a list without repeats leaves a list without repeats. |
| `SearchFilters.ToggledKeepsDistinct` | src/app/components/search-filters/search-filters.component.ts:83-85 | Toggling keeps a list without repeats free of repeats. |
| `SearchFilters.ToggleMovesCountByOne` | src/app/components/search-filters/search-filters.component.ts:82-113 | On a list without repeats, a toggle lowers the active-filter count by one when the feature was selected, and raises it by one otherwise. |
| `SearchFilters.ToggleFlips` | src/app/components/search-filters/search-filters.component.ts:82-92 | After a toggle, the feature is active exactly when it was not before. |
| `SearchFilters.ToggleTwiceRestores` | src/app/components/search-filters/search-filters.component.ts:83-85 | Toggling an absent feature twice restores the original list exactly. |
| `SearchFilters.ActiveCountZeroIff` | src/app/components/search-filters/search-filters.component.ts:107-113 | The count is zero exactly when the size is "all", no price cap is active and no feature is selected. |
| `SearchFilters.ClearedCountsNothing` | src/app/components/search-filters/search-filters.component.ts:94-100 | Clearing sets size "all", no cap, no features and sort by distance. It keeps the location, and the count becomes zero. |
| `SearchFilters.SearchFiltersComponent.constructor` | src/app/components/search-filters/search-filters.component.ts:18-49 | The panel starts with the default filters and the mobile panel hidden. |
| `SearchFilters.SearchFiltersComponent.ReceiveFilters` | src/app/components/search-filters/search-filters.component.ts:53-59 | Each state emitted by the service replaces the local filter copy. |
| `SearchFilters.SearchFiltersComponent.Push` | src/app/services/storage.service.ts:193-198 | A partial update is merged into the service state, and the subscription it triggers synchronously leaves the local copy equal to that state. |
| `SearchFilters.SearchFiltersComponent.OnLocationChange` | src/app/components/search-filters/search-filters.component.ts:66-68 | Only the location is forwarded to the service, and the local copy then equals the new service state. |
| `SearchFilters.SearchFiltersComponent.OnSizeChange` | src/app/components/search-filters/search-filters.component.ts:70-72 | Only the size is forwarded to the service, and the local copy then equals the new service state. |
| `SearchFilters.SearchFiltersComponent.OnPriceChange` | src/app/components/search-filters/search-filters.component.ts:74-76 | Only the price cap is forwarded to the service, and the local copy then equals the new service state. |
| `SearchFilters.SearchFiltersComponent.OnSortChange` | src/app/components/search-filters/search-filters.component.ts:78-80 | Only the sort key is forwarded to the service, and the local copy then equals the new service state. |
| `SearchFilters.SearchFiltersComponent.ToggleFeature` | src/app/components/search-filters/search-filters.component.ts:82-88 | The toggled list, and only the features field, is merged into the service. The local copy then equals the service state, its features are the toggled list, and `isFeatureActive(f)` is the negation of its old value. |
| `SearchFilters.SearchFiltersComponent.IsFeatureActive` | src/app/components/search-filters/search-filters.component.ts:90-92 | True exactly when some position of the local feature list holds the feature. |
| `SearchFilters.SearchFiltersComponent.ClearFilters` | src/app/components/search-filters/search-filters.component.ts:94-101 | The service receives the reset of size, cap, features and sort, without the location. The local copy then equals the service state, keeps the old location and counts no active filter. |
| `SearchFilters.SearchFiltersComponent.ToggleMobileFilters` | src/app/components/search-filters/search-filters.component.ts:103-105 | The mobile panel flag flips, and the filters are untouched. |
| `SearchFilters.SearchFiltersComponent.ActiveFilterCount` | src/app/components/search-filters/search-filters.component.ts:107-113 | The count is one for a chosen size, plus one for a truthy cap, plus the number of features. It is zero exactly when no filter is active. |
| `Chatbot.HistoryBefore` | src/app/components/chatbot/chatbot.component.ts:103-106 | `slice(-7, -1)` after the push is the last min(6, n) messages before the new one, in order. It never includes the new message. |
| `Chatbot.SendAllowedIff` | src/app/components/chatbot/chatbot.component.ts:88-89 | A send goes ahead exactly when no request is pending and the input has a non-white-space character. |
| `Chatbot.AccessQuickQuestionGetsClimate` | src/app/components/chatbot/chatbot.component.ts:40 | The "24-Hour Access" quick question gets the climate FAQ answer. |
| `Chatbot.SecurityQuickQuestionMissesSecurity` | src/app/components/chatbot/chatbot.component.ts:39 | The "Security" quick question gets the pricing, sizes or climate answer, never the security one. |
| `Chatbot.ChatbotComponent.constructor` | src/app/components/chatbot/chatbot.component.ts:28-33 | The widget starts closed and not minimised, with no unread mark, an empty log, an empty input and nothing pending. |
| `Chatbot.ChatbotComponent.NgOnInit` | src/app/components/chatbot/chatbot.component.ts:48-55 | Exactly one assistant welcome message is appended, and nothing else changes. |
| `Chatbot.Startup` | src/app/components/chatbot/chatbot.component.ts:48-55 | A new widget after `ngOnInit` holds exactly the welcome message. |
| `Chatbot.ChatbotComponent.ToggleChat` | src/app/components/chatbot/chatbot.component.ts:57-71 | When minimised, it only clears the minimised flag. Otherwise it flips `isOpen`. In both cases the unread mark is cleared. |
| `Chatbot.ChatbotComponent.MinimizeChat` | src/app/components/chatbot/chatbot.component.ts:73-75 | Only the minimised flag changes, to true. |
| `Chatbot.ChatbotComponent.CloseChat` | src/app/components/chatbot/chatbot.component.ts:77-80 | Open and minimised both become false, and nothing else changes. |
| `Chatbot.ChatbotComponent.SendMessage` | src/app/components/chatbot/chatbot.component.ts:87-108 | A refused send changes nothing. An accepted send appends one user message with the trimmed input, clears the input and sets loading. It posts that message with the last six earlier messages. A pending request always has a user message last. |
| `Chatbot.ChatbotComponent.AskQuickQuestion` | src/app/components/chatbot/chatbot.component.ts:82-85 | The question is put in the input and sent, with the send step's guard and effects. |
| `Chatbot.ChatbotComponent.HandleKeydown` | src/app/components/chatbot/chatbot.component.ts:138-143 | Enter without Shift sends. Any other key changes nothing. |
| `Chatbot.ChatbotComponent.OnResponse` | src/app/components/chatbot/chatbot.component.ts:112-124 | One assistant message with the reply text is appended, and loading ends. The unread mark is set if minimised and otherwise unchanged. |
| `Chatbot.ChatbotComponent.OnError` | src/app/components/chatbot/chatbot.component.ts:125-134 | One assistant message with the fixed apology is appended, loading ends, and the unread mark is unchanged. |
| `UnitCard.SizeLabel` | src/app/components/unit-card/unit-card.component.ts:15-17 | The size table's label for the unit's size, never empty. |
| `UnitCard.SizeDimensions` | src/app/components/unit-card/unit-card.component.ts:19-21 | The size table's dimensions for the unit's size, never empty. |
| `UnitCard.SizeTextIdentifiesSize` | src/app/components/unit-card/unit-card.component.ts:15-21 | The size label and dimensions come from the size table, and each one identifies the unit's size. |
| `UnitCard.DisplayedFeatures` | src/app/components/unit-card/unit-card.component.ts:23-28 | The first min(4, n) features, in order, each paired with its label, its icon and its key. |
| `UnitCard.AvailabilityClass` | src/app/components/unit-card/unit-card.component.ts:30-41 | The badge class is the availability tag's own name. |
| `UnitCard.AvailabilityText` | src/app/components/unit-card/unit-card.component.ts:43-54 | The badge text ("Available Now", "Only 2 Left", "Sold Out") is never empty. |
| `UnitCard.AvailabilityTextIdentifies` | src/app/components/unit-card/unit-card.component.ts:43-54 | The badge text tells the three availabilities apart. |
| `UnitCard.GetStarArray` | src/app/components/unit-card/unit-card.component.ts:56-66 | The array has five slots, and slot i is true exactly when i < floor(rating). |
| `UnitCard.CountFilledBelow` | src/app/components/unit-card/unit-card.component.ts:59-63 | A row with slot i filled exactly when i < m has m filled slots, clamped to the row's length. |
| `UnitCard.StarRowShape` | src/app/components/unit-card/unit-card.component.ts:56-66 | The filled stars form a prefix, and there are clamp(floor(rating), 0, 5) of them. |

## Left out

- The provider SDK client and its network call are left out. The provider is a total function
  parameter from the request (model, token ceiling, messages) to `Completed(content, usage)`
  or `Failed`. A completed reply with an empty content list takes the apology branch, as
  `content[0].text` throws there. The system prompt is not part of the modelled request.
- `process.env.ANTHROPIC_API_KEY` becomes the boolean `hasKey`. `console.error` logging is
  not modelled.
- The `res` object becomes a returned `Response` of status, headers and body. `res.end()` is
  the `NoBody` body.
- The FAQ answers, the help text and the apology are identified by a `Text` datatype rather
  than spelled out. Only which text is sent matters.
- `toLowerCase` is modelled on ASCII letters only, without Unicode case mapping.
- A request body whose `message` is not a string, or whose history entries are not objects,
  is not modelled. `message` is an optional string, and `history` a sequence that defaults
  to empty.
- `ChatApi.FindFaqMatch` returns the matched topic, not the answer text that
  `FAQ_RESPONSES[topic]` looks up. Every keyword topic has an answer, so a hit is never
  falsy.
- The rxjs plumbing is left out: the `BehaviorSubject` and `Observable`, the `delay(300)`,
  the `subscribe`/`takeUntil` lifecycles and `ngOnDestroy`. The stored filter state is a
  plain field. The panel's subscription callback is the method `ReceiveFilters`.
- `Catalog.SortInPlace` is specified by sortedness and permutation only. It says nothing
  about the relative order of equal keys, and the comparators' IEEE floating-point
  behaviour is not modelled. Distances and ratings are exact reals, and prices are integers.
- The filter panel's static option lists for sizes, features and prices only feed the
  template and are not modelled.
- Only one subscriber of the service's filter state is modelled: the filter panel.
  `BehaviorSubject.next` calls the subscribers synchronously inside `updateFilters`. The panel
  methods therefore end with `ReceiveFilters(service.filters)`, through the panel helper `Push`.
  A bare `StorageService.UpdateFilters` does not notify the panel. The unit list's subscription
  is not modelled.
- `HttpClient` is left out. `SendMessage` returns the request it would post, and the
  callbacks run as `OnResponse` and `OnError`. These require a pending request, because each
  send subscribes once and loading blocks further sends.
- The widget's timestamps (`new Date()`), its `setTimeout` focus and scroll handling,
  `@ViewChild` and `preventDefault` on Enter are left out.
- The `default: ''` branches of the two availability switches are unreachable for the typed
  availability and are not modelled.
- `hasHalfStar` in `getStarArray` is computed but unused, and is not modelled.
- `src/app/components/unit-list/unit-list.component.ts` only wires subscriptions. Its
  `trackByUnitId` returns the id. It is not part of this model.
- `src/app/app.component.ts` holds a title only, and is not part of this model.
- The input list of `filterAndSort` is a value here. That the original array is not
  reordered holds because the sort runs on a fresh array copied from the filtered sequence.
