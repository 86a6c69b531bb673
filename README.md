# Client query layer of the wealth-management admin dashboard

This project models the in-memory client query layer of a CRM admin dashboard for a wealth-management firm:

- **`lib/clients.ts`**: the client record and its ten-client fixture.
- **`lib/client-utils.ts`**: the client-list library.
  - Sorts by assets under advisement (AUA) and by last-contact time.
  - Category filters where an empty selection means "no restriction", and inclusive range filters.
  - A case-insensitive text search.
  - AUA totals, averages and per-key distributions.
  - Copy-on-write updates that add or remove a note or log a communication.
  - A "time since last contact" label.
- **`app/admin/clients/page.tsx`**: the admin list view.
  - The country menu it derives from `"City, Country"` locations.
  - The five checks it ANDs together: text search, country, subscription, last-contact recency and AUA bracket.
  - The two in-place sorts it runs afterwards.
  - The seven pieces of filter state that its controls update.

## Modules

| file | module | models |
|---|---|---|
| `wrappers.dfy` | `Wrappers` | `Option`, for absent optional fields and `null` state |
| `seqs.dfy` | `Seqs` | `Array.prototype.filter`, `map` and `find`; `[...new Set(s)]`; order-preserving selection |
| `js_string.dfy` | `JsString` | `trim`, `toLowerCase`, `includes`, `split(sep).pop()`, number-to-decimal, and the default `sort()` string order |
| `stable_sort.dfy` | `StableSort` | `Array.prototype.sort` with a numeric-key comparator: a stable sort, as a function and as an in-place array method |
| `counting.dfy` | `Counting` | the sum of the counts in a counting dictionary |
| `clients.dfy` | `Clients` | `lib/clients.ts`: the status, risk and subscription unions, the flat `Client` record and the `CLIENTS` fixture |
| `client_utils.dfy` | `ClientUtils` | `lib/client-utils.ts`, over the structured client record the library reads |
| `clients_page.dfy` | `ClientsPage` | the list view: its filter pipeline as functions, and its state as the class `ClientsPage` |

**Time.** Times are integers: milliseconds since the Unix epoch. Each clock read of the source becomes a parameter:

- `new Date()` in the view's filter;
- the two `Date.now()` id stamps;
- the timestamps in the note and communication updates;
- the current time in `getTimeSinceLastContact`.

**Two record shapes.** The library and the view read different records.

- `ClientUtils.Client` has first and last names, an optional city, a country, a subscription, optional notes, communications and personal data.
- `Clients.Client` is the flat fixture record.

The view also reads `subscriptionType`, which the flat fixture record does not carry. A row of the view is therefore `ClientsPage.ListedClient`: a fixture record paired with a tier. The fixture lemmas about the view hold for every assignment of tiers.

**Sorting.** Since ECMAScript 2019, `Array.prototype.sort` is required to be stable. It is modelled as stable insertion sort by an integer key. `StableSort.StableSortIsUnique` shows that any ordered permutation which keeps equal keys in their input order equals this model. The result therefore does not depend on which stable algorithm the engine runs.

## Model

| member | source | states |
|---|---|---|
| `Clients.StatusName` | lib/clients.ts:1 | every status is shown as one of the three status strings |
| `Clients.StatusNamesExact` | lib/clients.ts:1 | the status union is closed: exactly three strings, one per status, no two alike |
| `Clients.RiskName` | lib/clients.ts:2 | every risk profile is shown as one of the three risk strings |
| `Clients.RiskNamesExact` | lib/clients.ts:2 | the risk union is closed: exactly three strings, one per profile, no two alike |
| `Clients.SubscriptionName` | app/admin/clients/page.tsx:130-134 | every tier is shown as one of the three tier strings the view offers |
| `Clients.SubscriptionNamesExact` | app/admin/clients/page.tsx:130-134 | exactly three tier strings, one per tier, no two alike |
| `Clients.FixtureIdsDistinct` | lib/clients.ts:15-116 | the fixture has ten records whose ids are pairwise distinct |
| `Clients.FixtureAuaNonNegative` | lib/clients.ts:15-116 | no fixture record has a negative AUA |
| `Clients.FixtureAtLeast500k` | lib/clients.ts:56-85 | exactly the fifth and seventh records (`cl_005`, `cl_007`) hold $500,000 or more |
| `Clients.FixtureAbove500k` | lib/clients.ts:15-116 | a fixture record holds more than $500,000 exactly when its id is `cl_005` or `cl_007` |
| `Seqs.Filter` | app/admin/clients/page.tsx:156 | the filter result is no longer than its input; it holds exactly the elements that pass |
| `Seqs.FilterSelected` | app/admin/clients/page.tsx:156-205 | `filter` keeps every copy of each passing element and nothing else, in input order |
| `Seqs.SelectedIsFilter` | app/admin/clients/page.tsx:156-205 | `filter` is the only order-preserving selection of the passing elements |
| `Seqs.Map` | app/admin/clients/page.tsx:122-125 | `map` keeps the length and applies the callback at every index |
| `Seqs.MapMembers` | app/admin/clients/page.tsx:122-125 | the values of `map` are exactly the images of the input's elements |
| `Seqs.Dedupe` | app/admin/clients/page.tsx:127 | `[...new Set(s)]` has no repeats and holds exactly the elements of `s` |
| `Seqs.Find` | app/admin/clients/page.tsx:186-188 | `find` gives nothing exactly when nothing passes; otherwise the first element that passes |
| `JsString.Trim` | app/admin/clients/page.tsx:157 | `trim` removes a whitespace prefix and a whitespace suffix, and the result neither starts nor ends with whitespace |
| `JsString.TrimEmpty` | lib/client-utils.ts:101-102 | a string trims to `""` exactly when it is all whitespace |
| `JsString.TrimTwice` | lib/client-utils.ts:101 | trimming is idempotent |
| `JsString.ToLower` | lib/client-utils.ts:101 | lower-casing keeps the length and lowers each character |
| `JsString.TrimLowerCommute` | app/admin/clients/page.tsx:157 | trimming then lower-casing (the view) equals lower-casing then trimming (the library) |
| `JsString.IncludesAt` | lib/client-utils.ts:112-116 | `includes` holds exactly when the substring occurs at some index |
| `JsString.LastSegment` | app/admin/clients/page.tsx:174 | `split(sep).pop()` is the separator-free suffix that follows the last separator, or the whole string |
| `JsString.LastSegmentUnique` | app/admin/clients/page.tsx:174 | any separator-free suffix that follows a separator, or is the whole string, is that last segment |
| `JsString.NatToStringRoundTrip` | lib/client-utils.ts:251-254 | the decimal digits of a count read back as the count |
| `JsString.StrLessTotal` | app/admin/clients/page.tsx:127 | of two distinct strings, exactly one sorts before the other under the default `sort()` order |
| `JsString.StrLessTransitive` | app/admin/clients/page.tsx:127 | the default `sort()` order is transitive |
| `JsString.IncreasingUnique` | app/admin/clients/page.tsx:127 | two strictly increasing lists with the same elements are equal |
| `JsString.SortStringsIncreasing` | app/admin/clients/page.tsx:127 | sorting distinct strings gives a strictly increasing list of the same strings |
| `StableSort.SortPermutes` | lib/client-utils.ts:13 | the sort only reorders: the same multiset of elements |
| `StableSort.SortOrdered` | lib/client-utils.ts:13-15 | the sort result is non-decreasing in the key for `asc` and non-increasing for `desc` |
| `StableSort.SortStable` | app/admin/clients/page.tsx:217-219 | elements with equal keys keep their input order |
| `StableSort.StableSortIsUnique` | app/admin/clients/page.tsx:217-219 | every ordered permutation that keeps equal keys in input order is the modelled sort |
| `StableSort.InsertAt` | app/admin/clients/page.tsx:209 | one insertion step on the array inserts the next element into the sorted prefix |
| `StableSort.SortInPlace` | app/admin/clients/page.tsx:209-213 | sorting the array in place leaves exactly the stable sort of its old contents |
| `StableSort.SortedCopy` | lib/client-utils.ts:13 | sorting a copy (`[...clients].sort`) returns the stable sort and leaves the input alone |
| `StableSort.SortContract` | lib/client-utils.ts:13-15 | the sort is an ordered, stable permutation |
| `StableSort.SortReverse` | lib/client-utils.ts:13-15 | when no two keys tie, the descending sort is the ascending sort read backwards |
| `Counting.MapSumUpdate` | lib/client-utils.ts:136 | storing a count under a key replaces that key's old count in the total |
| `ClientUtils.SortClientsByAUA` | lib/client-utils.ts:9-16 | a permutation of the input, ordered by AUA (default descending), ties in input order |
| `ClientUtils.SortClientsByLastContact` | lib/client-utils.ts:18-27 | a permutation of the input, ordered by last-contact time (default descending), ties in input order |
| `ClientUtils.AuaOrdersReverse` | lib/client-utils.ts:9-16 | when no two clients share an AUA, `sortClientsByAUA(c, "desc")` is `sortClientsByAUA(c, "asc")` reversed |
| `ClientUtils.FilterByField` | lib/client-utils.ts:43-75 | an empty selection returns the input; otherwise exactly the clients whose field is selected, in order |
| `ClientUtils.FilterClientsByRiskProfile` | lib/client-utils.ts:43-49 | an empty selection returns the input; otherwise exactly the clients whose risk profile is selected, in order |
| `ClientUtils.FilterClientsBySubscription` | lib/client-utils.ts:51-59 | an empty selection returns the input; otherwise exactly the clients whose tier is selected, in order |
| `ClientUtils.FilterClientsByCountry` | lib/client-utils.ts:61-67 | an empty selection returns the input; otherwise exactly the clients whose country is selected, in order |
| `ClientUtils.FilterClientsByStatus` | lib/client-utils.ts:69-75 | an empty selection returns the input; otherwise exactly the clients whose status is selected, in order |
| `ClientUtils.StatusSelectionBounds` | lib/client-utils.ts:69-75 | selecting only unknown statuses removes everyone; selecting all three statuses keeps everyone |
| `ClientUtils.FilterClientsByAUARange` | lib/client-utils.ts:77-83 | exactly the clients with `min <= aua <= max`, in order; no upper bound means unbounded |
| `ClientUtils.AUARangeTwice` | lib/client-utils.ts:77-83 | two AUA range filters in a row equal one filter by the intersection of the ranges |
| `ClientUtils.AUARangeDefaults` | lib/client-utils.ts:79-80 | with the default bounds (0, unbounded), a list without negative AUA is unchanged |
| `ClientUtils.FilterClientsByDateRange` | lib/client-utils.ts:85-97 | exactly the clients last contacted within `[start, end]`, in order; an unparseable bound keeps no one |
| `ClientUtils.SearchClients` | lib/client-utils.ts:100-119 | a blank normalised query returns the input; otherwise exactly the clients with a lower-cased field containing it, in order |
| `ClientUtils.SearchIgnoresCaseAndPadding` | lib/client-utils.ts:101 | lower-casing or trimming the query beforehand changes nothing |
| `ClientUtils.BlankQueryKeepsAll` | lib/client-utils.ts:101-102 | an all-whitespace query returns the list unchanged |
| `ClientUtils.CalculateTotalAUA` | lib/client-utils.ts:122-124 | the empty list totals 0, and non-negative AUAs give a non-negative total |
| `ClientUtils.TotalAUAConcat` | lib/client-utils.ts:122-124 | the total of a concatenation is the sum of the totals |
| `ClientUtils.TotalAUAPermutation` | lib/client-utils.ts:122-124 | reordering the list, for instance by either sort, leaves the total unchanged |
| `ClientUtils.TotalAUAPartition` | lib/client-utils.ts:122-124 | the totals of the clients that pass a filter and of those that fail it add up to the whole |
| `ClientUtils.TotalAUABounds` | lib/client-utils.ts:122-124 | when every AUA lies in `[lo, hi]`, the total lies in `[n·lo, n·hi]` |
| `ClientUtils.GetAverageAUA` | lib/client-utils.ts:126-129 | the empty list averages 0; otherwise the average times the count is the total |
| `ClientUtils.AverageWithinBounds` | lib/client-utils.ts:126-129 | when every AUA lies in `[lo, hi]`, so does the average |
| `ClientUtils.CountKeyPositive` | lib/client-utils.ts:131-141 | a key's count is positive exactly when some client carries it |
| `ClientUtils.Distribution` | lib/client-utils.ts:131-153 | the dictionary's keys are exactly the keys carried; each maps to its number of clients; the counts sum to the list length |
| `ClientUtils.GetClientDistributionByCountry` | lib/client-utils.ts:131-141 | the countries present, each with its number of clients; the counts sum to the list length |
| `ClientUtils.GetClientDistributionByStatus` | lib/client-utils.ts:143-153 | the statuses present (only the three status strings), each with its number of clients; the counts sum to the list length |
| `ClientUtils.AddClientNote` | lib/client-utils.ts:156-172 | the old notes (absent treated as empty) followed by exactly one new note with the given content and author; nothing else changes |
| `ClientUtils.DeleteClientNote` | lib/client-utils.ts:174-179 | every note with the id removed and the rest kept in order; absent notes become `[]`; nothing else changes |
| `ClientUtils.DeleteNoteIdempotent` | lib/client-utils.ts:174-179 | deleting the same id twice is deleting it once |
| `ClientUtils.DeleteUndoesAdd` | lib/client-utils.ts:156-179 | deleting a note just added, with a fresh id, restores the notes (absent becomes `[]`) |
| `ClientUtils.AddClientCommunication` | lib/client-utils.ts:182-205 | exactly one communication appended with the given fields, last contact set to the given time, nothing else changed |
| `ClientUtils.Bucket` | lib/client-utils.ts:247-254 | 0 days is Today, 1 is Yesterday, 2–6 days, 7–29 weeks, 30–364 months, 365+ years; the shown count times the unit covers the day count |
| `ClientUtils.BucketMonotone` | lib/client-utils.ts:249-254 | more days never give an earlier label |
| `ClientUtils.DescribeInjective` | lib/client-utils.ts:249-254 | different buckets are shown as different strings |
| `ClientUtils.ContactedToday` | lib/client-utils.ts:243-249 | right after a communication is logged at `now`, the client reads "Today" |
| `ClientUtils.GetTimeSinceLastContact` | lib/client-utils.ts:243-255 | the label is "Today" exactly when less than a whole day separates the contact from now, in either direction, and "Yesterday" exactly for one whole day |
| `ClientUtils.SameLabelSameBucket` | lib/client-utils.ts:243-255 | two clients get the same label exactly when their whole-day counts fall in the same bucket with the same shown count |
| `ClientsPage.CountryOfCityCountry` | app/admin/clients/page.tsx:122-125 | a `"City, Country"` location yields exactly its country |
| `ClientsPage.AllCountriesMembers` | app/admin/clients/page.tsx:122-125 | the non-empty derived countries are exactly those some location yields |
| `ClientsPage.CountryOptions` | app/admin/clients/page.tsx:121-128 | the menu is strictly increasing and lists exactly the non-empty countries of the locations |
| `ClientsPage.CountryOptionsUnique` | app/admin/clients/page.tsx:127 | those two properties determine the menu |
| `ClientsPage.FixtureCountry` | lib/clients.ts:15-116 | every fixture location is `"City, Country"` with a single comma and yields that non-empty country |
| `ClientsPage.FixtureCountryOptions` | app/admin/clients/page.tsx:121-128 | the fixture's menu is Brazil, Canada, China, France, Ghana, India, Japan, Spain, UK: nine countries for ten records, with Ghana once |
| `ClientsPage.KeptRows` | app/admin/clients/page.tsx:156-205 | before sorting, a row is kept exactly when it passes all five checks, in list order |
| `ClientsPage.ViewIsPermutationOfKept` | app/admin/clients/page.tsx:207-222 | the sorts only reorder the kept rows |
| `ClientsPage.ViewOrderedByAua` | app/admin/clients/page.tsx:216-220 | with an AUA sort the view is monotone in AUA, whether or not a last-contact sort is set |
| `ClientsPage.ViewOrderedByLastContact` | app/admin/clients/page.tsx:208-214 | with only a last-contact sort, the view is monotone in last-contact time |
| `ClientsPage.AuaTiesKeepContactOrder` | app/admin/clients/page.tsx:207-220 | with both sorts, rows of equal AUA stay in last-contact order |
| `ClientsPage.UnsortedViewIsKept` | app/admin/clients/page.tsx:155-222 | with no sort, the view is the kept rows as an order-preserving subsequence of the list |
| `ClientsPage.OnlyAuaDecides` | app/admin/clients/page.tsx:156-205 | with a blank query, no selection and no recency label, only the AUA bracket decides |
| `ClientsPage.NothingSetShowsAll` | app/admin/clients/page.tsx:155-222 | a blank query, no selection, no labels and no sorts show the whole list |
| `ClientsPage.PageQueryNormalizes` | app/admin/clients/page.tsx:157 | the view's query normalisation ignores case and equals lower-casing before trimming |
| `ClientsPage.ActiveQueryFindsInactive` | app/admin/clients/page.tsx:161-169 | a query that normalises to "active" matches Inactive clients as well as Active ones |
| `ClientsPage.LastContactLabels` | app/admin/clients/page.tsx:186-188 | each recency label finds its own range |
| `ClientsPage.AuaLabels` | app/admin/clients/page.tsx:200 | each AUA label finds its own bracket |
| `ClientsPage.LastContactWindow` | app/admin/clients/page.tsx:185-196 | a known recency label keeps a row exactly when `floor((now − contact) / day) <= days` |
| `ClientsPage.FutureContactPasses` | app/admin/clients/page.tsx:189-195 | a contact time at or after `now` passes every recency filter |
| `ClientsPage.AuaWindow` | app/admin/clients/page.tsx:199-202 | a known AUA label keeps a row exactly when `min <= aua <= max`, both ends inclusive |
| `ClientsPage.FiftyThousandInTwoRanges` | app/admin/clients/page.tsx:145-153 | an AUA of 50,000 is in "Under $50k" and in "$50k - $250k", and in no other bracket |
| `ClientsPage.UnknownLabelsPass` | app/admin/clients/page.tsx:185-202 | a label that names no range restricts nothing |
| `ClientsPage.OnlyBracket` | app/admin/clients/page.tsx:199-202 | with only a bracket chosen, a row is kept exactly when its AUA lies in the bracket |
| `ClientsPage.FixtureOver500k` | app/admin/clients/page.tsx:150 | "Over $500k" alone, on the fixture with any tiers, lists `cl_005` then `cl_007` |
| `ClientsPage.ToggleSelection` | app/admin/clients/page.tsx:301-305 | ticking appends the value at the end; unticking removes every copy of it and keeps every copy of every other value, in order |
| `ClientsPage.ToggleOnThenOff` | app/admin/clients/page.tsx:301-305 | ticking an unticked value and unticking it again restores the selection |
| `ClientsPage.ToggleSort` | app/admin/clients/page.tsx:406-407 | pressing the active direction turns the sort off; any other press sets that direction |
| `ClientsPage.ToggleSortTwice` | app/admin/clients/page.tsx:420-421 | two presses restore the sort exactly when it was off or already that direction; otherwise it ends off |
| `ClientsPage.ClearedFilters` | app/admin/clients/page.tsx:243-250 | the six filter and sort states are reset to their initial values and the query is kept; no filter stays active |
| `ClientsPage.HasActiveFilters` | app/admin/clients/page.tsx:235-241 | no filter is active exactly when the state equals the initial state with its query, except that a range label may be `""` rather than `null`; the query never counts |
| `ClientsPage.InactiveFiltersLeaveSearch` | app/admin/clients/page.tsx:235-241 | when no filter is active, the view is exactly the text-search result |
| `ClientsPage.ClientsPage.constructor` | app/admin/clients/page.tsx:102-118 | the page starts with an empty query, empty selections, no labels and no sorts, so no filter is active |
| `ClientsPage.ClientsPage.SetQuery` | app/admin/clients/page.tsx:267 | only the query changes; whether a filter is active does not |
| `ClientsPage.ClientsPage.ToggleCountry` | app/admin/clients/page.tsx:301-305 | only the country selection changes, by the checkbox toggle |
| `ClientsPage.ClientsPage.ClearCountries` | app/admin/clients/page.tsx:315 | only the country selection changes, to empty |
| `ClientsPage.ClientsPage.ToggleSubscription` | app/admin/clients/page.tsx:346-350 | only the tier selection changes, by the checkbox toggle |
| `ClientsPage.ClientsPage.ClearSubscriptions` | app/admin/clients/page.tsx:360 | only the tier selection changes, to empty |
| `ClientsPage.ClientsPage.SelectLastContact` | app/admin/clients/page.tsx:387-395 | only the recency label changes, to the chosen one or none |
| `ClientsPage.ClientsPage.ToggleLastContactSort` | app/admin/clients/page.tsx:406-421 | only the last-contact sort changes; it ends off exactly when it was already that direction |
| `ClientsPage.ClientsPage.SelectAUARange` | app/admin/clients/page.tsx:453-461 | only the AUA label changes, to the chosen one or none |
| `ClientsPage.ClientsPage.ToggleAuaSort` | app/admin/clients/page.tsx:472-484 | only the AUA sort changes; it ends off exactly when it was already that direction |
| `ClientsPage.ClientsPage.ClearFilters` | app/admin/clients/page.tsx:243-250 | the state becomes the cleared state: query kept, no filter active |
| `ClientsPage.ClientsPage.Filtered` | app/admin/clients/page.tsx:155-222 | filtering into a fresh array and sorting it in place, last contact first and AUA second, gives exactly the specified view |

## Left out

- `sortClientsByName` (lib/client-utils.ts:29-40) compares with `localeCompare`, whose collation depends on the locale data of the runtime.
- `formatCurrency` and `formatDate` (lib/client-utils.ts:213-240) and the view's display formatting call the `Intl` APIs. The badge components and the rest of the JSX only render.
- `getAllClients` (lib/client-utils.ts:208-210) returns a list built outside the shown files; that module is not part of this model.
- Date parsing is not modelled. Timestamps are integers. An ISO date without a time is taken as UTC midnight. An unparseable date bound in the date-range filter is `None`.
- `ClientUtils.GetAverageAUA` divides exactly, as a real number; IEEE 754 rounding is not modelled. `CalculateTotalAUA` adds unbounded integers, so float rounding of very large sums is not modelled either.
- `toLowerCase` lowers only ASCII letters. Unicode case mapping is not modelled.
- `JsString.StrLess` and `JsString.SortStrings` compare strings as sequences of Unicode code points, while JavaScript strings are sequences of UTF-16 code units. For characters above U+FFFF the default `sort()` order (app/admin/clients/page.tsx:127) and `length` differ from the model, and lone surrogates cannot be represented at all.
- AUA, a JavaScript `number`, is modelled as an integer. Fractional amounts, `NaN` and the infinities are outside the model; the missing maximum of the AUA range filter stands for `Infinity`.
- `ClientsPage.FilteredView` reads the time once for the whole pass. The source reads `new Date()` once per row (app/admin/clients/page.tsx:158), so a pass that straddles a day boundary could judge rows against two different times.
- `ClientsPage.ClientsPage.Filtered` takes the rows as a parameter. The source filters the module constant `CLIENTS` and reads `subscriptionType`, which the flat fixture record lacks; the tier therefore comes with each row.
- `ClientsPage.CountryOptions` derives the menu from a parameter list. The source derives it from `CLIENTS` once, when the page mounts; `FixtureCountryOptions` covers that list.
- `ClientUtils.GetClientDistributionByCountry` and `ClientUtils.Distribution` count into a map. The source counts into a plain object `{}` (lib/client-utils.ts:131-141), so a key that names an `Object.prototype` member behaves differently there: `"__proto__"` leaves no own key, and `"constructor"`, `"toString"` and the like start from the inherited function and end as a string. Such keys are not modelled. The status keys of `GetClientDistributionByStatus` are safe.
- A comparator that returns `NaN` (for an invalid date) is not modelled. Every key is an integer, so the comparator is always consistent.
- `ClientUtils.Client` holds only the fields the library reads. The structured record it imports is not part of this model.
- React's state batching and re-rendering are not modelled. Each handler is a method that updates the fields at once.
