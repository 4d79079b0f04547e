# Hotel search front end — a Dafny model

This project models the logic behind a hotel search web application written in
TypeScript and React, and proves properties of that model. The modelled parts are:

- **The mock data layer** (`mockData.ts`):
  - the seed hotels;
  - the random expansion of the catalog (`generateMoreHotels`, `getAllHotels`);
  - look-up by id;
  - location suggestions;
  - the provider price comparison;
  - `searchHotels`, a six-stage filter chain followed by a sort chosen by `sortBy`.
- **The shared search state** (`SearchContext.tsx`): the `SearchFilters` and `SearchParams` records, their defaults, and the two shallow merges `updateSearchParams` and `updateFilters`.
- **The filter panel** (`FilterPanel.tsx`): a class whose fields are the panel's local state. Its handlers toggle stars, property types and amenities, move the price sliders, set the distance and reset everything. The `hasFilters` test is included.
- **The search form** (`SearchForm.tsx`): a class holding the location box and its suggestion dropdown, the dates and the guest counters, with its handlers. The guest text is also modelled.
- **The image gallery** (`ImageGallery.tsx`):
  - a class whose current index wraps around at both ends;
  - the thumbnails;
  - the "+N more" count.
- **The hotel card** (`HotelCard.tsx`): the amenity icons, the (at most four) amenities shown, and the discount badge.
- **The results page** (`SearchResultsPage.tsx`): the search it runs, and the summary line it builds step by step.

Randomness is an explicit parameter. Every `Math.random()` draw is a real in [0, 1), grouped in the records `Draws` and `PriceDraws`. Date rendering is a parameter `format: Date -> string`.

Module layout:

| file | module | what it holds |
|---|---|---|
| `wrappers.dfy` | `Wrappers` | `Option` |
| `text.dfy` | `Text` | `toLowerCase`, `trim`, `includes`, decimal rendering |
| `seqs.dfy` | `Seqs` | `filter` and its laws |
| `types.dfy` | `Types` | the application records |
| `mock_data.dfy` | `MockData` | the data layer and `searchHotels` |
| `search_context.dfy` | `SearchContext` | the shared search state |
| `filter_panel.dfy` | `FilterPanel` | the filter panel |
| `search_form.dfy` | `SearchForm` | the search form |
| `image_gallery.dfy` | `ImageGallery` | the image gallery |
| `hotel_card.dfy` | `HotelCard` | the hotel card |
| `search_results_page.dfy` | `SearchResultsPage` | the results page |

## Model

| member | source | states |
|---|---|---|
| MockData.GeneratedHotel | src/data/mockData.ts:246-272 | Generated hotel `i` has id `hotel-(i+6)`, and the country and amenities of seed `i % 5`. Its city and property type follow the two rotations. Stars are in 1..5. Base price is in 150..499, current price in 150..449, fees in 20..69. A discount, when present, is in 0..29. The score is in [6, 10), the count in 500..3499, the distance in [0, 5). |
| MockData.MoreHotels | src/data/mockData.ts:241-276 | One generated hotel per draw, in order. |
| MockData.GenerateMoreHotels | src/data/mockData.ts:241-276 | The push loop returns exactly `count` hotels, hotel `i` being the `i`-th generated hotel, i.e. the list `MoreHotels` that the catalog lemmas are about. |
| MockData.AllHotels | src/data/mockData.ts:338-340 | `getAllHotels()` is 50 hotels: the five seeds first, then generated hotel `i` at position `5 + i`. |
| MockData.CatalogPriceBand | src/data/mockData.ts:50-238 | Every seed and generated hotel has a current price between 150 and 449. |
| MockData.CatalogIds | src/data/mockData.ts:252 | Hotel `k` of the seeds followed by the generated hotels has id `hotel-(k+1)`. |
| MockData.HotelIdInjective | src/data/mockData.ts:252 | Distinct numbers give distinct `hotel-` ids. |
| MockData.CatalogIdsDistinct | src/data/mockData.ts:338-340 | No two catalog hotels share an id. |
| MockData.AllHotelsShape | src/data/mockData.ts:338-340 | `getAllHotels()` lists 50 hotels, `hotel-1` to `hotel-50`, with distinct ids. |
| MockData.FindById | src/data/mockData.ts:357 | `find` returns nothing exactly when no hotel has the id. Otherwise it returns the first hotel with that id. |
| MockData.GetHotelById | src/data/mockData.ts:356-358 | A hit is a catalog hotel with the requested id. A miss means no catalog hotel has it. |
| MockData.GetHotelByIdFindsEach | src/data/mockData.ts:356-358 | Every catalog hotel is found again by its own id. |
| MockData.GetLocationSuggestions | src/data/mockData.ts:343-353 | A blank query gives no suggestions. Otherwise a destination is suggested iff its lower-cased name or country contains the lower-cased, trimmed query. Suggestions keep declaration order (a subsequence). |
| MockData.NormalizedQueryNonEmpty | src/data/mockData.ts:344-346 | A non-blank query stays non-empty after normalisation, so it never matches every destination. |
| MockData.SuggestLon | src/data/mockData.ts:343-353 | Typing "lon" suggests London. |
| MockData.MatchesLocation | src/data/mockData.ts:373-377 | A city or country that contains the location exactly, letter case included, also matches ignoring case. |
| MockData.InsertByPrice | src/data/mockData.ts:334 | Insertion into a price-sorted list keeps it sorted and adds exactly the one offer. |
| MockData.Offers | src/data/mockData.ts:287-333 | Before sorting there are five offers, one per provider, in the order Booking.com, Hotels.com, Expedia, Agoda, Direct. |
| MockData.SortByPrice | src/data/mockData.ts:334 | The comparator sort yields a cheapest-first permutation. |
| MockData.OffersShape | src/data/mockData.ts:287-333 | The five offers are one per provider, each within its price band around the base price: Booking.com equal, Hotels.com -10..+9, Expedia -15..+14 with original price base+40, Agoda -20..+4, Direct -5. |
| MockData.OneOfferPerProviderPermutation | src/data/mockData.ts:334 | Reordering the offers keeps one offer per provider in band. |
| MockData.PriceOptionsFor | src/data/mockData.ts:285-334 | The offers for a base price are sorted cheapest first, are a permutation of the five offers, and have one offer per provider in band. |
| MockData.GetPriceOptions | src/data/mockData.ts:279-335 | An id missing from the seeds plus 20 generated hotels gives `[]`. A found hotel gives the sorted, one-per-provider offers around its current price. |
| MockData.PriceOptionsMissListedHotel | src/data/mockData.ts:281 | `hotel-26` is listed by `getAllHotels` yet gets no price options (see Findings). |
| MockData.SmallLookupMisses26 | src/data/mockData.ts:281 | No hotel among the seeds and 20 generated hotels has id `hotel-26`. |
| MockData.GetCatalogPriceOptions | src/data/mockData.ts:279-335 | The corrected look-up uses the catalog the application lists. |
| MockData.CatalogPriceOptionsCoverCatalog | src/data/mockData.ts:279-335 | With the corrected look-up, every listed hotel gets one offer per provider in band. |
| MockData.MatchingMembers | src/data/mockData.ts:373-414 | A hotel is among the matching hotels iff it is in the catalog and passes all six stages. |
| MockData.InPriceRange | src/data/mockData.ts:380-386 | Both bounds are inclusive, so a band whose minimum exceeds its maximum admits no hotel. |
| MockData.Matches | src/data/mockData.ts:373-414 | With no bound, no distance and every list absent or empty, only the location decides whether a hotel matches. |
| MockData.RecommendedScore | src/data/mockData.ts:433-437 | The price only lowers the recommended rank: a hotel never ranks above ten times its score, and under 100 it loses less than one point. |
| MockData.Compare | src/data/mockData.ts:417-439 | The comparator is negative exactly when `a` has the smaller sort key, and zero exactly when the keys are equal. |
| MockData.CompareIsKeyDifference | src/data/mockData.ts:417-439 | Each comparator is a difference of sort keys. |
| MockData.SortInPlace | src/data/mockData.ts:419-437 | The in-place sort leaves the array ascending in the key and a permutation of its old contents. |
| MockData.SinkLast | src/data/mockData.ts:419-437 | One insertion step extends the sorted prefix by one element and keeps the contents. |
| MockData.Swap | src/data/mockData.ts:419-437 | A swap exchanges two elements and keeps the multiset. |
| MockData.OrderedBySortKey | src/data/mockData.ts:417-439 | Ascending sort key means `price-low` is non-decreasing price, `price-high` non-increasing price, `rating` non-increasing score, `distance` non-decreasing distance. Any other value gives non-increasing recommended score. |
| MockData.SortHotels | src/data/mockData.ts:417-439 | The sorted list is a permutation of its input, ordered as `sortBy` asks. |
| MockData.FilterStages | src/data/mockData.ts:373-414 | The chain of six optional filters yields exactly the catalog-order list of hotels passing every active stage. |
| MockData.Narrow | src/data/mockData.ts:380-414 | An active stage filters by its test. An inactive stage (undefined bound, absent or empty list, no distance) keeps the list, which already passes it. |
| MockData.FirstStage | src/data/mockData.ts:373-377 | The location stage alone is the first stage of the chain. |
| MockData.StageApplied | src/data/mockData.ts:380-414 | Filtering the survivors of `k` stages by stage `k` gives the survivors of `k+1` stages. |
| MockData.StageSkipped | src/data/mockData.ts:380-414 | A stage every survivor passes changes nothing. |
| MockData.AllStages | src/data/mockData.ts:373-414 | Passing the six stages is matching the query. |
| MockData.SearchHotels | src/data/mockData.ts:361-442 | Multiset and membership: exactly the catalog hotels matching every active stage, each as often as in the catalog. Order: the one `sortBy` asks for. |
| MockData.UnconstrainedQueryKeepsLocationMatches | src/data/mockData.ts:380-414 | With no bounds, empty or absent lists and no distance, only the location stage filters. |
| MockData.EmptyLocationKeepsAll | src/data/mockData.ts:373-377 | An empty location keeps every hotel. |
| MockData.ScenarioIncludedThenExcluded | src/data/mockData.ts:389-407 | A 5-star resort with a spa at 340 matches "5 stars, resort, spa, at most 400". Asking for a gym instead excludes it, since amenities are conjunctive. |
| MockData.RecommendedExample | src/data/mockData.ts:433-437 | Score 9.0 at 300 ranks 87 and goes ahead of score 8.0 at 100, which ranks 79. The same holds under an unknown `sortBy`. |
| SearchContext.DefaultsAreUnfiltered | src/context/SearchContext.tsx:33-56 | The defaults: empty location, 0..500 band, no list filter, no distance, two adults and one room, no dates, recommended order. |
| SearchContext.UpdateSearchParams | src/context/SearchContext.tsx:64-66 | Each field the patch supplies takes the supplied value. Every other field keeps its old value. |
| SearchContext.UpdateFilters | src/context/SearchContext.tsx:68-73 | Only `filters` changes, and within it only the supplied fields. |
| SearchContext.UpdateSearchParamsTwice | src/context/SearchContext.tsx:64-66 | Two successive updates are one update with the later fields overriding. |
| SearchContext.UpdateFiltersTwice | src/context/SearchContext.tsx:68-73 | Two successive filter updates are one update with the later fields overriding. |
| SearchContext.EmptyPatchesAreIdentity | src/context/SearchContext.tsx:64-73 | An empty patch changes nothing. |
| SearchContext.UpdatesAreIdempotent | src/context/SearchContext.tsx:64-73 | Applying the same patch twice equals applying it once. |
| SearchContext.UpdateFiltersIsNestedSpread | src/context/SearchContext.tsx:68-73 | `updateFilters(f)` is `updateSearchParams` of the merged filters. |
| FilterPanel.Toggle | src/components/search/FilterPanel.tsx:30-47 | After a toggle the value is present iff it was absent. Every other value keeps its membership. |
| FilterPanel.InsertInt | src/components/search/FilterPanel.tsx:23 | Insertion into a sorted list keeps it sorted and adds exactly the one value. |
| FilterPanel.SortStars | src/components/search/FilterPanel.tsx:23 | `.sort()` on stars yields an ascending permutation. |
| FilterPanel.ToggleStar | src/components/search/FilterPanel.tsx:20-27 | The star is present iff it was absent, and others keep their membership. An added star leaves the list sorted and one element longer as a multiset. |
| FilterPanel.ToggleKeepsNoDuplicates | src/components/search/FilterPanel.tsx:30-47 | A toggle never creates a duplicate. |
| FilterPanel.ToggleStarKeepsNoDuplicates | src/components/search/FilterPanel.tsx:20-27 | A star toggle never creates a duplicate. |
| FilterPanel.ToggleTwice | src/components/search/FilterPanel.tsx:30-47 | Two toggles of one value restore membership. If the value was absent, they restore the exact list. |
| FilterPanel.ToggleStarTwice | src/components/search/FilterPanel.tsx:20-27 | Two toggles of one star restore membership. |
| FilterPanel.ToggleKeepsOthers | src/components/search/FilterPanel.tsx:30-47 | A toggle leaves the other values in the same order. |
| FilterPanel.Panel.constructor | src/components/search/FilterPanel.tsx:10-14 | The local state starts as a copy of the shared filters. |
| FilterPanel.Panel.HandleStarChange | src/components/search/FilterPanel.tsx:20-27 | The local stars become the star toggle. The shared filters receive the same list, and local and shared state stay in sync. |
| FilterPanel.Panel.HandlePropertyTypeChange | src/components/search/FilterPanel.tsx:30-37 | The local types become the toggle, pushed to the shared filters, in sync. |
| FilterPanel.Panel.HandleAmenityChange | src/components/search/FilterPanel.tsx:40-47 | The local amenities become the toggle, pushed to the shared filters, in sync. |
| FilterPanel.Panel.HandlePriceChange | src/components/search/FilterPanel.tsx:50-65 | A new minimum is capped at the maximum, or a new maximum raised to the minimum. The other bound is kept, and afterwards min <= max. Both bounds go to the shared filters. |
| FilterPanel.Panel.HandleDistanceChange | src/components/search/FilterPanel.tsx:68-72 | The distance is set locally and in the shared filters. |
| FilterPanel.Panel.ResetFilters | src/components/search/FilterPanel.tsx:75-90 | Afterwards the band is 0..500, no list filter or distance remains, and the shared filters are the defaults with the rest of the state untouched. `hasFilters()` is then false. |
| FilterPanel.Panel.HasFilters | src/components/search/FilterPanel.tsx:93-102 | Within the sliders' 0..500 range, no filter is reported exactly when the band is 0..500, every list is empty and no distance is set. |
| FilterPanel.Panel.HasFiltersIffNotDefault | src/components/search/FilterPanel.tsx:93-102 | Within the sliders' 0..500 range, `hasFilters()` holds exactly when the shared filters differ from the defaults. |
| SearchForm.GuestChange | src/components/search/SearchForm.tsx:72-85 | The named counter takes the value, raised to its lower bound (1 adult, 0 children, 1 room). The other counters are unchanged and valid counters stay valid. |
| SearchForm.GuestChangeClampsAtBound | src/components/search/SearchForm.tsx:76-82 | A value below the bound lands exactly on the bound. |
| SearchForm.PluralIffNotOne | src/components/search/SearchForm.tsx:134-139 | The plural suffix appears exactly when the count is not 1. |
| SearchForm.FormatGuestsPlurals | src/components/search/SearchForm.tsx:134-139 | The guest text is exactly its adults, children and rooms parts joined by ", ". Each part opens with "<n> adult", "<n> child" or "<n> room" and ends in "s", "ren" or "s" exactly when its count is not 1. |
| SearchForm.FormatGuests | src/components/search/SearchForm.tsx:134-139 | The text is the counted adults, children and rooms, in that order, joined by ", ". It opens with the adults part and ends in "room" exactly for one room. |
| SearchForm.CountedRoomEnding | src/components/search/SearchForm.tsx:138 | The rooms part ends in "room" exactly for one room, otherwise in "rooms". |
| SearchForm.FormatDefaultGuests | src/components/search/SearchForm.tsx:134-139 | The default party reads "2 adults, 0 children, 1 room". |
| SearchForm.Form.constructor | src/components/search/SearchForm.tsx:17-25 | The form starts from the shared location and dates, with both dropdowns closed and no suggestions. |
| SearchForm.Form.HandleLocationChange | src/components/search/SearchForm.tsx:33-45 | A blank value clears the suggestions and closes the dropdown. Otherwise the suggestions are those for the value, and the dropdown opens iff there are any. |
| SearchForm.Form.HandleLocationSelect | src/components/search/SearchForm.tsx:48-52 | The chosen name fills the box and becomes the shared location. The dropdown closes. |
| SearchForm.Form.ClearLocationInput | src/components/search/SearchForm.tsx:55-60 | The box, the shared location and the suggestions are emptied. The dropdown closes. |
| SearchForm.Form.HandleDateChange | src/components/search/SearchForm.tsx:63-69 | Both dates are stored locally and in the shared state. |
| SearchForm.Form.HandleGuestChange | src/components/search/SearchForm.tsx:72-85 | Only the named counter of the shared guests changes, with clamping. |
| SearchForm.Form.HandleSearch | src/components/search/SearchForm.tsx:88-101 | Both dropdowns close, and the typed location and the dates go to the shared state. |
| SearchForm.Form.HandleClickOutside | src/components/search/SearchForm.tsx:104-118 | Each dropdown closes when the click lands outside it and stays as it was otherwise. Nothing else changes. |
| SearchForm.Form.ClickLocationInput | src/components/search/SearchForm.tsx:163 | A click into the location box opens the dropdown exactly when there are suggestions. |
| SearchForm.Form.ToggleGuestsDropdown | src/components/search/SearchForm.tsx:236 | The guests button flips the guests dropdown. |
| SearchForm.Form.ApplyGuests | src/components/search/SearchForm.tsx:311 | "Apply" closes the guests dropdown and leaves the counters as stored. |
| ImageGallery.Next | src/components/hotel/ImageGallery.tsx:16-18 | The last index wraps to 0, any other advances by one, and valid indices stay valid. |
| ImageGallery.Previous | src/components/hotel/ImageGallery.tsx:12-14 | 0 wraps to the last index, any other steps back by one, and valid indices stay valid. |
| ImageGallery.NextPreviousInverse | src/components/hotel/ImageGallery.tsx:12-18 | Next and previous undo each other. |
| ImageGallery.NextRoundTrip | src/components/hotel/ImageGallery.tsx:16-18 | As many presses of next as there are images return to the start. |
| ImageGallery.Thumbnails | src/components/hotel/ImageGallery.tsx:25 | The thumbnails are the first min(4, n) images. |
| ImageGallery.RemainingCount | src/components/hotel/ImageGallery.tsx:26 | The count is positive exactly when there are more than four images, and then thumbnails plus the count make up all images. |
| ImageGallery.MoreTileIffHidden | src/components/hotel/ImageGallery.tsx:26 | The "+N more" tile shows exactly when some image has no thumbnail. N is the number of such images. |
| ImageGallery.Gallery.constructor | src/components/hotel/ImageGallery.tsx:9 | The index starts at 0. |
| ImageGallery.Gallery.HandlePrevious | src/components/hotel/ImageGallery.tsx:12-14 | The index becomes `Previous` of the old one, and stays in range. |
| ImageGallery.Gallery.HandleNext | src/components/hotel/ImageGallery.tsx:16-18 | The index becomes `Next` of the old one, and stays in range. |
| ImageGallery.Gallery.SelectImage | src/components/hotel/ImageGallery.tsx:72 | A thumbnail click selects that image. |
| HotelCard.GetAmenityIcon | src/components/search/HotelCard.tsx:11-26 | There is an icon exactly for the five whitelisted names. |
| HotelCard.AmenityIconsDistinct | src/components/search/HotelCard.tsx:11-26 | Different names get different icons. |
| HotelCard.TopAmenities | src/components/search/HotelCard.tsx:29-33 | At most four amenities, all whitelisted and the hotel's own, in the hotel's order. They are a prefix of the whitelisted amenities: the first four, or all of them when there are fewer. |
| HotelCard.TopAmenitiesComplete | src/components/search/HotelCard.tsx:29-33 | A whitelisted amenity at position `i` is left out only when four are shown and every shown one occurs before position `i`, i.e. the FIRST four are kept. |
| HotelCard.TopAmenitiesHaveIcons | src/components/search/HotelCard.tsx:11-33 | Every shown amenity has an icon. |
| HotelCard.DiscountLabel | src/components/search/HotelCard.tsx:35 | No badge exactly when the discount is absent or 0. Otherwise the badge reads "Save d%". |
| HotelCard.DiscountLabelReadsBack | src/components/search/HotelCard.tsx:35 | The number between "Save " and "%" parses back to the discount. |
| HotelCard.GrandPlazaBadge | src/components/search/HotelCard.tsx:35 | A 15% discount reads "Save 15%". |
| SearchResultsPage.FetchResults | src/pages/SearchResultsPage.tsx:24-28 | The page's results are exactly the catalog hotels matching the shared filters, in the shared order. |
| SearchResultsPage.DefaultSearchListsCatalog | src/pages/SearchResultsPage.tsx:24-28 | With the default search state every catalog hotel is listed, in catalog order before sorting. |
| SearchResultsPage.GetSearchSummary | src/pages/SearchResultsPage.tsx:47-72 | The string built by successive appends equals `Summary`: heading, dates segment, guest count and rooms segment, in that order. |
| SearchResultsPage.Summary | src/pages/SearchResultsPage.tsx:47-72 | The summary is the heading, the dates segment, the guest count and the rooms segment, in that order. With at most one room it ends in "guest" or "guests". |
| SearchResultsPage.SummaryGuestPlural | src/pages/SearchResultsPage.tsx:63-68 | With at most one room, the summary ends in "s" exactly when adults and children together are not 1, with or without dates. |
| SearchResultsPage.SummaryHeading | src/pages/SearchResultsPage.tsx:50-54 | The summary starts with "Hotels in <location>" for a set location, otherwise with "All Hotels". |
| SearchResultsPage.SummaryDates | src/pages/SearchResultsPage.tsx:56-61 | Without both dates no date segment appears. With both, " · <check-in>" follows the heading. |
| SearchResultsPage.GuestCountPlural | src/pages/SearchResultsPage.tsx:63-65 | The guest count takes "s" exactly when adults plus children is not 1. |
| SearchResultsPage.GuestCountEnding | src/pages/SearchResultsPage.tsx:63-65 | The guest segment ends in "guest" or "guests". |
| SearchResultsPage.SummaryRoomsIffSeveral | src/pages/SearchResultsPage.tsx:66-68 | The summary ends in " rooms" exactly when more than one room is booked. |
| Text.Lower | src/data/mockData.ts:346 | Lower-casing keeps the length and maps each character on its own (ASCII letters only, see Left out). |
| Text.Trim | src/data/mockData.ts:344-346 | `trim` gives the empty string exactly for blank input. Otherwise the result neither starts nor ends with white space. It is a slice of the input, and everything the input holds before and after that slice is white space. |
| Text.ContainsAt | src/data/mockData.ts:350-351 | `includes` holds exactly when the needle occurs at some position. |
| Text.LowerKeepsContains | src/data/mockData.ts:350-351 | An exact occurrence survives lower-casing both sides. |

## Left out

- Rendering, CSS, routing and navigation (`navigate('/search')`) are not modelled, nor are the `setTimeout` delay and the registration of listeners in `useEffect`. The click-outside handler itself is `SearchForm.Form.HandleClickOutside`; whether the click target lies inside a dropdown's element is its parameter.
- `Math.random` is an input, not a distribution. The model states ranges and structure only.
- `getAllHotels`, `getHotelById` and `searchHotels` each regenerate the 45 extra hotels. The model passes one set of draws, so two calls see the same catalog only if given the same draws.
- Text.Lower, MockData.GetLocationSuggestions, MockData.SearchHotels, MockData.MatchesLocation, SearchResultsPage.FetchResults: only the ASCII letters A-Z are lower-cased. JavaScript's `toLowerCase` folds all of Unicode. For example the Kelvin sign U+212A becomes "k", so it finds "new york" in the source but nothing in the model. Some characters also change length: U+0130 becomes two code units, against `Lower`'s length-preserving contract. The location stage and the suggestions agree with the source on ASCII input only.
- Floating point: prices are integers. Scores and distances are exact reals. IEEE rounding of `current / 100` is not modelled, and neither is `toFixed`.
- Date formatting (`toLocaleDateString`, date-fns `format`) is the parameter `format`. A date is an opaque value.
- Hotel fields that no modelled operation reads (images, description, coordinates, address, deals) are dropped from `Hotel`. The provider `logo` and `url` are dropped from `PriceOption`.
- MockData.SortHotels, MockData.SearchHotels, SearchResultsPage.FetchResults, MockData.PriceOptionsFor, MockData.GetPriceOptions: stability of `Array.prototype.sort` is not stated. Hotels with equal keys, and price offers with equal prices, may come out in any order. Offer prices can tie (Hotels.com can match Booking.com, and Agoda can match the direct price). The model proves order and permutation only.
- FilterPanel.SortStars: JavaScript's default `.sort()` compares stars as strings. The model sorts numerically, which gives the same order for the panel's star values 1 to 5.
- FilterPanel.Panel.HandlePriceChange and FilterPanel.Panel.HandleDistanceChange: `parseInt` of the input's text is not modelled. The handlers take the parsed integer, and the `NaN` case of a non-numeric input is left out.
- The `sortBy` field is a string. The interface declares other literals ('priceLowToHigh', ...) than the ones the search compares against ('price-low', ...). Any string reaches the `default` branch as in the source.
- SearchResultsPage.GetSearchSummary: `guests` is optional in the interface, but the default sets it and no update clears it. The model keeps it always present, so the guests segment is always appended.
- The results page's `handleSortChange` and `toggleFilters`, and the gallery's full-screen toggle, are not modelled: they are one-line state setters outside the named core.
- Authentication, the AI-assisted search form and the detail page's loading glue are outside the modelled core.

## Findings

| source | as written | input that shows it | evidently intended | confidence | as-written member | corrected member |
|---|---|---|---|---|---|---|
| src/data/mockData.ts:281 | `getPriceOptions` looks the hotel up among the seeds plus `generateMoreHotels(20)`, i.e. `hotel-1` to `hotel-25`. The catalog listed by `getAllHotels` (and so by the search) runs to `hotel-50`. | `getPriceOptions("hotel-26")` returns `[]` although `getHotelById("hotel-26")` finds the hotel. | Look the hotel up in the same catalog the application lists, so every listed hotel gets offers. | not executed; medium (the detail page shows an empty comparison for half the listed hotels) | MockData.PriceOptionsMissListedHotel | MockData.CatalogPriceOptionsCoverCatalog |
