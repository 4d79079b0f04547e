/** The shared search state of `SearchContext.tsx`: the `SearchFilters` and
    `SearchParams` records, their defaults, and the two shallow merges
    `updateSearchParams` and `updateFilters` hand to the state setter.
    A `Partial<...>` argument is a patch whose absent fields are `None`. */
module SearchContext {
  import opened Wrappers

  /** A calendar date; only whether one is set matters to the model. */
  datatype Date = Date(epochMillis: int)

  datatype Guests = Guests(adults: int, children: int, rooms: int)

  datatype SearchFilters = SearchFilters(
    minPrice: int,
    maxPrice: int,
    stars: seq<int>,
    propertyTypes: seq<string>,
    amenities: seq<string>,
    distance: Option<real>)

  /** `guests` is optional in the interface, but the default sets it and no
      update removes it, so the model keeps it always present. */
  datatype SearchParams = SearchParams(
    location: string,
    price: Option<int>,
    priceOperator: string,
    rating: Option<real>,
    ratingOperator: string,
    amenities: seq<string>,
    checkIn: Option<Date>,
    checkOut: Option<Date>,
    guests: Guests,
    filters: SearchFilters,
    sortBy: string)

  const DefaultGuests := Guests(2, 0, 1)

  const DefaultFilters := SearchFilters(0, 500, [], [], [], None)

  const DefaultSearchParams :=
    SearchParams("", None, "", None, "", [], None, None, DefaultGuests, DefaultFilters, "recommended")

  /** The defaults: an empty location, the full 0..500 price band, no list
      filter, no distance, two adults in one room, recommended order. */
  lemma DefaultsAreUnfiltered()
    ensures DefaultSearchParams.location == "" && DefaultSearchParams.sortBy == "recommended"
    ensures DefaultSearchParams.filters.minPrice == 0 && DefaultSearchParams.filters.maxPrice == 500
    ensures DefaultSearchParams.filters.stars == [] && DefaultSearchParams.filters.propertyTypes == []
    ensures DefaultSearchParams.filters.amenities == [] && DefaultSearchParams.filters.distance.None?
    ensures DefaultSearchParams.guests == Guests(2, 0, 1)
    ensures DefaultSearchParams.checkIn.None? && DefaultSearchParams.checkOut.None?
  {
  }

  // ---------------------------------------------------------------------------
  // Patches
  // ---------------------------------------------------------------------------

  /** `Partial<SearchFilters>`. A field given as `undefined` is still present
      in the spread, so `distance` is `Some(None)` when it is cleared. */
  datatype FiltersPatch = FiltersPatch(
    minPrice: Option<int>,
    maxPrice: Option<int>,
    stars: Option<seq<int>>,
    propertyTypes: Option<seq<string>>,
    amenities: Option<seq<string>>,
    distance: Option<Option<real>>)

  /** `Partial<SearchParams>`. */
  datatype ParamsPatch = ParamsPatch(
    location: Option<string>,
    price: Option<Option<int>>,
    priceOperator: Option<string>,
    rating: Option<Option<real>>,
    ratingOperator: Option<string>,
    amenities: Option<seq<string>>,
    checkIn: Option<Option<Date>>,
    checkOut: Option<Option<Date>>,
    guests: Option<Guests>,
    filters: Option<SearchFilters>,
    sortBy: Option<string>)

  const NoFilters := FiltersPatch(None, None, None, None, None, None)

  const NoParams := ParamsPatch(None, None, None, None, None, None, None, None, None, None, None)

  /** A field of `{ ...prev, ...patch }`: the patch's value when present. */
  function Spread<T>(patch: Option<T>, prev: T): T {
    if patch.Some? then patch.value else prev
  }

  /** `{ ...prev, ...patch }` on filters. */
  function MergeFilters(prev: SearchFilters, patch: FiltersPatch): SearchFilters {
    SearchFilters(
      Spread(patch.minPrice, prev.minPrice),
      Spread(patch.maxPrice, prev.maxPrice),
      Spread(patch.stars, prev.stars),
      Spread(patch.propertyTypes, prev.propertyTypes),
      Spread(patch.amenities, prev.amenities),
      Spread(patch.distance, prev.distance))
  }

  /** `updateSearchParams(params)`: `{ ...prev, ...params }`. Every field the
      patch supplies takes the supplied value, every other field is kept. */
  function UpdateSearchParams(prev: SearchParams, patch: ParamsPatch): (r: SearchParams)
    ensures patch.location.Some? ==> r.location == patch.location.value
    ensures patch.location.None? ==> r.location == prev.location
    ensures patch.price.Some? ==> r.price == patch.price.value
    ensures patch.price.None? ==> r.price == prev.price
    ensures patch.priceOperator.Some? ==> r.priceOperator == patch.priceOperator.value
    ensures patch.priceOperator.None? ==> r.priceOperator == prev.priceOperator
    ensures patch.rating.Some? ==> r.rating == patch.rating.value
    ensures patch.rating.None? ==> r.rating == prev.rating
    ensures patch.ratingOperator.Some? ==> r.ratingOperator == patch.ratingOperator.value
    ensures patch.ratingOperator.None? ==> r.ratingOperator == prev.ratingOperator
    ensures patch.amenities.Some? ==> r.amenities == patch.amenities.value
    ensures patch.amenities.None? ==> r.amenities == prev.amenities
    ensures patch.checkIn.Some? ==> r.checkIn == patch.checkIn.value
    ensures patch.checkIn.None? ==> r.checkIn == prev.checkIn
    ensures patch.checkOut.Some? ==> r.checkOut == patch.checkOut.value
    ensures patch.checkOut.None? ==> r.checkOut == prev.checkOut
    ensures patch.guests.Some? ==> r.guests == patch.guests.value
    ensures patch.guests.None? ==> r.guests == prev.guests
    ensures patch.filters.Some? ==> r.filters == patch.filters.value
    ensures patch.filters.None? ==> r.filters == prev.filters
    ensures patch.sortBy.Some? ==> r.sortBy == patch.sortBy.value
    ensures patch.sortBy.None? ==> r.sortBy == prev.sortBy
  {
    SearchParams(
      Spread(patch.location, prev.location),
      Spread(patch.price, prev.price),
      Spread(patch.priceOperator, prev.priceOperator),
      Spread(patch.rating, prev.rating),
      Spread(patch.ratingOperator, prev.ratingOperator),
      Spread(patch.amenities, prev.amenities),
      Spread(patch.checkIn, prev.checkIn),
      Spread(patch.checkOut, prev.checkOut),
      Spread(patch.guests, prev.guests),
      Spread(patch.filters, prev.filters),
      Spread(patch.sortBy, prev.sortBy))
  }

  /** `updateFilters(filters)`: only `filters` changes, and within it only the
      supplied fields. */
  function UpdateFilters(prev: SearchParams, patch: FiltersPatch): (r: SearchParams)
    ensures r.(filters := prev.filters) == prev
    ensures patch.minPrice.Some? ==> r.filters.minPrice == patch.minPrice.value
    ensures patch.minPrice.None? ==> r.filters.minPrice == prev.filters.minPrice
    ensures patch.maxPrice.Some? ==> r.filters.maxPrice == patch.maxPrice.value
    ensures patch.maxPrice.None? ==> r.filters.maxPrice == prev.filters.maxPrice
    ensures patch.stars.Some? ==> r.filters.stars == patch.stars.value
    ensures patch.stars.None? ==> r.filters.stars == prev.filters.stars
    ensures patch.propertyTypes.Some? ==> r.filters.propertyTypes == patch.propertyTypes.value
    ensures patch.propertyTypes.None? ==> r.filters.propertyTypes == prev.filters.propertyTypes
    ensures patch.amenities.Some? ==> r.filters.amenities == patch.amenities.value
    ensures patch.amenities.None? ==> r.filters.amenities == prev.filters.amenities
    ensures patch.distance.Some? ==> r.filters.distance == patch.distance.value
    ensures patch.distance.None? ==> r.filters.distance == prev.filters.distance
  {
    prev.(filters := MergeFilters(prev.filters, patch))
  }

  // ---------------------------------------------------------------------------
  // Algebra of the merges
  // ---------------------------------------------------------------------------

  /** Two patches in a row, as one: the second's fields override the first's. */
  function Then<T>(first: Option<T>, second: Option<T>): Option<T> {
    if second.Some? then second else first
  }

  function ThenParams(a: ParamsPatch, b: ParamsPatch): ParamsPatch {
    ParamsPatch(
      Then(a.location, b.location), Then(a.price, b.price),
      Then(a.priceOperator, b.priceOperator), Then(a.rating, b.rating),
      Then(a.ratingOperator, b.ratingOperator), Then(a.amenities, b.amenities),
      Then(a.checkIn, b.checkIn), Then(a.checkOut, b.checkOut),
      Then(a.guests, b.guests), Then(a.filters, b.filters), Then(a.sortBy, b.sortBy))
  }

  function ThenFilters(a: FiltersPatch, b: FiltersPatch): FiltersPatch {
    FiltersPatch(
      Then(a.minPrice, b.minPrice), Then(a.maxPrice, b.maxPrice),
      Then(a.stars, b.stars), Then(a.propertyTypes, b.propertyTypes),
      Then(a.amenities, b.amenities), Then(a.distance, b.distance))
  }

  /** Two successive `updateSearchParams` calls are one call with the merged patch. */
  lemma UpdateSearchParamsTwice(p: SearchParams, a: ParamsPatch, b: ParamsPatch)
    ensures UpdateSearchParams(UpdateSearchParams(p, a), b) == UpdateSearchParams(p, ThenParams(a, b))
  {
  }

  /** Two successive `updateFilters` calls are one call with the merged patch. */
  lemma UpdateFiltersTwice(p: SearchParams, a: FiltersPatch, b: FiltersPatch)
    ensures UpdateFilters(UpdateFilters(p, a), b) == UpdateFilters(p, ThenFilters(a, b))
  {
  }

  /** An empty patch changes nothing. */
  lemma EmptyPatchesAreIdentity(p: SearchParams)
    ensures UpdateSearchParams(p, NoParams) == p
    ensures UpdateFilters(p, NoFilters) == p
  {
  }

  /** Applying the same patch twice is applying it once. */
  lemma UpdatesAreIdempotent(p: SearchParams, a: ParamsPatch, f: FiltersPatch)
    ensures UpdateSearchParams(UpdateSearchParams(p, a), a) == UpdateSearchParams(p, a)
    ensures UpdateFilters(UpdateFilters(p, f), f) == UpdateFilters(p, f)
  {
  }

  /** `updateFilters(f)` is `updateSearchParams({ filters: { ...prev.filters, ...f } })`. */
  lemma UpdateFiltersIsNestedSpread(p: SearchParams, f: FiltersPatch)
    ensures UpdateFilters(p, f) ==
      UpdateSearchParams(p, NoParams.(filters := Some(MergeFilters(p.filters, f))))
  {
  }
}
