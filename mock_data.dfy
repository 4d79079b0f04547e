/** The in-memory data layer: the seed catalog, the synthetic catalog
    expansion, location suggestions, provider price offers, look-up by id and
    the hotel search with its filters and sort orders.

    Every `Math.random()` call of the original is an explicit input here: a
    real number in [0, 1) named after what it decides. */
module MockData {
  import opened Wrappers
  import opened Text
  import opened Seqs
  import opened Types

  // ---------------------------------------------------------------------------
  // Seed data
  // ---------------------------------------------------------------------------

  /** The destinations offered as suggestions, in declaration order. */
  const PopularDestinations: seq<Destination> := [
    Destination("new-york", "New York", "United States"),
    Destination("paris", "Paris", "France"),
    Destination("tokyo", "Tokyo", "Japan"),
    Destination("london", "London", "United Kingdom"),
    Destination("rome", "Rome", "Italy"),
    Destination("barcelona", "Barcelona", "Spain")
  ]

  /** The five hand-written hotels the catalog is grown from. */
  const Hotels: seq<Hotel> := [
    Hotel("hotel-1", "Grand Plaza Hotel", HotelLocation("New York", "United States"), 5,
          Rating(9.2, 2453, "Excellent"), Price(350, 305, Some(15), 45),
          ["Free WiFi", "Pool", "Spa", "Fitness Center", "Restaurant", "Room Service", "Parking", "Bar"],
          "Hotel", 0.8),
    Hotel("hotel-2", "Urban Loft Suites", HotelLocation("New York", "United States"), 4,
          Rating(8.9, 1876, "Very Good"), Price(250, 225, Some(10), 35),
          ["Free WiFi", "Kitchen", "Laundry", "Air Conditioning", "Workspace", "TV"],
          "Apartment", 1.5),
    Hotel("hotel-3", "Seaside Resort & Spa", HotelLocation("Miami", "United States"), 5,
          Rating(9.5, 3217, "Exceptional"), Price(425, 340, Some(20), 55),
          ["Beach Access", "Free WiFi", "Multiple Pools", "Spa", "Restaurant", "Bar", "Water Sports", "Gym"],
          "Resort", 3.2),
    Hotel("hotel-4", "Downtown Business Hotel", HotelLocation("Chicago", "United States"), 4,
          Rating(8.7, 2108, "Very Good"), Price(280, 280, None, 40),
          ["Free WiFi", "Business Center", "Meeting Rooms", "Restaurant", "Gym", "Parking", "Room Service"],
          "Hotel", 0.5),
    Hotel("hotel-5", "Historic Boutique Inn", HotelLocation("Boston", "United States"), 4,
          Rating(9.3, 1538, "Excellent"), Price(320, 288, Some(10), 42),
          ["Free WiFi", "Breakfast Included", "Garden", "Lounge", "Concierge", "Library"],
          "Inn", 1.2)
  ]

  // ---------------------------------------------------------------------------
  // Catalog expansion
  // ---------------------------------------------------------------------------

  const Cities: seq<string> :=
    ["London", "Paris", "Tokyo", "Rome", "Barcelona", "Berlin", "Sydney", "Dubai", "India"]

  const HotelTypes: seq<string> := ["Hotel", "Resort", "Apartment", "Guesthouse", "Villa", "Inn", "Hostel"]

  /** A value of `Math.random()`. */
  predicate IsRandom(x: real) {
    0.0 <= x < 1.0
  }

  /** The random draws made for one generated hotel. The discount amount is
      only used when `discountCoin` exceeds one half. */
  datatype Draws = Draws(
    stars: real, base: real, current: real, discountCoin: real, discount: real,
    taxes: real, score: real, count: real, distance: real)

  predicate ValidDraws(d: Draws) {
    && IsRandom(d.stars) && IsRandom(d.base) && IsRandom(d.current)
    && IsRandom(d.discountCoin) && IsRandom(d.discount) && IsRandom(d.taxes)
    && IsRandom(d.score) && IsRandom(d.count) && IsRandom(d.distance)
  }

  predicate AllValidDraws(draws: seq<Draws>) {
    forall i :: 0 <= i < |draws| ==> ValidDraws(draws[i])
  }

  function Min(a: int, b: int): int { if a <= b then a else b }

  function Max(a: int, b: int): int { if a >= b then a else b }

  /** The hotel pushed at index `i` of the expansion loop: a copy of seed
      `i % 5` with a new id and name, the city and property type of the two
      rotations, and randomised stars, prices, rating and distance. */
  function GeneratedHotel(i: nat, d: Draws): (h: Hotel)
    requires ValidDraws(d)
    ensures h.id == "hotel-" + NatToString(i + 6)
    ensures h.location.city == Cities[i % |Cities|]
    ensures h.location.country == Hotels[i % |Hotels|].location.country
    ensures h.amenities == Hotels[i % |Hotels|].amenities
    ensures h.propertyType == HotelTypes[i % |HotelTypes|]
    ensures 1 <= h.stars <= 5
    ensures 150 <= h.price.base <= 499 && 150 <= h.price.current <= 449
    ensures 20 <= h.price.taxesAndFees <= 69
    ensures h.price.discount.Some? ==> 0 <= h.price.discount.value <= 29
    ensures 6.0 <= h.rating.score < 10.0 && 500 <= h.rating.count <= 3499
    ensures 0.0 <= h.distanceFromCenter < 5.0
  {
    var seed := Hotels[i % |Hotels|];
    var city := Cities[i % |Cities|];
    var kind := HotelTypes[i % |HotelTypes|];
    seed.(
      id := "hotel-" + NatToString(i + 6),
      name := city + " " + kind + " " + NatToString(i + 1),
      location := seed.location.(city := city),
      stars := Min(5, Max(1, (d.stars * 5.0).Floor + 1)),
      price := Price(
        150 + (d.base * 350.0).Floor,
        150 + (d.current * 300.0).Floor,
        if d.discountCoin > 0.5 then Some((d.discount * 30.0).Floor) else None,
        20 + (d.taxes * 50.0).Floor),
      rating := Rating(6.0 + d.score * 4.0, 500 + (d.count * 3000.0).Floor, "Good"),
      propertyType := kind,
      distanceFromCenter := d.distance * 5.0)
  }

  /** What `generateMoreHotels(|draws|)` returns for the given draws. */
  function MoreHotels(draws: seq<Draws>): (r: seq<Hotel>)
    requires AllValidDraws(draws)
    ensures |r| == |draws|
    ensures forall i :: 0 <= i < |draws| ==> r[i] == GeneratedHotel(i, draws[i])
  {
    seq(|draws|, i requires 0 <= i < |draws| => GeneratedHotel(i, draws[i]))
  }

  /** `generateMoreHotels(count)`: a loop pushing one generated hotel per
      index onto a fresh list; the seed list is a constant and stays as it is. */
  method GenerateMoreHotels(count: nat, draws: seq<Draws>) returns (moreHotels: seq<Hotel>)
    requires |draws| == count && AllValidDraws(draws)
    ensures |moreHotels| == count
    ensures forall i :: 0 <= i < count ==> moreHotels[i] == GeneratedHotel(i, draws[i])
    ensures moreHotels == MoreHotels(draws)
  {
    moreHotels := [];
    for i := 0 to count
      invariant |moreHotels| == i
      invariant forall k :: 0 <= k < i ==> moreHotels[k] == GeneratedHotel(k, draws[k])
    {
      var hotel := GeneratedHotel(i, draws[i]);
      ghost var before := moreHotels;
      moreHotels := moreHotels + [hotel];
      assert forall k :: 0 <= k < i ==> moreHotels[k] == before[k];
    }
  }

  /** The number of generated hotels in the catalog. */
  const CatalogExtra: nat := 45

  /** `getAllHotels()`: the seeds followed by 45 generated hotels. */
  function AllHotels(draws: seq<Draws>): (r: seq<Hotel>)
    requires |draws| == CatalogExtra && AllValidDraws(draws)
    ensures |r| == 50 && r[..|Hotels|] == Hotels
    ensures forall i :: 0 <= i < CatalogExtra ==> r[|Hotels| + i] == GeneratedHotel(i, draws[i])
  {
    Hotels + MoreHotels(draws)
  }

  /** Every seed and generated hotel is priced between 150 and 449. */
  lemma CatalogPriceBand(draws: seq<Draws>)
    requires AllValidDraws(draws)
    ensures forall h :: h in Hotels + MoreHotels(draws) ==> 150 <= h.price.current <= 449
  {
    forall h | h in Hotels + MoreHotels(draws) ensures 150 <= h.price.current <= 449 {
      if h in Hotels {
        var k :| 0 <= k < |Hotels| && Hotels[k] == h;
        assert k == 0 || k == 1 || k == 2 || k == 3 || k == 4;
      } else {
        var k :| 0 <= k < |draws| && MoreHotels(draws)[k] == h;
      }
    }
  }

  /** Hotel `k` of the seeds followed by generated hotels is `hotel-(k+1)`. */
  lemma {:induction false} CatalogIds(draws: seq<Draws>, k: nat)
    requires AllValidDraws(draws) && k < |Hotels| + |draws|
    ensures (Hotels + MoreHotels(draws))[k].id == "hotel-" + NatToString(k + 1)
  {
    if k < |Hotels| {
      assert NatToString(k + 1) == [Digit(k + 1)];
      assert "0123456789"[1] == '1' && "0123456789"[2] == '2' && "0123456789"[3] == '3';
      assert "0123456789"[4] == '4' && "0123456789"[5] == '5';
    } else {
      assert (Hotels + MoreHotels(draws))[k] == GeneratedHotel(k - 5, draws[k - 5]);
    }
  }

  /** `"hotel-" + n` determines `n`. */
  lemma HotelIdInjective(m: nat, n: nat)
    requires "hotel-" + NatToString(m) == "hotel-" + NatToString(n)
    ensures m == n
  {
    assert NatToString(m) == ("hotel-" + NatToString(m))[6..];
    assert NatToString(n) == ("hotel-" + NatToString(n))[6..];
    NatToStringInjective(m, n);
  }

  /** No two hotels of the seeds followed by generated hotels share an id. */
  lemma CatalogIdsDistinct(draws: seq<Draws>)
    requires AllValidDraws(draws)
    ensures forall i, j :: 0 <= i < j < |Hotels| + |draws| ==>
      (Hotels + MoreHotels(draws))[i].id != (Hotels + MoreHotels(draws))[j].id
  {
    forall i, j | 0 <= i < j < |Hotels| + |draws|
      ensures (Hotels + MoreHotels(draws))[i].id != (Hotels + MoreHotels(draws))[j].id
    {
      CatalogIds(draws, i);
      CatalogIds(draws, j);
      if (Hotels + MoreHotels(draws))[i].id == (Hotels + MoreHotels(draws))[j].id {
        HotelIdInjective(i + 1, j + 1);
      }
    }
  }

  /** `getAllHotels()` lists 50 hotels, `hotel-1` to `hotel-50`, ids all distinct. */
  lemma AllHotelsShape(draws: seq<Draws>)
    requires |draws| == CatalogExtra && AllValidDraws(draws)
    ensures |AllHotels(draws)| == 50
    ensures forall k :: 0 <= k < 50 ==> AllHotels(draws)[k].id == "hotel-" + NatToString(k + 1)
    ensures forall i, j :: 0 <= i < j < 50 ==> AllHotels(draws)[i].id != AllHotels(draws)[j].id
  {
    forall k | 0 <= k < 50 ensures AllHotels(draws)[k].id == "hotel-" + NatToString(k + 1) {
      CatalogIds(draws, k);
    }
    CatalogIdsDistinct(draws);
  }

  // ---------------------------------------------------------------------------
  // Look-up by id
  // ---------------------------------------------------------------------------

  /** `hotels.find(h => h.id === id)`: the first hotel with that id. */
  function FindById(hotels: seq<Hotel>, id: string): (r: Option<Hotel>)
    ensures r.None? <==> forall h :: h in hotels ==> h.id != id
    ensures r.Some? ==> exists i :: (0 <= i < |hotels| && hotels[i] == r.value && r.value.id == id
      && forall j :: 0 <= j < i ==> hotels[j].id != id)
  {
    if hotels == [] then None
    else if hotels[0].id == id then Some(hotels[0])
    else
      var r := FindById(hotels[1..], id);
      assert forall h :: h in hotels ==> h == hotels[0] || h in hotels[1..];
      if r.Some? then
        var i :| 0 <= i < |hotels[1..]| && hotels[1..][i] == r.value && r.value.id == id
          && forall j :: 0 <= j < i ==> hotels[1..][j].id != id;
        assert hotels[i + 1] == r.value;
        r
      else r
  }

  /** `getHotelById(id)`, which regenerates the catalog: the first hotel of
      `getAllHotels()` with that id, if any. */
  function GetHotelById(id: string, draws: seq<Draws>): (r: Option<Hotel>)
    requires |draws| == CatalogExtra && AllValidDraws(draws)
    ensures r.Some? ==> r.value in AllHotels(draws) && r.value.id == id
    ensures r.None? ==> forall h :: h in AllHotels(draws) ==> h.id != id
  {
    FindById(AllHotels(draws), id)
  }

  /** Every hotel of the catalog is found again by its own id. */
  lemma GetHotelByIdFindsEach(draws: seq<Draws>, k: nat)
    requires |draws| == CatalogExtra && AllValidDraws(draws) && k < |AllHotels(draws)|
    ensures GetHotelById(AllHotels(draws)[k].id, draws) == Some(AllHotels(draws)[k])
  {
    var all := AllHotels(draws);
    AllHotelsShape(draws);
    var r := GetHotelById(all[k].id, draws);
    assert all[k] in all;
    var i :| 0 <= i < |all| && all[i] == r.value && r.value.id == all[k].id
      && forall j :: 0 <= j < i ==> all[j].id != all[k].id;
    assert i == k;
  }

  // ---------------------------------------------------------------------------
  // Location suggestions
  // ---------------------------------------------------------------------------

  predicate SuggestionMatches(normalizedQuery: string, d: Destination) {
    Contains(Lower(d.name), normalizedQuery) || Contains(Lower(d.country), normalizedQuery)
  }

  /** `getLocationSuggestions(query)`: nothing for a blank query; otherwise the
      destinations whose lower-cased name or country contains the lower-cased,
      trimmed query, in declaration order. */
  function GetLocationSuggestions(query: string): (r: seq<Destination>)
    ensures IsBlank(query) ==> r == []
    ensures !IsBlank(query) ==> forall d :: d in r <==>
      d in PopularDestinations && SuggestionMatches(Trim(Lower(query)), d)
    ensures IsSubsequence(r, PopularDestinations)
  {
    if Trim(query) == [] then []
    else
      var normalizedQuery := Trim(Lower(query));
      FilterIsSubsequence(PopularDestinations, Suggests(normalizedQuery));
      FilterMembers(PopularDestinations, Suggests(normalizedQuery));
      Filter(PopularDestinations, Suggests(normalizedQuery))
  }

  /** `SuggestionMatches` as the test handed to `filter`. */
  function Suggests(normalizedQuery: string): Destination -> bool {
    d => SuggestionMatches(normalizedQuery, d)
  }

  /** Lower-casing never creates white space, so a non-blank query stays
      non-empty once normalised: a suggestion list never degenerates into
      "every destination" (the empty string, which every name contains). */
  lemma {:induction false} NormalizedQueryNonEmpty(query: string)
    requires !IsBlank(query)
    ensures Trim(Lower(query)) != []
  {
    var i :| 0 <= i < |query| && !IsSpace(query[i]);
    assert !IsSpace(Lower(query)[i]);
  }

  /** Typing "lon" suggests London. */
  lemma SuggestLon()
    ensures PopularDestinations[3] in GetLocationSuggestions("lon")
  {
    var london := PopularDestinations[3];
    assert !IsBlank("lon") by { assert !IsSpace("lon"[0]); }
    assert SuggestionMatches(Trim(Lower("lon")), london) by {
      NormalizedLon();
      LondonContainsLon();
    }
    assert london in PopularDestinations;
  }

  lemma NormalizedLon()
    ensures Trim(Lower("lon")) == "lon"
  {
    assert Lower("lon")[0] == 'l' && Lower("lon")[1] == 'o' && Lower("lon")[2] == 'n';
    assert LeadingSpaces("lon") == 0 by { assert !IsSpace("lon"[0]); }
    assert TrailingSpaces("lon") == 0 by { assert !IsSpace("lon"[2]); }
    assert "lon"[0..][..3] == "lon";
  }

  lemma LondonContainsLon()
    ensures Contains(Lower(PopularDestinations[3].name), "lon")
  {
    var name := Lower(PopularDestinations[3].name);
    assert name[0] == 'l' && name[1] == 'o' && name[2] == 'n';
    assert "lon" <= name;
  }

  // ---------------------------------------------------------------------------
  // Provider price offers
  // ---------------------------------------------------------------------------

  const ProviderNames: seq<string> := ["Booking.com", "Hotels.com", "Expedia", "Agoda", "Direct"]

  /** The random draws behind one price comparison. */
  datatype PriceDraws = PriceDraws(
    hotelsCom: real, expedia: real, expediaCancellation: real, expediaPayAtStay: real,
    agoda: real, agodaCancellation: real)

  predicate ValidPriceDraws(d: PriceDraws) {
    && IsRandom(d.hotelsCom) && IsRandom(d.expedia) && IsRandom(d.expediaCancellation)
    && IsRandom(d.expediaPayAtStay) && IsRandom(d.agoda) && IsRandom(d.agodaCancellation)
  }

  /** The five offers in the order they are written, before sorting. */
  function Offers(basePrice: int, d: PriceDraws): (r: seq<PriceOption>)
    ensures |r| == |ProviderNames|
    ensures forall k :: 0 <= k < |r| ==> r[k].provider == ProviderNames[k]
  {
    [ PriceOption("Booking.com", basePrice, None, true, true, false),
      PriceOption("Hotels.com", basePrice + (d.hotelsCom * 20.0).Floor - 10, None, true, true, true),
      PriceOption("Expedia", basePrice + (d.expedia * 30.0).Floor - 15, Some(basePrice + 40),
                  false, d.expediaCancellation > 0.5, d.expediaPayAtStay > 0.5),
      PriceOption("Agoda", basePrice + (d.agoda * 25.0).Floor - 20, None,
                  true, d.agodaCancellation > 0.3, true),
      PriceOption("Direct", basePrice - 5, None, true, true, false) ]
  }

  /** The price band each provider's offer falls in around `basePrice`. */
  predicate OfferInBand(o: PriceOption, basePrice: int) {
    && (o.provider == "Booking.com" ==> o.price == basePrice)
    && (o.provider == "Hotels.com" ==> basePrice - 10 <= o.price <= basePrice + 9)
    && (o.provider == "Expedia" ==>
          basePrice - 15 <= o.price <= basePrice + 14 && o.originalPrice == Some(basePrice + 40))
    && (o.provider == "Agoda" ==> basePrice - 20 <= o.price <= basePrice + 4)
    && (o.provider == "Direct" ==> o.price == basePrice - 5)
  }

  /** Exactly one offer per provider, each within its provider's band. */
  predicate OneOfferPerProvider(r: seq<PriceOption>, basePrice: int) {
    && |r| == |ProviderNames|
    && (forall o :: o in r ==> o.provider in ProviderNames && OfferInBand(o, basePrice))
    && (forall p :: p in ProviderNames ==> exists o :: o in r && o.provider == p)
  }

  predicate SortedByPrice(s: seq<PriceOption>) {
    forall i, j :: 0 <= i < j < |s| ==> s[i].price <= s[j].price
  }

  /** A list sorted by price stays sorted under a head no dearer than its offers. */
  lemma ConsSortedByPrice(o: PriceOption, t: seq<PriceOption>)
    requires SortedByPrice(t)
    requires forall x :: x in t ==> o.price <= x.price
    ensures SortedByPrice([o] + t)
  {
    var u := [o] + t;
    forall i, j | 0 <= i < j < |u| ensures u[i].price <= u[j].price {
      assert u[j] == t[j - 1] && t[j - 1] in t;
      if i > 0 {
        assert u[i] == t[i - 1];
      }
    }
  }

  /** Inserts `o` in front of the first offer that is not cheaper. */
  function InsertByPrice(o: PriceOption, s: seq<PriceOption>): (r: seq<PriceOption>)
    requires SortedByPrice(s)
    ensures SortedByPrice(r)
    ensures forall x :: x in r ==> x == o || x in s
    ensures multiset(r) == multiset(s) + multiset{o}
  {
    if s == [] then [o]
    else if o.price <= s[0].price then
      ConsSortedByPrice(o, s);
      [o] + s
    else
      var rest := s[1..];
      assert SortedByPrice(rest) by {
        forall i, j | 0 <= i < j < |rest| ensures rest[i].price <= rest[j].price {
          assert rest[i] == s[i + 1] && rest[j] == s[j + 1];
        }
      }
      var t := InsertByPrice(o, rest);
      assert s == [s[0]] + rest;
      assert forall x :: x in rest ==> s[0].price <= x.price;
      ConsSortedByPrice(s[0], t);
      [s[0]] + t
  }

  /** `.sort((a, b) => a.price - b.price)`: cheapest first, as a stable
      insertion sort. */
  function SortByPrice(s: seq<PriceOption>): (r: seq<PriceOption>)
    ensures SortedByPrice(r)
    ensures multiset(r) == multiset(s)
  {
    if s == [] then []
    else
      assert s == [s[0]] + s[1..];
      InsertByPrice(s[0], SortByPrice(s[1..]))
  }

  /** The unsorted offers: one per provider, each in its band. */
  lemma OffersShape(basePrice: int, d: PriceDraws)
    requires ValidPriceDraws(d)
    ensures OneOfferPerProvider(Offers(basePrice, d), basePrice)
  {
    var offers := Offers(basePrice, d);
    forall p | p in ProviderNames ensures exists o :: o in offers && o.provider == p {
      var k :| 0 <= k < 5 && ProviderNames[k] == p;
      assert offers[k] in offers && offers[k].provider == p;
    }
  }

  /** Sequences with the same multiset of offers satisfy `OneOfferPerProvider` alike. */
  lemma OneOfferPerProviderPermutation(r: seq<PriceOption>, s: seq<PriceOption>, basePrice: int)
    requires multiset(r) == multiset(s) && OneOfferPerProvider(s, basePrice)
    ensures OneOfferPerProvider(r, basePrice)
  {
    assert |r| == |s| by { assert |multiset(r)| == |multiset(s)|; }
    assert forall o :: o in r <==> o in s by {
      assert forall o :: o in r <==> o in multiset(s);
    }
  }

  /** The offers for `basePrice` sorted cheapest first. */
  function PriceOptionsFor(basePrice: int, d: PriceDraws): (r: seq<PriceOption>)
    requires ValidPriceDraws(d)
    ensures SortedByPrice(r)
    ensures multiset(r) == multiset(Offers(basePrice, d))
    ensures OneOfferPerProvider(r, basePrice)
  {
    var offers := Offers(basePrice, d);
    var r := SortByPrice(offers);
    OffersShape(basePrice, d);
    OneOfferPerProviderPermutation(r, offers, basePrice);
    r
  }

  /** `getPriceOptions(hotelId)`: the hotel is looked up among the seeds and
      20 freshly generated hotels; an unknown id gives no offers, a known one
      the five provider offers around its current price, cheapest first. */
  function GetPriceOptions(hotelId: string, draws: seq<Draws>, d: PriceDraws): (r: seq<PriceOption>)
    requires |draws| == 20 && AllValidDraws(draws) && ValidPriceDraws(d)
    ensures FindById(Hotels + MoreHotels(draws), hotelId).None? <==> r == []
    ensures FindById(Hotels + MoreHotels(draws), hotelId).Some? ==>
      var hotel := FindById(Hotels + MoreHotels(draws), hotelId).value;
      SortedByPrice(r) && OneOfferPerProvider(r, hotel.price.current)
  {
    match FindById(Hotels + MoreHotels(draws), hotelId)
    case None => []
    case Some(hotel) => PriceOptionsFor(hotel.price.current, d)
  }

  /** Only `hotel-1` to `hotel-25` have offers: `hotel-26` (listed by
      `getAllHotels`, hence by the search) gets none. */
  lemma PriceOptionsMissListedHotel(catalogDraws: seq<Draws>, draws: seq<Draws>, d: PriceDraws)
    requires |catalogDraws| == CatalogExtra && AllValidDraws(catalogDraws)
    requires |draws| == 20 && AllValidDraws(draws) && ValidPriceDraws(d)
    ensures GetHotelById("hotel-26", catalogDraws).Some?
    ensures GetPriceOptions("hotel-26", draws, d) == []
  {
    Hotel26Id();
    AllHotelsShape(catalogDraws);
    GetHotelByIdFindsEach(catalogDraws, 25);
    SmallLookupMisses26(draws);
  }

  lemma Hotel26Id()
    ensures "hotel-" + NatToString(26) == "hotel-26"
  {
    assert NatToString(26) == NatToString(2) + [Digit(6)];
    assert "0123456789"[2] == '2' && "0123456789"[6] == '6';
  }

  /** No hotel among the seeds and 20 generated ones is `hotel-26`. */
  lemma SmallLookupMisses26(draws: seq<Draws>)
    requires |draws| == 20 && AllValidDraws(draws)
    ensures forall h :: h in Hotels + MoreHotels(draws) ==> h.id != "hotel-26"
  {
    Hotel26Id();
    var small := Hotels + MoreHotels(draws);
    forall h | h in small ensures h.id != "hotel-" + NatToString(26) {
      var k :| 0 <= k < |small| && small[k] == h;
      CatalogIds(draws, k);
      if h.id == "hotel-" + NatToString(26) { HotelIdInjective(k + 1, 26); }
    }
  }

  /** Offers for a hotel looked up in the catalog the application lists,
      priced around that hotel's own current price. */
  function GetCatalogPriceOptions(hotelId: string, catalogDraws: seq<Draws>, d: PriceDraws): (r: seq<PriceOption>)
    requires |catalogDraws| == CatalogExtra && AllValidDraws(catalogDraws) && ValidPriceDraws(d)
    ensures GetHotelById(hotelId, catalogDraws).None? ==> r == []
    ensures GetHotelById(hotelId, catalogDraws).Some? ==>
      SortedByPrice(r) && OneOfferPerProvider(r, GetHotelById(hotelId, catalogDraws).value.price.current)
  {
    match GetHotelById(hotelId, catalogDraws)
    case None => []
    case Some(hotel) => PriceOptionsFor(hotel.price.current, d)
  }

  /** Every listed hotel has offers, and Booking.com offers its displayed price. */
  lemma CatalogPriceOptionsCoverCatalog(catalogDraws: seq<Draws>, d: PriceDraws, k: nat)
    requires |catalogDraws| == CatalogExtra && AllValidDraws(catalogDraws) && ValidPriceDraws(d)
    requires k < |AllHotels(catalogDraws)|
    ensures var h := AllHotels(catalogDraws)[k];
      OneOfferPerProvider(GetCatalogPriceOptions(h.id, catalogDraws, d), h.price.current)
  {
    GetHotelByIdFindsEach(catalogDraws, k);
  }

  // ---------------------------------------------------------------------------
  // Search
  // ---------------------------------------------------------------------------

  /** The filter argument of `searchHotels`; every field may be left out. */
  datatype Query = Query(
    minPrice: Option<int>,
    maxPrice: Option<int>,
    stars: Option<seq<int>>,
    propertyTypes: Option<seq<string>>,
    amenities: Option<seq<string>>,
    distance: Option<real>)

  /** Location stage: an empty query keeps everything, otherwise the city or
      the country must contain it, ignoring case (the query is not trimmed). */
  predicate MatchesLocation(location: string, h: Hotel)
    ensures Contains(h.location.city, location) ==> MatchesLocation(location, h)
    ensures Contains(h.location.country, location) ==> MatchesLocation(location, h)
  {
    LowerKeepsContains(h.location.city, location);
    LowerKeepsContains(h.location.country, location);
    location == []
    || Contains(Lower(h.location.city), Lower(location))
    || Contains(Lower(h.location.country), Lower(location))
  }

  /** Price stage: both bounds inclusive, an absent bound ignored. */
  predicate InPriceRange(q: Query, h: Hotel)
    ensures InPriceRange(q, h) && q.minPrice.Some? && q.maxPrice.Some? ==> q.minPrice.value <= q.maxPrice.value
  {
    && (q.minPrice.None? || h.price.current >= q.minPrice.value)
    && (q.maxPrice.None? || h.price.current <= q.maxPrice.value)
  }

  predicate HasAllAmenities(required: seq<string>, h: Hotel) {
    forall a :: a in required ==> a in h.amenities
  }

  /** What a hotel must satisfy to be a search result: the conjunction of the
      six stages, where an absent or empty list imposes nothing. */
  predicate Matches(location: string, q: Query, h: Hotel)
    ensures (q.minPrice.None? && q.maxPrice.None? && q.distance.None?
      && (q.stars.None? || q.stars.value == []) && (q.propertyTypes.None? || q.propertyTypes.value == [])
      && (q.amenities.None? || q.amenities.value == [])) ==>
      (Matches(location, q, h) <==> MatchesLocation(location, h))
  {
    && MatchesLocation(location, h)
    && InPriceRange(q, h)
    && (q.stars.None? || q.stars.value == [] || h.stars in q.stars.value)
    && (q.propertyTypes.None? || q.propertyTypes.value == [] || h.propertyType in q.propertyTypes.value)
    && (q.amenities.None? || HasAllAmenities(q.amenities.value, h))
    && (q.distance.None? || h.distanceFromCenter <= q.distance.value)
  }

  /** The matching hotels of `catalog`, in catalog order. */
  function MatchingHotels(catalog: seq<Hotel>, location: string, q: Query): seq<Hotel> {
    Filter(catalog, Matcher(location, q))
  }

  /** The matching hotels are the catalog hotels that match. */
  lemma MatchingMembers(catalog: seq<Hotel>, location: string, q: Query)
    ensures forall h :: h in MatchingHotels(catalog, location, q) <==> h in catalog && Matches(location, q, h)
  {
    FilterMembers(catalog, Matcher(location, q));
  }

  /** `Matches` as the test handed to `filter`. */
  function Matcher(location: string, q: Query): Hotel -> bool {
    h => Matches(location, q, h)
  }

  /** `a.rating.score * 10 - a.price.current / 100`, the recommended ranking. */
  function RecommendedScore(h: Hotel): (r: real)
    ensures h.price.current >= 0 ==> r <= h.rating.score * 10.0
    ensures h.price.current < 100 ==> r > h.rating.score * 10.0 - 1.0
  {
    h.rating.score * 10.0 - h.price.current as real / 100.0
  }

  /** The comparator `searchHotels` hands to `sort` for each sort key; a
      negative value puts `a` first. Unknown keys fall back to `recommended`. */
  function Compare(sortBy: string, a: Hotel, b: Hotel): (r: real)
    ensures r < 0.0 <==> SortKey(sortBy, a) < SortKey(sortBy, b)
    ensures r == 0.0 <==> SortKey(sortBy, a) == SortKey(sortBy, b)
  {
    if sortBy == "price-low" then (a.price.current - b.price.current) as real
    else if sortBy == "price-high" then (b.price.current - a.price.current) as real
    else if sortBy == "rating" then b.rating.score - a.rating.score
    else if sortBy == "distance" then a.distanceFromCenter - b.distanceFromCenter
    else RecommendedScore(b) - RecommendedScore(a)
  }

  /** Every comparator above is a difference of keys; sorting by the key
      ascending is sorting by the comparator. */
  function SortKey(sortBy: string, h: Hotel): real {
    if sortBy == "price-low" then h.price.current as real
    else if sortBy == "price-high" then -(h.price.current as real)
    else if sortBy == "rating" then -h.rating.score
    else if sortBy == "distance" then h.distanceFromCenter
    else -RecommendedScore(h)
  }

  /** `SortKey` as the key handed to the sort. */
  function SortKeyOf(sortBy: string): Hotel -> real {
    h => SortKey(sortBy, h)
  }

  lemma CompareIsKeyDifference(sortBy: string, a: Hotel, b: Hotel)
    ensures Compare(sortBy, a, b) == SortKey(sortBy, a) - SortKey(sortBy, b)
  {
  }

  /** `s` is in the order the comparator for `sortBy` asks for. */
  predicate Ordered(sortBy: string, s: seq<Hotel>) {
    forall i, j :: 0 <= i < j < |s| ==> Compare(sortBy, s[i], s[j]) <= 0.0
  }

  /** `s` is ascending in `key`. */
  predicate AscendingBy<T>(s: seq<T>, key: T -> real) {
    forall i, j :: 0 <= i < j < |s| ==> key(s[i]) <= key(s[j])
  }

  /** `array.sort(comparator)` for a comparator that is a difference of keys:
      an in-place insertion sort, ascending in `key`. */
  method SortInPlace<T>(a: array<T>, key: T -> real)
    modifies a
    ensures AscendingBy(a[..], key)
    ensures multiset(a[..]) == multiset(old(a[..]))
  {
    var i := 0;
    while i < a.Length
      invariant 0 <= i <= a.Length
      invariant forall p, q :: 0 <= p < q < i ==> key(a[p]) <= key(a[q])
      invariant multiset(a[..]) == multiset(old(a[..]))
    {
      SinkLast(a, i, key);
      i := i + 1;
    }
  }

  /** One insertion step: `a[i]` is swapped down into the sorted prefix
      `a[..i]`, leaving `a[..i + 1]` sorted. */
  method SinkLast<T>(a: array<T>, i: int, key: T -> real)
    requires 0 <= i < a.Length
    requires forall p, q :: 0 <= p < q < i ==> key(a[p]) <= key(a[q])
    modifies a
    ensures forall p, q :: 0 <= p < q <= i ==> key(a[p]) <= key(a[q])
    ensures multiset(a[..]) == multiset(old(a[..]))
  {
    var j := i;
    while j > 0 && key(a[j - 1]) > key(a[j])
      invariant Sinking(a[..], i, j, key)
      invariant multiset(a[..]) == multiset(old(a[..]))
    {
      SwapKeepsSinking(a[..], i, j, key);
      Swap(a, j - 1, j);
      j := j - 1;
    }
    SinkingDone(a[..], i, j, key);
  }

  method Swap<T>(a: array<T>, x: int, y: int)
    requires 0 <= x < y < a.Length
    modifies a
    ensures a[..] == old(a[..])[x := old(a[y])][y := old(a[x])]
    ensures multiset(a[..]) == multiset(old(a[..]))
  {
    a[x], a[y] := a[y], a[x];
  }

  /** Mid-way through an insertion step: apart from the moving element at
      `j`, `s[..i + 1]` is ascending, and everything after `j` is larger. */
  predicate Sinking<T>(s: seq<T>, i: int, j: int, key: T -> real) {
    && 0 <= j <= i < |s|
    && (forall p, q :: 0 <= p < q <= i && p != j && q != j ==> key(s[p]) <= key(s[q]))
    && (forall q :: j < q <= i ==> key(s[j]) < key(s[q]))
  }

  lemma SwapKeepsSinking<T>(s: seq<T>, i: int, j: int, key: T -> real)
    requires Sinking(s, i, j, key) && j > 0 && key(s[j - 1]) > key(s[j])
    ensures Sinking(s[j - 1 := s[j]][j := s[j - 1]], i, j - 1, key)
  {
  }

  lemma SinkingDone<T>(s: seq<T>, i: int, j: int, key: T -> real)
    requires Sinking(s, i, j, key) && (j == 0 || key(s[j - 1]) <= key(s[j]))
    ensures forall p, q :: 0 <= p < q <= i ==> key(s[p]) <= key(s[q])
  {
    forall p, q | 0 <= p < q <= i ensures key(s[p]) <= key(s[q]) {
      if q == j && p < j - 1 {
        assert key(s[p]) <= key(s[j - 1]);
      }
    }
  }

  /** Ascending in the key of `sortBy` is the order each sort key promises. */
  lemma OrderedBySortKey(sortBy: string, s: seq<Hotel>)
    requires AscendingBy(s, SortKeyOf(sortBy))
    ensures Ordered(sortBy, s)
    ensures sortBy == "price-low" ==>
      forall i, j :: 0 <= i < j < |s| ==> s[i].price.current <= s[j].price.current
    ensures sortBy == "price-high" ==>
      forall i, j :: 0 <= i < j < |s| ==> s[i].price.current >= s[j].price.current
    ensures sortBy == "rating" ==>
      forall i, j :: 0 <= i < j < |s| ==> s[i].rating.score >= s[j].rating.score
    ensures sortBy == "distance" ==>
      forall i, j :: 0 <= i < j < |s| ==> s[i].distanceFromCenter <= s[j].distanceFromCenter
    ensures sortBy !in ["price-low", "price-high", "rating", "distance"] ==>
      forall i, j :: 0 <= i < j < |s| ==> RecommendedScore(s[i]) >= RecommendedScore(s[j])
  {
    forall i, j | 0 <= i < j < |s| ensures Compare(sortBy, s[i], s[j]) <= 0.0 {
      CompareIsKeyDifference(sortBy, s[i], s[j]);
    }
  }

  /** `searchHotels(location, filters, sortBy)` over a freshly generated
      catalog: it narrows the catalog stage by stage, then sorts in place. The
      result holds exactly the matching catalog hotels (a permutation of the
      matching subsequence) in the order `sortBy` asks for. */
  method SearchHotels(location: string, filters: Query, sortBy: string, draws: seq<Draws>)
    returns (result: seq<Hotel>)
    requires |draws| == CatalogExtra && AllValidDraws(draws)
    ensures multiset(result) == multiset(MatchingHotels(AllHotels(draws), location, filters))
    ensures forall h :: h in result <==> h in AllHotels(draws) && Matches(location, filters, h)
    ensures Ordered(sortBy, result)
    ensures sortBy == "price-low" ==>
      forall i, j :: 0 <= i < j < |result| ==> result[i].price.current <= result[j].price.current
    ensures sortBy == "price-high" ==>
      forall i, j :: 0 <= i < j < |result| ==> result[i].price.current >= result[j].price.current
    ensures sortBy == "rating" ==>
      forall i, j :: 0 <= i < j < |result| ==> result[i].rating.score >= result[j].rating.score
    ensures sortBy == "distance" ==>
      forall i, j :: 0 <= i < j < |result| ==> result[i].distanceFromCenter <= result[j].distanceFromCenter
    ensures sortBy !in ["price-low", "price-high", "rating", "distance"] ==>
      forall i, j :: 0 <= i < j < |result| ==> RecommendedScore(result[i]) >= RecommendedScore(result[j])
  {
    var all := AllHotels(draws);
    var filteredHotels := FilterStages(all, location, filters);
    result := SortHotels(filteredHotels, sortBy);
    MatchingMembers(all, location, filters);
    assert forall h :: h in result <==> h in multiset(filteredHotels);
  }

  /** The sort step of `searchHotels`: `filteredHotels` copied into an array
      and sorted in place by the comparator for `sortBy`. */
  method SortHotels(hotels: seq<Hotel>, sortBy: string) returns (sorted: seq<Hotel>)
    ensures multiset(sorted) == multiset(hotels)
    ensures Ordered(sortBy, sorted)
    ensures sortBy == "price-low" ==>
      forall i, j :: 0 <= i < j < |sorted| ==> sorted[i].price.current <= sorted[j].price.current
    ensures sortBy == "price-high" ==>
      forall i, j :: 0 <= i < j < |sorted| ==> sorted[i].price.current >= sorted[j].price.current
    ensures sortBy == "rating" ==>
      forall i, j :: 0 <= i < j < |sorted| ==> sorted[i].rating.score >= sorted[j].rating.score
    ensures sortBy == "distance" ==>
      forall i, j :: 0 <= i < j < |sorted| ==> sorted[i].distanceFromCenter <= sorted[j].distanceFromCenter
    ensures sortBy !in ["price-low", "price-high", "rating", "distance"] ==>
      forall i, j :: 0 <= i < j < |sorted| ==> RecommendedScore(sorted[i]) >= RecommendedScore(sorted[j])
  {
    var a := new Hotel[|hotels|](i requires 0 <= i < |hotels| => hotels[i]);
    assert a[..] == hotels;
    SortInPlace(a, SortKeyOf(sortBy));
    sorted := a[..];
    OrderedBySortKey(sortBy, sorted);
  }

  /** Stage `k` (0 to 5) of the filter chain: location, price, stars,
      property types, amenities, distance. */
  predicate StageOk(k: nat, location: string, q: Query, h: Hotel) {
    if k == 0 then MatchesLocation(location, h)
    else if k == 1 then InPriceRange(q, h)
    else if k == 2 then q.stars.None? || q.stars.value == [] || h.stars in q.stars.value
    else if k == 3 then
      q.propertyTypes.None? || q.propertyTypes.value == [] || h.propertyType in q.propertyTypes.value
    else if k == 4 then q.amenities.None? || HasAllAmenities(q.amenities.value, h)
    else q.distance.None? || h.distanceFromCenter <= q.distance.value
  }

  /** Stage `k` as the test handed to `filter`. */
  function StageTest(k: nat, location: string, q: Query): Hotel -> bool {
    h => StageOk(k, location, q, h)
  }

  /** `h` passes the first `n` stages. */
  predicate PassesStages(n: nat, location: string, q: Query, h: Hotel) {
    forall k: nat :: k < n ==> StageOk(k, location, q, h)
  }

  /** `PassesStages` as the test handed to `filter`. */
  function Stages(location: string, q: Query, n: nat): Hotel -> bool {
    h => PassesStages(n, location, q, h)
  }

  /** What is left of `all` after the first `n` stages. */
  function Survivors(all: seq<Hotel>, location: string, q: Query, n: nat): seq<Hotel> {
    Filter(all, Stages(location, q, n))
  }

  /** The filter chain of `searchHotels`: the location stage, then each
      further stage only when its filter is given (and, for a list, non-empty).
      The outcome is the matching subsequence of the catalog. */
  method FilterStages(all: seq<Hotel>, location: string, filters: Query) returns (filteredHotels: seq<Hotel>)
    ensures filteredHotels == MatchingHotels(all, location, filters)
  {
    filteredHotels := Filter(all, StageTest(0, location, filters));
    FirstStage(all, location, filters);
    filteredHotels := Narrow(filteredHotels, all, location, filters, 1,
      filters.minPrice.Some? || filters.maxPrice.Some?);
    filteredHotels := Narrow(filteredHotels, all, location, filters, 2,
      filters.stars.Some? && |filters.stars.value| > 0);
    filteredHotels := Narrow(filteredHotels, all, location, filters, 3,
      filters.propertyTypes.Some? && |filters.propertyTypes.value| > 0);
    filteredHotels := Narrow(filteredHotels, all, location, filters, 4,
      filters.amenities.Some? && |filters.amenities.value| > 0);
    filteredHotels := Narrow(filteredHotels, all, location, filters, 5,
      filters.distance.Some?);
    AllStages(all, location, filters);
  }

  /** One `if (filters.x) { filteredHotels = filteredHotels.filter(...) }`
      block: stage `k` filters only when `active`, and an inactive stage is
      one every hotel passes. */
  method Narrow(hotels: seq<Hotel>, ghost all: seq<Hotel>, location: string, filters: Query, k: nat, active: bool)
    returns (narrowed: seq<Hotel>)
    requires hotels == Survivors(all, location, filters, k)
    requires !active ==> forall h :: StageOk(k, location, filters, h)
    ensures narrowed == Survivors(all, location, filters, k + 1)
  {
    if active {
      narrowed := Filter(hotels, StageTest(k, location, filters));
      StageApplied(all, location, filters, k);
    } else {
      narrowed := hotels;
      StageSkipped(all, location, filters, k);
    }
  }

  /** The location stage keeps the hotels that pass the first stage. */
  lemma FirstStage(all: seq<Hotel>, location: string, q: Query)
    ensures Filter(all, StageTest(0, location, q)) == Survivors(all, location, q, 1)
  {
    forall h ensures StageTest(0, location, q)(h) == Stages(location, q, 1)(h) {
      assert PassesStages(1, location, q, h) ==> StageOk(0, location, q, h);
    }
    FilterCongruent(all, StageTest(0, location, q), Stages(location, q, 1));
  }

  /** A stage that runs: filtering the survivors by the stage's test is
      keeping the hotels that pass one more stage. */
  lemma StageApplied(all: seq<Hotel>, location: string, q: Query, k: nat)
    ensures Filter(Survivors(all, location, q, k), StageTest(k, location, q)) == Survivors(all, location, q, k + 1)
  {
    var p := StageTest(k, location, q);
    forall h ensures Stages(location, q, k + 1)(h) == (Stages(location, q, k)(h) && p(h)) {
      assert PassesStages(k + 1, location, q, h) ==> StageOk(k, location, q, h);
    }
    FilterFuse(all, Stages(location, q, k), p, Stages(location, q, k + 1));
  }

  /** A stage that is skipped is one every hotel passes. */
  lemma StageSkipped(all: seq<Hotel>, location: string, q: Query, k: nat)
    requires forall h :: StageOk(k, location, q, h)
    ensures Survivors(all, location, q, k) == Survivors(all, location, q, k + 1)
  {
    forall h ensures Stages(location, q, k)(h) == Stages(location, q, k + 1)(h) {
      assert PassesStages(k + 1, location, q, h) ==> PassesStages(k, location, q, h);
    }
    FilterCongruent(all, Stages(location, q, k), Stages(location, q, k + 1));
  }

  /** Passing all six stages is matching the query. */
  lemma AllStages(all: seq<Hotel>, location: string, q: Query)
    ensures Survivors(all, location, q, 6) == MatchingHotels(all, location, q)
  {
    forall h ensures Stages(location, q, 6)(h) == Matcher(location, q)(h) {
      if PassesStages(6, location, q, h) {
        assert StageOk(0, location, q, h) && StageOk(1, location, q, h) && StageOk(2, location, q, h);
        assert StageOk(3, location, q, h) && StageOk(4, location, q, h) && StageOk(5, location, q, h);
      }
    }
    FilterCongruent(all, Stages(location, q, 6), Matcher(location, q));
  }

  // ---------------------------------------------------------------------------
  // Consequences of the filter chain
  // ---------------------------------------------------------------------------

  /** The location stage alone, as the test handed to `filter`. */
  function ByLocation(location: string): Hotel -> bool {
    h => MatchesLocation(location, h)
  }

  /** A query without price bounds, with empty or absent lists and without a
      distance keeps exactly the location matches. */
  lemma UnconstrainedQueryKeepsLocationMatches(catalog: seq<Hotel>, location: string, q: Query)
    requires q.minPrice.None? && q.maxPrice.None? && q.distance.None?
    requires q.stars.None? || q.stars.value == []
    requires q.propertyTypes.None? || q.propertyTypes.value == []
    requires q.amenities.None? || q.amenities.value == []
    ensures MatchingHotels(catalog, location, q) == Filter(catalog, ByLocation(location))
  {
    FilterCongruent(catalog, Matcher(location, q), ByLocation(location));
  }

  /** An empty location keeps every hotel. */
  lemma EmptyLocationKeepsAll(catalog: seq<Hotel>)
    ensures Filter(catalog, ByLocation("")) == catalog
  {
    FilterAll(catalog, ByLocation(""));
  }

  /** A five-star resort with a spa at 340 and 3.2 km out. */
  const ScenarioHotel := Hotel("hotel-x", "Scenario Resort", HotelLocation("Miami", "United States"), 5,
    Rating(9.0, 100, "Excellent"), Price(400, 340, None, 50), ["Spa", "WiFi"], "Resort", 3.2)

  /** Five stars, resorts, a spa, at most 400. */
  const ScenarioQuery := Query(None, Some(400), Some([5]), Some(["Resort"]), Some(["Spa"]), None)

  /** The resort matches the query; asking for a gym instead of a spa
      excludes it, as amenities are conjunctive. */
  lemma ScenarioIncludedThenExcluded()
    ensures MatchingHotels([ScenarioHotel], "", ScenarioQuery) == [ScenarioHotel]
    ensures MatchingHotels([ScenarioHotel], "", ScenarioQuery.(amenities := Some(["Gym"]))) == []
  {
    var h := ScenarioHotel;
    assert Matches("", ScenarioQuery, h) by {
      assert HasAllAmenities(["Spa"], h) by {
        assert forall a :: a in ["Spa"] ==> a == "Spa";
        assert "Spa" == h.amenities[0];
      }
    }
    var gym := ScenarioQuery.(amenities := Some(["Gym"]));
    assert !Matches("", gym, h) by {
      assert "Gym" in ["Gym"];
      assert "Gym" !in h.amenities by {
        assert h.amenities == ["Spa", "WiFi"];
        assert "Gym" != "Spa" && "Gym" != "WiFi";
      }
    }
    assert [h][1..] == [];
  }

  /** Rating 9.0 at 300 scores 87, rating 8.0 at 100 scores 79, so the first
      is recommended ahead of the second. */
  lemma RecommendedExample(a: Hotel, b: Hotel)
    requires a.rating.score == 9.0 && a.price.current == 300
    requires b.rating.score == 8.0 && b.price.current == 100
    ensures RecommendedScore(a) == 87.0 && RecommendedScore(b) == 79.0
    ensures Compare("recommended", a, b) < 0.0 && Compare("no-such-key", a, b) < 0.0
  {
  }
}
