/** The results page of `SearchResultsPage.tsx`: it runs the search for the
    shared search state and builds the one-line summary above the results. */
module SearchResultsPage {
  import opened Wrappers
  import opened Text
  import opened Seqs
  import opened Types
  import opened MockData
  import opened SearchContext
  import opened SearchForm

  // ---------------------------------------------------------------------------
  // Running the search
  // ---------------------------------------------------------------------------

  /** The shared filters as handed to `searchHotels`: every field but the
      distance is always present. */
  function QueryOf(f: SearchFilters): Query {
    Query(Some(f.minPrice), Some(f.maxPrice), Some(f.stars), Some(f.propertyTypes), Some(f.amenities), f.distance)
  }

  /** `searchHotels(searchParams.location, searchParams.filters,
      searchParams.sortBy)`, as the page calls it. */
  method FetchResults(params: SearchParams, draws: seq<Draws>) returns (hotels: seq<Hotel>)
    requires |draws| == CatalogExtra && AllValidDraws(draws)
    ensures multiset(hotels) == multiset(MatchingHotels(AllHotels(draws), params.location, QueryOf(params.filters)))
    ensures forall h :: h in hotels <==> h in AllHotels(draws) && Matches(params.location, QueryOf(params.filters), h)
    ensures Ordered(params.sortBy, hotels)
  {
    hotels := SearchHotels(params.location, QueryOf(params.filters), params.sortBy, draws);
  }

  /** With the default search state every catalog hotel is listed: the
      default 0..500 band holds every price the catalog has. */
  lemma DefaultSearchListsCatalog(draws: seq<Draws>)
    requires |draws| == CatalogExtra && AllValidDraws(draws)
    ensures MatchingHotels(AllHotels(draws), "", QueryOf(DefaultFilters)) == AllHotels(draws)
  {
    CatalogPriceBand(draws);
    FilterAll(AllHotels(draws), Matcher("", QueryOf(DefaultFilters)));
  }

  // ---------------------------------------------------------------------------
  // The summary line
  // ---------------------------------------------------------------------------

  /** "Hotels in <location>", or "All Hotels" when no location is set. */
  function Heading(location: string): string {
    if location != "" then "Hotels in " + location else "All Hotels"
  }

  /** " · <in> - <out>" when both dates are set, otherwise nothing. */
  function DatesSegment(checkIn: Option<Date>, checkOut: Option<Date>, format: Date -> string): string {
    if checkIn.Some? && checkOut.Some? then " · " + format(checkIn.value) + " - " + format(checkOut.value)
    else ""
  }

  /** " · <n> guest(s)" for adults and children together: the "s" is left
      off for exactly one guest. */
  function GuestCount(g: Guests): string {
    " · " + IntToString(g.adults + g.children) + " guest" + (if g.adults + g.children != 1 then "s" else "")
  }

  /** ", <r> rooms" for more than one room, otherwise nothing. */
  function RoomsSegment(g: Guests): string {
    if g.rooms > 1 then ", " + IntToString(g.rooms) + " rooms" else ""
  }

  /** The whole summary, as `GetSearchSummary` builds it. */
  function Summary(params: SearchParams, format: Date -> string): (r: string)
    ensures r == Heading(params.location) + DatesSegment(params.checkIn, params.checkOut, format)
      + GuestCount(params.guests) + RoomsSegment(params.guests)
    ensures Heading(params.location) <= r
    ensures params.guests.rooms <= 1 ==> EndsWith(r, "guest") || EndsWith(r, "guests")
  {
    var heading := Heading(params.location);
    var front := heading + DatesSegment(params.checkIn, params.checkOut, format);
    var guests := GuestCount(params.guests);
    PrefixOfJoin(heading, front, guests);
    PrefixOfJoin(heading, front + guests, RoomsSegment(params.guests));
    GuestCountEnding(params.guests);
    EndsWithAppend(front, guests, "guest");
    EndsWithAppend(front, guests, "guests");
    assert params.guests.rooms <= 1 ==> front + guests + RoomsSegment(params.guests) == front + guests;
    front + guests + RoomsSegment(params.guests)
  }

  /** The guest count ends in "guest" or "guests". */
  lemma GuestCountEnding(g: Guests)
    ensures |GuestCount(g)| >= 6
    ensures EndsWith(GuestCount(g), "guest") || EndsWith(GuestCount(g), "guests")
  {
    var head := " · " + IntToString(g.adults + g.children) + " guest";
    assert head[|head| - 5..] == "guest";
    if g.adults + g.children != 1 {
      assert GuestCount(g) == head + "s";
      assert (head + "s")[|head| - 5..] == "guests";
    } else {
      assert GuestCount(g) == head;
    }
  }

  /** `getSearchSummary()`: built piece by piece in a local string. The date
      rendering (`toLocaleDateString`) is the parameter `format`; the guests
      are always present in the search state, so their segment always is. */
  method GetSearchSummary(params: SearchParams, format: Date -> string) returns (summary: string)
    ensures summary == Summary(params, format)
  {
    summary := "";
    if params.location != "" {
      summary := summary + ("Hotels in " + params.location);
    } else {
      summary := "All Hotels";
    }
    assert summary == Heading(params.location);
    if params.checkIn.Some? && params.checkOut.Some? {
      var checkIn := format(params.checkIn.value);
      var checkOut := format(params.checkOut.value);
      summary := summary + (" · " + checkIn + " - " + checkOut);
    }
    assert summary == Heading(params.location) + DatesSegment(params.checkIn, params.checkOut, format);
    var adults, children, rooms := params.guests.adults, params.guests.children, params.guests.rooms;
    summary := summary + (" · " + IntToString(adults + children) + " guest"
      + (if adults + children != 1 then "s" else ""));
    if rooms > 1 {
      summary := summary + (", " + IntToString(rooms) + " rooms");
    }
  }

  /** The summary opens with "Hotels in <location>" for a set location and
      with "All Hotels" otherwise. */
  lemma SummaryHeading(params: SearchParams, format: Date -> string)
    ensures params.location != "" ==> "Hotels in " + params.location <= Summary(params, format)
    ensures params.location == "" ==> "All Hotels" <= Summary(params, format)
  {
    var g := params.guests;
    assert Summary(params, format) == Heading(params.location)
      + (DatesSegment(params.checkIn, params.checkOut, format) + GuestCount(g) + RoomsSegment(g));
  }

  /** Without both dates the summary is the heading and the guests only;
      with both, the heading is followed by " · " and the rendered check-in
      date. */
  lemma SummaryDates(params: SearchParams, format: Date -> string)
    ensures !(params.checkIn.Some? && params.checkOut.Some?) ==>
      Summary(params, format) == Heading(params.location) + GuestCount(params.guests) + RoomsSegment(params.guests)
    ensures params.checkIn.Some? && params.checkOut.Some? ==>
      Heading(params.location) + " · " + format(params.checkIn.value) <= Summary(params, format)
  {
    var g := params.guests;
    if params.checkIn.Some? && params.checkOut.Some? {
      var h := Heading(params.location);
      var d := DatesSegment(params.checkIn, params.checkOut, format);
      var dot := " · " + format(params.checkIn.value);
      assert dot <= d;
      assert h + dot <= h + d;
      assert h + d <= Summary(params, format);
      assert h + " · " + format(params.checkIn.value) == h + dot;
    }
  }

  /** The guest count takes an "s" exactly when adults and children together
      are not one. */
  lemma GuestCountPlural(g: Guests)
    ensures EndsWith(GuestCount(g), "s") <==> g.adults + g.children != 1
  {
    var c := GuestCount(g);
    var head := " · " + IntToString(g.adults + g.children) + " guest";
    if g.adults + g.children == 1 {
      assert c == head;
      assert c[|c| - 1] == 't';
    } else {
      assert c == head + "s";
    }
  }

  /** With at most one room the summary ends with the guest count, so it
      ends in "s" exactly when adults and children together are not 1,
      whether or not dates are shown. */
  lemma SummaryGuestPlural(params: SearchParams, format: Date -> string)
    requires params.guests.rooms <= 1
    ensures EndsWith(Summary(params, format), "s") <==> params.guests.adults + params.guests.children != 1
  {
    var g := params.guests;
    var front := Heading(params.location) + DatesSegment(params.checkIn, params.checkOut, format);
    assert Summary(params, format) == front + GuestCount(g);
    GuestCountEnding(g);
    GuestCountPlural(g);
    EndsWithAppend(front, GuestCount(g), "s");
  }

  /** The summary ends in " rooms" exactly when more than one room is booked. */
  lemma SummaryRoomsIffSeveral(params: SearchParams, format: Date -> string)
    ensures EndsWith(Summary(params, format), " rooms") <==> params.guests.rooms > 1
  {
    var g := params.guests;
    var front := Heading(params.location) + DatesSegment(params.checkIn, params.checkOut, format);
    var c := GuestCount(g);
    var rooms := RoomsSegment(g);
    if g.rooms > 1 {
      assert rooms == (", " + IntToString(g.rooms)) + " rooms";
      EndsWithAppend(", " + IntToString(g.rooms), " rooms", " rooms");
      EndsWithAppend(front + c, rooms, " rooms");
    } else {
      assert Summary(params, format) == front + c;
      var head := " · " + IntToString(g.adults + g.children);
      var noun := head + " guest";
      assert noun[|head| + 1] == 'g';
      if g.adults + g.children != 1 {
        assert c == noun + "s";
        assert c[|c| - 6] == 'g';
      } else {
        assert c == noun;
      }
      EndsWithAppend(front, c, " rooms");
    }
  }
}
