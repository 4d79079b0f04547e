/** The search bar of `SearchForm.tsx`: the location box with its suggestion
    dropdown, the date range, the guest counters and the submit handler. Each
    handler updates the form's own state and, where the source does, the
    shared search state. */
module SearchForm {
  import opened Wrappers
  import opened Text
  import opened Types
  import opened MockData
  import opened SearchContext

  // ---------------------------------------------------------------------------
  // Guests
  // ---------------------------------------------------------------------------

  datatype GuestField = Adults | Children | Rooms

  /** The counters' lower bounds: one adult, no children, one room. */
  predicate ValidGuests(g: Guests) {
    g.adults >= 1 && g.children >= 0 && g.rooms >= 1
  }

  /** `handleGuestChange(type, value)`'s new guests: a copy of the current
      ones with the named counter set to `value`, raised to its lower bound
      when below it. */
  function GuestChange(guests: Guests, field: GuestField, value: int): (r: Guests)
    ensures field == Adults ==>
      r.adults >= 1 && (value >= 1 ==> r.adults == value)
      && r.children == guests.children && r.rooms == guests.rooms
    ensures field == Children ==>
      r.children >= 0 && (value >= 0 ==> r.children == value)
      && r.adults == guests.adults && r.rooms == guests.rooms
    ensures field == Rooms ==>
      r.rooms >= 1 && (value >= 1 ==> r.rooms == value)
      && r.adults == guests.adults && r.children == guests.children
    ensures ValidGuests(guests) ==> ValidGuests(r)
  {
    match field
    case Adults => guests.(adults := if value > 1 then value else 1)
    case Children => guests.(children := if value > 0 then value else 0)
    case Rooms => guests.(rooms := if value > 1 then value else 1)
  }

  /** A counter set below its bound lands exactly on the bound. */
  lemma GuestChangeClampsAtBound(guests: Guests, field: GuestField, value: int)
    ensures field == Adults && value < 1 ==> GuestChange(guests, field, value).adults == 1
    ensures field == Children && value < 0 ==> GuestChange(guests, field, value).children == 0
    ensures field == Rooms && value < 1 ==> GuestChange(guests, field, value).rooms == 1
  {
  }

  /** `<n> <noun>` with `suffix` appended unless `n` is exactly 1. */
  function Counted(n: int, noun: string, suffix: string): string {
    IntToString(n) + " " + noun + (if n != 1 then suffix else "")
  }

  predicate EndsWith(s: string, suffix: string) {
    |suffix| <= |s| && s[|s| - |suffix|..] == suffix
  }

  /** Whether a string ends with a suffix is decided by its last part alone. */
  lemma EndsWithAppend(x: string, y: string, suffix: string)
    requires |suffix| <= |y|
    ensures EndsWith(x + y, suffix) <==> EndsWith(y, suffix)
  {
    assert (x + y)[|x + y| - |suffix|..] == y[|y| - |suffix|..];
  }

  /** The plural suffix is there exactly when the count is not 1 (for a noun
      that does not itself end in the suffix). */
  lemma PluralIffNotOne(n: int, noun: string, suffix: string)
    requires |suffix| <= |noun| && !EndsWith(noun, suffix)
    ensures EndsWith(Counted(n, noun, suffix), suffix) <==> n != 1
  {
    var c := Counted(n, noun, suffix);
    if n == 1 {
      assert c == IntToString(n) + " " + noun;
      assert c[|c| - |suffix|..] == noun[|noun| - |suffix|..];
    } else {
      assert c == (IntToString(n) + " " + noun) + suffix;
    }
  }

  /** `formatGuests()`: "<a> adult(s), <c> child(ren), <r> room(s)", the
      three counted parts joined by ", ". */
  function FormatGuests(g: Guests): (r: string)
    ensures r == Counted(g.adults, "adult", "s") + ", " + Counted(g.children, "child", "ren")
      + ", " + Counted(g.rooms, "room", "s")
    ensures Counted(g.adults, "adult", "s") <= r
    ensures EndsWith(r, "room") <==> g.rooms == 1
  {
    var adults := Counted(g.adults, "adult", "s");
    var front := adults + ", " + Counted(g.children, "child", "ren") + ", ";
    var rooms := Counted(g.rooms, "room", "s");
    CountedRoomEnding(g.rooms);
    EndsWithAppend(front, rooms, "room");
    PrefixOfJoin(adults, adults, ", ");
    PrefixOfJoin(adults, adults + ", ", Counted(g.children, "child", "ren"));
    PrefixOfJoin(adults, adults + ", " + Counted(g.children, "child", "ren"), ", ");
    PrefixOfJoin(adults, front, rooms);
    front + rooms
  }

  /** `<n> <noun>` opens the counted text, whatever the suffix. */
  lemma CountedLead(n: int, noun: string, suffix: string)
    ensures IntToString(n) + " " + noun <= Counted(n, noun, suffix)
  {
    var lead := IntToString(n) + " " + noun;
    PrefixOfJoin(lead, lead, if n != 1 then suffix else "");
  }

  /** A prefix of `y` is a prefix of anything `y` starts. */
  lemma PrefixOfJoin(x: string, y: string, z: string)
    requires x <= y
    ensures x <= y + z
  {
    assert (y + z)[..|y|] == y;
  }

  /** The rooms part ends in "room" exactly for one room (otherwise in
      "rooms"). */
  lemma CountedRoomEnding(n: int)
    ensures |Counted(n, "room", "s")| >= 4
    ensures EndsWith(Counted(n, "room", "s"), "room") <==> n == 1
  {
    var c := Counted(n, "room", "s");
    var head := IntToString(n) + " room";
    assert head[|head| - 4..] == "room";
    if n == 1 {
      assert c == head;
    } else {
      assert c == head + "s";
      assert c[|c| - 4..] == "ooms";
    }
  }

  /** The guest text is the three counted parts, and each part takes its
      plural suffix exactly when its count is not 1. */
  lemma FormatGuestsPlurals(g: Guests)
    ensures var adults, children, rooms :=
        Counted(g.adults, "adult", "s"), Counted(g.children, "child", "ren"), Counted(g.rooms, "room", "s");
      && FormatGuests(g) == adults + ", " + children + ", " + rooms
      && IntToString(g.adults) + " adult" <= adults && (EndsWith(adults, "s") <==> g.adults != 1)
      && IntToString(g.children) + " child" <= children && (EndsWith(children, "ren") <==> g.children != 1)
      && IntToString(g.rooms) + " room" <= rooms && (EndsWith(rooms, "s") <==> g.rooms != 1)
  {
    CountedLead(g.adults, "adult", "s");
    CountedLead(g.children, "child", "ren");
    CountedLead(g.rooms, "room", "s");
    PluralIffNotOne(g.adults, "adult", "s");
    PluralIffNotOne(g.children, "child", "ren");
    PluralIffNotOne(g.rooms, "room", "s");
  }

  /** The default party reads "2 adults, 0 children, 1 room". */
  lemma FormatDefaultGuests()
    ensures FormatGuests(DefaultGuests) == "2 adults, 0 children, 1 room"
  {
    DefaultParts();
  }

  /** The three parts of the default party's text. */
  lemma DefaultParts()
    ensures Counted(2, "adult", "s") == "2 adults"
    ensures Counted(0, "child", "ren") == "0 children"
    ensures Counted(1, "room", "s") == "1 room"
  {
    assert IntToString(2) == "2" && IntToString(0) == "0" && IntToString(1) == "1";
  }

  // ---------------------------------------------------------------------------
  // The form
  // ---------------------------------------------------------------------------

  class Form {
    /** The shared search state the form reads and updates. */
    var searchParams: SearchParams
    var locationInput: string
    /** `dateRange`. */
    var checkIn: Option<Date>
    var checkOut: Option<Date>
    var showLocationDropdown: bool
    var showGuestsDropdown: bool
    var suggestions: seq<Destination>

    /** The location dropdown is only ever open over a non-empty list. */
    predicate Valid()
      reads this
    {
      showLocationDropdown ==> suggestions != []
    }

    constructor (params: SearchParams)
      ensures Valid()
      ensures searchParams == params && locationInput == params.location
      ensures checkIn == params.checkIn && checkOut == params.checkOut
      ensures !showLocationDropdown && !showGuestsDropdown && suggestions == []
    {
      searchParams := params;
      locationInput := params.location;
      checkIn, checkOut := params.checkIn, params.checkOut;
      showLocationDropdown, showGuestsDropdown := false, false;
      suggestions := [];
    }

    /** Typing in the location box: a blank value clears the suggestions and
        closes the dropdown; otherwise the suggestions are those for the value
        and the dropdown is open exactly when there are any. */
    method HandleLocationChange(value: string)
      requires Valid()
      modifies this
      ensures Valid()
      ensures locationInput == value
      ensures IsBlank(value) ==> suggestions == [] && !showLocationDropdown
      ensures !IsBlank(value) ==>
        suggestions == GetLocationSuggestions(value) && (showLocationDropdown <==> suggestions != [])
      ensures unchanged(this`searchParams, this`checkIn, this`checkOut, this`showGuestsDropdown)
    {
      var results: seq<Destination> := [];
      if Trim(value) != [] {
        results := GetLocationSuggestions(value);
      }
      locationInput, suggestions, showLocationDropdown := value, results, |results| > 0;
    }

    /** Picking a suggestion fills the box, stores the name as the search
        location and closes the dropdown. */
    method HandleLocationSelect(location: Destination)
      requires Valid()
      modifies this
      ensures Valid()
      ensures locationInput == location.name && !showLocationDropdown
      ensures searchParams == UpdateSearchParams(old(searchParams), NoParams.(location := Some(location.name)))
      ensures unchanged(this`suggestions, this`checkIn, this`checkOut, this`showGuestsDropdown)
    {
      locationInput := location.name;
      searchParams := UpdateSearchParams(searchParams, NoParams.(location := Some(location.name)));
      showLocationDropdown := false;
    }

    method ClearLocationInput()
      requires Valid()
      modifies this
      ensures Valid()
      ensures locationInput == "" && suggestions == [] && !showLocationDropdown
      ensures searchParams == UpdateSearchParams(old(searchParams), NoParams.(location := Some("")))
      ensures unchanged(this`checkIn, this`checkOut, this`showGuestsDropdown)
    {
      locationInput := "";
      searchParams := UpdateSearchParams(searchParams, NoParams.(location := Some("")));
      suggestions := [];
      showLocationDropdown := false;
    }

    method HandleDateChange(start: Option<Date>, end: Option<Date>)
      requires Valid()
      modifies this
      ensures Valid()
      ensures checkIn == start && checkOut == end
      ensures searchParams ==
        UpdateSearchParams(old(searchParams), NoParams.(checkIn := Some(start), checkOut := Some(end)))
      ensures unchanged(this`locationInput, this`suggestions, this`showLocationDropdown, this`showGuestsDropdown)
    {
      checkIn, checkOut := start, end;
      searchParams := UpdateSearchParams(searchParams, NoParams.(checkIn := Some(start), checkOut := Some(end)));
    }

    /** Only the named counter of the shared guests changes. */
    method HandleGuestChange(field: GuestField, value: int)
      requires Valid()
      modifies this
      ensures Valid()
      ensures searchParams == UpdateSearchParams(old(searchParams),
        NoParams.(guests := Some(GuestChange(old(searchParams).guests, field, value))))
      ensures ValidGuests(old(searchParams).guests) ==> ValidGuests(searchParams.guests)
      ensures unchanged(this`locationInput, this`checkIn, this`checkOut, this`suggestions,
        this`showLocationDropdown, this`showGuestsDropdown)
    {
      var guests := GuestChange(searchParams.guests, field, value);
      searchParams := UpdateSearchParams(searchParams, NoParams.(guests := Some(guests)));
    }

    /** Submitting closes both dropdowns and stores the typed location and the
        dates in the shared state (the navigation that follows is not part of
        the model). */
    method HandleSearch()
      requires Valid()
      modifies this
      ensures Valid()
      ensures !showLocationDropdown && !showGuestsDropdown
      ensures searchParams == UpdateSearchParams(old(searchParams),
        NoParams.(location := Some(locationInput), checkIn := Some(checkIn), checkOut := Some(checkOut)))
      ensures unchanged(this`locationInput, this`checkIn, this`checkOut, this`suggestions)
    {
      showLocationDropdown := false;
      showGuestsDropdown := false;
      searchParams := UpdateSearchParams(searchParams,
        NoParams.(location := Some(locationInput), checkIn := Some(checkIn), checkOut := Some(checkOut)));
    }

    /** A click anywhere on the page: each dropdown whose element does not
        contain the click target closes. Whether the target lies inside the
        location box or the guests dropdown is given by the caller. */
    method HandleClickOutside(insideLocation: bool, insideGuests: bool)
      requires Valid()
      modifies this
      ensures Valid()
      ensures showLocationDropdown == (old(showLocationDropdown) && insideLocation)
      ensures showGuestsDropdown == (old(showGuestsDropdown) && insideGuests)
      ensures unchanged(this`searchParams, this`locationInput, this`checkIn, this`checkOut, this`suggestions)
    {
      if !insideLocation {
        showLocationDropdown := false;
      }
      if !insideGuests {
        showGuestsDropdown := false;
      }
    }

    /** Clicking into the location box re-opens the dropdown when there are
        suggestions to show. */
    method ClickLocationInput()
      requires Valid()
      modifies this
      ensures Valid()
      ensures showLocationDropdown <==> suggestions != []
      ensures unchanged(this`searchParams, this`locationInput, this`checkIn, this`checkOut,
        this`suggestions, this`showGuestsDropdown)
    {
      showLocationDropdown := |suggestions| > 0;
    }

    /** The guests button opens the guests dropdown when closed and closes it
        when open. */
    method ToggleGuestsDropdown()
      requires Valid()
      modifies this
      ensures Valid()
      ensures showGuestsDropdown == !old(showGuestsDropdown)
      ensures unchanged(this`searchParams, this`locationInput, this`checkIn, this`checkOut,
        this`suggestions, this`showLocationDropdown)
    {
      showGuestsDropdown := !showGuestsDropdown;
    }

    /** "Apply" in the guests dropdown closes it; the counters were already
        stored by each change. */
    method ApplyGuests()
      requires Valid()
      modifies this
      ensures Valid()
      ensures !showGuestsDropdown
      ensures unchanged(this`searchParams, this`locationInput, this`checkIn, this`checkOut,
        this`suggestions, this`showLocationDropdown)
    {
      showGuestsDropdown := false;
    }
  }
}
