/** The filter side panel of `FilterPanel.tsx`: local copies of the filters
    (price band, selected stars, property types and amenities, distance),
    toggle and slider handlers that update both the local copy and the shared
    search state, a reset, and the "any filter applied" test. */
module FilterPanel {
  import opened Wrappers
  import opened Seqs
  import opened SearchContext

  // ---------------------------------------------------------------------------
  // List toggles
  // ---------------------------------------------------------------------------

  /** The test `x => x !== v` handed to `filter`. */
  function Other<T(==)>(v: T): T -> bool {
    x => x != v
  }

  /** `list.includes(v) ? list.filter(x => x !== v) : [...list, v]`, the
      property-type and amenity toggles. */
  function Toggle<T(==, !new)>(list: seq<T>, v: T): (r: seq<T>)
    ensures v in r <==> v !in list
    ensures forall x :: x != v ==> (x in r <==> x in list)
  {
    FilterMembers(list, Other(v));
    if v in list then Filter(list, Other(v)) else list + [v]
  }

  predicate SortedInts(s: seq<int>) {
    forall i, j :: 0 <= i < j < |s| ==> s[i] <= s[j]
  }

  /** A sorted list stays sorted under a head no larger than its elements. */
  lemma ConsSorted(a: int, t: seq<int>)
    requires SortedInts(t)
    requires forall y :: y in t ==> a <= y
    ensures SortedInts([a] + t)
  {
    var u := [a] + t;
    forall i, j | 0 <= i < j < |u| ensures u[i] <= u[j] {
      assert u[j] == t[j - 1] && t[j - 1] in t;
      if i > 0 {
        assert u[i] == t[i - 1];
      }
    }
  }

  /** `x` inserted into a sorted list before the first larger element. */
  function InsertInt(x: int, s: seq<int>): (r: seq<int>)
    requires SortedInts(s)
    ensures SortedInts(r)
    ensures forall y :: y in r ==> y == x || y in s
    ensures multiset(r) == multiset(s) + multiset{x}
  {
    if s == [] then [x]
    else if x <= s[0] then
      ConsSorted(x, s);
      [x] + s
    else
      var rest := s[1..];
      assert SortedInts(rest) by {
        forall i, j | 0 <= i < j < |rest| ensures rest[i] <= rest[j] {
          assert rest[i] == s[i + 1] && rest[j] == s[j + 1];
        }
      }
      var t := InsertInt(x, rest);
      assert s == [s[0]] + rest;
      assert forall y :: y in rest ==> s[0] <= y;
      ConsSorted(s[0], t);
      [s[0]] + t
  }

  /** `.sort()` on star values, ascending. */
  function SortStars(s: seq<int>): (r: seq<int>)
    ensures SortedInts(r)
    ensures multiset(r) == multiset(s)
  {
    if s == [] then []
    else
      assert s == [s[0]] + s[1..];
      InsertInt(s[0], SortStars(s[1..]))
  }

  /** `handleStarChange`'s list: the star removed when selected, otherwise
      appended and the list sorted. */
  function ToggleStar(selected: seq<int>, star: int): (r: seq<int>)
    ensures star in r <==> star !in selected
    ensures forall x :: x != star ==> (x in r <==> x in selected)
    ensures star !in selected ==> SortedInts(r) && multiset(r) == multiset(selected) + multiset{star}
  {
    FilterMembers(selected, Other(star));
    if star in selected then Filter(selected, Other(star))
    else
      var r := SortStars(selected + [star]);
      assert forall x :: x in r <==> x in multiset(selected + [star]);
      r
  }

  /** A toggle never introduces a duplicate. */
  lemma ToggleKeepsNoDuplicates<T(!new)>(list: seq<T>, v: T)
    requires NoDuplicates(list)
    ensures NoDuplicates(Toggle(list, v))
  {
    if v in list {
      FilterNoDuplicates(list, Other(v));
    }
  }

  /** A star toggle never introduces a duplicate. */
  lemma ToggleStarKeepsNoDuplicates(selected: seq<int>, star: int)
    requires NoDuplicates(selected)
    ensures NoDuplicates(ToggleStar(selected, star))
  {
    if star in selected {
      FilterNoDuplicates(selected, Other(star));
    } else {
      var r := ToggleStar(selected, star);
      forall i, j | 0 <= i < j < |r| ensures r[i] != r[j] {
        if r[i] == r[j] {
          DuplicateCounted(r, i, j);
          NoDuplicatesCounted(selected, r[i]);
          assert false;
        }
      }
    }
  }

  /** A value at two positions occurs at least twice. */
  lemma DuplicateCounted<T>(s: seq<T>, i: nat, j: nat)
    requires i < j < |s| && s[i] == s[j]
    ensures multiset(s)[s[i]] >= 2
  {
    assert s == s[..j] + [s[j]] + s[j + 1..];
    assert s[..j][i] == s[i];
    assert multiset(s) == multiset(s[..j]) + multiset{s[j]} + multiset(s[j + 1..]);
  }

  /** A duplicate-free list holds each value at most once. */
  lemma {:induction false} NoDuplicatesCounted<T>(s: seq<T>, x: T)
    requires NoDuplicates(s)
    ensures multiset(s)[x] <= 1
    ensures x !in s ==> multiset(s)[x] == 0
  {
    if s != [] {
      assert s == [s[0]] + s[1..];
      NoDuplicatesCounted(s[1..], x);
    }
  }

  /** Toggling the same value twice restores the list's membership; when the
      value was absent it restores the very list. */
  lemma ToggleTwice<T(!new)>(list: seq<T>, v: T)
    ensures forall x :: x in Toggle(Toggle(list, v), v) <==> x in list
    ensures v !in list ==> Toggle(Toggle(list, v), v) == list
  {
    if v !in list {
      FilterAppend(list, [v], Other(v));
      FilterAll(list, Other(v));
      assert Filter([v], Other(v)) == [];
    }
  }

  /** Toggling a star twice restores the selection's membership. */
  lemma ToggleStarTwice(selected: seq<int>, star: int)
    ensures forall x :: x in ToggleStar(ToggleStar(selected, star), star) <==> x in selected
  {
  }

  /** A toggle leaves every other value where it was: the list without `v`
      is the same before and after. */
  lemma ToggleKeepsOthers<T(!new)>(list: seq<T>, v: T)
    ensures Filter(Toggle(list, v), Other(v)) == Filter(list, Other(v))
  {
    if v in list {
      FilterFuse(list, Other(v), Other(v), Other(v));
    } else {
      FilterAppend(list, [v], Other(v));
      assert Filter([v], Other(v)) == [];
    }
  }

  // ---------------------------------------------------------------------------
  // The panel
  // ---------------------------------------------------------------------------

  datatype Boundary = MinBound | MaxBound

  /** The slider inputs' range and the panel's price defaults. */
  const PriceFloor := 0
  const PriceCeiling := 500

  class Panel {
    /** The shared search state the panel reads and updates. */
    var searchParams: SearchParams
    /** `[min, max]`. */
    var priceRange: seq<int>
    var selectedStars: seq<int>
    var selectedPropertyTypes: seq<string>
    var selectedAmenities: seq<string>
    var distance: Option<real>

    /** The local copies agree with the shared filters. */
    predicate InSync()
      reads this
    {
      && |priceRange| == 2
      && priceRange[0] == searchParams.filters.minPrice
      && priceRange[1] == searchParams.filters.maxPrice
      && selectedStars == searchParams.filters.stars
      && selectedPropertyTypes == searchParams.filters.propertyTypes
      && selectedAmenities == searchParams.filters.amenities
      && distance == searchParams.filters.distance
    }

    /** The local state starts as a copy of the shared filters. */
    constructor (params: SearchParams)
      ensures searchParams == params && InSync()
    {
      searchParams := params;
      priceRange := [params.filters.minPrice, params.filters.maxPrice];
      selectedStars := params.filters.stars;
      selectedPropertyTypes := params.filters.propertyTypes;
      selectedAmenities := params.filters.amenities;
      distance := params.filters.distance;
    }

    method HandleStarChange(star: int)
      requires InSync()
      modifies this
      ensures InSync()
      ensures selectedStars == ToggleStar(old(selectedStars), star)
      ensures searchParams == UpdateFilters(old(searchParams), NoFilters.(stars := Some(selectedStars)))
    {
      var newSelectedStars := ToggleStar(selectedStars, star);
      selectedStars := newSelectedStars;
      searchParams := UpdateFilters(searchParams, NoFilters.(stars := Some(newSelectedStars)));
    }

    method HandlePropertyTypeChange(propertyType: string)
      requires InSync()
      modifies this
      ensures InSync()
      ensures selectedPropertyTypes == Toggle(old(selectedPropertyTypes), propertyType)
      ensures searchParams ==
        UpdateFilters(old(searchParams), NoFilters.(propertyTypes := Some(selectedPropertyTypes)))
    {
      var newSelectedTypes := Toggle(selectedPropertyTypes, propertyType);
      selectedPropertyTypes := newSelectedTypes;
      searchParams := UpdateFilters(searchParams, NoFilters.(propertyTypes := Some(newSelectedTypes)));
    }

    method HandleAmenityChange(amenity: string)
      requires InSync()
      modifies this
      ensures InSync()
      ensures selectedAmenities == Toggle(old(selectedAmenities), amenity)
      ensures searchParams ==
        UpdateFilters(old(searchParams), NoFilters.(amenities := Some(selectedAmenities)))
    {
      var newSelectedAmenities := Toggle(selectedAmenities, amenity);
      selectedAmenities := newSelectedAmenities;
      searchParams := UpdateFilters(searchParams, NoFilters.(amenities := Some(newSelectedAmenities)));
    }

    /** A new minimum is capped at the current maximum and a new maximum
        raised to at least the current minimum, so afterwards min <= max
        whatever the band was before; the other bound is kept. */
    method HandlePriceChange(value: int, boundary: Boundary)
      requires InSync()
      modifies this
      ensures InSync()
      ensures priceRange[0] <= priceRange[1]
      ensures boundary == MinBound ==>
        priceRange[1] == old(priceRange[1])
        && priceRange[0] == (if value <= old(priceRange[1]) then value else old(priceRange[1]))
      ensures boundary == MaxBound ==>
        priceRange[0] == old(priceRange[0])
        && priceRange[1] == (if value >= old(priceRange[0]) then value else old(priceRange[0]))
      ensures searchParams == UpdateFilters(old(searchParams),
        NoFilters.(minPrice := Some(priceRange[0]), maxPrice := Some(priceRange[1])))
      ensures unchanged(this`selectedStars, this`selectedPropertyTypes, this`selectedAmenities, this`distance)
    {
      var newPriceRange := new int[2];
      newPriceRange[0], newPriceRange[1] := priceRange[0], priceRange[1];
      if boundary == MinBound {
        newPriceRange[0] := if value < newPriceRange[1] then value else newPriceRange[1];
      } else {
        newPriceRange[1] := if value > newPriceRange[0] then value else newPriceRange[0];
      }
      priceRange := newPriceRange[..];
      searchParams := UpdateFilters(searchParams,
        NoFilters.(minPrice := Some(newPriceRange[0]), maxPrice := Some(newPriceRange[1])));
    }

    method HandleDistanceChange(value: int)
      requires InSync()
      modifies this
      ensures InSync()
      ensures distance == Some(value as real)
      ensures searchParams == UpdateFilters(old(searchParams), NoFilters.(distance := Some(Some(value as real))))
    {
      distance := Some(value as real);
      searchParams := UpdateFilters(searchParams, NoFilters.(distance := Some(Some(value as real))));
    }

    /** Back to the full price band and no other filter, locally and in the
        shared state; only the filters of the shared state change. */
    method ResetFilters()
      requires InSync()
      modifies this
      ensures InSync()
      ensures priceRange == [PriceFloor, PriceCeiling]
      ensures selectedStars == [] && selectedPropertyTypes == [] && selectedAmenities == []
      ensures distance == None
      ensures searchParams == old(searchParams).(filters := DefaultFilters)
      ensures !HasFilters()
    {
      priceRange := [PriceFloor, PriceCeiling];
      selectedStars := [];
      selectedPropertyTypes := [];
      selectedAmenities := [];
      distance := None;
      searchParams := UpdateFilters(searchParams,
        FiltersPatch(Some(PriceFloor), Some(PriceCeiling), Some([]), Some([]), Some([]), Some(None)));
    }

    /** `hasFilters()`: some list is non-empty, a distance is set, or the
        price band is narrower than 0..500. */
    predicate HasFilters()
      reads this
      requires |priceRange| == 2
      ensures PriceFloor <= priceRange[0] && priceRange[1] <= PriceCeiling ==>
        (!HasFilters() <==> (priceRange == [PriceFloor, PriceCeiling] && selectedStars == []
          && selectedPropertyTypes == [] && selectedAmenities == [] && distance.None?))
    {
      || |selectedStars| > 0
      || |selectedPropertyTypes| > 0
      || |selectedAmenities| > 0
      || distance.Some?
      || priceRange[0] > PriceFloor
      || priceRange[1] < PriceCeiling
    }

    /** Within the sliders' range, the panel reports filters exactly when the
        shared filters differ from the defaults, so "Clear all" is offered
        exactly when a reset would change something. */
    lemma HasFiltersIffNotDefault()
      requires InSync()
      requires PriceFloor <= priceRange[0] && priceRange[1] <= PriceCeiling
      ensures HasFilters() <==> searchParams.filters != DefaultFilters
    {
      if !HasFilters() {
        assert searchParams.filters.stars == [] && searchParams.filters.propertyTypes == [];
      }
    }
  }
}
