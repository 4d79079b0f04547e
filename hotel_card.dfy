/** The search-result card of `HotelCard.tsx`: the icon for an amenity, the
    (at most four) amenities shown with icons, and the discount badge. */
module HotelCard {
  import opened Wrappers
  import opened Text
  import opened Seqs
  import opened Types

  datatype Icon = Wifi | Utensils | Dumbbell | Spa | Coffee

  /** The amenities the card has an icon for. */
  const IconAmenities: seq<string> := ["Free WiFi", "Restaurant", "Fitness Center", "Spa", "Breakfast Included"]

  /** `getAmenityIcon(amenity)`: an icon for the five known names, nothing
      for any other. */
  function GetAmenityIcon(amenity: string): (r: Option<Icon>)
    ensures r.Some? <==> amenity in IconAmenities
  {
    if amenity == "Free WiFi" then Some(Wifi)
    else if amenity == "Restaurant" then Some(Utensils)
    else if amenity == "Fitness Center" then Some(Dumbbell)
    else if amenity == "Spa" then Some(Spa)
    else if amenity == "Breakfast Included" then Some(Coffee)
    else None
  }

  /** Distinct names get distinct icons. */
  lemma AmenityIconsDistinct(a: string, b: string)
    requires GetAmenityIcon(a).Some? && GetAmenityIcon(b).Some? && a != b
    ensures GetAmenityIcon(a) != GetAmenityIcon(b)
  {
  }

  /** The test `amenity => [...].includes(amenity)` handed to `filter`. */
  function HasIcon(): string -> bool {
    amenity => amenity in IconAmenities
  }

  /** `topAmenities`: the hotel's icon-bearing amenities, in the hotel's
      order, cut to the first four. */
  function TopAmenities(h: Hotel): (r: seq<string>)
    ensures |r| <= 4
    ensures forall a :: a in r ==> a in IconAmenities && a in h.amenities
    ensures IsSubsequence(r, h.amenities)
    ensures r <= Filter(h.amenities, HasIcon())
    ensures |r| == 4 || r == Filter(h.amenities, HasIcon())
  {
    var withIcons := Filter(h.amenities, HasIcon());
    FilterMembers(h.amenities, HasIcon());
    FilterIsSubsequence(h.amenities, HasIcon());
    if |withIcons| <= 4 then withIcons
    else
      SubsequencePrefix(withIcons, h.amenities, 4);
      assert forall a :: a in withIcons[..4] ==> a in withIcons;
      withIcons[..4]
  }

  /** The shown amenities are the FIRST four with an icon: an icon-bearing
      amenity at position `i` is left out only when four are shown and all of
      them come before position `i`. */
  lemma TopAmenitiesComplete(h: Hotel, i: nat)
    requires i < |h.amenities| && h.amenities[i] in IconAmenities
    ensures h.amenities[i] in TopAmenities(h)
      || (|TopAmenities(h)| == 4 && forall a :: a in TopAmenities(h) ==> a in h.amenities[..i])
  {
    var all, before, rest := h.amenities, h.amenities[..i], h.amenities[i..];
    assert all == before + rest;
    FilterAppend(before, rest, HasIcon());
    var f := Filter(before, HasIcon());
    assert Filter(rest, HasIcon()) == [all[i]] + Filter(rest[1..], HasIcon());
    var top := TopAmenities(h);
    if |f| < 4 {
      assert Filter(all, HasIcon())[|f|] == all[i];
      assert top[|f|] == all[i];
    } else {
      assert top == f[..4];
      FilterMembers(before, HasIcon());
      assert forall a :: a in top ==> a in f;
    }
  }

  /** Every top amenity is drawn with an icon. */
  lemma TopAmenitiesHaveIcons(h: Hotel)
    ensures forall a :: a in TopAmenities(h) ==> GetAmenityIcon(a).Some?
  {
  }

  /** `displayDiscountPercent`: "Save <d>%" for a present non-zero discount,
      nothing when it is absent or 0. */
  function DiscountLabel(p: Price): (r: Option<string>)
    ensures r.None? <==> p.discount.None? || p.discount.value == 0
    ensures r.Some? ==> r.value == "Save " + IntToString(p.discount.value) + "%"
  {
    if p.discount.Some? && p.discount.value != 0 then Some("Save " + IntToString(p.discount.value) + "%")
    else None
  }

  /** A positive discount can be read back from its badge: the text between
      "Save " and "%" is the discount's decimal form. */
  lemma DiscountLabelReadsBack(p: Price)
    requires p.discount.Some? && p.discount.value > 0
    ensures var badge := DiscountLabel(p).value;
      |badge| > 6 && badge[..5] == "Save " && badge[|badge| - 1] == '%'
      && ParseNat(badge[5..|badge| - 1]) == p.discount.value
  {
    var d := p.discount.value;
    var badge := DiscountLabel(p).value;
    assert badge == "Save " + NatToString(d) + "%";
    assert badge[5..|badge| - 1] == NatToString(d);
    ParseNatToString(d);
  }

  /** The badge of the first seed hotel reads "Save 15%". */
  lemma GrandPlazaBadge()
    ensures DiscountLabel(Price(350, 305, Some(15), 45)) == Some("Save 15%")
  {
    assert Digit(1) == '1' && Digit(5) == '5' by {
      assert "0123456789"[1] == '1' && "0123456789"[5] == '5';
    }
    assert NatToString(1) == "1";
    assert IntToString(15) == "15" by {
      assert NatToString(15) == NatToString(1) + [Digit(5)];
    }
    assert "Save " + "15" + "%" == "Save 15%";
  }
}
