/** The records of the application: hotels, destinations and provider offers.
    Only the fields that the search, sort and display logic read are kept. */
module Types {
  import opened Wrappers

  datatype HotelLocation = HotelLocation(city: string, country: string)

  datatype Rating = Rating(score: real, count: int, category: string)

  /** Prices are whole currency units; `discount` is a percentage. */
  datatype Price = Price(base: int, current: int, discount: Option<int>, taxesAndFees: int)

  datatype Hotel = Hotel(
    id: string,
    name: string,
    location: HotelLocation,
    stars: int,
    rating: Rating,
    price: Price,
    amenities: seq<string>,
    propertyType: string,
    distanceFromCenter: real)

  /** A destination offered as a location suggestion. */
  datatype Destination = Destination(id: string, name: string, country: string)

  /** One provider's offer in the price comparison. */
  datatype PriceOption = PriceOption(
    provider: string,
    price: int,
    originalPrice: Option<int>,
    includesTaxes: bool,
    freeCancellation: bool,
    payAtStay: bool)
}
