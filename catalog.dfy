/** The product rows the upload route creates and the filter route reads. */
module Catalog {
  import opened Common

  /** A stored location row; the optional columns are nullable. */
  datatype StoredLocation = StoredLocation(
    amenity: Option<string>, road: Option<string>, city: string, county: Option<string>,
    stateDistrict: Option<string>, state: string, iso3166Lvl4: Option<string>,
    postcode: Option<string>, country: string, countryCode: Option<string>)

  /** A product row with its location and its image URLs in stored order.
      `status` is "allowed" once moderation has approved the listing. */
  datatype Product = Product(
    id: string, name: string, description: string, price: int, category: string, condition: string,
    status: string, userId: string, locationCoords: string,
    location: Option<StoredLocation>, images: seq<string>)
}
