/** A listing as the listings API returns it and the listing card displays it. */
module Listings {
  datatype Listing = Listing(
    id: string,
    name: string,
    description: string,
    address: string,
    kind: string,          // the record's `type`: "rent" or "sale"
    bedrooms: int,
    bathrooms: int,
    regularPrice: int,
    discountPrice: int,
    offer: bool,
    parking: bool,
    furnished: bool,
    imageUrls: seq<string>)
}
