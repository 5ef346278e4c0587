/**
 * The records of the review dashboard: what the channel manager sends
 * (`HostawayReview`), the canonical review every source is turned into
 * (`NormalizedReview`), catalog properties and per-property statistics.
 * Every JavaScript number is a `real`, including review ids, because the
 * toggle endpoint accepts any number as an id.
 */
module ReviewTypes {
  import opened Wrappers

  type ReviewId = real

  /** One sub-score of a review, such as ("cleanliness", 10). */
  datatype ReviewCategory = ReviewCategory(category: string, rating: real)

  /**
   * A review as the channel manager returns it. `rating` may be null;
   * `channel` is an untyped extra field that some records carry.
   */
  datatype HostawayReview = HostawayReview(
    id: ReviewId,
    reviewType: string,
    status: string,
    rating: Option<real>,
    publicReview: string,
    reviewCategory: seq<ReviewCategory>,
    submittedAt: string,
    guestName: string,
    listingName: string,
    channel: Option<string>)

  /** The canonical review. `propertyImage` is absent when a source never sets it. */
  datatype NormalizedReview = NormalizedReview(
    id: ReviewId,
    propertyId: string,
    propertyName: string,
    propertyImage: Option<string>,
    guestName: string,
    guestFirstName: string,
    rating: real,
    reviewText: string,
    categories: seq<ReviewCategory>,
    date: string,
    dateFormatted: string,
    channel: string,
    reviewType: string,
    status: string,
    isSelected: bool)

  /** A catalog entry; `googlePlaceId` links it to the maps/reviews provider. */
  datatype Property = Property(
    id: string,
    name: string,
    location: string,
    description: string,
    bedrooms: int,
    bathrooms: int,
    maxGuests: int,
    pricePerNight: real,
    images: seq<string>,
    amenities: seq<string>,
    averageRating: real,
    totalReviews: int,
    googlePlaceId: Option<string>)

  /** Dashboard statistics for one property; `categoryAverages` keeps key insertion order. */
  datatype PropertyStats = PropertyStats(
    propertyId: string,
    propertyName: string,
    averageRating: real,
    totalReviews: nat,
    selectedReviews: nat,
    categoryAverages: seq<(string, real)>)

  /**
   * The JavaScript `Date` services the code calls, supplied by the caller:
   * `parseTime` is `new Date(s).getTime()`, `render` is the long en-US
   * `toLocaleDateString` of `new Date(s)` (None when it throws), and `isoOf`
   * is `new Date(ms).toISOString()`.
   */
  datatype DateEnv = DateEnv(
    parseTime: string -> int,
    render: string -> Option<string>,
    isoOf: int -> string)
}
