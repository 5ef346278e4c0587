/**
 * lib/reviews.ts: turning a channel-manager record into the canonical review,
 * merging the fetched and the bundled sample reviews newest first, and the
 * per-property views built on that list.
 */
module Reviews {
  import opened Wrappers
  import opened Text
  import opened Seqs
  import opened ReviewTypes
  import ReviewUtils

  /** The string `formatDate` in lib/reviews.ts hands to `new Date`: its first space always becomes "T". */
  function DateInput(dateString: string): string {
    ReplaceFirst(dateString, ' ', 'T')
  }

  /** `formatDate` of lib/reviews.ts; a throwing renderer gives back the raw string. */
  function FormatDate(dateString: string, env: DateEnv): string {
    match env.render(DateInput(dateString))
    case Some(text) => text
    case None => dateString
  }

  /** The two `formatDate` copies parse the same string unless it holds both a "T" and a space. */
  lemma DateInputsAgree(dateString: string)
    requires 'T' !in dateString || ' ' !in dateString
    ensures DateInput(dateString) == ReviewUtils.DateInput(dateString)
  {
  }

  /**
   * When the string holds both, the lib/reviewUtils.ts copy parses it as it
   * is while this copy turns its first space into a "T": for instance
   * "2024-07-04T10:00:00 Z" becomes "2024-07-04T10:00:00TZ" here only.
   */
  lemma DateInputsDiffer(dateString: string)
    requires 'T' in dateString && ' ' in dateString
    ensures ReviewUtils.DateInput(dateString) == dateString
    ensures DateInput(dateString) != dateString
  {
    var i := IndexOf(dateString, ' ');
    assert DateInput(dateString)[i] == 'T';
  }

  /** The channel label `channel || "Airbnb"`. */
  function ChannelOf(review: HostawayReview): string {
    match review.channel
    case Some(c) => if c != "" then c else "Airbnb"
    case None => "Airbnb"
  }

  /** The rating `review.rating || calculateAverageRating(review.reviewCategory)`. */
  function RatingOf(review: HostawayReview): real {
    match review.rating
    case Some(x) => if x != 0.0 then x else ReviewUtils.CalculateAverageRating(review.reviewCategory)
    case None => ReviewUtils.CalculateAverageRating(review.reviewCategory)
  }

  function NormalizeCategory(c: ReviewCategory): ReviewCategory {
    ReviewCategory(ReplaceAll(c.category, '_', ' '), c.rating)
  }

  /**
   * `normalizeReview`: one canonical review per record. Identity fields are
   * copied, the property comes from the listing name, a null or zero rating
   * falls back to the category average, category names lose their
   * underscores, and the selection flag is membership in `selectedIds`. The
   * property image is never set.
   */
  function NormalizeReview(review: HostawayReview, selectedIds: seq<ReviewId>, env: DateEnv): (r: NormalizedReview)
    ensures r.id == review.id && r.propertyName == review.listingName && r.reviewText == review.publicReview
    ensures r.date == review.submittedAt && r.reviewType == review.reviewType && r.status == review.status
    ensures r.propertyId == ReviewUtils.ExtractPropertyId(review.listingName) && r.propertyId in {"1", "2", "3", "4"}
    ensures r.propertyImage.None?
    ensures r.isSelected <==> review.id in selectedIds
    ensures review.rating.Some? && review.rating.value != 0.0 ==> r.rating == review.rating.value
    ensures review.rating.None? || review.rating.value == 0.0 ==>
              r.rating == ReviewUtils.CalculateAverageRating(review.reviewCategory)
    ensures |r.categories| == |review.reviewCategory|
    ensures forall i :: 0 <= i < |r.categories| ==>
              && r.categories[i].rating == review.reviewCategory[i].rating
              && r.categories[i].category == ReplaceAll(review.reviewCategory[i].category, '_', ' ')
              && '_' !in r.categories[i].category
    ensures r.channel != "" && (review.channel.Some? && review.channel.value != "" ==> r.channel == review.channel.value)
    ensures review.channel.None? || review.channel.value == "" ==> r.channel == "Airbnb"
    ensures r.guestName == ReviewUtils.FormatGuestName(review.guestName)
    ensures var first := r.guestFirstName;
              ' ' !in first && StartsWith(review.guestName, first)
              && (|first| < |review.guestName| ==> review.guestName[|first|] == ' ')
    ensures r.dateFormatted == FormatDate(review.submittedAt, env)
  {
    SplitHead(review.guestName, ' ');
    var categories := seq(|review.reviewCategory|, i requires 0 <= i < |review.reviewCategory| =>
      NormalizeCategory(review.reviewCategory[i]));
    NormalizedReview(
      review.id,
      ReviewUtils.ExtractPropertyId(review.listingName),
      review.listingName,
      None,
      ReviewUtils.FormatGuestName(review.guestName),
      Split(review.guestName, ' ')[0],
      RatingOf(review),
      review.publicReview,
      categories,
      review.submittedAt,
      FormatDate(review.submittedAt, env),
      ChannelOf(review),
      review.reviewType,
      review.status,
      review.id in selectedIds)
  }

  /**
   * With the provider rating absent or on the 0-10 scale and every category
   * rating on it, the normalised rating is on the 0-10 scale too.
   */
  lemma NormalizedRatingInRange(review: HostawayReview, selectedIds: seq<ReviewId>, env: DateEnv)
    requires review.rating.Some? ==> 0.0 <= review.rating.value <= 10.0
    requires forall i :: 0 <= i < |review.reviewCategory| ==> 0.0 <= review.reviewCategory[i].rating <= 10.0
    ensures 0.0 <= NormalizeReview(review, selectedIds, env).rating <= 10.0
  {
    if review.reviewCategory != [] {
      ReviewUtils.AverageRatingWithin(review.reviewCategory, 0, 10);
    }
  }

  /** `allReviews.map(review => normalizeReview(review, selectedIds))`. */
  function NormalizeAll(raw: seq<HostawayReview>, selectedIds: seq<ReviewId>, env: DateEnv): (r: seq<NormalizedReview>)
  {
    seq(|raw|, i requires 0 <= i < |raw| => NormalizeReview(raw[i], selectedIds, env))
  }

  /** The sort key of `new Date(b.date).getTime() - new Date(a.date).getTime()`: later dates sort first. */
  function NewestFirst(env: DateEnv): NormalizedReview -> real {
    (r: NormalizedReview) => -(env.parseTime(r.date) as real)
  }

  /** The reviews run from the latest date to the earliest. */
  ghost predicate NewestFirstOrder(env: DateEnv, rs: seq<NormalizedReview>) {
    forall i, j :: 0 <= i < j < |rs| ==> env.parseTime(rs[i].date) >= env.parseTime(rs[j].date)
  }

  /** Ascending by the `NewestFirst` key is newest first. */
  lemma SortedNewestFirst(env: DateEnv, rs: seq<NormalizedReview>)
    requires SortedBy(rs, NewestFirst(env))
    ensures NewestFirstOrder(env, rs)
  {
    forall i, j | 0 <= i < j < |rs| ensures env.parseTime(rs[i].date) >= env.parseTime(rs[j].date) {
      assert NewestFirst(env)(rs[i]) <= NewestFirst(env)(rs[j]);
    }
  }

  /**
   * `getAllReviews`, given what the channel manager returned (empty when it
   * failed), the bundled sample reviews and the stored selection: the
   * normalised records, newest first. Reviews from the maps provider are not
   * part of this list.
   */
  function GetAllReviews(fetched: seq<HostawayReview>, mock: seq<HostawayReview>,
                         selectedIds: seq<ReviewId>, env: DateEnv): seq<NormalizedReview>
  {
    SortBy(NormalizeAll(fetched + mock, selectedIds, env), NewestFirst(env))
  }

  /**
   * The merged list holds each normalised fetched and sample record exactly
   * as often as it was produced and nothing else.
   */
  lemma GetAllReviewsContents(fetched: seq<HostawayReview>, mock: seq<HostawayReview>,
                              selectedIds: seq<ReviewId>, env: DateEnv)
    ensures multiset(GetAllReviews(fetched, mock, selectedIds, env)) == multiset(NormalizeAll(fetched + mock, selectedIds, env))
  {
    SortBySortedPermutation(NormalizeAll(fetched + mock, selectedIds, env), NewestFirst(env));
  }

  /** The merged list runs from the latest date to the earliest. */
  lemma GetAllReviewsNewestFirst(fetched: seq<HostawayReview>, mock: seq<HostawayReview>,
                                 selectedIds: seq<ReviewId>, env: DateEnv)
    ensures NewestFirstOrder(env, GetAllReviews(fetched, mock, selectedIds, env))
  {
    SortBySortedPermutation(NormalizeAll(fetched + mock, selectedIds, env), NewestFirst(env));
    SortedNewestFirst(env, GetAllReviews(fetched, mock, selectedIds, env));
  }

  /** Reviews with the same date keep the order in which they were produced. */
  lemma GetAllReviewsStable(fetched: seq<HostawayReview>, mock: seq<HostawayReview>,
                            selectedIds: seq<ReviewId>, env: DateEnv, v: real)
    ensures WithKey(GetAllReviews(fetched, mock, selectedIds, env), NewestFirst(env), v)
         == WithKey(NormalizeAll(fetched + mock, selectedIds, env), NewestFirst(env), v)
  {
    SortByStable(NormalizeAll(fetched + mock, selectedIds, env), NewestFirst(env), v);
  }

  /** `getReviewsByProperty`: the merged list restricted to one property. */
  function GetReviewsByProperty(fetched: seq<HostawayReview>, mock: seq<HostawayReview>,
                                selectedIds: seq<ReviewId>, env: DateEnv, propertyId: string): seq<NormalizedReview>
  {
    Filter(GetAllReviews(fetched, mock, selectedIds, env), (r: NormalizedReview) => r.propertyId == propertyId)
  }

  /** `getSelectedReviewsByProperty`: of those, the ones selected for display. */
  function GetSelectedReviewsByProperty(fetched: seq<HostawayReview>, mock: seq<HostawayReview>,
                                        selectedIds: seq<ReviewId>, env: DateEnv, propertyId: string): seq<NormalizedReview>
  {
    Filter(GetReviewsByProperty(fetched, mock, selectedIds, env, propertyId), (r: NormalizedReview) => r.isSelected)
  }

  /**
   * The per-property lists hold exactly the merged reviews of that property
   * (and, for the public one, that are selected), as many times as they
   * occur there, still newest first.
   */
  lemma ReviewsByPropertySpec(fetched: seq<HostawayReview>, mock: seq<HostawayReview>,
                              selectedIds: seq<ReviewId>, env: DateEnv, propertyId: string)
    ensures var all := GetAllReviews(fetched, mock, selectedIds, env);
      var mine := GetReviewsByProperty(fetched, mock, selectedIds, env, propertyId);
      var shown := GetSelectedReviewsByProperty(fetched, mock, selectedIds, env, propertyId);
      && (forall x: NormalizedReview :: multiset(mine)[x] == if x.propertyId == propertyId then multiset(all)[x] else 0)
      && (forall x: NormalizedReview :: multiset(shown)[x] == if x.propertyId == propertyId && x.isSelected then multiset(all)[x] else 0)
      && NewestFirstOrder(env, mine) && NewestFirstOrder(env, shown)
  {
    var all := GetAllReviews(fetched, mock, selectedIds, env);
    var byProperty := (r: NormalizedReview) => r.propertyId == propertyId;
    var selected := (r: NormalizedReview) => r.isSelected;
    var mine := Filter(all, byProperty);
    var shown := Filter(mine, selected);
    forall x: NormalizedReview ensures multiset(mine)[x] == if x.propertyId == propertyId then multiset(all)[x] else 0 {
      FilterMultiset(all, byProperty, x);
    }
    forall x: NormalizedReview ensures multiset(shown)[x] == if x.propertyId == propertyId && x.isSelected then multiset(all)[x] else 0 {
      FilterMultiset(mine, selected, x);
    }
    SortBySortedPermutation(NormalizeAll(fetched + mock, selectedIds, env), NewestFirst(env));
    FilterSorted(all, byProperty, NewestFirst(env));
    FilterSorted(mine, selected, NewestFirst(env));
    SortedNewestFirst(env, mine);
    SortedNewestFirst(env, shown);
  }
}
