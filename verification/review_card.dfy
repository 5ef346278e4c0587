/**
 * components/ReviewCard.tsx: what a review card shows besides the review's
 * own fields — the rating's colour and badge, the category chips, and the
 * visibility button with its click guard.
 */
module ReviewCard {
  import opened Wrappers
  import opened Text
  import opened Seqs
  import opened ReviewTypes

  /** The badge names, lowest tier first. */
  const Badges: seq<string> := ["Fair", "Good", "Very Good", "Excellent", "Exceptional"]

  /** The colour gradients, lowest tier first. */
  const Colors: seq<string> := [
    "from-red-500 to-pink-500",
    "from-orange-500 to-amber-500",
    "from-yellow-500 to-amber-500",
    "from-green-500 to-lime-500",
    "from-emerald-500 to-green-500"]

  /** The thresholds both functions compare the rating with. */
  const Thresholds: seq<real> := [6.0, 7.0, 8.0, 9.0]

  /** The tier of a rating: how many thresholds it reaches. */
  function Tier(rating: real): nat {
    |Filter(Thresholds, (t: real) => rating >= t)|
  }

  /** `getRatingColor`. */
  function RatingColor(rating: real): string {
    if rating >= 9.0 then "from-emerald-500 to-green-500"
    else if rating >= 8.0 then "from-green-500 to-lime-500"
    else if rating >= 7.0 then "from-yellow-500 to-amber-500"
    else if rating >= 6.0 then "from-orange-500 to-amber-500"
    else "from-red-500 to-pink-500"
  }

  /** `getRatingBadge`. */
  function RatingBadge(rating: real): string {
    if rating >= 9.0 then "Exceptional"
    else if rating >= 8.0 then "Excellent"
    else if rating >= 7.0 then "Very Good"
    else if rating >= 6.0 then "Good"
    else "Fair"
  }

  /** Both if-chains pick the entry of the rating's tier. */
  lemma ByTier(rating: real)
    ensures Tier(rating) < 5
    ensures RatingBadge(rating) == Badges[Tier(rating)]
    ensures RatingColor(rating) == Colors[Tier(rating)]
  {
    TierCounts(rating);
  }

  /** The tier counts the thresholds the rating reaches, which are an initial run of them. */
  lemma TierCounts(rating: real)
    ensures Tier(rating) == if rating >= 9.0 then 4 else if rating >= 8.0 then 3
                            else if rating >= 7.0 then 2 else if rating >= 6.0 then 1 else 0
  {
    var t := Thresholds;
    var p := (x: real) => rating >= x;
    assert t[..0] == [] && t[..1] == [6.0] && t[..2] == [6.0, 7.0] && t[..3] == [6.0, 7.0, 8.0];
    FilterPrefixStep(t, 0, p);
    FilterPrefixStep(t, 1, p);
    FilterPrefixStep(t, 2, p);
    FilterPrefixStep(t, 3, p);
    assert t[..4] == t;
  }

  /** The colour and the badge always come from the same tier. */
  lemma ColorAgreesWithBadge(a: real, b: real)
    ensures RatingBadge(a) == RatingBadge(b) <==> RatingColor(a) == RatingColor(b)
  {
    ByTier(a);
    ByTier(b);
  }

  /** A higher rating never gets a lower badge. */
  lemma BadgeMonotone(a: real, b: real)
    requires a <= b
    ensures Tier(a) <= Tier(b)
    ensures RatingBadge(a) == Badges[Tier(a)] && RatingBadge(b) == Badges[Tier(b)]
  {
    ByTier(a);
    ByTier(b);
    FilterWeaker(Thresholds, (t: real) => a >= t, (t: real) => b >= t);
  }

  /** The text of a chip: the category name up to its first space. */
  function ShortLabel(category: string): (word: string)
    ensures StartsWith(category, word) && ' ' !in word
    ensures |word| < |category| ==> category[|word|] == ' '
  {
    SplitHead(category, ' ');
    Split(category, ' ')[0]
  }

  /** One chip: the short label and the category's score. */
  datatype Chip = Chip(word: string, rating: real)

  /** The chips shown for a review's categories: the first three, in order. */
  function CategoryChips(categories: seq<ReviewCategory>): (chips: seq<Chip>)
    ensures |chips| == if |categories| < 3 then |categories| else 3
    ensures forall i :: 0 <= i < |chips| ==>
              && StartsWith(categories[i].category, chips[i].word) && ' ' !in chips[i].word
              && (|chips[i].word| < |categories[i].category| ==> categories[i].category[|chips[i].word|] == ' ')
              && chips[i].rating == categories[i].rating
  {
    var shown := if |categories| < 3 then categories else categories[..3];
    seq(|shown|, i requires 0 <= i < |shown| => Chip(ShortLabel(shown[i].category), shown[i].rating))
  }

  /** The button's `onClick`: the id handed to the callback, or nothing while an update is running. */
  function OnToggleClick(review: NormalizedReview, isUpdating: bool): Option<ReviewId> {
    if !isUpdating then Some(review.id) else None
  }

  /** The button's text. */
  function ButtonLabel(review: NormalizedReview, isUpdating: bool): (text: string)
    ensures text == "Updating..." <==> isUpdating
    ensures text == "Visible" <==> !isUpdating && review.isSelected
    ensures text == "Hidden" <==> !isUpdating && !review.isSelected
  {
    if isUpdating then "Updating..." else if review.isSelected then "Visible" else "Hidden"
  }

  /**
   * A click reaches the callback, with this review's id, exactly when the
   * button does not say it is updating.
   */
  lemma ClickMatchesLabel(review: NormalizedReview, isUpdating: bool)
    ensures OnToggleClick(review, isUpdating) == Some(review.id) <==> ButtonLabel(review, isUpdating) != "Updating..."
    ensures OnToggleClick(review, isUpdating).None? <==> ButtonLabel(review, isUpdating) == "Updating..."
  {
  }
}
