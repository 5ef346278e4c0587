/**
 * components/PropertyCard.tsx: a property's summary card on the dashboard —
 * the colour of its average, the page it links to, and the category
 * averages it lists.
 */
module PropertyCard {
  import opened Wrappers
  import opened Text
  import opened ReviewTypes
  import ReviewCard

  /** `getRatingColor` of the property card: three bands. */
  function RatingColor(rating: real): string {
    if rating >= 8.0 then "text-green-600"
    else if rating >= 6.0 then "text-yellow-600"
    else "text-red-600"
  }

  /**
   * The card's three bands group the review card's five tiers: green is
   * "Excellent" and above, yellow "Good" or "Very Good", red "Fair".
   */
  lemma BandsGroupBadges(rating: real)
    ensures RatingColor(rating) == "text-green-600" <==> ReviewCard.RatingBadge(rating) in {"Excellent", "Exceptional"}
    ensures RatingColor(rating) == "text-yellow-600" <==> ReviewCard.RatingBadge(rating) in {"Good", "Very Good"}
    ensures RatingColor(rating) == "text-red-600" <==> ReviewCard.RatingBadge(rating) == "Fair"
  {
  }

  /** The band never drops as the average rises. */
  lemma BandMonotone(a: real, b: real)
    requires a <= b
    ensures RatingColor(a) == "text-green-600" ==> RatingColor(b) == "text-green-600"
    ensures RatingColor(b) == "text-red-600" ==> RatingColor(a) == "text-red-600"
  {
  }

  const PropertyPath := "/property/"

  /** The card's link target. */
  function Href(propertyId: string): (href: string)
    ensures StartsWith(href, PropertyPath)
    ensures href[|PropertyPath|..] == propertyId
  {
    PropertyPath + propertyId
  }

  /** Different properties link to different pages. */
  lemma HrefInjective(a: string, b: string)
    ensures Href(a) == Href(b) <==> a == b
  {
    if Href(a) == Href(b) {
      assert Href(a)[|PropertyPath|..] == Href(b)[|PropertyPath|..];
    }
  }

  /**
   * The category section: absent when there are no averages, otherwise the
   * first four, each name with every underscore turned into a space and
   * every other character kept.
   */
  function CategorySection(categoryAverages: seq<(string, real)>): (section: Option<seq<(string, real)>>)
    ensures section.None? <==> categoryAverages == []
    ensures section.Some? ==>
      && |section.value| == (if |categoryAverages| < 4 then |categoryAverages| else 4)
      && forall i :: 0 <= i < |section.value| ==>
           && section.value[i].1 == categoryAverages[i].1
           && |section.value[i].0| == |categoryAverages[i].0|
           && '_' !in section.value[i].0
           && forall k :: 0 <= k < |categoryAverages[i].0| ==>
                section.value[i].0[k] == if categoryAverages[i].0[k] == '_' then ' ' else categoryAverages[i].0[k]
  {
    if |categoryAverages| == 0 then None
    else
      var shown := if |categoryAverages| < 4 then categoryAverages else categoryAverages[..4];
      Some(seq(|shown|, i requires 0 <= i < |shown| => (ReplaceAll(shown[i].0, '_', ' '), shown[i].1)))
  }
}
