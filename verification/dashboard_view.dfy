/**
 * app/dashboard/page.tsx: the list the dashboard shows. `HandleFilterChange`
 * narrows the loaded reviews filter by filter and sorts what is left;
 * `ApplySelection` is the local update after a successful toggle. Both work
 * on the page's two lists, the loaded reviews and the filtered ones.
 */
module DashboardView {
  import opened Wrappers
  import opened Text
  import opened Seqs
  import opened ReviewTypes
  import opened FilterBar
  import Reviews
  import Storage

  /** The property filter: "all", or the one property. */
  predicate PropertyOk(filters: Filters, r: NormalizedReview) {
    filters.propertyId == "all" || r.propertyId == filters.propertyId
  }

  /** The minimum-rating filter, active only when `parseFloat` gives a number above 0. */
  predicate RatingOk(filters: Filters, r: NormalizedReview) {
    var m := ParseFloat(filters.minRating);
    !(m.Some? && m.value > 0.0) || r.rating >= m.value
  }

  /** The channel filter: "all", or the one channel. */
  predicate ChannelOk(filters: Filters, r: NormalizedReview) {
    filters.channel == "all" || r.channel == filters.channel
  }

  /**
   * The search, active when the trimmed query is not empty: the lower-cased
   * guest name or text contains the lower-cased query, which is not trimmed.
   */
  predicate SearchOk(filters: Filters, r: NormalizedReview) {
    var query := ToLower(filters.searchQuery);
    Trim(filters.searchQuery) == ""
    || Contains(ToLower(r.guestName), query) || Contains(ToLower(r.reviewText), query)
  }

  /** A review is on screen exactly when it passes all four filters. */
  predicate Matches(filters: Filters, r: NormalizedReview) {
    PropertyOk(filters, r) && RatingOk(filters, r) && ChannelOk(filters, r) && SearchOk(filters, r)
  }

  /** `new Date(a.date).getTime() - new Date(b.date).getTime()`: earlier dates sort first. */
  function OldestFirst(env: DateEnv): NormalizedReview -> real {
    (r: NormalizedReview) => env.parseTime(r.date) as real
  }

  /** `b.rating - a.rating`: higher ratings sort first. */
  function HighestFirst(): NormalizedReview -> real {
    (r: NormalizedReview) => -r.rating
  }

  /** `a.rating - b.rating`: lower ratings sort first. */
  function LowestFirst(): NormalizedReview -> real {
    (r: NormalizedReview) => r.rating
  }

  /** The ascending sort key each `sortBy` value selects; none for an unknown value. */
  function SortKey(sortBy: string, env: DateEnv): Option<NormalizedReview -> real> {
    if sortBy == "date-desc" then Some(Reviews.NewestFirst(env))
    else if sortBy == "date-asc" then Some(OldestFirst(env))
    else if sortBy == "rating-desc" then Some(HighestFirst())
    else if sortBy == "rating-asc" then Some(LowestFirst())
    else None
  }

  /** `Matches` as the predicate handed to `Filter`. */
  function Matching(filters: Filters): NormalizedReview -> bool {
    (r: NormalizedReview) => Matches(filters, r)
  }

  /** The list sorted by the key `sortBy` selects, or left as it is. */
  function Arrange(kept: seq<NormalizedReview>, sortBy: string, env: DateEnv): seq<NormalizedReview> {
    match SortKey(sortBy, env)
    case Some(key) => SortBy(kept, key)
    case None => kept
  }

  /** The matching reviews, in the order `sortBy` asks for. */
  function FilteredView(reviews: seq<NormalizedReview>, filters: Filters, env: DateEnv): seq<NormalizedReview> {
    Arrange(Filter(reviews, Matching(filters)), filters.sortBy, env)
  }

  /** What the first `n` of the four filters, in the order they are applied, let through. */
  function Passes(filters: Filters, n: nat): NormalizedReview -> bool {
    (r: NormalizedReview) =>
      && (n >= 1 ==> PropertyOk(filters, r))
      && (n >= 2 ==> RatingOk(filters, r))
      && (n >= 3 ==> ChannelOk(filters, r))
      && (n >= 4 ==> SearchOk(filters, r))
  }

  /**
   * Applying the next filter when it is active, and nothing otherwise,
   * narrows what the first `n` let through to what the first `n + 1` do.
   */
  lemma Narrow(reviews: seq<NormalizedReview>, filters: Filters, n: nat, active: bool,
               cond: NormalizedReview -> bool, filtered: seq<NormalizedReview>)
    requires filtered == Filter(reviews, Passes(filters, n))
    requires forall r :: Passes(filters, n + 1)(r) == (Passes(filters, n)(r) && (active ==> cond(r)))
    ensures (if active then Filter(filtered, cond) else filtered) == Filter(reviews, Passes(filters, n + 1))
  {
    if active {
      FilterFilter(reviews, Passes(filters, n), cond, Passes(filters, n + 1));
    } else {
      FilterExt(reviews, Passes(filters, n), Passes(filters, n + 1));
    }
  }

  /** The four filters' own predicates, as `handleFilterChange` hands them to `filter`. */
  function ByProperty(propertyId: string): NormalizedReview -> bool {
    (r: NormalizedReview) => r.propertyId == propertyId
  }

  function AtLeast(minRating: real): NormalizedReview -> bool {
    (r: NormalizedReview) => r.rating >= minRating
  }

  function ByChannel(channel: string): NormalizedReview -> bool {
    (r: NormalizedReview) => r.channel == channel
  }

  /** `query` is already lower-cased. */
  function Found(query: string): NormalizedReview -> bool {
    (r: NormalizedReview) => Contains(ToLower(r.guestName), query) || Contains(ToLower(r.reviewText), query)
  }

  lemma FirstStage(reviews: seq<NormalizedReview>, filters: Filters)
    ensures reviews == Filter(reviews, Passes(filters, 0))
  {
    FilterAll(reviews, Passes(filters, 0));
  }

  lemma PropertyStage(reviews: seq<NormalizedReview>, filters: Filters)
    ensures var before := Filter(reviews, Passes(filters, 0));
      (if filters.propertyId != "all" then Filter(before, ByProperty(filters.propertyId)) else before)
      == Filter(reviews, Passes(filters, 1))
  {
    Narrow(reviews, filters, 0, filters.propertyId != "all", ByProperty(filters.propertyId), Filter(reviews, Passes(filters, 0)));
  }

  lemma RatingStage(reviews: seq<NormalizedReview>, filters: Filters)
    ensures var before, m := Filter(reviews, Passes(filters, 1)), ParseFloat(filters.minRating);
      (if m.Some? && m.value > 0.0 then Filter(before, AtLeast(m.value)) else before)
      == Filter(reviews, Passes(filters, 2))
  {
    var m := ParseFloat(filters.minRating);
    var bound := if m.Some? then m.value else 0.0;
    Narrow(reviews, filters, 1, m.Some? && m.value > 0.0, AtLeast(bound), Filter(reviews, Passes(filters, 1)));
  }

  lemma ChannelStage(reviews: seq<NormalizedReview>, filters: Filters)
    ensures var before := Filter(reviews, Passes(filters, 2));
      (if filters.channel != "all" then Filter(before, ByChannel(filters.channel)) else before)
      == Filter(reviews, Passes(filters, 3))
  {
    Narrow(reviews, filters, 2, filters.channel != "all", ByChannel(filters.channel), Filter(reviews, Passes(filters, 2)));
  }

  lemma SearchStage(reviews: seq<NormalizedReview>, filters: Filters)
    ensures var before := Filter(reviews, Passes(filters, 3));
      (if Trim(filters.searchQuery) != "" then Filter(before, Found(ToLower(filters.searchQuery))) else before)
      == Filter(reviews, Passes(filters, 4))
  {
    Narrow(reviews, filters, 3, Trim(filters.searchQuery) != "", Found(ToLower(filters.searchQuery)),
           Filter(reviews, Passes(filters, 3)));
  }

  lemma AllStages(reviews: seq<NormalizedReview>, filters: Filters)
    ensures Filter(reviews, Passes(filters, 4)) == Filter(reviews, Matching(filters))
  {
    FilterExt(reviews, Passes(filters, 4), Matching(filters));
  }

  /** `Arrange` spelled out as the `switch` on `sortBy`. */
  lemma ArrangeCases(kept: seq<NormalizedReview>, sortBy: string, env: DateEnv)
    ensures sortBy == "date-desc" ==> Arrange(kept, sortBy, env) == SortBy(kept, Reviews.NewestFirst(env))
    ensures sortBy == "date-asc" ==> Arrange(kept, sortBy, env) == SortBy(kept, OldestFirst(env))
    ensures sortBy == "rating-desc" ==> Arrange(kept, sortBy, env) == SortBy(kept, HighestFirst())
    ensures sortBy == "rating-asc" ==> Arrange(kept, sortBy, env) == SortBy(kept, LowestFirst())
    ensures sortBy !in ["date-desc", "date-asc", "rating-desc", "rating-asc"] ==> Arrange(kept, sortBy, env) == kept
  {
  }

  /** How the ordering of a list follows `sortBy`; an unknown value imposes none. */
  ghost predicate InSortOrder(sortBy: string, env: DateEnv, rs: seq<NormalizedReview>) {
    if sortBy == "date-desc" then Reviews.NewestFirstOrder(env, rs)
    else if sortBy == "date-asc" then
      forall i, j :: 0 <= i < j < |rs| ==> env.parseTime(rs[i].date) <= env.parseTime(rs[j].date)
    else if sortBy == "rating-desc" then forall i, j :: 0 <= i < j < |rs| ==> rs[i].rating >= rs[j].rating
    else if sortBy == "rating-asc" then forall i, j :: 0 <= i < j < |rs| ==> rs[i].rating <= rs[j].rating
    else true
  }

  /** The local `isSelected` update: reviews with id `reviewId` take the new flag, the rest stay as they are. */
  function ApplySelection(reviews: seq<NormalizedReview>, reviewId: ReviewId, isSelected: bool): seq<NormalizedReview> {
    Apply(reviews, SetSelected(reviewId, isSelected))
  }

  function SetSelected(reviewId: ReviewId, isSelected: bool): NormalizedReview -> NormalizedReview {
    (r: NormalizedReview) => if r.id == reviewId then r.(isSelected := isSelected) else r
  }

  /** The filtering half of `handleFilterChange`: each active filter narrows the list in turn. */
  method ApplyFilters(reviews: seq<NormalizedReview>, filters: Filters) returns (filtered: seq<NormalizedReview>)
    ensures filtered == Filter(reviews, Matching(filters))
  {
    filtered := reviews;
    FirstStage(reviews, filters);

    PropertyStage(reviews, filters);
    if filters.propertyId != "all" {
      filtered := Filter(filtered, ByProperty(filters.propertyId));
    }

    var minRating := ParseFloat(filters.minRating);
    RatingStage(reviews, filters);
    if minRating.Some? && minRating.value > 0.0 {
      filtered := Filter(filtered, AtLeast(minRating.value));
    }

    ChannelStage(reviews, filters);
    if filters.channel != "all" {
      filtered := Filter(filtered, ByChannel(filters.channel));
    }

    SearchStage(reviews, filters);
    if Trim(filters.searchQuery) != "" {
      var query := ToLower(filters.searchQuery);
      filtered := Filter(filtered, Found(query));
    }

    AllStages(reviews, filters);
  }

  /** The `switch` on `sortBy` that ends `handleFilterChange`; an unknown value leaves the list as it is. */
  method SortView(kept: seq<NormalizedReview>, sortBy: string, env: DateEnv) returns (sorted: seq<NormalizedReview>)
    ensures sorted == Arrange(kept, sortBy, env)
  {
    ArrangeCases(kept, sortBy, env);
    sorted := kept;
    if sortBy == "date-desc" {
      sorted := SortBy(kept, Reviews.NewestFirst(env));
    } else if sortBy == "date-asc" {
      sorted := SortBy(kept, OldestFirst(env));
    } else if sortBy == "rating-desc" {
      sorted := SortBy(kept, HighestFirst());
    } else if sortBy == "rating-asc" {
      sorted := SortBy(kept, LowestFirst());
    }
  }

  /** The page's state: the loaded reviews and the ones on screen. */
  class DashboardPage {
    var reviews: seq<NormalizedReview>
    var filteredReviews: seq<NormalizedReview>

    constructor ()
      ensures reviews == [] && filteredReviews == []
    {
      reviews := [];
      filteredReviews := [];
    }

    /** A successful load shows every loaded review, in the order it arrived. */
    method Load(data: seq<NormalizedReview>)
      modifies this
      ensures reviews == data && filteredReviews == data
    {
      reviews := data;
      filteredReviews := data;
    }

    /**
     * `handleFilterChange`: starting from all loaded reviews, each active
     * filter narrows the list in turn, then the list is sorted as `sortBy`
     * says. The loaded reviews are not changed.
     */
    method HandleFilterChange(filters: Filters, env: DateEnv)
      modifies this
      ensures reviews == old(reviews)
      ensures filteredReviews == FilteredView(reviews, filters, env)
    {
      var filtered := ApplyFilters(reviews, filters);
      filtered := SortView(filtered, filters.sortBy, env);
      filteredReviews := filtered;
    }

    /**
     * The local update in `handleToggleSelection` after the endpoint
     * answered: both lists take the returned flag for `reviewId`.
     */
    method ApplyToggle(reviewId: ReviewId, isSelected: bool)
      modifies this
      ensures reviews == ApplySelection(old(reviews), reviewId, isSelected)
      ensures filteredReviews == ApplySelection(old(filteredReviews), reviewId, isSelected)
    {
      reviews := ApplySelection(reviews, reviewId, isSelected);
      filteredReviews := ApplySelection(filteredReviews, reviewId, isSelected);
    }
  }

  /** Sorting keeps the elements. */
  lemma ArrangePermutation(kept: seq<NormalizedReview>, sortBy: string, env: DateEnv)
    ensures multiset(Arrange(kept, sortBy, env)) == multiset(kept)
  {
    match SortKey(sortBy, env)
    case Some(key) => SortBySortedPermutation(kept, key);
    case None =>
  }

  /**
   * The list on screen holds each review that passes every filter exactly
   * as often as the loaded list does, and nothing else.
   */
  lemma FilteredViewContents(reviews: seq<NormalizedReview>, filters: Filters, env: DateEnv)
    ensures forall x :: multiset(FilteredView(reviews, filters, env))[x]
                         == if Matches(filters, x) then multiset(reviews)[x] else 0
  {
    var matches := Matching(filters);
    ArrangePermutation(Filter(reviews, matches), filters.sortBy, env);
    forall x ensures multiset(FilteredView(reviews, filters, env))[x] == if Matches(filters, x) then multiset(reviews)[x] else 0 {
      FilterMultiset(reviews, matches, x);
    }
  }

  /** Every review on screen is a loaded review that passes each active filter. */
  lemma FilteredViewKept(reviews: seq<NormalizedReview>, filters: Filters, env: DateEnv, i: nat)
    requires i < |FilteredView(reviews, filters, env)|
    ensures var r, m, q := FilteredView(reviews, filters, env)[i], ParseFloat(filters.minRating), filters.searchQuery;
      && r in reviews
      && (filters.propertyId != "all" ==> r.propertyId == filters.propertyId)
      && (m.Some? && m.value > 0.0 ==> r.rating >= m.value)
      && (filters.channel != "all" ==> r.channel == filters.channel)
      && (Trim(q) != "" ==> Contains(ToLower(r.guestName), ToLower(q)) || Contains(ToLower(r.reviewText), ToLower(q)))
  {
    var view := FilteredView(reviews, filters, env);
    var r := view[i];
    FilteredViewContents(reviews, filters, env);
    assert r in multiset(view);
    assert Matches(filters, r) && r in multiset(reviews);
  }

  /** The list on screen is ordered as `sortBy` asks; for an unknown value it keeps the loaded order. */
  lemma FilteredViewOrder(reviews: seq<NormalizedReview>, filters: Filters, env: DateEnv)
    ensures InSortOrder(filters.sortBy, env, FilteredView(reviews, filters, env))
    ensures SortKey(filters.sortBy, env).None? ==>
              FilteredView(reviews, filters, env) == Filter(reviews, Matching(filters))
  {
    var kept := Filter(reviews, Matching(filters));
    var view := FilteredView(reviews, filters, env);
    var sortBy := filters.sortBy;
    match SortKey(sortBy, env)
    case Some(key) =>
      SortBySortedPermutation(kept, key);
      if sortBy == "date-desc" {
        Reviews.SortedNewestFirst(env, view);
      } else if sortBy == "date-asc" {
        forall i, j | 0 <= i < j < |view| ensures env.parseTime(view[i].date) <= env.parseTime(view[j].date) {
          assert key(view[i]) <= key(view[j]);
        }
      } else if sortBy == "rating-desc" {
        forall i, j | 0 <= i < j < |view| ensures view[i].rating >= view[j].rating {
          assert key(view[i]) <= key(view[j]);
        }
      } else {
        forall i, j | 0 <= i < j < |view| ensures view[i].rating <= view[j].rating {
          assert key(view[i]) <= key(view[j]);
        }
      }
    case None =>
  }

  /** Reviews that tie on the sort key stay in the order they were loaded in. */
  lemma FilteredViewStable(reviews: seq<NormalizedReview>, filters: Filters, env: DateEnv, v: real)
    requires SortKey(filters.sortBy, env).Some?
    ensures var key := SortKey(filters.sortBy, env).value;
      WithKey(FilteredView(reviews, filters, env), key, v)
      == WithKey(Filter(reviews, Matching(filters)), key, v)
  {
    SortByStable(Filter(reviews, Matching(filters)), SortKey(filters.sortBy, env).value, v);
  }

  /** The filter bar's initial record lets every review through, newest first. */
  lemma InitialFiltersShowAll(reviews: seq<NormalizedReview>, env: DateEnv)
    ensures FilteredView(reviews, InitialFilters, env) == SortBy(reviews, Reviews.NewestFirst(env))
  {
    ParseFloatNatToString(0);
    assert NatToString(0) == "0";
    FilterAll(reviews, Matching(InitialFilters));
  }

  /**
   * The local update changes only the `isSelected` flag, and only of the
   * reviews with id `reviewId`.
   */
  lemma ApplySelectionChangesOnlyFlag(reviews: seq<NormalizedReview>, reviewId: ReviewId, isSelected: bool, i: nat)
    requires i < |reviews|
    ensures var updated := ApplySelection(reviews, reviewId, isSelected);
      && |updated| == |reviews|
      && updated[i].isSelected == (if reviews[i].id == reviewId then isSelected else reviews[i].isSelected)
      && updated[i].(isSelected := reviews[i].isSelected) == reviews[i]
  {
  }

  /**
   * The update commutes with filtering and sorting: updating the list on
   * screen gives what filtering the updated loaded list would give.
   */
  lemma ApplySelectionCommutes(reviews: seq<NormalizedReview>, filters: Filters, env: DateEnv,
                               reviewId: ReviewId, isSelected: bool)
    ensures FilteredView(ApplySelection(reviews, reviewId, isSelected), filters, env)
         == ApplySelection(FilteredView(reviews, filters, env), reviewId, isSelected)
  {
    var f := SetSelected(reviewId, isSelected);
    var matches := Matching(filters);
    FilterApply(reviews, f, matches);
    match SortKey(filters.sortBy, env)
    case Some(key) =>
      assert forall y :: key(f(y)) == key(y) by {
        assert filters.sortBy == "date-desc" || filters.sortBy == "date-asc"
            || filters.sortBy == "rating-desc" || filters.sortBy == "rating-asc";
      }
      SortByApply(Filter(reviews, matches), key, f);
    case None =>
  }

  /** Every review's flag says whether its id is in the stored list. */
  ghost predicate FlagsAgree(reviews: seq<NormalizedReview>, ids: seq<ReviewId>) {
    forall i :: 0 <= i < |reviews| ==> reviews[i].isSelected == (reviews[i].id in ids)
  }

  /**
   * When the flags agree with the stored list, applying the toggle's answer
   * locally keeps them agreeing with the list the toggle wrote.
   */
  lemma ApplySelectionAgrees(reviews: seq<NormalizedReview>, ids: seq<ReviewId>, reviewId: ReviewId)
    requires FlagsAgree(reviews, ids)
    ensures var written := Storage.ToggledIds(ids, reviewId);
      FlagsAgree(ApplySelection(reviews, reviewId, reviewId in written), written)
  {
  }
}
