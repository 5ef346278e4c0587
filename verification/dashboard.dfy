/**
 * app/dashboard/page.tsx: the operator dashboard's figures. `CalculateStats`
 * aggregates the loaded reviews overall and per property; the list on
 * screen is in the DashboardView module.
 */
module Dashboard {
  import opened Seqs
  import opened ReviewTypes

  /** The figures `calculateStats` returns. */
  datatype DashboardStats = DashboardStats(
    totalReviews: nat,
    averageRating: real,
    selectedReviews: nat,
    propertyStats: seq<PropertyStats>)

  /** The running totals kept per property while the reviews are scanned. */
  datatype Accumulator = Accumulator(
    propertyName: string,
    ratingSum: real,
    totalReviews: nat,
    selectedReviews: nat,
    categorySums: seq<(string, real)>)

  /** The sum of the ratings (`reduce` with `+` from 0). */
  function RatingTotal(reviews: seq<NormalizedReview>): real
    decreases |reviews|
  {
    if reviews == [] then 0.0 else RatingTotal(reviews[..|reviews| - 1]) + reviews[|reviews| - 1].rating
  }

  /** The reviews that are shown publicly. */
  function Selected(reviews: seq<NormalizedReview>): seq<NormalizedReview> {
    Filter(reviews, (r: NormalizedReview) => r.isSelected)
  }

  function PropertyIds(reviews: seq<NormalizedReview>): seq<string> {
    seq(|reviews|, i requires 0 <= i < |reviews| => reviews[i].propertyId)
  }

  /** The reviews of one property, in order. */
  function ReviewsOf(reviews: seq<NormalizedReview>, propertyId: string): seq<NormalizedReview> {
    Filter(reviews, (r: NormalizedReview) => r.propertyId == propertyId)
  }

  /** The properties that have reviews, in order of their first review. */
  function PropertyOrder(reviews: seq<NormalizedReview>): seq<string> {
    Dedup(PropertyIds(reviews))
  }

  /** All category scores of the reviews, review after review. */
  function AllCategories(reviews: seq<NormalizedReview>): seq<ReviewCategory>
    decreases |reviews|
  {
    if reviews == [] then [] else AllCategories(reviews[..|reviews| - 1]) + reviews[|reviews| - 1].categories
  }

  function CategoryNames(cats: seq<ReviewCategory>): seq<string> {
    seq(|cats|, i requires 0 <= i < |cats| => cats[i].category)
  }

  /** The sum of the ratings of the scores named `name`. */
  function CategorySum(cats: seq<ReviewCategory>, name: string): real
    decreases |cats|
  {
    if cats == [] then 0.0
    else CategorySum(cats[..|cats| - 1], name) + (if cats[|cats| - 1].category == name then cats[|cats| - 1].rating else 0.0)
  }

  function Keys(entries: seq<(string, real)>): seq<string> {
    seq(|entries|, k requires 0 <= k < |entries| => entries[k].0)
  }

  /** `obj[key]` on an object's entries: the value under `key`, 0 when the key is missing. */
  function Lookup(entries: seq<(string, real)>, key: string): real
    decreases |entries|
  {
    if entries == [] then 0.0
    else if entries[0].0 == key then entries[0].1
    else Lookup(entries[1..], key)
  }

  /**
   * `if (!obj[c.category]) obj[c.category] = 0; obj[c.category] += c.rating`
   * on the object's entries in key insertion order: an existing key keeps
   * its place, a new key goes last.
   */
  function AddCategory(entries: seq<(string, real)>, c: ReviewCategory): seq<(string, real)>
    decreases |entries|
  {
    if entries == [] then [(c.category, c.rating)]
    else if entries[0].0 == c.category then
      [(entries[0].0, (if entries[0].1 == 0.0 then 0.0 else entries[0].1) + c.rating)] + entries[1..]
    else [entries[0]] + AddCategory(entries[1..], c)
  }

  /** The category object after adding every score of `cats` in order. */
  function CategoryTotals(cats: seq<ReviewCategory>): seq<(string, real)>
    decreases |cats|
  {
    if cats == [] then [] else AddCategory(CategoryTotals(cats[..|cats| - 1]), cats[|cats| - 1])
  }

  /** The category object after adding every score of `cats` to `entries`, in order. */
  function AddAll(entries: seq<(string, real)>, cats: seq<ReviewCategory>): seq<(string, real)>
    decreases |cats|
  {
    if cats == [] then entries else AddCategory(AddAll(entries, cats[..|cats| - 1]), cats[|cats| - 1])
  }

  /** Adding two runs of scores is adding the first, then the second. */
  lemma {:induction false} CategoryTotalsConcat(a: seq<ReviewCategory>, b: seq<ReviewCategory>)
    ensures CategoryTotals(a + b) == AddAll(CategoryTotals(a), b)
    decreases |b|
  {
    if b == [] {
      assert a + b == a;
    } else {
      assert (a + b)[..|a + b| - 1] == a + b[..|b| - 1];
      CategoryTotalsConcat(a, b[..|b| - 1]);
    }
  }

  /** The accumulator of a property whose reviews so far are `rs`, first seen under `name`. */
  function Accumulated(name: string, rs: seq<NormalizedReview>): Accumulator {
    Accumulator(name, RatingTotal(rs), |rs|, |Selected(rs)|, CategoryTotals(AllCategories(rs)))
  }

  /** The second pass: every sum divided by the property's review count. */
  function Finalize(propertyId: string, acc: Accumulator): PropertyStats
    requires acc.totalReviews > 0
  {
    var n := acc.totalReviews as real;
    PropertyStats(
      propertyId,
      acc.propertyName,
      acc.ratingSum / n,
      acc.totalReviews,
      acc.selectedReviews,
      seq(|acc.categorySums|, k requires 0 <= k < |acc.categorySums| =>
        (acc.categorySums[k].0, acc.categorySums[k].1 / n)))
  }

  /** Membership in `PropertyIds` means the property has reviews. */
  lemma ReviewsOfNonEmpty(reviews: seq<NormalizedReview>, propertyId: string)
    requires propertyId in PropertyIds(reviews)
    ensures ReviewsOf(reviews, propertyId) != []
  {
    var i :| 0 <= i < |reviews| && reviews[i].propertyId == propertyId;
    FilterMultiset(reviews, (r: NormalizedReview) => r.propertyId == propertyId, reviews[i]);
  }

  /** The statistics of one property that has reviews. */
  function StatsOf(reviews: seq<NormalizedReview>, propertyId: string): PropertyStats
    requires propertyId in PropertyIds(reviews)
  {
    ReviewsOfNonEmpty(reviews, propertyId);
    var rs := ReviewsOf(reviews, propertyId);
    Finalize(propertyId, Accumulated(rs[0].propertyName, rs))
  }

  /** What `calculateStats` computes for `reviews`. */
  function Stats(reviews: seq<NormalizedReview>): DashboardStats {
    var order := PropertyOrder(reviews);
    DashboardStats(
      |reviews|,
      if |reviews| == 0 then 0.0 else RatingTotal(reviews) / |reviews| as real,
      |Selected(reviews)|,
      seq(|order|, k requires 0 <= k < |order| => StatsOf(reviews, order[k])))
  }

  /** The map's keys are exactly the properties listed in the order. */
  ghost predicate KeysInOrder(order: seq<string>, accs: map<string, Accumulator>) {
    forall pid :: pid in accs <==> pid in order
  }

  /** Every accumulator holds the totals of its property's reviews, named after the first of them. */
  ghost predicate HoldTotals(reviews: seq<NormalizedReview>, accs: map<string, Accumulator>) {
    forall pid | pid in accs ::
      && ReviewsOf(reviews, pid) != []
      && accs[pid] == Accumulated(ReviewsOf(reviews, pid)[0].propertyName, ReviewsOf(reviews, pid))
  }

  /** An accumulator after counting one more review. */
  function Counted(acc: Accumulator, review: NormalizedReview): Accumulator {
    Accumulator(acc.propertyName, acc.ratingSum + review.rating, acc.totalReviews + 1,
                acc.selectedReviews + (if review.isSelected then 1 else 0),
                AddAll(acc.categorySums, review.categories))
  }

  /** The accumulator a review is counted into: its property's, or a fresh one named after it. */
  function StartOf(accs: map<string, Accumulator>, review: NormalizedReview): Accumulator {
    if review.propertyId in accs then accs[review.propertyId]
    else Accumulator(review.propertyName, 0.0, 0, 0, [])
  }

  /**
   * The body of the scan for one review: count it, add its rating and
   * selection, and add each category score.
   */
  method AddReview(acc: Accumulator, review: NormalizedReview) returns (updated: Accumulator)
    ensures updated == Counted(acc, review)
  {
    updated := acc.(totalReviews := acc.totalReviews + 1, ratingSum := acc.ratingSum + review.rating);
    if review.isSelected {
      updated := updated.(selectedReviews := updated.selectedReviews + 1);
    }
    var cats := review.categories;
    var j := 0;
    while j < |cats|
      invariant 0 <= j <= |cats|
      invariant updated.categorySums == AddAll(acc.categorySums, cats[..j])
      invariant updated.propertyName == acc.propertyName && updated.ratingSum == acc.ratingSum + review.rating
      invariant updated.totalReviews == acc.totalReviews + 1
      invariant updated.selectedReviews == acc.selectedReviews + (if review.isSelected then 1 else 0)
    {
      assert cats[..j + 1][..j] == cats[..j];
      updated := updated.(categorySums := AddCategory(updated.categorySums, cats[j]));
      j := j + 1;
    }
    assert cats[..j] == cats;
  }

  /**
   * The body of the scan for one review: register its property (at the end
   * of the insertion order) if it is new, then count the review into the
   * property's accumulator.
   */
  method CountReview(order: seq<string>, accs: map<string, Accumulator>, review: NormalizedReview)
    returns (order': seq<string>, accs': map<string, Accumulator>)
    ensures order' == if review.propertyId in accs then order else order + [review.propertyId]
    ensures accs' == accs[review.propertyId := Counted(StartOf(accs, review), review)]
  {
    order', accs' := order, accs;
    if review.propertyId !in accs' {
      accs' := accs'[review.propertyId := Accumulator(review.propertyName, 0.0, 0, 0, [])];
      order' := order' + [review.propertyId];
    }
    var acc := accs'[review.propertyId];
    assert acc == StartOf(accs, review);
    acc := AddReview(acc, review);
    MapUpdateTwice(accs, review.propertyId, accs'[review.propertyId], acc);
    accs' := accs'[review.propertyId := acc];
  }

  /**
   * `calculateStats`: one scan over the reviews fills a map of per-property
   * accumulators (created on a property's first review), then each is
   * divided by its count, in the map's insertion order.
   */
  method CalculateStats(reviews: seq<NormalizedReview>) returns (stats: DashboardStats)
    ensures stats == Stats(reviews)
  {
    var totalReviews := |reviews|;
    var averageRating := if totalReviews == 0 then 0.0 else RatingTotal(reviews) / totalReviews as real;
    var selectedReviews := |Selected(reviews)|;

    var order: seq<string> := [];
    var accs: map<string, Accumulator> := map[];
    var i := 0;
    while i < |reviews|
      invariant 0 <= i <= |reviews|
      invariant order == ScanOrder(reviews[..i])
      invariant accs == Scan(reviews[..i])
    {
      ScanStep(reviews, i);
      order, accs := CountReview(order, accs, reviews[i]);
      i := i + 1;
    }
    assert reviews[..i] == reviews;
    FinalPass(reviews, order, accs);
    var propertyStats := seq(|order|, k requires 0 <= k < |order| => Finalize(order[k], accs[order[k]]));
    assert propertyStats == Stats(reviews).propertyStats;
    stats := DashboardStats(totalReviews, averageRating, selectedReviews, propertyStats);
  }

  lemma NotSeenNoReviews(reviews: seq<NormalizedReview>, propertyId: string)
    requires propertyId !in PropertyOrder(reviews)
    ensures ReviewsOf(reviews, propertyId) == []
  {
    forall k | 0 <= k < |reviews| ensures reviews[k].propertyId != propertyId {
      assert PropertyIds(reviews)[k] == reviews[k].propertyId;
    }
    FilterNone(reviews, (r: NormalizedReview) => r.propertyId == propertyId);
  }

  /** One more review of a property adds its rating, count, selection and scores to the totals. */
  lemma AccumulatedAppend(name: string, rs: seq<NormalizedReview>, r: NormalizedReview)
    ensures Accumulated(name, rs + [r]) == Counted(Accumulated(name, rs), r)
  {
    assert (rs + [r])[..|rs|] == rs;
    CategoryTotalsConcat(AllCategories(rs), r.categories);
  }

  lemma MapUpdateTwice<K, V>(m: map<K, V>, k: K, a: V, b: V)
    ensures m[k := a][k := b] == m[k := b]
  {
  }

  /** The name a property's accumulator carries: that of its first review, `r` when there is none yet. */
  function NameOf(seen: seq<NormalizedReview>, r: NormalizedReview): string {
    if seen == [] then r.propertyName else seen[0].propertyName
  }

  /** The accumulator review `i` is counted into holds the totals of its property's earlier reviews. */
  lemma StartAccumulated(reviews: seq<NormalizedReview>, i: nat, order: seq<string>, accs: map<string, Accumulator>)
    requires i < |reviews| && order == PropertyOrder(reviews[..i]) && KeysInOrder(order, accs) && HoldTotals(reviews[..i], accs)
    ensures var seen := ReviewsOf(reviews[..i], reviews[i].propertyId);
      StartOf(accs, reviews[i]) == Accumulated(NameOf(seen, reviews[i]), seen)
  {
    if reviews[i].propertyId !in accs {
      NotSeenNoReviews(reviews[..i], reviews[i].propertyId);
    }
  }

  /** After counting review `i`, the accumulator of any property holds the totals of its reviews so far. */
  lemma ScanAt(reviews: seq<NormalizedReview>, i: nat, pid: string, accs: map<string, Accumulator>, acc: Accumulator)
    requires i < |reviews|
    requires var pre := ReviewsOf(reviews[..i], pid);
      pid in accs ==> pre != [] && accs[pid] == Accumulated(pre[0].propertyName, pre)
    requires var r := reviews[i]; var seen := ReviewsOf(reviews[..i], r.propertyId);
      acc == Accumulated(NameOf(seen, r), seen + [r])
    requires pid in accs || pid == reviews[i].propertyId
    ensures var post := ReviewsOf(reviews[..i + 1], pid);
      post != [] && accs[reviews[i].propertyId := acc][pid] == Accumulated(post[0].propertyName, post)
  {
    var r := reviews[i];
    ReviewsOfStep(reviews, i, pid);
    var seen := ReviewsOf(reviews[..i], pid);
    if pid == r.propertyId {
      assert (seen + [r])[0].propertyName == NameOf(seen, r);
    } else {
      assert ReviewsOf(reviews[..i + 1], pid) == seen;
      assert accs[r.propertyId := acc][pid] == accs[pid];
    }
  }

  /** Registering a key in the map and in the order list keeps the two in step. */
  lemma KeysStep(order: seq<string>, accs: map<string, Accumulator>, key: string, acc: Accumulator,
                 order': seq<string>, accs': map<string, Accumulator>)
    requires KeysInOrder(order, accs)
    requires accs' == accs[key := acc]
    requires order' == if key in accs then order else order + [key]
    ensures KeysInOrder(order', accs')
  {
  }

  /** After counting review `i`, every registered property's accumulator holds its reviews' totals. */
  lemma ScanValues(reviews: seq<NormalizedReview>, i: nat, order: seq<string>, accs: map<string, Accumulator>,
                   accs': map<string, Accumulator>)
    requires i < |reviews| && order == PropertyOrder(reviews[..i]) && KeysInOrder(order, accs) && HoldTotals(reviews[..i], accs)
    requires accs' == accs[reviews[i].propertyId := Counted(StartOf(accs, reviews[i]), reviews[i])]
    ensures HoldTotals(reviews[..i + 1], accs')
  {
    var r := reviews[i];
    var seen := ReviewsOf(reviews[..i], r.propertyId);
    StartAccumulated(reviews, i, order, accs);
    AccumulatedAppend(NameOf(seen, r), seen, r);
    var acc := Counted(StartOf(accs, r), r);
    forall pid | pid in accs'
      ensures var post := ReviewsOf(reviews[..i + 1], pid);
        post != [] && accs'[pid] == Accumulated(post[0].propertyName, post)
    {
      ScanAt(reviews, i, pid, accs, acc);
    }
  }

  /** Counting review `i` into its accumulator keeps the scan invariant. */
  lemma ScanPreserves(reviews: seq<NormalizedReview>, i: nat, order: seq<string>, accs: map<string, Accumulator>,
                      order': seq<string>, accs': map<string, Accumulator>)
    requires i < |reviews| && order == PropertyOrder(reviews[..i]) && KeysInOrder(order, accs) && HoldTotals(reviews[..i], accs)
    requires var r := reviews[i];
      && order' == (if r.propertyId in accs then order else order + [r.propertyId])
      && accs' == accs[r.propertyId := Counted(StartOf(accs, r), r)]
    ensures order' == PropertyOrder(reviews[..i + 1])
    ensures KeysInOrder(order', accs')
    ensures HoldTotals(reviews[..i + 1], accs')
  {
    OrderStep(reviews, i);
    KeysStep(order, accs, reviews[i].propertyId, Counted(StartOf(accs, reviews[i]), reviews[i]), order', accs');
    ScanValues(reviews, i, order, accs, accs');
  }

  /** The accumulators the scan has built after the reviews `rs`. */
  function Scan(rs: seq<NormalizedReview>): map<string, Accumulator>
    decreases |rs|
  {
    if rs == [] then map[]
    else
      var accs := Scan(rs[..|rs| - 1]);
      var r := rs[|rs| - 1];
      accs[r.propertyId := Counted(StartOf(accs, r), r)]
  }

  /** The scan keeps an accumulator for exactly the properties seen, holding the totals of their reviews. */
  lemma {:induction false} ScanHolds(rs: seq<NormalizedReview>)
    ensures KeysInOrder(PropertyOrder(rs), Scan(rs))
    ensures HoldTotals(rs, Scan(rs))
    decreases |rs|
  {
    if rs != [] {
      var i := |rs| - 1;
      ScanHolds(rs[..i]);
      var order, accs := PropertyOrder(rs[..i]), Scan(rs[..i]);
      var r := rs[i];
      assert rs[..i + 1] == rs;
      ScanPreserves(rs, i, order, accs, if r.propertyId in accs then order else order + [r.propertyId], Scan(rs));
    }
  }

  /** One step of the scan: review `i` extends the order if its property is new and is counted in. */
  lemma ScanStep(reviews: seq<NormalizedReview>, i: nat)
    requires i < |reviews|
    ensures var r, order, accs := reviews[i], ScanOrder(reviews[..i]), Scan(reviews[..i]);
      && ScanOrder(reviews[..i + 1]) == (if r.propertyId in accs then order else order + [r.propertyId])
      && Scan(reviews[..i + 1]) == accs[r.propertyId := Counted(StartOf(accs, r), r)]
  {
    var prefix, r := reviews[..i + 1], reviews[i];
    ScanHolds(reviews[..i]);
    ScanOrderIsPropertyOrder(reviews[..i]);
    assert prefix[..i] == reviews[..i] && prefix[i] == r;
    assert r.propertyId in Scan(reviews[..i]) <==> r.propertyId in ScanOrder(reviews[..i]);
  }

  /** The order the scan registers properties in. */
  function ScanOrder(rs: seq<NormalizedReview>): seq<string>
    decreases |rs|
  {
    if rs == [] then []
    else
      var order := ScanOrder(rs[..|rs| - 1]);
      var pid := rs[|rs| - 1].propertyId;
      if pid in order then order else order + [pid]
  }

  /** The scan registers properties in order of first appearance. */
  lemma {:induction false} ScanOrderIsPropertyOrder(rs: seq<NormalizedReview>)
    ensures ScanOrder(rs) == PropertyOrder(rs)
    decreases |rs|
  {
    if rs != [] {
      var i := |rs| - 1;
      ScanOrderIsPropertyOrder(rs[..i]);
      OrderStep(rs, i);
      assert rs[..i + 1] == rs;
    }
  }

  /** The accumulators after the scan, divided, are the statistics of every property. */
  lemma FinalPass(reviews: seq<NormalizedReview>, order: seq<string>, accs: map<string, Accumulator>)
    requires order == ScanOrder(reviews) && accs == Scan(reviews)
    ensures |order| == |Stats(reviews).propertyStats|
    ensures forall k | 0 <= k < |order| ::
      && order[k] in accs && accs[order[k]].totalReviews > 0
      && Finalize(order[k], accs[order[k]]) == Stats(reviews).propertyStats[k]
  {
    ScanHolds(reviews);
    ScanOrderIsPropertyOrder(reviews);
    forall k | 0 <= k < |order|
      ensures order[k] in accs && accs[order[k]].totalReviews > 0
      ensures Finalize(order[k], accs[order[k]]) == Stats(reviews).propertyStats[k]
    {
      var pid := order[k];
      assert pid in PropertyIds(reviews);
      var rs := ReviewsOf(reviews, pid);
      assert accs[pid] == Accumulated(rs[0].propertyName, rs);
    }
  }

  /** One more review joins the reviews of its own property only. */
  lemma ReviewsOfStep(reviews: seq<NormalizedReview>, i: nat, propertyId: string)
    requires i < |reviews|
    ensures ReviewsOf(reviews[..i + 1], propertyId)
         == ReviewsOf(reviews[..i], propertyId) + (if reviews[i].propertyId == propertyId then [reviews[i]] else [])
  {
    assert reviews[..i + 1][..i] == reviews[..i];
  }

  /** One more review adds its property at the end of the order, unless the property was seen. */
  lemma OrderStep(reviews: seq<NormalizedReview>, i: nat)
    requires i < |reviews|
    ensures var pid := reviews[i].propertyId;
      PropertyOrder(reviews[..i + 1])
      == (if pid in PropertyOrder(reviews[..i]) then PropertyOrder(reviews[..i]) else PropertyOrder(reviews[..i]) + [pid])
  {
    assert PropertyIds(reviews[..i + 1])[..i] == PropertyIds(reviews[..i]);
  }

  /** Adding a score adds its rating under its own name and nothing under any other. */
  lemma {:induction false} AddCategoryLookup(entries: seq<(string, real)>, c: ReviewCategory, key: string)
    ensures Lookup(AddCategory(entries, c), key) == Lookup(entries, key) + (if c.category == key then c.rating else 0.0)
    decreases |entries|
  {
    if entries != [] && entries[0].0 != c.category {
      AddCategoryLookup(entries[1..], c, key);
      assert AddCategory(entries, c)[1..] == AddCategory(entries[1..], c);
    }
  }

  /** Adding a score appends its name to the keys when it is new, and leaves the keys alone otherwise. */
  lemma {:induction false} AddCategoryKeys(entries: seq<(string, real)>, c: ReviewCategory)
    ensures Keys(AddCategory(entries, c))
         == if c.category in Keys(entries) then Keys(entries) else Keys(entries) + [c.category]
    decreases |entries|
  {
    if entries != [] {
      assert Keys(entries) == [entries[0].0] + Keys(entries[1..]);
      if entries[0].0 != c.category {
        AddCategoryKeys(entries[1..], c);
        assert Keys(AddCategory(entries, c)) == [entries[0].0] + Keys(AddCategory(entries[1..], c));
      }
    }
  }

  /** The category object's keys are the distinct category names, in order of first appearance. */
  lemma {:induction false} CategoryTotalsKeys(cats: seq<ReviewCategory>)
    ensures Keys(CategoryTotals(cats)) == Dedup(CategoryNames(cats))
    decreases |cats|
  {
    if cats != [] {
      var init, c := cats[..|cats| - 1], cats[|cats| - 1];
      var names := CategoryNames(cats);
      CategoryTotalsKeys(init);
      AddCategoryKeys(CategoryTotals(init), c);
      assert names[..|names| - 1] == CategoryNames(init);
      assert names[|names| - 1] == c.category;
      DedupStep(names);
    }
  }

  /** The value under each category name is the sum of that category's ratings. */
  lemma {:induction false} CategoryTotalsLookup(cats: seq<ReviewCategory>, key: string)
    ensures Lookup(CategoryTotals(cats), key) == CategorySum(cats, key)
    decreases |cats|
  {
    if cats != [] {
      var init := cats[..|cats| - 1];
      CategoryTotalsLookup(init, key);
      AddCategoryLookup(CategoryTotals(init), cats[|cats| - 1], key);
    }
  }

  /** Dividing every value of the object divides what each key looks up, and keeps the keys. */
  lemma {:induction false} LookupDivided(entries: seq<(string, real)>, n: real, key: string)
    requires n > 0.0
    ensures var divided := seq(|entries|, k requires 0 <= k < |entries| => (entries[k].0, entries[k].1 / n));
      Keys(divided) == Keys(entries) && Lookup(divided, key) == Lookup(entries, key) / n
    decreases |entries|
  {
    var divided := seq(|entries|, k requires 0 <= k < |entries| => (entries[k].0, entries[k].1 / n));
    if entries != [] {
      var rest := entries[1..];
      assert divided[1..] == seq(|rest|, k requires 0 <= k < |rest| => (rest[k].0, rest[k].1 / n));
      LookupDivided(rest, n, key);
    }
  }

  /**
   * What each entry of `propertyStats` means: the property's id and first
   * review's name, its review and selection counts, its mean rating, and
   * per category name (in order of first appearance) the sum of that
   * category's ratings divided by the property's review count.
   */
  lemma PropertyStatsMeaning(reviews: seq<NormalizedReview>, k: nat, name: string)
    requires k < |Stats(reviews).propertyStats|
    ensures var ps, pid := Stats(reviews).propertyStats[k], PropertyOrder(reviews)[k];
      var rs := ReviewsOf(reviews, pid);
      && rs != []
      && ps.propertyId == pid && ps.propertyName == rs[0].propertyName
      && ps.totalReviews == |rs| && ps.selectedReviews == |Selected(rs)| <= ps.totalReviews
      && ps.averageRating == RatingTotal(rs) / |rs| as real
      && Keys(ps.categoryAverages) == Dedup(CategoryNames(AllCategories(rs)))
      && Lookup(ps.categoryAverages, name) == CategorySum(AllCategories(rs), name) / |rs| as real
  {
    var pid := PropertyOrder(reviews)[k];
    assert pid in PropertyIds(reviews);
    ReviewsOfNonEmpty(reviews, pid);
    var rs := ReviewsOf(reviews, pid);
    var totals, n := CategoryTotals(AllCategories(rs)), |rs| as real;
    var ps := Stats(reviews).propertyStats[k];
    assert ps == Finalize(pid, Accumulated(rs[0].propertyName, rs));
    assert ps.categoryAverages == seq(|totals|, j requires 0 <= j < |totals| => (totals[j].0, totals[j].1 / n));
    CategoryTotalsKeys(AllCategories(rs));
    CategoryTotalsLookup(AllCategories(rs), name);
    LookupDivided(totals, n, name);
  }

  /** No id is listed twice. */
  ghost predicate Distinct(ids: seq<string>) {
    forall i, j :: 0 <= i < j < |ids| ==> ids[i] != ids[j]
  }

  /** How many reviews of the properties `ids` satisfy `p`, property by property. */
  function CountIn(reviews: seq<NormalizedReview>, ids: seq<string>, p: NormalizedReview -> bool): nat
    decreases |ids|
  {
    if ids == [] then 0
    else CountIn(reviews, ids[..|ids| - 1], p) + |Filter(ReviewsOf(reviews, ids[|ids| - 1]), p)|
  }

  /** One more review adds one to the count of its property, when it satisfies `p` and its property is listed. */
  lemma {:induction false} CountInStep(reviews: seq<NormalizedReview>, n: nat, ids: seq<string>,
                                       p: NormalizedReview -> bool)
    requires n < |reviews| && Distinct(ids)
    ensures CountIn(reviews[..n + 1], ids, p)
         == CountIn(reviews[..n], ids, p) + (if reviews[n].propertyId in ids && p(reviews[n]) then 1 else 0)
    decreases |ids|
  {
    if ids != [] {
      var init, last, r := ids[..|ids| - 1], ids[|ids| - 1], reviews[n];
      CountInStep(reviews, n, init, p);
      ReviewsOfStep(reviews, n, last);
      FilterConcat(ReviewsOf(reviews[..n], last), if r.propertyId == last then [r] else [], p);
      assert r.propertyId in ids <==> r.propertyId in init || r.propertyId == last;
      assert last !in init;
    }
  }

  /** Over all properties, in the dashboard's order, the per-property counts add up to the overall count. */
  lemma CountInCovers(reviews: seq<NormalizedReview>, p: NormalizedReview -> bool)
    ensures CountIn(reviews, PropertyOrder(reviews), p) == |Filter(reviews, p)|
  {
    CountInPrefix(reviews, |reviews|, p);
    assert reviews[..|reviews|] == reviews;
  }

  /** The counts add up on every prefix of the reviews. */
  lemma {:induction false} CountInPrefix(reviews: seq<NormalizedReview>, n: nat, p: NormalizedReview -> bool)
    requires n <= |reviews|
    ensures CountIn(reviews[..n], PropertyOrder(reviews[..n]), p) == |Filter(reviews[..n], p)|
    decreases n
  {
    if n > 0 {
      var m := n - 1;
      CountInPrefix(reviews, m, p);
      CoversStep(reviews, m, p);
    }
  }

  /** Counting one more review keeps the per-property counts adding up. */
  lemma CoversStep(reviews: seq<NormalizedReview>, n: nat, p: NormalizedReview -> bool)
    requires n < |reviews|
    requires CountIn(reviews[..n], PropertyOrder(reviews[..n]), p) == |Filter(reviews[..n], p)|
    ensures CountIn(reviews[..n + 1], PropertyOrder(reviews[..n + 1]), p) == |Filter(reviews[..n + 1], p)|
  {
    FilterPrefixStep(reviews, n, p);
    CountsStep(reviews, n, p);
  }

  /** One more review adds one to the per-property counts exactly when it passes the filter. */
  lemma CountsStep(reviews: seq<NormalizedReview>, n: nat, p: NormalizedReview -> bool)
    requires n < |reviews|
    ensures CountIn(reviews[..n + 1], PropertyOrder(reviews[..n + 1]), p)
      == CountIn(reviews[..n], PropertyOrder(reviews[..n]), p) + (if p(reviews[n]) then 1 else 0)
  {
    var prev, next, r := reviews[..n], reviews[..n + 1], reviews[n];
    var order := PropertyOrder(prev);
    OrderStep(reviews, n);
    CountInStep(reviews, n, order, p);
    if r.propertyId !in order {
      CountInNewProperty(reviews, n, p);
    }
  }

  /** A review of a property not seen before is counted under that property alone. */
  lemma CountInNewProperty(reviews: seq<NormalizedReview>, n: nat, p: NormalizedReview -> bool)
    requires n < |reviews| && reviews[n].propertyId !in PropertyOrder(reviews[..n])
    ensures var order, pid := PropertyOrder(reviews[..n]), reviews[n].propertyId;
      CountIn(reviews[..n + 1], order + [pid], p)
      == CountIn(reviews[..n + 1], order, p) + (if p(reviews[n]) then 1 else 0)
  {
    var order, pid := PropertyOrder(reviews[..n]), reviews[n].propertyId;
    NotSeenNoReviews(reviews[..n], pid);
    ReviewsOfStep(reviews, n, pid);
    var prefix, ids := reviews[..n + 1], order + [pid];
    assert ReviewsOf(prefix, pid) == [reviews[n]];
    assert ids[..|ids| - 1] == order && ids[|ids| - 1] == pid;
    assert Filter([reviews[n]], p) == (if p(reviews[n]) then [reviews[n]] else []) by {
      assert [reviews[n]][..0] == [];
    }
  }

  /** The sum of the per-property review counts. */
  function TotalsOf(ps: seq<PropertyStats>): nat
    decreases |ps|
  {
    if ps == [] then 0 else TotalsOf(ps[..|ps| - 1]) + ps[|ps| - 1].totalReviews
  }

  /** The sum of the per-property selection counts. */
  function SelectedOf(ps: seq<PropertyStats>): nat
    decreases |ps|
  {
    if ps == [] then 0 else SelectedOf(ps[..|ps| - 1]) + ps[|ps| - 1].selectedReviews
  }

  /** Entry `k` of `propertyStats` is the property `k` of the order, with its review and selection counts. */
  lemma StatsCounts(reviews: seq<NormalizedReview>, k: nat)
    requires k < |Stats(reviews).propertyStats|
    ensures |Stats(reviews).propertyStats| == |PropertyOrder(reviews)|
    ensures var ps, pid := Stats(reviews).propertyStats[k], PropertyOrder(reviews)[k];
      && ps.propertyId == pid
      && ps.totalReviews == |ReviewsOf(reviews, pid)|
      && ps.selectedReviews == |Selected(ReviewsOf(reviews, pid))|
  {
    var pid := PropertyOrder(reviews)[k];
    assert pid in PropertyIds(reviews);
  }

  /** Summing the review counts of the first `j` entries gives what `CountIn` counts for their properties. */
  lemma {:induction false} TotalsOfPrefix(reviews: seq<NormalizedReview>, ps: seq<PropertyStats>, order: seq<string>, j: nat)
    requires j <= |ps| == |order|
    requires forall k :: 0 <= k < |ps| ==> ps[k].totalReviews == |ReviewsOf(reviews, order[k])|
    ensures TotalsOf(ps[..j]) == CountIn(reviews, order[..j], (r: NormalizedReview) => true)
    decreases j
  {
    if j > 0 {
      var i := j - 1;
      var all := (r: NormalizedReview) => true;
      TotalsOfPrefix(reviews, ps, order, i);
      FilterAll(ReviewsOf(reviews, order[i]), all);
      assert ps[..j][..i] == ps[..i];
      assert order[..j][..i] == order[..i];
    }
  }

  /** Summing the selection counts of the first `j` entries gives what `CountIn` counts for their properties. */
  lemma {:induction false} SelectedOfPrefix(reviews: seq<NormalizedReview>, ps: seq<PropertyStats>, order: seq<string>, j: nat)
    requires j <= |ps| == |order|
    requires forall k :: 0 <= k < |ps| ==> ps[k].selectedReviews == |Selected(ReviewsOf(reviews, order[k]))|
    ensures SelectedOf(ps[..j]) == CountIn(reviews, order[..j], (r: NormalizedReview) => r.isSelected)
    decreases j
  {
    if j > 0 {
      var i := j - 1;
      SelectedOfPrefix(reviews, ps, order, i);
      assert ps[..j][..i] == ps[..i];
      assert order[..j][..i] == order[..i];
    }
  }

  /** `StatsCounts` for every entry at once. */
  lemma AllStatsCounts(reviews: seq<NormalizedReview>)
    ensures var ps, order := Stats(reviews).propertyStats, PropertyOrder(reviews);
      && |ps| == |order|
      && (forall k :: 0 <= k < |ps| ==> ps[k].totalReviews == |ReviewsOf(reviews, order[k])|)
      && (forall k :: 0 <= k < |ps| ==> ps[k].selectedReviews == |Selected(ReviewsOf(reviews, order[k]))|)
  {
    var ps, order := Stats(reviews).propertyStats, PropertyOrder(reviews);
    forall k | 0 <= k < |ps|
      ensures ps[k].totalReviews == |ReviewsOf(reviews, order[k])|
      ensures ps[k].selectedReviews == |Selected(ReviewsOf(reviews, order[k]))|
    {
      StatsCounts(reviews, k);
    }
    PropertyStatsIds(reviews);
  }

  /**
   * The per-property review counts add up to the total number of reviews,
   * and the per-property selection counts to the number selected.
   */
  lemma PropertyCountsAddUp(reviews: seq<NormalizedReview>)
    ensures TotalsOf(Stats(reviews).propertyStats) == Stats(reviews).totalReviews
    ensures SelectedOf(Stats(reviews).propertyStats) == Stats(reviews).selectedReviews
  {
    var ps, order := Stats(reviews).propertyStats, PropertyOrder(reviews);
    AllStatsCounts(reviews);
    TotalsOfPrefix(reviews, ps, order, |ps|);
    SelectedOfPrefix(reviews, ps, order, |ps|);
    assert ps[..|ps|] == ps && order[..|order|] == order;
    CountInCovers(reviews, (r: NormalizedReview) => true);
    FilterAll(reviews, (r: NormalizedReview) => true);
    CountInCovers(reviews, (r: NormalizedReview) => r.isSelected);
  }

  /** `propertyStats` lists the properties of the order, one entry each (see `PropertyOrderFacts`). */
  lemma PropertyStatsIds(reviews: seq<NormalizedReview>)
    ensures |Stats(reviews).propertyStats| == |PropertyOrder(reviews)|
    ensures forall k :: 0 <= k < |PropertyOrder(reviews)| ==>
      Stats(reviews).propertyStats[k].propertyId == PropertyOrder(reviews)[k]
  {
    forall k | 0 <= k < |PropertyOrder(reviews)|
      ensures Stats(reviews).propertyStats[k].propertyId == PropertyOrder(reviews)[k]
    {
      StatsCounts(reviews, k);
    }
  }

  /** The index of the first review of a property; `|reviews|` when it has none. */
  function FirstReview(reviews: seq<NormalizedReview>, propertyId: string): (i: nat)
    ensures i <= |reviews|
    ensures i < |reviews| ==> reviews[i].propertyId == propertyId
    ensures forall h :: 0 <= h < i ==> reviews[h].propertyId != propertyId
    decreases |reviews|
  {
    if reviews == [] then 0
    else if reviews[0].propertyId == propertyId then 0
    else 1 + FirstReview(reviews[1..], propertyId)
  }

  /**
   * The order of `propertyStats` has one entry per property that has
   * reviews, no property twice, in order of each property's first review.
   */
  lemma PropertyOrderFacts(reviews: seq<NormalizedReview>)
    ensures var order := PropertyOrder(reviews);
      && (forall i :: 0 <= i < |reviews| ==> reviews[i].propertyId in order)
      && (forall k :: 0 <= k < |order| ==> FirstReview(reviews, order[k]) < |reviews|)
      && (forall k, l :: 0 <= k < l < |order| ==> order[k] != order[l])
      && (forall k, l :: 0 <= k < l < |order| ==> FirstReview(reviews, order[k]) < FirstReview(reviews, order[l]))
  {
    var order := PropertyOrder(reviews);
    forall i | 0 <= i < |reviews| ensures reviews[i].propertyId in order {
      assert PropertyIds(reviews)[i] in order;
    }
    forall k | 0 <= k < |order| ensures FirstReview(reviews, order[k]) < |reviews| {
      OrderReviewed(reviews, k);
    }
    forall k, l | 0 <= k < l < |order| ensures FirstReview(reviews, order[k]) < FirstReview(reviews, order[l]) {
      OrderReviewed(reviews, l);
      OrderFirstAppearance(reviews, k, l, FirstReview(reviews, order[l]));
    }
  }

  /** Every property in the order has a review. */
  lemma OrderReviewed(reviews: seq<NormalizedReview>, k: nat)
    requires k < |PropertyOrder(reviews)|
    ensures exists i :: 0 <= i < |reviews| && reviews[i].propertyId == PropertyOrder(reviews)[k]
  {
    var ids := PropertyIds(reviews);
    assert PropertyOrder(reviews)[k] in ids;
    var i :| 0 <= i < |ids| && ids[i] == PropertyOrder(reviews)[k];
    assert reviews[i].propertyId == ids[i];
  }

  /** A property listed before another has a review before each of the other's reviews. */
  lemma OrderFirstAppearance(reviews: seq<NormalizedReview>, k: nat, l: nat, i: nat)
    requires k < l < |PropertyOrder(reviews)| && i < |reviews| && reviews[i].propertyId == PropertyOrder(reviews)[l]
    ensures exists h :: 0 <= h < i && reviews[h].propertyId == PropertyOrder(reviews)[k]
  {
    var ids, order := PropertyIds(reviews), PropertyOrder(reviews);
    assert ids[i] == order[l];
    DedupFirstAppearance(ids, k, l, i);
    var h :| 0 <= h < i && ids[..i][h] == order[k];
    assert reviews[h].propertyId == ids[h];
  }
}
