# Review curation for the Flex Living reviews dashboard

This project models the review-curation core of the Flex Living reviews dashboard, a Next.js application:

- **Normalisation.** Hostaway and Google Places records become one canonical `NormalizedReview`. This covers the property id lookup by listing name, the "First L." name shortening, the category average, and the Google review id built from decimal digits.
- **Selection store.** A JSON file holds the ids of the reviews an operator has made public. The toggle endpoint flips one id in it.
- **Dashboard.** The operator dashboard derives statistics per property and a filtered, sorted list, and it patches a single record when a toggle succeeds.
- **Decision functions.** The cards and filter bar make small decisions: rating tiers, the five-slot star row, the filter record, the property link and the category section.

Each core file becomes one module:

| module | file | flavour |
|---|---|---|
| `ReviewTypes` | `types/review.ts` | datatypes only |
| `Storage` | `lib/storage.ts` | class `SelectionStore` over the persisted file; pure `ToggledIds` / `Without` |
| `ToggleRoute` | `app/api/reviews/toggle-selection/route.ts` | validation function plus the `Post` method on the store |
| `Catalog` | `lib/properties.ts` | pure lookup |
| `ReviewUtils` | `lib/reviewUtils.ts` | pure helpers |
| `Reviews` | `lib/reviews.ts` | `normalizeReview` and the filter/sort getters, pure |
| `GoogleReviews` | `lib/googleReviews.ts` | pure id and name helpers; the fetch loop as methods appending to a sequence |
| `Dashboard` | `app/dashboard/page.tsx` | `calculateStats` as a loop over map accumulators |
| `DashboardView` | `app/dashboard/page.tsx` | class `DashboardPage` holding `reviews` / `filteredReviews` |
| `FilterBar` | `components/FilterBar.tsx` | class `FilterBarState` holding the filter record |
| `ReviewCard`, `StarRating`, `PropertyCard` | `components/*.tsx` | pure decision functions |
| `Text`, `Seqs`, `Wrappers` | — | JavaScript string operations, `filter` and stable `sort` written out on sequences |

Inputs that come from outside the core are parameters:

- the Hostaway fetch result and the mock reviews;
- the catalog;
- the Places response for each place id;
- whether the file write succeeds;
- the wall clock (`nowMillis`);
- date parsing and locale formatting (`DateEnv`).

Review ids are JavaScript numbers, so they are modelled as `real`. The toggle route accepts any number, including fractional ones.

`Seqs.SortBy` is a stable insertion sort on a numeric key. It stands for JavaScript's `Array.prototype.sort`, which is stable. A descending comparator becomes the negated key.

## Model

| member | source | states |
|---|---|---|
| Storage.SelectionStore.GetSelectedReviewIds | lib/storage.ts:10-20 | returns the stored list; an unreadable file or a missing `selectedReviewIds` field gives `[]` |
| Storage.SelectionStore.IsReviewSelected | lib/storage.ts:52-55 | true exactly when the id is in the stored list |
| Storage.SelectionStore.ToggleReviewSelection | lib/storage.ts:22-50 | on a successful write, returns whether the id was absent before and stores the toggled list; on a failed write, returns the error and leaves the file unchanged; after success, the id is stored iff the returned flag is true |
| Storage.Without | lib/storage.ts:32 | the id occurs nowhere in the result; every other id keeps its membership |
| Storage.WithoutKeepsOrder | lib/storage.ts:32 | removal distributes over concatenation, so the remaining ids keep their order; every other id keeps its count |
| Storage.ToggledIds | lib/storage.ts:30-38 | the id is in the result iff it was absent; no other id changes membership; an absent id is appended at the end |
| Storage.ToggleTwiceRestoresAbsent | lib/storage.ts:22-45 | toggling an absent id twice restores the list exactly |
| Storage.ToggleTwiceRestoresMembership | lib/storage.ts:22-45 | toggling any id twice restores every id's membership |
| Storage.ToggleTwiceCanReorder | lib/storage.ts:30-38 | toggling a present id twice can move it to the end: `[id, other]` becomes `[other, id]` |
| Storage.ToggleKeepsNoDuplicates | lib/storage.ts:32-36 | a list without duplicates has none after a toggle |
| ToggleRoute.CheckRequest | app/api/reviews/toggle-selection/route.ts:4-17 | accepts exactly a body object whose `reviewId` is a number, and yields that number; a non-number gives the 400 "Invalid review ID" response; an unparsable or null body gives the 500 response |
| ToggleRoute.Post | app/api/reviews/toggle-selection/route.ts:4-39 | rejection leaves the store untouched; a valid id with a good write toggles once and answers 200 with the same id and the new membership; a failed write answers 500 and leaves the file unchanged; every success answer agrees with the stored list |
| Catalog.GetPropertyById | lib/properties.ts:9-12 | a result has the requested id and is the first catalog entry with it; None iff no entry has that id |
| ReviewUtils.ExtractPropertyId | lib/reviewUtils.ts:6-13 | the result is always one of "1", "2", "3", "4" |
| ReviewUtils.ExtractPropertyIdByTable | lib/reviewUtils.ts:6-13 | the first fragment contained in the name decides the id; a name with none of the fragments maps to "1" |
| ReviewUtils.ExtractPropertyIdFirstMatchWins | lib/reviewUtils.ts:7-10 | a name containing both "Mayfair Residence" and "Shoreditch Heights" maps to "1" |
| ReviewUtils.FormatGuestNameSingle | lib/reviewUtils.ts:15-17 | when the trimmed name has no space, the name is returned unchanged and untrimmed |
| ReviewUtils.FormatGuestNameShortened | lib/reviewUtils.ts:15-22 | otherwise the result is the first part, a space, the first character of the last part, and "." |
| ReviewUtils.CalculateAverageRating | lib/reviewUtils.ts:24-29 | 0 for no categories; otherwise a multiple of 0.1 in (mean − 0.05, mean + 0.05], which is the mean rounded to one decimal with ties up |
| ReviewUtils.AverageRatingWithin | lib/reviewUtils.ts:24-29 | with whole-number bounds on every rating, the rounded average lies within the same bounds |
| ReviewUtils.GetPropertyImage | lib/reviewUtils.ts:47-50 | never empty; the default URL when no property has that id; when the first property with that id has a non-empty first image, that image, otherwise the default URL |
| Reviews.DateInputsAgree | lib/reviews.ts:38-49 | the two `formatDate` copies feed the same string to the date parser unless the input has both a "T" and a space |
| Reviews.DateInputsDiffer | lib/reviewUtils.ts:31-45 | with both a "T" and a space, the `lib/reviewUtils.ts` copy passes the string unchanged and the `lib/reviews.ts` copy rewrites it |
| Reviews.NormalizeReview | lib/reviews.ts:51-77 | copies id, listing name, text, date, type and status; propertyId comes from `extractPropertyId`; propertyImage is never set; isSelected iff the id is in the selection; rating is the given one unless null or 0, else the category average; categories keep length, order and rating, with "_" replaced by " "; channel is the given one when non-empty, else "Airbnb"; guestName is `formatGuestName`; guestFirstName is the first space-separated token |
| Reviews.NormalizedRatingInRange | lib/reviews.ts:56 | ratings on the 0–10 scale give a normalised rating on the 0–10 scale |
| Reviews.SortedNewestFirst | lib/reviews.ts:98-100 | a list sorted by the newest-first key has non-increasing dates |
| Reviews.GetAllReviewsContents | lib/reviews.ts:79-101 | the result is a permutation of the normalised Hostaway reviews followed by the mock reviews |
| Reviews.GetAllReviewsNewestFirst | lib/reviews.ts:98-100 | the result is ordered newest date first |
| Reviews.GetAllReviewsStable | lib/reviews.ts:98-100 | reviews with equal dates keep their input order |
| Reviews.ReviewsByPropertySpec | lib/reviews.ts:103-111 | `getReviewsByProperty` keeps exactly the reviews with that property id; `getSelectedReviewsByProperty` additionally keeps only selected ones; both stay newest first |
| GoogleReviews.TimeTail | lib/googleReviews.ts:34-38 | the last three decimal digits of the review time in seconds, or of the clock's seconds when the time is 0 |
| GoogleReviews.NormalizeGoogleReviewId | lib/googleReviews.ts:34-39 | as written: the number spelled by the property id digits, then the index digits, then the unpadded tail digits |
| GoogleReviews.GoogleReviewIdCollision | lib/googleReviews.ts:34-39 | as written, index 1 with tail 23 and index 12 with tail 3 both give id 1123 for property "1" |
| GoogleReviews.Pad3 | lib/googleReviews.ts:36 | a three-digit zero-padded spelling that reads back as the number |
| GoogleReviews.PaddedGoogleReviewId | lib/googleReviews.ts:34-39 | corrected id: property digits, index digits, then the tail padded to three digits |
| GoogleReviews.PaddedGoogleReviewIdInjective | lib/googleReviews.ts:34-39 | within one property, corrected ids are equal iff the index and the tail are equal |
| GoogleReviews.NormalizeGoogleReviewerName | lib/googleReviews.ts:41-63 | absent or empty name gives ("Google Reviewer", "Guest"); a single word gives the untrimmed original twice; several words give the first word and "first L." with the last word's initial upper-cased |
| GoogleReviews.ShortenedReviewerName | lib/googleReviews.ts:57-62 | the short form is the non-empty first word, a space, one non-space letter and "." |
| GoogleReviews.PushRecords | lib/googleReviews.ts:102-124 | appends exactly the records built from one property's Places reviews, under either id scheme |
| GoogleReviews.FetchGoogleReviews | lib/googleReviews.ts:65-134 | no API key gives `[]`; otherwise the concatenation, in catalog order, of each property's records; `AsWritten` gives the ids as the source computes them, `Padded` the corrected ids |
| GoogleReviews.GoogleReviewsOfConcat | lib/googleReviews.ts:74-131 | the records of two catalog parts are the concatenation of each part's records |
| GoogleReviews.GoogleReviewsShape | lib/googleReviews.ts:107-123 | every record has channel "Google", no categories, type "guest-to-host", status "published" and a non-empty image; it is selected iff its id is selected; it is built from the review at some position j of the reply for some catalog property with a place id: that property's id and name, the id of position j under the scheme, the review's rating and text, the reviewer names `normalizeGoogleReviewerName` gives, and the ISO time |
| GoogleReviews.PropertyRecordsShape | lib/googleReviews.ts:102-123 | one property gives one record per provider review, each built from the review at its own position |
| GoogleReviews.PropertyRecordIdsDistinct | lib/googleReviews.ts:102-124 | with the corrected id, the records of one property have distinct ids |
| GoogleReviews.AsWrittenRecordsCollide | lib/googleReviews.ts:102-123 | with the id as written, a thirteen-review reply gives records 1 and 12 of property "1" the same id 1123, so both are selected or neither is |
| Dashboard.AddReview | app/dashboard/page.tsx:164-174 | one review is counted into a property's accumulator (total, rating sum, selected count, category sums) |
| Dashboard.CountReview | app/dashboard/page.tsx:152-175 | a new property id is appended to the key order and a fresh accumulator is started for it; the review is counted into that property's accumulator |
| Dashboard.CalculateStats | app/dashboard/page.tsx:139-189 | the result equals the per-property specification `Stats`: totals, overall average (0 when empty), selected count and one entry per property |
| Dashboard.ScanHolds | app/dashboard/page.tsx:150-175 | after the loop the map holds exactly the properties seen, each with the totals of its own reviews |
| Dashboard.ScanOrderIsPropertyOrder | app/dashboard/page.tsx:153-162 | the map's insertion order is the order of first appearance |
| Dashboard.FinalPass | app/dashboard/page.tsx:177-186 | dividing each accumulator gives the statistics of that property |
| Dashboard.PropertyStatsMeaning | app/dashboard/page.tsx:150-186 | each entry has its property's name, review count, selected count (at most the total), mean rating, and category averages equal to each category's sum divided by the property's review count |
| Dashboard.CategoryTotalsKeys | app/dashboard/page.tsx:169-174 | the category keys are the distinct category names in first-appearance order |
| Dashboard.CategoryTotalsLookup | app/dashboard/page.tsx:169-174 | each category total is the sum of that category's ratings |
| Dashboard.CategoryTotalsConcat | app/dashboard/page.tsx:169-174 | the totals of a concatenation continue from the totals of the prefix |
| Dashboard.LookupDivided | app/dashboard/page.tsx:180-185 | dividing every entry keeps the keys and divides each value |
| Dashboard.StatsCounts | app/dashboard/page.tsx:150-186 | entry k belongs to the k-th property and counts its reviews and its selected reviews |
| Dashboard.PropertyCountsAddUp | app/dashboard/page.tsx:145-186 | per-property totals sum to the overall total, and selected counts sum to the overall selected count |
| Dashboard.PropertyStatsIds | app/dashboard/page.tsx:150-186 | there is one entry per distinct property, in first-appearance order |
| Dashboard.PropertyOrderFacts | app/dashboard/page.tsx:152-162 | every review's property is listed; listed properties are distinct and ordered by their first review |
| DashboardView.ApplyFilters | app/dashboard/page.tsx:92-118 | the four sequential filters together keep exactly the reviews matching every active condition |
| DashboardView.SortView | app/dashboard/page.tsx:120-134 | the sort chosen by `sortBy`, or the input unchanged for an unknown value |
| DashboardView.DashboardPage.Load | app/dashboard/page.tsx:38-41 | both lists become the loaded reviews |
| DashboardView.DashboardPage.HandleFilterChange | app/dashboard/page.tsx:91-137 | `reviews` is unchanged and the shown list becomes the filtered, sorted view |
| DashboardView.DashboardPage.ApplyToggle | app/dashboard/page.tsx:70-84 | both lists get the new flag on the reviews with that id |
| DashboardView.ArrangeCases | app/dashboard/page.tsx:120-134 | each `sortBy` value selects its key; any other value keeps the order |
| DashboardView.ArrangePermutation | app/dashboard/page.tsx:120-134 | sorting is a permutation |
| DashboardView.FilteredViewContents | app/dashboard/page.tsx:91-137 | the view holds each matching review as often as the list does and nothing else |
| DashboardView.FilteredViewKept | app/dashboard/page.tsx:95-118 | every shown review comes from the list, has the chosen property and channel, reaches the minimum rating when it is positive, and contains the lower-cased query in name or text when the query is not blank |
| DashboardView.FilteredViewOrder | app/dashboard/page.tsx:120-134 | the view is in the order `sortBy` names; an unknown `sortBy` keeps the filter order |
| DashboardView.FilteredViewStable | app/dashboard/page.tsx:120-134 | reviews with equal sort keys keep their list order |
| DashboardView.InitialFiltersShowAll | components/FilterBar.tsx:19-25 | the initial filters show every review, newest first |
| DashboardView.ApplySelectionChangesOnlyFlag | app/dashboard/page.tsx:70-84 | only `isSelected` of the reviews with that id changes; length and every other field are kept |
| DashboardView.ApplySelectionCommutes | app/dashboard/page.tsx:70-137 | patching the flag, then filtering and sorting, gives the same list as filtering and sorting, then patching |
| DashboardView.ApplySelectionAgrees | app/dashboard/page.tsx:53-84 | when the flags agree with the stored ids, patching with the toggle's answer keeps them in agreement with the new stored list |
| FilterBar.Set | components/FilterBar.tsx:28 | the chosen field takes the new value; every other field is unchanged |
| FilterBar.SetIdempotent | components/FilterBar.tsx:28 | writing back a field's own value changes nothing; a second write to the same field overrides the first |
| FilterBar.FilterBarState.constructor | components/FilterBar.tsx:19-25 | the initial filter record |
| FilterBar.FilterBarState.HandleFilterChange | components/FilterBar.tsx:27-31 | the new state differs from the old only in the chosen field, and the callback receives exactly the new state |
| FilterBar.PropertyOptions | components/FilterBar.tsx:45-50 | "all" first, then one option per property, in order |
| FilterBar.MinRatingOptionsParse | components/FilterBar.tsx:63-67 | the minimum-rating option values parse as 0, 9, 8, 7, 6 |
| ReviewCard.ByTier | components/ReviewCard.tsx:19-33 | badge and colour are read from the same tier (the count of thresholds 6, 7, 8, 9 reached) |
| ReviewCard.ColorAgreesWithBadge | components/ReviewCard.tsx:19-33 | two ratings get the same badge iff they get the same colour |
| ReviewCard.BadgeMonotone | components/ReviewCard.tsx:27-33 | a higher rating never gets a lower tier |
| ReviewCard.ShortLabel | components/ReviewCard.tsx:108 | the chip label is the category's leading word, without a space, followed in the name by a space or the end |
| ReviewCard.CategoryChips | components/ReviewCard.tsx:103-108 | at most three chips, the first three categories in order; each chip's word is the category name up to its first space (a space-free prefix followed by a space or the end), and its rating is the category's |
| ReviewCard.ButtonLabel | components/ReviewCard.tsx:132-156 | "Updating..." iff updating; otherwise "Visible" iff selected, else "Hidden" |
| ReviewCard.ClickMatchesLabel | components/ReviewCard.tsx:121-156 | a click reports the review id exactly when the label is not "Updating..." |
| StarRating.Rem1 | components/StarRating.tsx:17 | JavaScript `% 1`: the fractional part for non-negative values, in (-1, 0] for negative ones |
| StarRating.Render | components/StarRating.tsx:8-80 | always five slots; the number is shown iff `showNumber`, and it is the rating |
| StarRating.SlotsDescend | components/StarRating.tsx:28-39 | slots never increase in fill from left to right, and no two are half |
| StarRating.FullUpTo | components/StarRating.tsx:16-29 | the number of full slots is floor(stars) clamped to the slot count |
| StarRating.HalfUpTo | components/StarRating.tsx:17-39 | there is one half slot iff floor(stars) is a slot index and the fraction is at least 0.5 |
| StarRating.StarsInRange | components/StarRating.tsx:15 | a rating within 0..maxRating gives 0..5 stars |
| StarRating.FilledSlots | components/StarRating.tsx:15-39 | for 0 ≤ rating ≤ maxRating: full slots = floor(stars), at most one half slot, and the filled amount is within half a star below `stars` |
| StarRating.AtMostOneHalf | components/StarRating.tsx:17-39 | at most one half slot for any rating |
| PropertyCard.BandsGroupBadges | components/PropertyCard.tsx:10-14 | green iff the card badge is Excellent or Exceptional, yellow iff Good or Very Good, red iff Fair |
| PropertyCard.BandMonotone | components/PropertyCard.tsx:10-14 | a higher rating never leaves green, and a lower one never leaves red |
| PropertyCard.Href | components/PropertyCard.tsx:17 | the link is "/property/" followed by exactly the property id |
| PropertyCard.HrefInjective | components/PropertyCard.tsx:17 | distinct properties get distinct links |
| PropertyCard.CategorySection | components/PropertyCard.tsx:44-51 | absent iff there are no category averages; otherwise the first four, with ratings kept and each name of the same length, every "_" turned into a space and every other character kept |
| Text.Trim | lib/reviewUtils.ts:16 | the run of the input between its leading and trailing whitespace: a slice of the input with only whitespace outside it and none at its ends; empty iff the input is all whitespace |
| Text.SplitHead | lib/reviews.ts:63 | the first part of `split(" ")` is a space-free prefix followed by a space or the end |
| Text.SplitJoin | lib/reviewUtils.ts:16 | `split(" ")`: joining the parts with the separator gives back the string |
| Text.SplitNoSeparator | lib/reviewUtils.ts:16 | no part of a split contains the separator |
| Text.SplitTrimmedOnWhitespace | lib/googleReviews.ts:49 | `trim().split(/\s+/)` gives the words, or a single empty part for a blank name |
| Text.Words | lib/googleReviews.ts:49 | the words are non-empty whitespace-free runs; none iff the string is blank |
| Text.ReplaceAll | lib/reviews.ts:68 | every occurrence of the character is replaced and nothing else changes |
| Text.NatToString | lib/googleReviews.ts:36 | `String(n)`: decimal digits without leading zeros, reading back as n |
| Text.ParseFloatNatToString | components/FilterBar.tsx:63-67 | `parseFloat` reads a decimal natural number back as itself |
| Seqs.FilterMultiset | lib/reviews.ts:105 | `filter` keeps each satisfying element as often as the input has it, and nothing else |
| Seqs.FilterSorted | lib/reviews.ts:105-110 | filtering a sorted list keeps it sorted |
| Seqs.SortBySortedPermutation | lib/reviews.ts:98-100 | the stable sort returns a sorted permutation |
| Seqs.SortByStable | lib/reviews.ts:98-100 | elements with equal keys keep their input order |

## Left out

- Network fetching is not modelled. The Hostaway fetch result, the mock reviews and the Places responses (`responseFor`) are parameters. `Promise.all` runs in sequence.
- The Hostaway random channel choice (`lib/hostaway.ts`) is not modelled. The channel is an optional field of the input record.
- The wall clock is not modelled. The source reads `Date.now()` separately for the Google review id and the date. The model takes one `nowMillis` for both, so it does not capture the two readings differing.
- JavaScript `Date` parsing, `toISOString` and `toLocaleDateString` are functions in the `DateEnv` parameter. Both `formatDate` copies are modelled up to that parser, including the string rewrite in which they differ.
- The file system and JSON mechanics are not modelled. The stored file is a `SelectionFile` value: unreadable, or an object whose `selectedReviewIds` may be missing. Write failure is the `writeSucceeds` parameter.
- Concurrency is not modelled. Two racing toggles can lose an update in the source; each toggle here is one atomic step.
- Sorting in place is not modelled. `Array.prototype.sort` on a fresh copy is modelled as `Seqs.SortBy` on a sequence, so in-place update and aliasing are not captured.
- Floating point is not modelled: NaN, Infinity, rounding and `toFixed`. Ratings and averages are exact reals, and the shown number is the real value before `toFixed(1)`.
- StarRating.Stars: requires `maxRating != 0`, because a zero maximum gives Infinity or NaN in JavaScript, which reals cannot express.
- Category averages are stored in an object. JavaScript lists its integer-like keys first, in numeric order. The model keeps plain first-appearance order for all keys.
- GoogleReviews.FetchGoogleReviews: requires every catalog property id to be all decimal digits. Other ids make the JavaScript id NaN or fractional, which the real-valued id does not model.
- Catalog: `getAllProperties` returns the static catalog, which here is the `catalog` parameter itself, so it has no member of its own.
- The toggle route checks only `typeof reviewId === "number"` (app/api/reviews/toggle-selection/route.ts:9), so fractional ids are accepted; the model accepts any real id likewise and has no integer check.
- A NaN review id cannot be expressed, because ids are reals.
- Text.ToLower, Text.ToUpper: case mapping covers the ASCII letters A–Z only; JavaScript's `toLowerCase`/`toUpperCase` follow full Unicode case mapping, and `charAt(0)` takes a UTF-16 code unit where the model takes a whole character.
- DashboardView.ApplyFilters: the search compares names and texts lower-cased by the ASCII-only `Text.ToLower`, so a query such as "ömer" does not find "Ömer K." in the model while it does in the source.
- DashboardView.FilteredViewKept: its search clause ("contains the lower-cased query") rests on the same ASCII-only lower-casing.
- GoogleReviews.NormalizeGoogleReviewerName: the initial of the last word is upper-cased by the ASCII-only `Text.ToUpper`, so "ana élan" gives "ana é." where the source gives "ana É.".
- GoogleReviews.ShortenedReviewerName: its length `n + 3` holds for the ASCII-only upper-casing; in the source an initial such as "ß" upper-cases to two characters.
- `new Date(…).toISOString()` throws a RangeError for times beyond ±8.64e15 ms. In the source the `catch` sits outside the `forEach` (lib/googleReviews.ts:102-130), so the records pushed before the throw stay; the model's `isoOf` is total and every review of a reply gives a record.
- JSX markup, Tailwind classes, sizes and static pages are not modelled. Only the decision functions in the components are.
- The thin route wrappers (`app/api/properties/route.ts`, `app/api/reviews/hostaway/route.ts`, `app/api/property/[id]/route.ts`) and the property page are not part of this model.
- `setup-env.js` is not part of this model. It writes an environment file.
- The dashboard's `fetchData` and the fetch inside `handleToggleSelection` are not modelled. The toggle answer is the `isSelected` argument of `ApplyToggle`.

## Findings

| source | as written | input that shows it | evidently intended | confidence | as-written member | corrected member |
|---|---|---|---|---|---|---|
| lib/googleReviews.ts:34-39 | the id concatenates property id, index and `time % 1000` without padding the tail | property "1", review 1 with time …023 and review 12 with time …003 both get id 1123 | distinct ids for the reviews of one property | not executed | GoogleReviews.NormalizeGoogleReviewId, GoogleReviews.GoogleReviewIdCollision, GoogleReviews.AsWrittenRecordsCollide | GoogleReviews.PaddedGoogleReviewId, GoogleReviews.PaddedGoogleReviewIdInjective |
