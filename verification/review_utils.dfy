/**
 * The review helpers of lib/reviewUtils.ts. lib/reviews.ts carries
 * character-for-character copies of `extractPropertyId`, `formatGuestName`
 * and `calculateAverageRating`, so those are defined once here; its
 * `formatDate` differs and lives in module Reviews.
 */
module ReviewUtils {
  import opened Wrappers
  import opened Text
  import opened ReviewTypes
  import Catalog

  /** The listing-name fragments tested, in order, with the property id each selects. */
  const Fragments: seq<(string, string)> := [
    ("Shoreditch Heights", "1"),
    ("Canary Wharf Tower", "2"),
    ("Westminster Gardens", "3"),
    ("Mayfair Residence", "4")
  ]

  /**
   * `extractPropertyId`: the id paired with the first fragment the listing
   * name contains, and "1" when it contains none.
   */
  function ExtractPropertyId(listingName: string): (r: string)
    ensures r in {"1", "2", "3", "4"}
  {
    if Contains(listingName, "Shoreditch Heights") then "1"
    else if Contains(listingName, "Canary Wharf Tower") then "2"
    else if Contains(listingName, "Westminster Gardens") then "3"
    else if Contains(listingName, "Mayfair Residence") then "4"
    else "1"
  }

  /**
   * `extractPropertyId` is a first-match lookup in the fragment table with
   * "1" as fallback: the first fragment the name contains decides.
   */
  lemma ExtractPropertyIdByTable(listingName: string)
    ensures forall k | 0 <= k < |Fragments| ::
              (Contains(listingName, Fragments[k].0)
               && (forall j :: 0 <= j < k ==> !Contains(listingName, Fragments[j].0)))
              ==> ExtractPropertyId(listingName) == Fragments[k].1
    ensures (forall k :: 0 <= k < |Fragments| ==> !Contains(listingName, Fragments[k].0))
      ==> ExtractPropertyId(listingName) == "1"
  {
    assert Fragments[0] == ("Shoreditch Heights", "1");
    assert Fragments[1] == ("Canary Wharf Tower", "2");
    assert Fragments[2] == ("Westminster Gardens", "3");
    assert Fragments[3] == ("Mayfair Residence", "4");
  }

  /** A listing that names two known buildings goes to the one tested first. */
  lemma ExtractPropertyIdFirstMatchWins(a: string, b: string, c: string)
    ensures ExtractPropertyId(a + "Mayfair Residence" + b + "Shoreditch Heights" + c) == "1"
  {
    var n := a + "Mayfair Residence" + b + "Shoreditch Heights" + c;
    var i := |a| + |"Mayfair Residence"| + |b|;
    assert n[i..i + |"Shoreditch Heights"|] == "Shoreditch Heights";
    ContainsAt(n, "Shoreditch Heights", i);
  }

  /**
   * `formatGuestName`: the untrimmed input when the trimmed name has no
   * space, otherwise "First L.".
   */
  function FormatGuestName(fullName: string): string {
    var parts := Split(Trim(fullName), ' ');
    if |parts| == 1 then fullName
    else parts[0] + " " + CharAt0(Last(parts)) + "."
  }

  /** A name whose trimmed form has no space comes back unchanged, untrimmed. */
  lemma FormatGuestNameSingle(fullName: string)
    requires ' ' !in Trim(fullName)
    ensures FormatGuestName(fullName) == fullName
  {
    SplitSingle(Trim(fullName), ' ');
  }

  /**
   * Otherwise `formatGuestName` gives, by positions in the trimmed name, the
   * text before its first space, a space, the character after its last
   * space (which exists and is not a space) and a period.
   */
  lemma FormatGuestNameShortened(fullName: string)
    requires ' ' in Trim(fullName)
    ensures var t := Trim(fullName);
      var j := LastIndexOf(t, ' ');
      j + 1 < |t| && t[j + 1] != ' '
      && FormatGuestName(fullName) == t[..IndexOf(t, ' ')] + " " + [t[j + 1]] + "."
  {
    var t := Trim(fullName);
    assert t[|t| - 1] != ' ' by {
      assert !IsSpace(t[|t| - 1]);
    }
    ShortenedParts(t);
  }

  /** The split of a name with a space and no trailing space, by positions. */
  lemma ShortenedParts(t: string)
    requires ' ' in t && t[|t| - 1] != ' '
    ensures var parts := Split(t, ' ');
      var j := LastIndexOf(t, ' ');
      && |parts| != 1 && j + 1 < |t| && t[j + 1] != ' '
      && parts[0] == t[..IndexOf(t, ' ')] && CharAt0(Last(parts)) == [t[j + 1]]
  {
    var parts := Split(t, ' ');
    var j := LastIndexOf(t, ' ');
    SplitSingle(t, ' ');
    SplitHeadAtIndexOf(t, ' ');
    SplitLastAtLastIndexOf(t, ' ');
    SplitLastNonEmpty(t, ' ');
    var last := Last(parts);
    assert last == t[j + 1..] && last != [];
    assert last[0] == t[j + 1];
  }

  /** The sum of the category ratings (`reduce` with `+` from 0). */
  function RatingSum(categories: seq<ReviewCategory>): real
    decreases |categories|
  {
    if categories == [] then 0.0
    else RatingSum(categories[..|categories| - 1]) + categories[|categories| - 1].rating
  }

  /** `Math.round`: the nearest integer, halves rounded up. */
  function Round(x: real): int {
    (x + 0.5).Floor
  }

  /**
   * `calculateAverageRating`: 0 without categories, otherwise the mean
   * rounded to one decimal place, so never more than 0.05 away from the mean.
   */
  function CalculateAverageRating(categories: seq<ReviewCategory>): (r: real)
    ensures categories == [] ==> r == 0.0
    ensures categories != [] ==>
      var mean := RatingSum(categories) / |categories| as real;
      mean - 0.05 < r <= mean + 0.05
    ensures (r * 10.0).Floor as real == r * 10.0
  {
    if |categories| == 0 then 0.0
    else (Round(RatingSum(categories) / |categories| as real * 10.0) as real) / 10.0
  }

  lemma {:induction false} RatingSumBounds(categories: seq<ReviewCategory>, lo: real, hi: real)
    requires forall i :: 0 <= i < |categories| ==> lo <= categories[i].rating <= hi
    ensures |categories| as real * lo <= RatingSum(categories) <= |categories| as real * hi
    decreases |categories|
  {
    if categories != [] {
      RatingSumBounds(categories[..|categories| - 1], lo, hi);
    }
  }

  /**
   * Rounding cannot push the average past whole-number bounds of the
   * ratings: with every rating between `lo` and `hi`, so is the average
   * (with 0 and 10 this keeps the average on the 0-10 scale).
   */
  lemma AverageRatingWithin(categories: seq<ReviewCategory>, lo: int, hi: int)
    requires categories != []
    requires forall i :: 0 <= i < |categories| ==> lo as real <= categories[i].rating <= hi as real
    ensures lo as real <= CalculateAverageRating(categories) <= hi as real
  {
    var n := |categories| as real;
    RatingSumBounds(categories, lo as real, hi as real);
    var mean := RatingSum(categories) / n;
    DivideBounds(RatingSum(categories), n, lo as real, hi as real);
    var x := mean * 10.0 + 0.5;
    assert (10 * lo) as real <= x < (10 * hi + 1) as real;
    var f := x.Floor;
    assert f as real <= x < f as real + 1.0;
    assert 10 * lo <= f <= 10 * hi;
    assert CalculateAverageRating(categories) == f as real / 10.0;
  }

  lemma DivideBounds(s: real, n: real, lo: real, hi: real)
    requires n > 0.0 && n * lo <= s <= n * hi
    ensures lo <= s / n <= hi
  {
  }

  /** The image used when a property has none. */
  const DefaultImage := "https://images.unsplash.com/photo-1522708323590-d24dbb6b0267?w=800"

  /**
   * `getPropertyImage`: the first image of the first catalog entry with that
   * id, unless there is no such entry or image or the image is the empty
   * string, in which case the default image.
   */
  function GetPropertyImage(catalog: seq<Property>, propertyId: string): (r: string)
    ensures r != ""
    ensures Catalog.GetPropertyById(catalog, propertyId).None? ==> r == DefaultImage
    ensures r != DefaultImage ==>
              exists k :: Catalog.FirstWithId(catalog, propertyId, k)
                          && |catalog[k].images| > 0 && r == catalog[k].images[0]
    ensures forall k | Catalog.FirstWithId(catalog, propertyId, k) ::
              r == if |catalog[k].images| > 0 && catalog[k].images[0] != "" then catalog[k].images[0] else DefaultImage
  {
    match Catalog.GetPropertyById(catalog, propertyId)
    case None => DefaultImage
    case Some(p) =>
      if |p.images| > 0 && p.images[0] != "" then p.images[0] else DefaultImage
  }

  /** The string `formatDate` in lib/reviewUtils.ts hands to `new Date`: a "T" is only put in when missing. */
  function DateInput(dateString: string): string {
    if 'T' in dateString then dateString else ReplaceFirst(dateString, ' ', 'T')
  }

  /** `formatDate` of lib/reviewUtils.ts; a throwing renderer gives back the raw string. */
  function FormatDate(dateString: string, env: DateEnv): string {
    match env.render(DateInput(dateString))
    case Some(text) => text
    case None => dateString
  }
}
