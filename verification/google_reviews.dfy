/**
 * lib/googleReviews.ts: turns the reviews the maps/reviews provider returns
 * for each catalog property with a place id into canonical reviews. The
 * network replies are supplied as a function of the place id, the clock as
 * a millisecond timestamp.
 */
module GoogleReviews {
  import opened Wrappers
  import opened Text
  import opened Seqs
  import opened ReviewTypes
  import ReviewUtils

  /** A provider review; `time` is in seconds since the epoch, 0 when absent. */
  datatype GoogleReview = GoogleReview(authorName: Option<string>, rating: real, text: string, time: nat)

  /** What one place-details request gave: a throw, a non-2xx reply, or a JSON body. */
  datatype PlaceResponse = Threw | NotOk(httpStatus: nat) | Body(status: string, reviews: Option<seq<GoogleReview>>)

  datatype ReviewerName = ReviewerName(full: string, first: string)

  /** The review's time in milliseconds: its own, or the current time when it has none. */
  function ResolvedMillis(review: GoogleReview, nowMillis: nat): nat {
    if review.time == 0 then nowMillis else review.time * 1000
  }

  /** `Math.floor(timestamp % 1000)`: the last three decimal digits of the timestamp in seconds. */
  function TimeTail(review: GoogleReview, nowMillis: nat): (t: nat)
    ensures t < 1000
    ensures review.time != 0 ==> t == review.time % 1000
    ensures review.time == 0 ==> t == (nowMillis / 1000) % 1000
  {
    var ms := ResolvedMillis(review, nowMillis);
    assert review.time != 0 ==> ms / 1000 == review.time;
    (ms / 1000) % 1000
  }

  /**
   * `normalizeGoogleReviewId` as written: the number spelled by the property
   * id, the position of the review and the timestamp tail written one after
   * the other, the tail without padding.
   */
  function NormalizeGoogleReviewId(propertyId: string, index: nat, review: GoogleReview, nowMillis: nat): (id: ReviewId)
    requires IsDigits(propertyId)
    ensures var tail := TimeTail(review, nowMillis);
      id == ((DigitsValue(propertyId) * Pow10(|NatToString(index)|) + index) * Pow10(|NatToString(tail)|) + tail) as real
  {
    var indexDigits := NatToString(index);
    var digits := propertyId + indexDigits;
    var tail := NatToString(TimeTail(review, nowMillis));
    DigitsValueConcat(propertyId, indexDigits);
    DigitsValueConcat(digits, tail);
    assert DigitsValue(digits) == DigitsValue(propertyId) * Pow10(|indexDigits|) + index;
    DigitsValue(digits + tail) as real
  }

  /**
   * As written, two reviews of the same property can get the same id: the
   * review at position 1 whose timestamp ends in 023 and the one at position
   * 12 whose timestamp ends in 003 both become 1123 for property "1".
   */
  lemma GoogleReviewIdCollision(nowMillis: nat)
    ensures NormalizeGoogleReviewId("1", 1, GoogleReview(None, 5.0, "", 1700000023), nowMillis)
         == NormalizeGoogleReviewId("1", 12, GoogleReview(None, 5.0, "", 1700000003), nowMillis)
         == 1123.0
  {
    assert NatToString(1) == "1" && NatToString(3) == "3";
    assert NatToString(12) == "12" && NatToString(23) == "23";
  }

  /** The three decimal digits of `n` put back together give `n`. */
  lemma ThreeDigits(n: nat)
    requires n < 1000
    ensures n / 100 < 10
    ensures (n / 100 * 10 + n / 10 % 10) * 10 + n % 10 == n
  {
    assert n / 10 == n / 100 * 10 + n / 10 % 10;
  }

  /** `n` written with exactly three digits, zero-padded. */
  function Pad3(n: nat): (r: string)
    requires n < 1000
    ensures |r| == 3 && IsDigits(r) && DigitsValue(r) == n
  {
    var a, b, c := n / 100, n / 10 % 10, n % 10;
    ThreeDigits(n);
    var r := [DigitChar(a), DigitChar(b), DigitChar(c)];
    assert DigitsValue(r[..1]) == a by {
      assert r[..1][..0] == [];
    }
    assert DigitsValue(r[..2]) == a * 10 + b by {
      assert r[..2][..1] == r[..1];
    }
    assert DigitsValue(r) == (a * 10 + b) * 10 + c;
    r
  }

  /**
   * The id with the timestamp tail padded to three digits, so that the tail
   * always occupies the last three decimal places.
   */
  function PaddedGoogleReviewId(propertyId: string, index: nat, review: GoogleReview, nowMillis: nat): (id: ReviewId)
    requires IsDigits(propertyId)
    ensures id == ((DigitsValue(propertyId) * Pow10(|NatToString(index)|) + index) * 1000
                   + TimeTail(review, nowMillis)) as real
  {
    var digits := propertyId + NatToString(index);
    var tail := Pad3(TimeTail(review, nowMillis));
    DigitsValueConcat(propertyId, NatToString(index));
    DigitsValueConcat(digits, tail);
    assert Pow10(3) == 1000;
    DigitsValue(digits + tail) as real
  }

  /**
   * With a property id that spells a positive number, the padded id tells
   * the position and the timestamp tail of a review apart: two reviews of
   * the same property get the same id only when both agree.
   */
  lemma PaddedGoogleReviewIdInjective(propertyId: string, i1: nat, r1: GoogleReview, i2: nat, r2: GoogleReview, nowMillis: nat)
    requires IsDigits(propertyId) && DigitsValue(propertyId) > 0
    ensures PaddedGoogleReviewId(propertyId, i1, r1, nowMillis) == PaddedGoogleReviewId(propertyId, i2, r2, nowMillis)
            <==> i1 == i2 && TimeTail(r1, nowMillis) == TimeTail(r2, nowMillis)
  {
    var p := DigitsValue(propertyId);
    var t1, t2 := TimeTail(r1, nowMillis), TimeTail(r2, nowMillis);
    var v1 := p * Pow10(|NatToString(i1)|) + i1;
    var v2 := p * Pow10(|NatToString(i2)|) + i2;
    var n1, n2 := v1 * 1000 + t1, v2 * 1000 + t2;
    assert PaddedGoogleReviewId(propertyId, i1, r1, nowMillis) == n1 as real;
    assert PaddedGoogleReviewId(propertyId, i2, r2, nowMillis) == n2 as real;
    if n1 == n2 {
      ThousandsSplit(v1, t1);
      ThousandsSplit(v2, t2);
      PrefixInjective(p, i1, i2);
    }
  }

  lemma ThousandsSplit(v: nat, t: nat)
    requires t < 1000
    ensures (v * 1000 + t) / 1000 == v && (v * 1000 + t) % 1000 == t
  {
  }

  /** Property id digits followed by the position: different positions give different numbers. */
  lemma PrefixInjective(p: nat, i1: nat, i2: nat)
    requires p > 0
    requires p * Pow10(|NatToString(i1)|) + i1 == p * Pow10(|NatToString(i2)|) + i2
    ensures i1 == i2
  {
    var L1, L2 := |NatToString(i1)|, |NatToString(i2)|;
    NatToStringBounds(i1);
    NatToStringBounds(i2);
    if L1 < L2 {
      PrefixBelow(p, i1, L1, i2, L2);
    } else if L2 < L1 {
      PrefixBelow(p, i2, L2, i1, L1);
    }
  }

  lemma PrefixBelow(p: nat, i: nat, L: nat, j: nat, M: nat)
    requires p > 0 && L < M && i < Pow10(L)
    ensures p * Pow10(L) + i < p * Pow10(M) + j
  {
    var q := Pow10(L);
    Pow10Monotone(L + 1, M);
    assert Pow10(L + 1) == 10 * q;
    MulMonotone(p, 10 * q, Pow10(M));
    assert p * q + q <= p * (10 * q) by {
      MulMonotone(q, 1, p);
    }
  }

  lemma MulMonotone(p: nat, x: nat, y: nat)
    requires x <= y
    ensures p * x <= p * y
  {
  }

  /**
   * `normalizeGoogleReviewerName`: a missing or empty name becomes the
   * placeholder pair; a name of at most one word is kept as it is, untrimmed,
   * as both names; otherwise the first word and the upper-cased initial of
   * the last word.
   */
  function NormalizeGoogleReviewerName(authorName: Option<string>): (r: ReviewerName)
    ensures authorName.None? || authorName.value == "" ==> r == ReviewerName("Google Reviewer", "Guest")
    ensures authorName.Some? && authorName.value != "" && |Words(authorName.value)| <= 1 ==>
              r == ReviewerName(authorName.value, authorName.value)
    ensures authorName.Some? && |Words(authorName.value)| >= 2 ==>
              var ws := Words(authorName.value);
              r.first == ws[0] && r.full == ws[0] + " " + ToUpper(CharAt0(Last(ws))) + "."
  {
    match authorName
    case None => ReviewerName("Google Reviewer", "Guest")
    case Some(name) =>
      if name == "" then ReviewerName("Google Reviewer", "Guest")
      else
        var parts := SplitTrimmedOnWhitespace(name);
        assert |Words(name)| >= 2 ==> parts == Words(name);
        if |parts| == 1 then ReviewerName(name, name)
        else
          var first := parts[0];
          ReviewerName(first + " " + ToUpper(CharAt0(Last(parts))) + ".", first)
  }

  /**
   * A shortened reviewer name is the first word (non-empty, without
   * whitespace), a space, one non-space initial and a period.
   */
  lemma ShortenedReviewerName(authorName: string)
    requires |Words(authorName)| >= 2
    ensures var r := NormalizeGoogleReviewerName(Some(authorName));
      ShortForm(r.first, r.full)
  {
    var ws := Words(authorName);
    var first := ws[0];
    var initial := ToUpper(CharAt0(Last(ws)));
    assert |initial| == 1 && !IsSpace(initial[0]) by {
      var last := Last(ws);
      assert last != [] && !IsSpace(last[0]);
    }
    ShortFormShape(first, initial);
  }

  /** "first I.": a non-empty first name without whitespace, a space, a non-space initial and a period. */
  predicate ShortForm(first: string, full: string) {
    var n := |first|;
    && n > 0 && (forall k :: 0 <= k < n ==> !IsSpace(first[k]))
    && |full| == n + 3 && full[..n] == first
    && full[n] == ' ' && !IsSpace(full[n + 1]) && full[n + 2] == '.'
  }

  /** The positions of "first I.": the first name, a space, the initial and a period. */
  lemma ShortFormShape(first: string, initial: string)
    requires first != [] && forall k :: 0 <= k < |first| ==> !IsSpace(first[k])
    requires |initial| == 1 && !IsSpace(initial[0])
    ensures ShortForm(first, first + " " + initial + ".")
  {
    var f := first + " " + initial + ".";
    assert f[..|first|] == first;
    assert f[|first| + 1] == initial[0];
  }

  /**
   * Which id the records carry: `AsWritten` is `normalizeGoogleReviewId` as
   * the source computes it, `Padded` the corrected id with a three-digit tail.
   */
  datatype IdScheme = AsWritten | Padded

  /** The id of the review at `index` of the property, under `scheme`. */
  function RecordId(scheme: IdScheme, propertyId: string, index: nat, review: GoogleReview, nowMillis: nat): ReviewId
    requires IsDigits(propertyId)
  {
    match scheme
    case AsWritten => NormalizeGoogleReviewId(propertyId, index, review, nowMillis)
    case Padded => PaddedGoogleReviewId(propertyId, index, review, nowMillis)
  }

  /** The canonical review built from the review at `index` of `property`. */
  function GoogleRecord(scheme: IdScheme, property: Property, catalog: seq<Property>, index: nat, review: GoogleReview,
                        selectedIds: seq<ReviewId>, env: DateEnv, nowMillis: nat): NormalizedReview
    requires IsDigits(property.id)
  {
    var id := RecordId(scheme, property.id, index, review, nowMillis);
    var reviewer := NormalizeGoogleReviewerName(review.authorName);
    var dateIso := env.isoOf(ResolvedMillis(review, nowMillis));
    NormalizedReview(
      id,
      property.id,
      property.name,
      Some(ReviewUtils.GetPropertyImage(catalog, property.id)),
      reviewer.full,
      reviewer.first,
      review.rating,
      review.text,
      [],
      dateIso,
      ReviewUtils.FormatDate(dateIso, env),
      "Google",
      "guest-to-host",
      "published",
      id in selectedIds)
  }

  /**
   * The provider reviews a property contributes: none without a place id,
   * after a failed request, or when the reply is not "OK" or has no reviews.
   */
  function PlaceReviews(property: Property, responseFor: string -> PlaceResponse): seq<GoogleReview> {
    if property.googlePlaceId.None? || property.googlePlaceId.value == "" then []
    else
      match responseFor(property.googlePlaceId.value)
      case Body(status, Some(rs)) => if status == "OK" then rs else []
      case _ => []
  }

  /** All records of one property, in the provider's order. */
  function PropertyRecords(scheme: IdScheme, property: Property, catalog: seq<Property>,
                           responseFor: string -> PlaceResponse, selectedIds: seq<ReviewId>, env: DateEnv,
                           nowMillis: nat): seq<NormalizedReview>
    requires IsDigits(property.id)
  {
    var rs := PlaceReviews(property, responseFor);
    seq(|rs|, k requires 0 <= k < |rs| => GoogleRecord(scheme, property, catalog, k, rs[k], selectedIds, env, nowMillis))
  }

  ghost predicate DigitIds(props: seq<Property>) {
    forall k :: 0 <= k < |props| ==> IsDigits(props[k].id)
  }

  /** One property's records, as the function `GoogleReviewsOf` flattens; it is only applied to digit ids. */
  function RecordsOf(scheme: IdScheme, catalog: seq<Property>, responseFor: string -> PlaceResponse,
                     selectedIds: seq<ReviewId>, env: DateEnv, nowMillis: nat): Property -> seq<NormalizedReview>
  {
    (p: Property) =>
      if IsDigits(p.id) then PropertyRecords(scheme, p, catalog, responseFor, selectedIds, env, nowMillis) else []
  }

  /** The records of `props`, property after property. */
  function GoogleReviewsOf(scheme: IdScheme, props: seq<Property>, catalog: seq<Property>,
                           responseFor: string -> PlaceResponse, selectedIds: seq<ReviewId>, env: DateEnv,
                           nowMillis: nat): seq<NormalizedReview>
    requires DigitIds(props)
  {
    FlatMap(props, RecordsOf(scheme, catalog, responseFor, selectedIds, env, nowMillis))
  }

  /** The `forEach` over one place's reviews: each record is pushed onto the result in turn. */
  method PushRecords(scheme: IdScheme, reviews: seq<NormalizedReview>, property: Property, catalog: seq<Property>,
                     responseFor: string -> PlaceResponse, selectedIds: seq<ReviewId>, env: DateEnv, nowMillis: nat)
    returns (pushed: seq<NormalizedReview>)
    requires IsDigits(property.id)
    ensures pushed == reviews + PropertyRecords(scheme, property, catalog, responseFor, selectedIds, env, nowMillis)
  {
    var rs := PlaceReviews(property, responseFor);
    ghost var records := PropertyRecords(scheme, property, catalog, responseFor, selectedIds, env, nowMillis);
    pushed := reviews;
    var j := 0;
    while j < |rs|
      invariant 0 <= j <= |rs| == |records|
      invariant pushed == reviews + records[..j]
    {
      var record := GoogleRecord(scheme, property, catalog, j, rs[j], selectedIds, env, nowMillis);
      assert record == records[j];
      AppendPrefix(reviews, records, j);
      pushed := pushed + [record];
      j := j + 1;
    }
    assert records[..j] == records;
  }

  /**
   * `fetchGoogleReviews`: nothing without an API key; otherwise one request
   * per catalog property with a place id, and the records of every
   * successful reply appended in catalog order. With `AsWritten` this is the
   * function as the source has it; with `Padded`, the corrected one.
   */
  method FetchGoogleReviews(scheme: IdScheme, apiKey: Option<string>, catalog: seq<Property>,
                            responseFor: string -> PlaceResponse, selectedIds: seq<ReviewId>, env: DateEnv,
                            nowMillis: nat) returns (reviews: seq<NormalizedReview>)
    requires DigitIds(catalog)
    ensures apiKey.None? || apiKey.value == "" ==> reviews == []
    ensures apiKey.Some? && apiKey.value != "" ==>
              reviews == GoogleReviewsOf(scheme, catalog, catalog, responseFor, selectedIds, env, nowMillis)
  {
    if apiKey.None? || apiKey.value == "" {
      return [];
    }
    reviews := [];
    var i := 0;
    while i < |catalog|
      invariant 0 <= i <= |catalog|
      invariant reviews == GoogleReviewsOf(scheme, catalog[..i], catalog, responseFor, selectedIds, env, nowMillis)
    {
      var property := catalog[i];
      GoogleReviewsOfStep(scheme, catalog, i, catalog, responseFor, selectedIds, env, nowMillis);
      reviews := PushRecords(scheme, reviews, property, catalog, responseFor, selectedIds, env, nowMillis);
      i := i + 1;
    }
    assert catalog[..|catalog|] == catalog;
  }

  lemma GoogleReviewsOfStep(scheme: IdScheme, props: seq<Property>, i: nat, catalog: seq<Property>,
                            responseFor: string -> PlaceResponse, selectedIds: seq<ReviewId>, env: DateEnv,
                            nowMillis: nat)
    requires DigitIds(props) && i < |props|
    ensures DigitIds(props[..i]) && DigitIds(props[..i + 1])
    ensures GoogleReviewsOf(scheme, props[..i + 1], catalog, responseFor, selectedIds, env, nowMillis)
         == GoogleReviewsOf(scheme, props[..i], catalog, responseFor, selectedIds, env, nowMillis)
          + PropertyRecords(scheme, props[i], catalog, responseFor, selectedIds, env, nowMillis)
  {
    assert props[..i + 1][..i] == props[..i];
  }

  /**
   * One property's reply does not affect another's records: the records of
   * two runs of properties are the records of each run, one after the other.
   */
  lemma GoogleReviewsOfConcat(scheme: IdScheme, a: seq<Property>, b: seq<Property>, catalog: seq<Property>,
                              responseFor: string -> PlaceResponse, selectedIds: seq<ReviewId>,
                              env: DateEnv, nowMillis: nat)
    requires DigitIds(a) && DigitIds(b)
    ensures DigitIds(a + b)
    ensures GoogleReviewsOf(scheme, a + b, catalog, responseFor, selectedIds, env, nowMillis)
         == GoogleReviewsOf(scheme, a, catalog, responseFor, selectedIds, env, nowMillis)
          + GoogleReviewsOf(scheme, b, catalog, responseFor, selectedIds, env, nowMillis)
  {
    FlatMapConcat(a, b, RecordsOf(scheme, catalog, responseFor, selectedIds, env, nowMillis));
  }

  /**
   * `r` is the record built from the review at position `j` of the reply for
   * `property`: the property's id and name, the review's id under `scheme`,
   * its rating, text, reviewer names and time.
   */
  ghost predicate BuiltFrom(scheme: IdScheme, property: Property, j: int, r: NormalizedReview,
                            responseFor: string -> PlaceResponse, nowMillis: nat, env: DateEnv)
  {
    var rs := PlaceReviews(property, responseFor);
    && IsDigits(property.id) && property.googlePlaceId.Some? && 0 <= j < |rs|
    && r.propertyId == property.id && r.propertyName == property.name
    && r.id == RecordId(scheme, property.id, j, rs[j], nowMillis)
    && r.rating == rs[j].rating && r.reviewText == rs[j].text
    && r.guestName == NormalizeGoogleReviewerName(rs[j].authorName).full
    && r.guestFirstName == NormalizeGoogleReviewerName(rs[j].authorName).first
    && r.date == env.isoOf(ResolvedMillis(rs[j], nowMillis))
  }

  /** Each record of one property is built from the review at its own position. */
  lemma PropertyRecordsShape(scheme: IdScheme, property: Property, catalog: seq<Property>,
                             responseFor: string -> PlaceResponse, selectedIds: seq<ReviewId>, env: DateEnv,
                             nowMillis: nat)
    requires IsDigits(property.id)
    ensures var recs := PropertyRecords(scheme, property, catalog, responseFor, selectedIds, env, nowMillis);
      && |recs| == |PlaceReviews(property, responseFor)|
      && forall j | 0 <= j < |recs| :: BuiltFrom(scheme, property, j, recs[j], responseFor, nowMillis, env)
  {
  }

  /**
   * What every record of `props` looks like: the fixed provider fields, a
   * selection flag that is membership of its id, and the fields built from
   * one review of one of the properties.
   */
  ghost predicate Shaped(scheme: IdScheme, props: seq<Property>, r: NormalizedReview, selectedIds: seq<ReviewId>,
                         responseFor: string -> PlaceResponse, env: DateEnv, nowMillis: nat)
  {
    && r.channel == "Google" && r.categories == []
    && r.reviewType == "guest-to-host" && r.status == "published"
    && r.propertyImage.Some? && r.propertyImage.value != ""
    && (r.isSelected <==> r.id in selectedIds)
    && r.dateFormatted == ReviewUtils.FormatDate(r.date, env)
    && exists k, j :: 0 <= k < |props| && BuiltFrom(scheme, props[k], j, r, responseFor, nowMillis, env)
  }

  /** Every record built from `props` has the shape `Shaped` describes. */
  lemma {:induction false} GoogleReviewsShape(scheme: IdScheme, props: seq<Property>, catalog: seq<Property>,
                                              responseFor: string -> PlaceResponse, selectedIds: seq<ReviewId>,
                                              env: DateEnv, nowMillis: nat)
    requires DigitIds(props)
    ensures forall r | r in GoogleReviewsOf(scheme, props, catalog, responseFor, selectedIds, env, nowMillis) ::
              Shaped(scheme, props, r, selectedIds, responseFor, env, nowMillis)
    decreases |props|
  {
    if props != [] {
      var init, last := props[..|props| - 1], props[|props| - 1];
      assert DigitIds(init);
      GoogleReviewsShape(scheme, init, catalog, responseFor, selectedIds, env, nowMillis);
      ShapeWidens(scheme, props, catalog, responseFor, selectedIds, env, nowMillis);
      LastShaped(scheme, props, catalog, responseFor, selectedIds, env, nowMillis);
      GoogleReviewsOfStep(scheme, props, |props| - 1, catalog, responseFor, selectedIds, env, nowMillis);
      assert props[..|props|] == props;
    }
  }

  /** A record shaped for all properties but the last is shaped for all of them. */
  lemma ShapeWidens(scheme: IdScheme, props: seq<Property>, catalog: seq<Property>,
                    responseFor: string -> PlaceResponse, selectedIds: seq<ReviewId>, env: DateEnv, nowMillis: nat)
    requires props != []
    ensures forall r | Shaped(scheme, props[..|props| - 1], r, selectedIds, responseFor, env, nowMillis) ::
              Shaped(scheme, props, r, selectedIds, responseFor, env, nowMillis)
  {
    var init := props[..|props| - 1];
    forall r | Shaped(scheme, init, r, selectedIds, responseFor, env, nowMillis)
      ensures Shaped(scheme, props, r, selectedIds, responseFor, env, nowMillis)
    {
      var k, j :| 0 <= k < |init| && BuiltFrom(scheme, init[k], j, r, responseFor, nowMillis, env);
      assert props[k] == init[k];
    }
  }

  /** The records of the last property are shaped for the whole run. */
  lemma LastShaped(scheme: IdScheme, props: seq<Property>, catalog: seq<Property>,
                   responseFor: string -> PlaceResponse, selectedIds: seq<ReviewId>, env: DateEnv, nowMillis: nat)
    requires DigitIds(props) && props != []
    ensures forall r | r in PropertyRecords(scheme, props[|props| - 1], catalog, responseFor, selectedIds, env, nowMillis) ::
              Shaped(scheme, props, r, selectedIds, responseFor, env, nowMillis)
  {
    var last := props[|props| - 1];
    var recs := PropertyRecords(scheme, last, catalog, responseFor, selectedIds, env, nowMillis);
    PropertyRecordsShape(scheme, last, catalog, responseFor, selectedIds, env, nowMillis);
    forall r | r in recs
      ensures Shaped(scheme, props, r, selectedIds, responseFor, env, nowMillis)
    {
      var j :| 0 <= j < |recs| && recs[j] == r;
      assert BuiltFrom(scheme, props[|props| - 1], j, r, responseFor, nowMillis, env);
    }
  }

  /**
   * With the corrected id, the records of one property have pairwise
   * different ids, as long as the property id spells a positive number.
   */
  lemma PropertyRecordIdsDistinct(property: Property, catalog: seq<Property>, responseFor: string -> PlaceResponse,
                                  selectedIds: seq<ReviewId>, env: DateEnv, nowMillis: nat)
    requires IsDigits(property.id) && DigitsValue(property.id) > 0
    ensures var recs := PropertyRecords(Padded, property, catalog, responseFor, selectedIds, env, nowMillis);
      forall j1, j2 | 0 <= j1 < j2 < |recs| :: recs[j1].id != recs[j2].id
  {
    var rs := PlaceReviews(property, responseFor);
    forall j1, j2 | 0 <= j1 < j2 < |rs|
      ensures PaddedGoogleReviewId(property.id, j1, rs[j1], nowMillis) != PaddedGoogleReviewId(property.id, j2, rs[j2], nowMillis)
    {
      PaddedGoogleReviewIdInjective(property.id, j1, rs[j1], j2, rs[j2], nowMillis);
    }
  }

  /** A reply of thirteen reviews in which position 1 ends in second 023 and position 12 in second 003. */
  function CollidingReply(): seq<GoogleReview> {
    seq(13, i requires 0 <= i < 13 => GoogleReview(None, 5.0, "", if i == 1 then 1700000023 else 1700000003))
  }

  /**
   * As written, one reply can give two records of the same property the same
   * id, 1123; selecting one of them then selects the other as well.
   */
  lemma AsWrittenRecordsCollide(property: Property, catalog: seq<Property>, responseFor: string -> PlaceResponse,
                                selectedIds: seq<ReviewId>, env: DateEnv, nowMillis: nat)
    requires property.id == "1" && property.googlePlaceId.Some? && property.googlePlaceId.value != ""
    requires responseFor(property.googlePlaceId.value) == Body("OK", Some(CollidingReply()))
    ensures var recs := PropertyRecords(AsWritten, property, catalog, responseFor, selectedIds, env, nowMillis);
      && |recs| == 13 && recs[1].id == recs[12].id == 1123.0
      && (recs[1].isSelected <==> recs[12].isSelected)
  {
    var rs := CollidingReply();
    assert PlaceReviews(property, responseFor) == rs;
    assert rs[1] == GoogleReview(None, 5.0, "", 1700000023);
    assert rs[12] == GoogleReview(None, 5.0, "", 1700000003);
    GoogleReviewIdCollision(nowMillis);
  }
}
