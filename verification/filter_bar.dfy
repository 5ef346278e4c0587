/**
 * components/FilterBar.tsx: the dashboard's filter controls. One record of
 * five strings is the component's state; each control replaces one field
 * and hands the new record to the dashboard.
 */
module FilterBar {
  import opened Wrappers
  import opened Text

  datatype Filters = Filters(propertyId: string, minRating: string, channel: string, searchQuery: string, sortBy: string)

  /** `keyof Filters`. */
  datatype FilterKey = PropertyIdKey | MinRatingKey | ChannelKey | SearchQueryKey | SortByKey

  /** The state the bar starts in: everything shown, newest first. */
  const InitialFilters := Filters("all", "0", "all", "", "date-desc")

  /** `filters[key]`. */
  function Get(filters: Filters, key: FilterKey): string {
    match key
    case PropertyIdKey => filters.propertyId
    case MinRatingKey => filters.minRating
    case ChannelKey => filters.channel
    case SearchQueryKey => filters.searchQuery
    case SortByKey => filters.sortBy
  }

  /** `{ ...filters, [key]: value }`: field `key` becomes `value`, every other field stays. */
  function Set(filters: Filters, key: FilterKey, value: string): (r: Filters)
    ensures Get(r, key) == value
    ensures forall k :: k != key ==> Get(r, k) == Get(filters, k)
  {
    match key
    case PropertyIdKey => filters.(propertyId := value)
    case MinRatingKey => filters.(minRating := value)
    case ChannelKey => filters.(channel := value)
    case SearchQueryKey => filters.(searchQuery := value)
    case SortByKey => filters.(sortBy := value)
  }

  /** Setting a field to the value it already has changes nothing; setting it twice keeps the last value. */
  lemma SetIdempotent(filters: Filters, key: FilterKey, v: string, w: string)
    ensures Set(filters, key, Get(filters, key)) == filters
    ensures Set(Set(filters, key, v), key, w) == Set(filters, key, w)
  {
  }

  /** The component's state: the current filter record. */
  class FilterBarState {
    var filters: Filters

    constructor ()
      ensures filters == InitialFilters
    {
      filters := InitialFilters;
    }

    /**
     * `handleFilterChange`: stores the record with one field replaced and
     * returns that same record, which is what the dashboard is notified with.
     */
    method HandleFilterChange(key: FilterKey, value: string) returns (notified: Filters)
      modifies this
      ensures filters == Set(old(filters), key, value)
      ensures notified == filters
      ensures forall k :: k != key ==> Get(filters, k) == Get(old(filters), k)
    {
      var newFilters := Set(filters, key, value);
      filters := newFilters;
      notified := newFilters;
    }
  }

  datatype SelectOption = SelectOption(value: string, text: string)

  /** The property select: "all" first, then one option per property, in order. */
  function PropertyOptions(properties: seq<(string, string)>): (r: seq<SelectOption>)
    ensures |r| == |properties| + 1
    ensures r[0] == SelectOption("all", "All Properties")
    ensures forall k :: 0 <= k < |properties| ==> r[k + 1] == SelectOption(properties[k].0, properties[k].1)
  {
    [SelectOption("all", "All Properties")]
    + seq(|properties|, k requires 0 <= k < |properties| => SelectOption(properties[k].0, properties[k].1))
  }

  const MinRatingOptions := [
    SelectOption("0", "All Ratings"), SelectOption("9", "9+ Excellent"), SelectOption("8", "8+ Very Good"),
    SelectOption("7", "7+ Good"), SelectOption("6", "6+ Fair")]

  const ChannelOptions := [
    SelectOption("all", "All Channels"), SelectOption("Airbnb", "Airbnb"),
    SelectOption("Booking.com", "Booking.com"), SelectOption("Direct", "Direct")]

  const SortOptions := [
    SelectOption("date-desc", "Newest First"), SelectOption("date-asc", "Oldest First"),
    SelectOption("rating-desc", "Highest Rating"), SelectOption("rating-asc", "Lowest Rating")]

  /**
   * Every minimum-rating option parses to a whole number: 0 for "All
   * Ratings" and the number its label promises otherwise.
   */
  lemma MinRatingOptionsParse()
    ensures ParseFloat(MinRatingOptions[0].value) == Some(0.0)
    ensures forall k :: 1 <= k < |MinRatingOptions| ==> ParseFloat(MinRatingOptions[k].value) == Some((10 - k) as real)
  {
    forall k | 0 <= k < |MinRatingOptions|
      ensures ParseFloat(MinRatingOptions[k].value) == Some(if k == 0 then 0.0 else (10 - k) as real)
    {
      var n: nat := if k == 0 then 0 else 10 - k;
      assert MinRatingOptions[k].value == NatToString(n);
      ParseFloatNatToString(n);
    }
  }
}
