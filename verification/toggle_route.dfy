/**
 * app/api/reviews/toggle-selection/route.ts: the POST handler that validates
 * the request body, toggles the stored selection and answers with a JSON
 * envelope.
 */
module ToggleRoute {
  import opened Wrappers
  import opened ReviewTypes
  import opened Storage

  /** A parsed JSON value. */
  datatype Json = JNull | JBool(b: bool) | JNumber(n: real) | JString(s: string)
                | JArray(items: seq<Json>) | JObject(fields: map<string, Json>)

  datatype ToggleData = ToggleData(reviewId: ReviewId, isSelected: bool)

  /** The response: HTTP status and the `{success, data?, error?}` envelope. */
  datatype ToggleResponse = ToggleResponse(status: nat, success: bool, data: Option<ToggleData>, error: Option<string>)

  const InvalidReviewId := ToggleResponse(400, false, None, Some("Invalid review ID"))
  const ToggleFailed := ToggleResponse(500, false, None, Some("Failed to toggle review selection"))

  /**
   * The validation half of POST. `body` is None when the body is not JSON.
   * A body that fails to parse, or is `null` (destructuring it throws), is a
   * 500; a `reviewId` that is missing or not a number is a 400; any number,
   * fractional ones included, is accepted.
   */
  function CheckRequest(body: Option<Json>): (r: Result<ReviewId, ToggleResponse>)
    ensures r.Failure? ==> r.error == InvalidReviewId || r.error == ToggleFailed
    ensures r.Failure? && r.error == ToggleFailed <==> body == None || body == Some(JNull)
    ensures r.Success? <==> body.Some? && body.value.JObject? && "reviewId" in body.value.fields
                            && body.value.fields["reviewId"].JNumber?
    ensures r.Success? ==> r.value == body.value.fields["reviewId"].n
  {
    match body
    case None => Failure(ToggleFailed)
    case Some(JNull) => Failure(ToggleFailed)
    case Some(JObject(fields)) =>
      if "reviewId" in fields && fields["reviewId"].JNumber? then Success(fields["reviewId"].n)
      else Failure(InvalidReviewId)
    case Some(_) => Failure(InvalidReviewId)
  }

  /**
   * POST /api/reviews/toggle-selection. A rejected request leaves the store
   * alone; an accepted one toggles it exactly once and echoes the id with
   * the new membership; a failed write answers 500 with the generic message.
   */
  method Post(store: SelectionStore, body: Option<Json>, writeSucceeds: bool) returns (response: ToggleResponse)
    modifies store
    ensures CheckRequest(body).Failure? ==> response == CheckRequest(body).error && store.file == old(store.file)
    ensures CheckRequest(body).Success? && writeSucceeds ==>
              var id := CheckRequest(body).value;
              && response == ToggleResponse(200, true, Some(ToggleData(id, id !in old(ReadSelection(store.file)))), None)
              && store.file == Stored(Some(ToggledIds(old(ReadSelection(store.file)), id)))
    ensures CheckRequest(body).Success? && !writeSucceeds ==> response == ToggleFailed && store.file == old(store.file)
    ensures response.success ==>
              (&& response.status == 200 && response.data.Some?
               && (response.data.value.reviewId in ReadSelection(store.file) <==> response.data.value.isSelected))
  {
    match CheckRequest(body)
    case Failure(rejection) =>
      response := rejection;
    case Success(reviewId) =>
      var toggled := store.ToggleReviewSelection(reviewId, writeSucceeds);
      match toggled
      case Success(isSelected) =>
        response := ToggleResponse(200, true, Some(ToggleData(reviewId, isSelected)), None);
      case Failure(_) =>
        response := ToggleFailed;
  }
}
