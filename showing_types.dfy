/** The showing record and the JSON responses of the two API routes. */
module ShowingTypes {
  import opened Wrappers
  import opened Text

  datatype FeedbackStatus = Interested | NotForUs | Maybe

  /** A row of `showings`. Timestamps are kept as the ISO text the
      database returns. */
  datatype Showing = Showing(
    id: string,
    agent_id: string,
    public_token: string,
    buyer_name: string,
    buyer_phone: string,
    buyer_email: Option<string>,
    address: string,
    city: string,
    state: string,
    zip: string,
    showing_datetime: string,
    feedback_status: Option<FeedbackStatus>,
    feedback_note: Option<string>,
    feedback_submitted_at: Option<string>,
    created_at: string,
    updated_at: string)

  /** The JSON body of a route's response. */
  datatype ApiBody =
    | ErrorBody(error: string)
    | ShowingCreated(showing: Showing, publicUrl: string)
    | SmsSent(messageSid: string, to: string)

  datatype ApiResponse = ApiResponse(status: nat, body: ApiBody) {
    /** `response.ok` as the browser's fetch reports it. */
    predicate Ok() {
      200 <= status <= 299
    }
  }

  /** `NextResponse.json(body)` without a status: 200. */
  function Json(body: ApiBody): ApiResponse {
    ApiResponse(200, body)
  }

  function Failure(status: nat, message: string): ApiResponse {
    ApiResponse(status, ErrorBody(message))
  }

  /** The feedback link the routes build from the application URL. */
  function PublicUrl(appUrl: string, token: string): string {
    appUrl + "/r/" + token
  }

  /** `authHeader.replace('Bearer ', '')`: the token both routes hand to
      the auth service. */
  function BearerToken(authHeader: string): string {
    ReplaceFirst(authHeader, "Bearer ", "")
  }

  /** The header the browser sends, `Bearer {token}`, yields the token. */
  lemma BearerTokenOfHeader(token: string)
    ensures BearerToken("Bearer " + token) == token
  {
    var h := "Bearer " + token;
    assert OccursAt(h, "Bearer ", 0);
    assert IndexOf(h, "Bearer ", 0) == Some(0);
    assert h[7..] == token;
  }
}
