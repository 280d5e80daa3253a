/** The `POST` handler of app/api/showings/route.ts: a chain of guards that
    answer early, then the insert of one normalised row. The auth service,
    the date conversion, the token generator and the insert are
    parameters. */
module ShowingsApi {
  import opened Wrappers
  import opened Text
  import opened ShowingTypes

  const MissingFields: string := "Missing required fields"
  const PhoneFormat: string := "Phone must be in E.164 format (e.g., +1234567890)"
  const NoAuthHeader: string := "No authorization header"
  const InvalidAuth: string := "Invalid authentication"
  const CreateFailed: string := "Failed to create showing"
  const InternalError: string := "Internal server error"

  /** The request body; an absent (or `undefined`) field is `None`. */
  datatype ShowingRequest = ShowingRequest(
    buyer_name: Option<string>,
    buyer_phone: Option<string>,
    buyer_email: Option<string>,
    address: Option<string>,
    city: Option<string>,
    state: Option<string>,
    zip: Option<string>,
    showing_datetime: Option<string>)

  /** The row handed to the insert. */
  datatype NewShowing = NewShowing(
    agent_id: string,
    public_token: string,
    buyer_name: string,
    buyer_phone: string,
    buyer_email: Option<string>,
    address: string,
    city: string,
    state: string,
    zip: string,
    showing_datetime: string)

  /** The collaborators of the handler:
      - `appUrl`: `NEXT_PUBLIC_APP_URL`;
      - `resolveUser`: the user id the auth service finds for a token, if any;
      - `toIso`: `new Date(text).toISOString()`, `None` where it throws;
      - `insert`: the stored row, `None` when the database reports an error. */
  datatype ServerEnv = ServerEnv(
    appUrl: string,
    resolveUser: string -> Option<string>,
    toIso: string -> Option<string>,
    insert: NewShowing -> Option<Showing>)

  /** The seven fields the handler requires to be truthy. */
  predicate HasRequiredFields(req: ShowingRequest) {
    && Truthy(req.buyer_name) && Truthy(req.buyer_phone) && Truthy(req.address)
    && Truthy(req.city) && Truthy(req.state) && Truthy(req.zip) && Truthy(req.showing_datetime)
  }

  /** The server's phone rule: a leading '+' and at least 10 characters,
      on the text as sent. */
  predicate ServerPhoneOk(phone: string) {
    "+" <= phone && |phone| >= 10
  }

  /** The row stored for an accepted request: every text trimmed, the state
      also upper-cased, a blank or absent email stored as null. */
  function Normalise(req: ShowingRequest, agent: string, token: string, iso: string): (row: NewShowing)
    requires HasRequiredFields(req)
    ensures row.agent_id == agent && row.public_token == token && row.showing_datetime == iso
    ensures row.buyer_email.Some? <==> req.buyer_email.Some? && !IsBlank(req.buyer_email.value)
    ensures row.buyer_email.Some? ==> row.buyer_email.value == Trim(req.buyer_email.value)
    ensures row.buyer_name == Trim(req.buyer_name.value) && row.buyer_phone == Trim(req.buyer_phone.value)
    ensures row.address == Trim(req.address.value) && row.city == Trim(req.city.value)
    ensures row.zip == Trim(req.zip.value)
    ensures row.state == ToUpper(Trim(req.state.value))
    ensures forall i | 0 <= i < |row.state| :: !('a' <= row.state[i] <= 'z')
    ensures |row.state| == |Trim(req.state.value)|
  {
    var email := if req.buyer_email.Some? then Trim(req.buyer_email.value) else "";
    NewShowing(
      agent, token,
      Trim(req.buyer_name.value), Trim(req.buyer_phone.value),
      if email != "" then Some(email) else None,
      Trim(req.address.value), Trim(req.city.value),
      ToUpper(Trim(req.state.value)), Trim(req.zip.value), iso)
  }

  /** The body parses and passes both 400 checks. */
  predicate PassesChecks(body: Option<ShowingRequest>) {
    body.Some? && HasRequiredFields(body.value) && ServerPhoneOk(body.value.buyer_phone.value)
  }

  /** The handler. `body` is `None` when the request body is not JSON, which
      makes `request.json()` throw. */
  function CreateShowing(body: Option<ShowingRequest>, authHeader: Option<string>, publicToken: string, env: ServerEnv)
    : (r: ApiResponse)
    ensures body.Some? && !HasRequiredFields(body.value) ==> r == Failure(400, MissingFields)
    ensures body.Some? && HasRequiredFields(body.value) && !ServerPhoneOk(body.value.buyer_phone.value) ==> r == Failure(400, PhoneFormat)
    ensures r.status == 400 ==> body.Some? && (!HasRequiredFields(body.value) || !ServerPhoneOk(body.value.buyer_phone.value))
    ensures r.Ok() ==> r.body.ShowingCreated? && r.body.publicUrl == PublicUrl(env.appUrl, r.body.showing.public_token)
    ensures body.None? ==> r == Failure(500, InternalError)
    ensures PassesChecks(body) && !Truthy(authHeader) ==> r == Failure(401, NoAuthHeader)
    ensures PassesChecks(body) && Truthy(authHeader) ==>
      var user := env.resolveUser(BearerToken(authHeader.value));
      var iso := env.toIso(body.value.showing_datetime.value);
      && (user.None? ==> r == Failure(401, InvalidAuth))
      && (user.Some? && iso.None? ==> r == Failure(500, InternalError))
      && (user.Some? && iso.Some? && env.insert(Normalise(body.value, user.value, publicToken, iso.value)).None? ==>
            r == Failure(500, CreateFailed))
  {
    if body.None? then Failure(500, InternalError)
    else
      var req := body.value;
      if !HasRequiredFields(req) then Failure(400, MissingFields)
      else if !ServerPhoneOk(req.buyer_phone.value) then Failure(400, PhoneFormat)
      else if authHeader.None? || authHeader.value == "" then Failure(401, NoAuthHeader)
      else
        match env.resolveUser(BearerToken(authHeader.value))
        case None => Failure(401, InvalidAuth)
        case Some(agent) =>
          match env.toIso(req.showing_datetime.value)
          case None => Failure(500, InternalError)
          case Some(iso) =>
            match env.insert(Normalise(req, agent, publicToken, iso))
            case None => Failure(500, CreateFailed)
            case Some(data) => Json(ShowingCreated(data, PublicUrl(env.appUrl, data.public_token)))
  }

  /** The 400 answers do not depend on the credentials or any collaborator:
      validation runs before authentication. */
  lemma ValidationBeforeAuth(req: ShowingRequest, h1: Option<string>, h2: Option<string>, t1: string, t2: string, e1: ServerEnv, e2: ServerEnv)
    requires CreateShowing(Some(req), h1, t1, e1).status == 400
    ensures CreateShowing(Some(req), h2, t2, e2) == CreateShowing(Some(req), h1, t1, e1)
  {
  }

  /** A valid request without an Authorization header is answered 401. */
  lemma MissingHeaderIs401(req: ShowingRequest, token: string, env: ServerEnv)
    requires HasRequiredFields(req) && ServerPhoneOk(req.buyer_phone.value)
    ensures CreateShowing(Some(req), None, token, env) == Failure(401, NoAuthHeader)
    ensures CreateShowing(Some(req), Some(""), token, env) == Failure(401, NoAuthHeader)
  {
  }

  /** The success condition in full: a created showing exactly when the
      body parses, the fields and phone pass, the bearer token resolves, the
      date converts and the insert succeeds; the stored row is then the
      normalised request owned by the resolved user with the fresh token. */
  lemma CreatedIff(body: Option<ShowingRequest>, authHeader: Option<string>, publicToken: string, env: ServerEnv)
    ensures CreateShowing(body, authHeader, publicToken, env).Ok() <==>
      && body.Some? && HasRequiredFields(body.value) && ServerPhoneOk(body.value.buyer_phone.value)
      && Truthy(authHeader) && env.resolveUser(BearerToken(authHeader.value)).Some?
      && env.toIso(body.value.showing_datetime.value).Some?
      && env.insert(Normalise(body.value, env.resolveUser(BearerToken(authHeader.value)).value, publicToken,
                              env.toIso(body.value.showing_datetime.value).value)).Some?
  {
  }

  /** Normalising is settled: every stored text is its own trim and the
      stored state is its own trimmed upper-case form, so a second pass
      through the same normalisation changes nothing. */
  lemma {:induction false} NormaliseIsSettled(req: ShowingRequest, agent: string, token: string, iso: string)
    requires HasRequiredFields(req)
    ensures var row := Normalise(req, agent, token, iso);
      && Trim(row.buyer_name) == row.buyer_name && Trim(row.buyer_phone) == row.buyer_phone
      && Trim(row.address) == row.address && Trim(row.city) == row.city && Trim(row.zip) == row.zip
      && ToUpper(Trim(row.state)) == row.state
      && (row.buyer_email.Some? ==> Trim(row.buyer_email.value) == row.buyer_email.value)
  {
    TrimSettled(req.buyer_name.value);
    TrimSettled(req.buyer_phone.value);
    TrimSettled(req.address.value);
    TrimSettled(req.city.value);
    TrimSettled(req.zip.value);
    if req.buyer_email.Some? {
      TrimSettled(req.buyer_email.value);
    }
    UpperTrimSettled(req.state.value);
  }

  /** A required field of white space only passes the server's truthiness
      check and is stored as the empty string. */
  lemma BlankFieldStoredEmpty(req: ShowingRequest, agent: string, token: string, iso: string)
    requires HasRequiredFields(req) && IsBlank(req.city.value)
    ensures Normalise(req, agent, token, iso).city == ""
  {
  }

  /** The server leaves the state's length, the ZIP format and the date's
      position in time unchecked: a request with a nine-character state, a
      non-numeric ZIP and a date in the past passes every 400 check. */
  lemma ServerSkipsFormatChecks(authHeader: Option<string>, token: string, env: ServerEnv)
    ensures var req := ShowingRequest(Some("Ann"), Some("+15551234567"), None, Some("1 Main St"), Some("Springfield"),
                                      Some("Illinois!"), Some("ABCDE-FG"), Some("2000-01-01T00:00"));
      CreateShowing(Some(req), authHeader, token, env).status != 400
  {
    assert "+" <= "+15551234567";
  }
}
