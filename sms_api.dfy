/** The `POST` handler of app/api/sms/send/route.ts: configuration, then
    authentication, then the ownership lookup, then one message sent
    through the SMS provider, whose failures are mapped to responses by
    their error code. The environment, the auth service, the lookup and the
    provider are parameters; the `showings` table is a sequence of rows. */
module SmsApi {
  import opened Wrappers
  import opened Text
  import opened ShowingTypes

  const NotConfigured: string :=
    "Twilio not configured. Please set TWILIO_ACCOUNT_SID, TWILIO_AUTH_TOKEN, and TWILIO_PHONE_NUMBER environment variables."
  const NoAuthHeader: string := "No authorization header"
  const InvalidAuth: string := "Invalid authentication"
  const NotFound: string := "Showing not found or access denied"
  const InvalidNumber: string := "Invalid phone number format. Please use E.164 format (e.g., +1234567890)"
  const Unreachable: string := "The phone number is not reachable or invalid"
  const SmsUnsupported: string := "SMS not supported for this phone number"
  const SendFailed: string := "Failed to send SMS"

  /** The request body: the showing to notify and an optional text. */
  datatype SmsRequest = SmsRequest(showingId: Option<string>, message: Option<string>)

  /** `TWILIO_ACCOUNT_SID`, `TWILIO_AUTH_TOKEN` and `TWILIO_PHONE_NUMBER`. */
  datatype TwilioConfig = TwilioConfig(accountSid: Option<string>, authToken: Option<string>, phoneNumber: Option<string>)

  predicate Configured(c: TwilioConfig) {
    Truthy(c.accountSid) && Truthy(c.authToken) && Truthy(c.phoneNumber)
  }

  /** What the provider does with a message: it is sent with an id, or it
      fails with an error that may carry a numeric code. */
  datatype SendOutcome = Sent(sid: string) | Failed(code: Option<int>, message: string)

  /** The collaborators of the handler:
      - `resolveUser`: the user id the auth service finds for a token, if any;
      - `showings`: the rows of the `showings` table;
      - `send`: the provider's answer for (body, from, to). */
  datatype SmsEnv = SmsEnv(
    config: TwilioConfig,
    appUrl: string,
    resolveUser: string -> Option<string>,
    showings: seq<Showing>,
    send: (string, string, string) -> SendOutcome)

  /** The id the query compares with: a missing `showingId` is sent as the
      text "undefined", which no row has. */
  function IdText(req: SmsRequest): string {
    req.showingId.GetOr("undefined")
  }

  /** The rows with the id and the agent, in table order. */
  function OwnedWithId(showings: seq<Showing>, id: string, agent: string): (r: seq<Showing>)
    ensures forall s :: s in r <==> s in showings && s.id == id && s.agent_id == agent
  {
    if showings == [] then []
    else
      var rest := OwnedWithId(showings[1..], id, agent);
      assert forall s | s in showings[1..] :: s in showings;
      assert forall s | s in showings :: s == showings[0] || s in showings[1..];
      if showings[0].id == id && showings[0].agent_id == agent then [showings[0]] + rest else rest
  }

  /** `.eq('id', showingId).eq('agent_id', user.id).single()`: the row when
      exactly one matches, nothing otherwise. */
  function FindShowing(showings: seq<Showing>, id: string, agent: string): (r: Option<Showing>)
    ensures r.Some? <==> |OwnedWithId(showings, id, agent)| == 1
    ensures r.Some? ==> r.value in showings && r.value.id == id && r.value.agent_id == agent
  {
    var rows := OwnedWithId(showings, id, agent);
    if |rows| == 1 then Some(rows[0]) else None
  }

  /** The text sent when no custom message is given. */
  function DefaultBody(s: Showing, appUrl: string): string {
    "Hi " + s.buyer_name + "! Here's the link to provide feedback on your showing at " + s.address + ": "
    + PublicUrl(appUrl, s.public_token)
  }

  /** `message || default`: a non-empty custom message is sent as it is. */
  function SmsBody(message: Option<string>, s: Showing, appUrl: string): (body: string)
    ensures Truthy(message) ==> body == message.value
    ensures !Truthy(message) ==> body == DefaultBody(s, appUrl)
  {
    if Truthy(message) then message.value else DefaultBody(s, appUrl)
  }

  /** The `catch` block: the provider codes with a fixed wording, any other
      code as a provider error, no code as a server error. */
  function ErrorResponse(code: Option<int>, message: string): (r: ApiResponse)
    ensures r.status == (if code.Some? then 400 else 500)
    ensures code == Some(21211) ==> r == Failure(400, InvalidNumber)
    ensures code == Some(21608) ==> r == Failure(400, Unreachable)
    ensures code == Some(21614) ==> r == Failure(400, SmsUnsupported)
    ensures code.Some? && code.value !in {21211, 21608, 21614} ==> r == Failure(400, "Twilio error: " + message)
    ensures code.None? ==> r == Failure(500, SendFailed)
  {
    match code
    case None => Failure(500, SendFailed)
    case Some(c) =>
      if c == 21211 then Failure(400, InvalidNumber)
      else if c == 21608 then Failure(400, Unreachable)
      else if c == 21614 then Failure(400, SmsUnsupported)
      else Failure(400, "Twilio error: " + message)
  }

  /** The handler. `body` is `None` when the request body is not JSON; the
      resulting parse error has no code. */
  function SendSms(body: Option<SmsRequest>, authHeader: Option<string>, env: SmsEnv): (r: ApiResponse)
    ensures body.Some? && !Configured(env.config) ==> r == Failure(400, NotConfigured)
    ensures r.Ok() ==> r.body.SmsSent?
    ensures body.None? ==> r == Failure(500, SendFailed)
    ensures body.Some? && Configured(env.config) && Truthy(authHeader) ==>
      var user := env.resolveUser(BearerToken(authHeader.value));
      var showing := if user.Some? then FindShowing(env.showings, IdText(body.value), user.value) else None;
      showing.Some? ==>
        var sent := env.send(SmsBody(body.value.message, showing.value, env.appUrl),
                             env.config.phoneNumber.value, showing.value.buyer_phone);
        && (sent.Failed? ==> r == ErrorResponse(sent.code, sent.message))
        && (sent.Sent? ==> r == Json(SmsSent(sent.sid, showing.value.buyer_phone)))
  {
    if body.None? then ErrorResponse(None, "")
    else if !Configured(env.config) then Failure(400, NotConfigured)
    else if !Truthy(authHeader) then Failure(401, NoAuthHeader)
    else
      match env.resolveUser(BearerToken(authHeader.value))
      case None => Failure(401, InvalidAuth)
      case Some(user) =>
        match FindShowing(env.showings, IdText(body.value), user)
        case None => Failure(404, NotFound)
        case Some(showing) =>
          var text := SmsBody(body.value.message, showing, env.appUrl);
          match env.send(text, env.config.phoneNumber.value, showing.buyer_phone)
          case Sent(sid) => Json(SmsSent(sid, showing.buyer_phone))
          case Failed(code, message) => ErrorResponse(code, message)
  }

  /** Missing configuration is reported before the credentials are looked
      at: the answer is the same for every header and auth service. */
  lemma ConfigurationFirst(req: SmsRequest, h1: Option<string>, h2: Option<string>, env1: SmsEnv, env2: SmsEnv)
    requires !Configured(env1.config) && env2.config == env1.config
    ensures SendSms(Some(req), h1, env1) == SendSms(Some(req), h2, env2) == Failure(400, NotConfigured)
  {
  }

  /** Once configured, a missing header or a token the auth service does not
      accept is answered 401, and a showing that is missing or belongs to
      another agent 404. */
  lemma AuthThenOwnership(req: SmsRequest, authHeader: Option<string>, env: SmsEnv)
    requires Configured(env.config)
    ensures !Truthy(authHeader) ==> SendSms(Some(req), authHeader, env) == Failure(401, NoAuthHeader)
    ensures Truthy(authHeader) && env.resolveUser(BearerToken(authHeader.value)).None? ==>
      SendSms(Some(req), authHeader, env) == Failure(401, InvalidAuth)
    ensures (Truthy(authHeader) && env.resolveUser(BearerToken(authHeader.value)).Some?
             && forall s | s in env.showings && s.id == IdText(req) :: s.agent_id != env.resolveUser(BearerToken(authHeader.value)).value) ==>
      SendSms(Some(req), authHeader, env) == Failure(404, NotFound)
  {
    if Truthy(authHeader) && env.resolveUser(BearerToken(authHeader.value)).Some? {
      var user := env.resolveUser(BearerToken(authHeader.value)).value;
      if forall s | s in env.showings && s.id == IdText(req) :: s.agent_id != user {
        NoOwnedRow(env.showings, IdText(req), user);
      }
    }
  }

  /** No row with the id belongs to the agent: the query finds nothing. */
  lemma {:induction false} NoOwnedRow(showings: seq<Showing>, id: string, agent: string)
    requires forall s | s in showings && s.id == id :: s.agent_id != agent
    ensures OwnedWithId(showings, id, agent) == []
  {
    if showings != [] {
      assert showings[0] in showings;
      assert forall s | s in showings[1..] :: s in showings;
      NoOwnedRow(showings[1..], id, agent);
    }
  }

  /** Another agent's showing is never texted, whatever its id: the answer
      is 404. */
  lemma ForeignShowingIs404(req: SmsRequest, token: string, env: SmsEnv, user: string)
    requires Configured(env.config) && env.resolveUser(token) == Some(user)
    requires forall s | s in env.showings :: s.agent_id != user
    ensures SendSms(Some(req), Some("Bearer " + token), env) == Failure(404, NotFound)
  {
    BearerTokenOfHeader(token);
    AuthThenOwnership(req, Some("Bearer " + token), env);
  }

  /** A message is only sent for the one showing with the requested id
      that the caller owns: to its buyer, from the configured number, with
      the body `SmsBody` chooses, and success echoes the recipient. */
  lemma SentToBuyer(req: SmsRequest, authHeader: Option<string>, env: SmsEnv)
    requires SendSms(Some(req), authHeader, env).Ok()
    ensures Configured(env.config) && Truthy(authHeader)
    ensures var user := env.resolveUser(BearerToken(authHeader.value));
      && user.Some?
      && var showing := FindShowing(env.showings, IdText(req), user.value);
      && showing.Some?
      && showing.value in env.showings && showing.value.id == IdText(req) && showing.value.agent_id == user.value
      && var outcome := env.send(SmsBody(req.message, showing.value, env.appUrl), env.config.phoneNumber.value, showing.value.buyer_phone);
      && outcome.Sent?
      && SendSms(Some(req), authHeader, env) == Json(SmsSent(outcome.sid, showing.value.buyer_phone))
  {
  }

  /** The default text names the buyer and the address and carries the
      feedback link. */
  lemma DefaultBodyCarriesLink(s: Showing, appUrl: string)
    ensures IsInfix(PublicUrl(appUrl, s.public_token), DefaultBody(s, appUrl))
    ensures IsInfix(s.buyer_name, DefaultBody(s, appUrl))
    ensures IsInfix(s.address, DefaultBody(s, appUrl))
  {
    var b := DefaultBody(s, appUrl);
    var url := PublicUrl(appUrl, s.public_token);
    var head := "Hi " + s.buyer_name + "! Here's the link to provide feedback on your showing at " + s.address + ": ";
    assert b == head + url;
    assert OccursAt(b, url, |head|);
    assert OccursAt(b, s.buyer_name, 3);
    var before := "Hi " + s.buyer_name + "! Here's the link to provide feedback on your showing at ";
    assert OccursAt(b, s.address, |before|);
  }

  /** A custom message is sent without the link appended. */
  lemma CustomMessageVerbatim(message: string, s: Showing, appUrl: string)
    requires message != ""
    ensures SmsBody(Some(message), s, appUrl) == message
  {
  }
}
