/** ai_agent/routes/webhook.py: the `GET /webhook` verification handshake and the
    `POST /webhook` guard chain in front of `handle_message`. */
module WebhookRoute {
  import opened Wrappers
  import opened Strings
  import opened Json
  import opened Web
  import opened Models
  import opened Utf8
  import opened Signature
  import opened WhatsappService

  /** FastAPI's answer when a required query parameter is absent (its JSON error
      list is not modelled). */
  const MissingParameter := HttpError(422, "Field required")
  const InvalidToken := HttpError(403, "Invalid verification token")
  const InvalidStructure := HttpError(400, "Invalid webhook structure: ")
  const NoCompany := HttpError(404, "Company not found")
  const Received := JObj(map["status" := JStr("received")])

  /** This module reads DEBUG_MODE with default "False": an unset variable means production. */
  function RouteDebugMode(env: Option<string>): bool
  {
    DebugMode(env, "False")
  }

  /** `verify_webhook`. It always checks against the debug company; `and` evaluates
      the decryption only when the mode is "subscribe". */
  function VerifyWebhook(mode: Option<string>, challenge: Option<string>, verifyToken: Option<string>,
                         decrypt: string -> Option<string>): (r: Response)
    ensures mode.None? || challenge.None? || verifyToken.None? ==> r == ErrorResponse(MissingParameter)
    ensures r.status == 200 <==>
      mode == Some("subscribe") && challenge.Some? && verifyToken.Some?
      && DecryptedVerifyToken(DebugCompany, decrypt) == verifyToken
    ensures r.status == 200 ==> r.body == PlainText(challenge.value)
    ensures r.status == 500 <==>
      mode == Some("subscribe") && challenge.Some? && verifyToken.Some?
      && DecryptedVerifyToken(DebugCompany, decrypt).None?
    ensures r.status != 200 && r.status != 500 ==>
      r == ErrorResponse(MissingParameter) || r == ErrorResponse(InvalidToken)
  {
    if mode.None? || challenge.None? || verifyToken.None? then ErrorResponse(MissingParameter)
    else if mode.value != "subscribe" then ErrorResponse(InvalidToken)
    else
      match DecryptedVerifyToken(DebugCompany, decrypt)
      case None => ErrorResponse(InternalError)
      case Some(expected) =>
        if verifyToken.value == expected then Response(200, PlainText(challenge.value))
        else ErrorResponse(InvalidToken)
  }

  /** The response, and the run of `handle_message` when the request got that far. */
  datatype PostResult = PostResult(response: Response, handled: Option<HandleOutcome>)

  /** The company `receive_webhook` settles on: the debug company in debug mode, else
      the row with this phone_number_id. */
  function RouteCompany(phoneId: Json, s: Services): Lookup
  {
    if RouteDebugMode(s.debugEnv) then OneRow(DebugCompany) else CompanyByPhoneId(s.companies, phoneId)
  }

  /** `receive_webhook`. `jsonLoads` is `json.loads` on the raw body (None when it
      raises); `rawBody` is also what the signature is computed over. A lookup that
      raises, and a webhook secret that cannot be decrypted, surface as the
      server's 500; `verify_signature`'s own HTTPException is passed through. */
  function ReceiveWebhook(rawBody: seq<byte>, signature: Option<string>,
                          jsonLoads: seq<byte> -> Option<Json>,
                          hmacHex: (seq<byte>, seq<byte>) -> string, s: Services): (r: PostResult)
    ensures r.handled.Some? <==> r.response.status == 200
    ensures r.response.status == 200 ==>
      r.response.body == JsonBody(Received)
      && jsonLoads(rawBody).Some?
      && r.handled == Some(HandleMessage(jsonLoads(rawBody).value, s))
    ensures jsonLoads(rawBody).None? || At(jsonLoads(rawBody).value, ValuePath + PhoneIdPath).None?
            ==> r == PostResult(ErrorResponse(InvalidStructure), None)
    ensures jsonLoads(rawBody).Some? && At(jsonLoads(rawBody).value, ValuePath + PhoneIdPath).Some? ==>
      var data := jsonLoads(rawBody).value;
      var company := RouteCompany(At(data, ValuePath + PhoneIdPath).value, s);
      var secret := if company.OneRow? then DecryptedWebhookSecret(company.company, s.decrypt) else None;
      (company == NoRow ==> r == PostResult(ErrorResponse(NoCompany), None))
      && (company == Raised ==> r == PostResult(ErrorResponse(InternalError), None))
      && (company.OneRow? && !RouteDebugMode(s.debugEnv) && secret.None? ==>
            r == PostResult(ErrorResponse(InternalError), None))
      && (company.OneRow? && !RouteDebugMode(s.debugEnv) && secret.Some?
          && VerifySignature(secret.value, rawBody, signature, hmacHex).Err? ==>
            r == PostResult(ErrorResponse(VerifySignature(secret.value, rawBody, signature, hmacHex).error), None))
      && (company.OneRow?
          && (RouteDebugMode(s.debugEnv) || (secret.Some? && VerifySignature(secret.value, rawBody, signature, hmacHex).Ok?)) ==>
            r == PostResult(Response(200, JsonBody(Received)), Some(HandleMessage(data, s))))
  {
    match jsonLoads(rawBody)
    case None => PostResult(ErrorResponse(InvalidStructure), None)
    case Some(data) =>
      match At(data, ValuePath + PhoneIdPath)
      case None => PostResult(ErrorResponse(InvalidStructure), None)
      case Some(phoneId) =>
        match RouteCompany(phoneId, s)
        case NoRow => PostResult(ErrorResponse(NoCompany), None)
        case Raised => PostResult(ErrorResponse(InternalError), None)
        case OneRow(company) =>
          if !RouteDebugMode(s.debugEnv) && DecryptedWebhookSecret(company, s.decrypt).None? then
            PostResult(ErrorResponse(InternalError), None)
          else if !RouteDebugMode(s.debugEnv)
                  && VerifySignature(DecryptedWebhookSecret(company, s.decrypt).value, rawBody, signature, hmacHex).Err? then
            PostResult(ErrorResponse(VerifySignature(DecryptedWebhookSecret(company, s.decrypt).value,
                                                     rawBody, signature, hmacHex).error), None)
          else
            PostResult(Response(200, JsonBody(Received)), Some(HandleMessage(data, s)))
  }

  /** Outside debug mode `handle_message` runs only after the signature over the raw
      body has been checked against the company's decrypted webhook secret. */
  lemma SignatureGuardsHandling(rawBody: seq<byte>, signature: Option<string>,
                                jsonLoads: seq<byte> -> Option<Json>,
                                hmacHex: (seq<byte>, seq<byte>) -> string, s: Services)
    requires !RouteDebugMode(s.debugEnv)
    requires ReceiveWebhook(rawBody, signature, jsonLoads, hmacHex, s).handled.Some?
    ensures var data := jsonLoads(rawBody).value;
      var company := CompanyByPhoneId(s.companies, At(data, ValuePath + PhoneIdPath).value);
      company.OneRow?
      && DecryptedWebhookSecret(company.company, s.decrypt).Some?
      && VerifySignature(DecryptedWebhookSecret(company.company, s.decrypt).value, rawBody, signature, hmacHex).Ok?
  {
  }

  /** In debug mode the signature header plays no part. */
  lemma DebugIgnoresSignature(rawBody: seq<byte>, sig1: Option<string>, sig2: Option<string>,
                              jsonLoads: seq<byte> -> Option<Json>,
                              hmacHex: (seq<byte>, seq<byte>) -> string, s: Services)
    requires RouteDebugMode(s.debugEnv)
    ensures ReceiveWebhook(rawBody, sig1, jsonLoads, hmacHex, s).response
            == ReceiveWebhook(rawBody, sig2, jsonLoads, hmacHex, s).response
  {
  }

  /** The route and the service read DEBUG_MODE with different defaults: with the
      variable unset, signatures are enforced but no reply is ever posted. */
  lemma UnsetDebugModeSplitsDefaults(rawBody: seq<byte>, signature: Option<string>,
                                     jsonLoads: seq<byte> -> Option<Json>,
                                     hmacHex: (seq<byte>, seq<byte>) -> string, s: Services)
    requires s.debugEnv.None?
    ensures !RouteDebugMode(s.debugEnv) && ServiceDebugMode(s.debugEnv)
    ensures var r := ReceiveWebhook(rawBody, signature, jsonLoads, hmacHex, s);
      r.handled.Some? ==> forall k :: 0 <= k < |r.handled.value.effects| ==> !r.handled.value.effects[k].Post?
  {
    assert Lower("False") == "false";
    ServiceDebugByDefault();
    var r := ReceiveWebhook(rawBody, signature, jsonLoads, hmacHex, s);
    if r.handled.Some? {
      var h := r.handled.value;
      forall k | 0 <= k < |h.effects| ensures !h.effects[k].Post? {
        if h.effects[k].Post? {
          SaveBeforePost(jsonLoads(rawBody).value, s, k);
        }
      }
    }
  }
}
