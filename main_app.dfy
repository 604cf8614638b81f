/** main.py at the repository root: the older app's `GET /webhook` handshake and
    `POST /webhook`. */
module MainApp {
  import opened Wrappers
  import opened Json
  import opened Web
  import opened Models
  import opened Utf8

  /** A query parameter declared as `name: str = ""`: FastAPI binds it to the query
      key spelled exactly like the parameter, and to "" when that key is absent. */
  function QueryParam(query: map<string, string>, key: string): (v: string)
    ensures key in query ==> v == query[key]
    ensures key !in query ==> v == ""
  {
    if key in query then query[key] else ""
  }

  /** The handshake decision once the four parameters are bound. The stored
      verify_token is compared as it is, without decryption; a lookup that raises
      is the server's 500. */
  function Handshake(mode: string, challenge: string, verifyToken: string, phoneNumberId: string,
                     companies: seq<Company>): (r: Response)
    ensures CompanyByPhoneId(companies, JStr(phoneNumberId)) == NoRow ==>
      r == Response(404, PlainText("Company not found"))
    ensures CompanyByPhoneId(companies, JStr(phoneNumberId)) == Raised <==> r == ErrorResponse(InternalError)
    ensures r.status == 200 <==>
      CompanyByPhoneId(companies, JStr(phoneNumberId)).OneRow?
      && mode == "subscribe"
      && verifyToken == CompanyByPhoneId(companies, JStr(phoneNumberId)).company.verifyToken
    ensures r.status == 200 ==> r.body == PlainText(challenge)
    ensures CompanyByPhoneId(companies, JStr(phoneNumberId)).OneRow? && r.status != 200 ==>
      r == Response(403, PlainText("Invalid verification token"))
  {
    match CompanyByPhoneId(companies, JStr(phoneNumberId))
    case NoRow => Response(404, PlainText("Company not found"))
    case Raised => ErrorResponse(InternalError)
    case OneRow(company) =>
      if mode == "subscribe" && verifyToken == company.verifyToken then Response(200, PlainText(challenge))
      else Response(403, PlainText("Invalid verification token"))
  }

  /** `verify_webhook` as written: the parameters `hub_mode`, `hub_challenge` and
      `hub_verify_token` have no aliases, so they bind the underscored query keys. */
  function VerifyWebhookAsWritten(query: map<string, string>, companies: seq<Company>): Response
  {
    Handshake(QueryParam(query, "hub_mode"), QueryParam(query, "hub_challenge"),
              QueryParam(query, "hub_verify_token"), QueryParam(query, "phone_number_id"), companies)
  }

  /** Meta's verification request names its parameters `hub.mode`, `hub.challenge`
      and `hub.verify_token`. As written, such a request is never answered with the
      challenge, whatever the company table holds. */
  lemma MetaHandshakeNeverAnswered(query: map<string, string>, companies: seq<Company>)
    requires "hub_mode" !in query
    ensures VerifyWebhookAsWritten(query, companies).status != 200
  {
  }

  /** The binding ai_agent/routes/webhook.py uses (`alias="hub.mode"` and so on). */
  function VerifyWebhookCorrected(query: map<string, string>, companies: seq<Company>): Response
  {
    Handshake(QueryParam(query, "hub.mode"), QueryParam(query, "hub.challenge"),
              QueryParam(query, "hub.verify_token"), QueryParam(query, "phone_number_id"), companies)
  }

  /** With the dotted names bound, a subscribe request carrying the company's stored
      token gets its challenge back, and any other token is refused. */
  lemma CorrectedHandshakeAnswersMeta(query: map<string, string>, companies: seq<Company>, c: Company)
    requires UniquePhoneIds(companies) && c in companies && c.phoneNumberId.Some?
    requires query.Keys == {"hub.mode", "hub.challenge", "hub.verify_token", "phone_number_id"}
    requires query["hub.mode"] == "subscribe" && query["phone_number_id"] == c.phoneNumberId.value
    ensures query["hub.verify_token"] == c.verifyToken ==>
      VerifyWebhookCorrected(query, companies) == Response(200, PlainText(query["hub.challenge"]))
    ensures query["hub.verify_token"] != c.verifyToken ==>
      VerifyWebhookCorrected(query, companies) == Response(403, PlainText("Invalid verification token"))
  {
    var i :| 0 <= i < |companies| && companies[i] == c;
    CompanyByPhoneIdUnique(companies, c.phoneNumberId.value, i);
  }

  /** `receive_webhook`: `request.json()` raising gives a 500; otherwise the legacy
      `handle_message` swallows every error and the answer is always "received". */
  function MainReceiveWebhook(body: seq<byte>, jsonLoads: seq<byte> -> Option<Json>): (r: Response)
    ensures jsonLoads(body).None? <==> r == ErrorResponse(InternalError)
    ensures jsonLoads(body).Some? <==> r == Response(200, JsonBody(JObj(map["status" := JStr("received")])))
  {
    match jsonLoads(body)
    case None => ErrorResponse(InternalError)
    case Some(_) => Response(200, JsonBody(JObj(map["status" := JStr("received")])))
  }
}
