/** ai_agent/routes/dashboard.py: the tenant dashboard's token scan, its guarded
    settings update, and the link notification, over the `companies` table. */
module Dashboard {
  import opened Wrappers
  import opened Strings
  import opened Json
  import opened Web
  import opened Models
  import opened MetaCloud

  const MissingToken := HttpError(403, "Invalid or missing token")
  const WrongToken := HttpError(403, "Invalid token")
  const NotFound := HttpError(404, "Company not found")

  /** The row's verify token decrypts, to something other than `token`. */
  predicate Mismatch(c: Company, token: string, decrypt: string -> Option<string>)
  {
    DecryptedVerifyToken(c, decrypt).Some? && DecryptedVerifyToken(c, decrypt).value != token
  }

  /** Where the scan of `view_company_settings` stops: the first row that is not a
      mismatch (it matches, or its decryption raises), or |rows| when there is none. */
  function ScanStop(rows: seq<Company>, token: string, decrypt: string -> Option<string>): (k: nat)
    ensures k <= |rows|
    ensures forall j :: 0 <= j < k ==> Mismatch(rows[j], token, decrypt)
    ensures k < |rows| ==> !Mismatch(rows[k], token, decrypt)
    decreases |rows|
  {
    if |rows| == 0 || !Mismatch(rows[0], token, decrypt) then 0
    else 1 + ScanStop(rows[1..], token, decrypt)
  }

  /** `view_company_settings`: walk the table in order and show the first company whose
      decrypted verify token equals `token`. A decryption that raises ends the request. */
  method ViewCompanySettings(store: CompanyStore, token: string, decrypt: string -> Option<string>)
    returns (r: Result<Company, HttpError>)
    ensures var k := ScanStop(store.rows, token, decrypt);
      (r == Err(MissingToken) <==> k == |store.rows|)
      && (r == Err(InternalError) <==> k < |store.rows| && DecryptedVerifyToken(store.rows[k], decrypt).None?)
      && (r.Ok? <==> k < |store.rows| && DecryptedVerifyToken(store.rows[k], decrypt) == Some(token))
      && (r.Ok? ==> r.value == store.rows[k])
  {
    var rows := store.rows;
    var i := 0;
    while i < |rows|
      invariant 0 <= i <= |rows|
      invariant forall j :: 0 <= j < i ==> Mismatch(rows[j], token, decrypt)
    {
      var plain := DecryptedVerifyToken(rows[i], decrypt);
      if plain.None? {
        ScanStopAt(rows, token, decrypt, i);
        return Err(InternalError);
      }
      if plain.value == token {
        ScanStopAt(rows, token, decrypt, i);
        return Ok(rows[i]);
      }
      i := i + 1;
    }
    ScanStopAt(rows, token, decrypt, |rows|);
    r := Err(MissingToken);
  }

  /** ScanStop is the first non-mismatch. */
  lemma ScanStopAt(rows: seq<Company>, token: string, decrypt: string -> Option<string>, i: nat)
    requires i <= |rows|
    requires forall j :: 0 <= j < i ==> Mismatch(rows[j], token, decrypt)
    requires i < |rows| ==> !Mismatch(rows[i], token, decrypt)
    ensures ScanStop(rows, token, decrypt) == i
  {
  }

  /** The settings the update form sets; every other column is kept. */
  function WithSettings(c: Company, aiPrompt: string, tone: string, language: string, active: bool): (d: Company)
    ensures d.aiPrompt == aiPrompt && d.tone == tone && d.language == language && d.active == Some(active)
    ensures d == c.(aiPrompt := d.aiPrompt, tone := d.tone, language := d.language, active := d.active)
  {
    c.(aiPrompt := aiPrompt, tone := tone, language := language, active := Some(active))
  }

  /** `update_company_settings`: 404 for an unknown id before any token check, 500 when
      the stored token cannot be decrypted, 403 on a wrong token; otherwise the four
      form fields are written to that row and the browser is sent back to the
      dashboard (303). Every failure leaves the table as it was. */
  method UpdateCompanySettings(store: CompanyStore, companyId: int, token: string, aiPrompt: string,
                               tone: string, language: string, active: bool,
                               decrypt: string -> Option<string>)
    returns (resp: Response)
    requires store.Valid()
    modifies store
    ensures store.Valid()
    ensures IndexOfId(old(store.rows), companyId).None? ==>
      resp == ErrorResponse(NotFound) && store.rows == old(store.rows)
    ensures IndexOfId(old(store.rows), companyId).Some? ==>
      var i := IndexOfId(old(store.rows), companyId).value;
      var plain := DecryptedVerifyToken(old(store.rows)[i], decrypt);
      (plain.None? ==> resp == ErrorResponse(InternalError) && store.rows == old(store.rows))
      && (plain.Some? && plain.value != token ==> resp == ErrorResponse(WrongToken) && store.rows == old(store.rows))
      && (plain == Some(token) ==>
            resp == Response(303, Redirect("/dashboard?token=" + token))
            && store.rows == old(store.rows)[i := WithSettings(old(store.rows)[i], aiPrompt, tone, language, active)])
  {
    var found := IndexOfId(store.rows, companyId);
    if found.None? {
      return ErrorResponse(NotFound);
    }
    var i := found.value;
    var plain := DecryptedVerifyToken(store.rows[i], decrypt);
    if plain.None? {
      return ErrorResponse(InternalError);
    }
    if plain.value != token {
      return ErrorResponse(WrongToken);
    }
    UpdateKeepsKeys(store.rows, i, WithSettings(store.rows[i], aiPrompt, tone, language, active));
    store.rows := store.rows[i := WithSettings(store.rows[i], aiPrompt, tone, language, active)];
    resp := Response(303, Redirect("/dashboard?token=" + token));
  }

  /** Replacing a row by one with the same id and phone_number_id keeps both unique. */
  lemma UpdateKeepsKeys(rows: seq<Company>, i: nat, d: Company)
    requires i < |rows| && UniqueIds(rows) && UniquePhoneIds(rows)
    requires d.id == rows[i].id && d.phoneNumberId == rows[i].phoneNumberId
    ensures UniqueIds(rows[i := d]) && UniquePhoneIds(rows[i := d])
  {
    var r := rows[i := d];
    assert forall k :: 0 <= k < |r| ==> r[k].id == rows[k].id && r[k].phoneNumberId == rows[k].phoneNumberId;
  }

  const LinkMessagePrefix := "Este é o link para editar " + "algumas configurações da sua " + "empresa no nosso sistema: "

  /** The link `notify_dashboard_url` sends: the decrypted verify token is the
      dashboard's token parameter. An unset RAILWAY_PUBLIC_DOMAIN shows as "None". */
  function DashboardUrl(domain: Option<string>, plainToken: string): (u: string)
    ensures StartsWith(u, "https://" + PyStr(domain) + "/dashboard?token=")
    ensures u[|"https://" + PyStr(domain) + "/dashboard?token="|..] == plainToken
  {
    var p := "https://" + PyStr(domain) + "/dashboard?token=";
    assert (p + plainToken)[..|p|] == p;
    p + plainToken
  }

  /** What `notify_dashboard_url` sends and answers. */
  datatype Notification = Notification(request: HttpRequest, response: Response)

  /** `notify_dashboard_url`. The link goes out through the Meta provider built from
      MY_COMPANY_TOKEN and MY_COMPANY_PHONE_ID, addressed to the company's
      phone_number_id (JSON null when the column is NULL). */
  function NotifyDashboardUrl(store: CompanyStore, companyId: int, domain: Option<string>,
                              myToken: Option<string>, myPhoneId: Option<string>,
                              decrypt: string -> Option<string>): (r: Result<Notification, HttpError>)
    reads store
    ensures IndexOfId(store.rows, companyId).None? ==> r == Err(NotFound)
    ensures r.Err? ==> r.error == NotFound || r.error == InternalError
    ensures IndexOfId(store.rows, companyId).Some? ==>
      var plain := DecryptedVerifyToken(store.rows[IndexOfId(store.rows, companyId).value], decrypt);
      (plain.None? <==> r == Err(InternalError)) && (plain.Some? <==> r.Ok?)
    ensures r.Ok? ==>
      var c := store.rows[IndexOfId(store.rows, companyId).value];
      var plain := DecryptedVerifyToken(c, decrypt);
      IndexOfId(store.rows, companyId).Some? && plain.Some?
      && r.value.response == Response(200, JsonBody(JObj(map["detail" := JStr("Dashboard link sent to company.")])))
      && StrAt(r.value.request.json, [Key("text"), Key("body")])
         == Some(LinkMessagePrefix + DashboardUrl(domain, plain.value))
      && At(r.value.request.json, [Key("to")])
         == Some(match c.phoneNumberId case None => JNull case Some(p) => JStr(p))
      && r.value.request.url == GraphUrl("v19.0", PyStr(myPhoneId))
      && HeaderValue(r.value.request.headers, "Authorization") == Some("Bearer " + PyStr(myToken))
  {
    match IndexOfId(store.rows, companyId)
    case None => Err(NotFound)
    case Some(i) =>
      var c := store.rows[i];
      match DecryptedVerifyToken(c, decrypt)
      case None => Err(InternalError)
      case Some(plain) =>
        var message := LinkMessagePrefix + DashboardUrl(domain, plain);
        var to := match c.phoneNumberId case None => JNull case Some(p) => JStr(p);
        var provider := MetaCloudProvider(PyStr(myToken), PyStr(myPhoneId));
        Ok(Notification(
          GraphMessagesRequest("v19.0", provider.phoneNumberId, provider.token, to, message),
          Response(200, JsonBody(JObj(map["detail" := JStr("Dashboard link sent to company.")])))))
  }
}
