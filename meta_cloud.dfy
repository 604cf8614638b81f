/** whatsapp/meta_cloud.py: the request a Meta Cloud API text message is sent as.
    The Graph URL and payload layout are shared with the v17.0 sender in
    ai_agent/services/whatsapp.py and the dashboard link notification. */
module MetaCloud {
  import opened Wrappers
  import opened Strings
  import opened Json
  import opened Web

  /** `MetaCloudProvider(token, phone_number_id)`: the constructor stores both unchanged
      and nothing reassigns them afterwards. */
  datatype MetaCloudProvider = MetaCloudProvider(token: string, phoneNumberId: string)

  const MessagesSuffix := "/messages"

  function GraphPrefix(version: string): string
  {
    "https://graph.facebook.com/" + version + "/"
  }

  /** `f"https://graph.facebook.com/{version}/{phone_number_id}/messages"`. */
  function GraphUrl(version: string, phoneNumberId: string): (u: string)
    ensures StartsWith(u, GraphPrefix(version))
    ensures |u| == |GraphPrefix(version)| + |phoneNumberId| + |MessagesSuffix|
    ensures u[|GraphPrefix(version)|..|u| - |MessagesSuffix|] == phoneNumberId
    ensures u[|u| - |MessagesSuffix|..] == MessagesSuffix
  {
    var u := GraphPrefix(version) + phoneNumberId + MessagesSuffix;
    assert u[..|GraphPrefix(version)|] == GraphPrefix(version);
    u
  }

  /** Two Graph URLs of one API version are equal only for the same phone number id. */
  lemma GraphUrlInjective(version: string, a: string, b: string)
    ensures GraphUrl(version, a) == GraphUrl(version, b) <==> a == b
  {
  }

  /** The JSON text-message payload. */
  function TextPayload(to: Json, message: string): (p: Json)
    ensures p.JObj? && p.fields.Keys == {"messaging_product", "to", "type", "text"}
    ensures StrAt(p, [Key("messaging_product")]) == Some("whatsapp")
    ensures At(p, [Key("to")]) == Some(to)
    ensures StrAt(p, [Key("type")]) == Some("text")
    ensures StrAt(p, [Key("text"), Key("body")]) == Some(message)
    ensures At(p, [Key("text")]).value.JObj? && At(p, [Key("text")]).value.fields.Keys == {"body"}
  {
    JObj(map[
      "messaging_product" := JStr("whatsapp"),
      "to" := to,
      "type" := JStr("text"),
      "text" := JObj(map["body" := JStr(message)])])
  }

  /** The bearer-token and content-type headers. */
  function GraphHeaders(token: string): (h: seq<(string, string)>)
    ensures HeaderValue(h, "Authorization") == Some("Bearer " + token)
    ensures HeaderValue(h, "Content-Type") == Some("application/json")
    ensures |h| == 2
  {
    [("Authorization", "Bearer " + token), ("Content-Type", "application/json")]
  }

  /** The POST that sends `message` to `to` from a phone number id. */
  function GraphMessagesRequest(version: string, phoneNumberId: string, token: string,
                                to: Json, message: string): HttpRequest
  {
    HttpRequest(GraphUrl(version, phoneNumberId), GraphHeaders(token), TextPayload(to, message))
  }

  /** `send_message`: the request posted through API version v19.0. */
  function SendMessage(p: MetaCloudProvider, phoneNumber: string, message: string): (r: HttpRequest)
    ensures r.url == GraphUrl("v19.0", p.phoneNumberId)
    ensures r.url[|GraphPrefix("v19.0")|..|r.url| - |MessagesSuffix|] == p.phoneNumberId
    ensures HeaderValue(r.headers, "Authorization") == Some("Bearer " + p.token)
    ensures HeaderValue(r.headers, "Content-Type") == Some("application/json")
    ensures StrAt(r.json, [Key("to")]) == Some(phoneNumber)
    ensures StrAt(r.json, [Key("text"), Key("body")]) == Some(message)
    ensures StrAt(r.json, [Key("messaging_product")]) == Some("whatsapp")
    ensures StrAt(r.json, [Key("type")]) == Some("text")
  {
    GraphMessagesRequest("v19.0", p.phoneNumberId, p.token, JStr(phoneNumber), message)
  }
}
