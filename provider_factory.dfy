/** whatsapp/provider_factory.py (and the abstract base in whatsapp/base.py): the
    provider is a tagged variant chosen by an exact, case-sensitive name. */
module ProviderFactory {
  import opened Wrappers
  import opened Json
  import opened Web
  import opened MetaCloud
  import opened ZApi

  /** A `WhatsAppProvider`: one of the two concrete senders. */
  datatype Provider = Meta(meta: MetaCloudProvider) | ZApiVariant(zapi: ZApiProvider)

  /** `ValueError("Unsupported WhatsApp provider")`, or the KeyError of a missing config entry. */
  datatype ProviderError = UnsupportedProvider | MissingConfigKey(key: string)

  /** `get_provider(provider_name, config)`. The keyword arguments are evaluated in
      order, so a missing "token" is reported before a missing "phone_number_id"
      (and "instance_id" before "api_token"). */
  function GetProvider(name: string, config: map<string, string>): (r: Result<Provider, ProviderError>)
    ensures r == Err(UnsupportedProvider) <==> name != "meta" && name != "zapi"
    ensures r.Ok? && r.value.Meta? <==> name == "meta" && "token" in config && "phone_number_id" in config
    ensures r.Ok? && r.value.ZApiVariant? <==> name == "zapi" && "instance_id" in config && "api_token" in config
    ensures r.Ok? && r.value.Meta? ==>
      r.value.meta.token == config["token"] && r.value.meta.phoneNumberId == config["phone_number_id"]
    ensures r.Ok? && r.value.ZApiVariant? ==>
      r.value.zapi == NewZApiProvider(config["instance_id"], config["api_token"])
    ensures r.Err? && r.error.MissingConfigKey? ==>
      r.error.key !in config
      && (name == "meta" ==> r.error.key == (if "token" !in config then "token" else "phone_number_id"))
      && (name == "zapi" ==> r.error.key == (if "instance_id" !in config then "instance_id" else "api_token"))
  {
    if name == "meta" then
      if "token" !in config then Err(MissingConfigKey("token"))
      else if "phone_number_id" !in config then Err(MissingConfigKey("phone_number_id"))
      else Ok(Meta(MetaCloudProvider(config["token"], config["phone_number_id"])))
    else if name == "zapi" then
      if "instance_id" !in config then Err(MissingConfigKey("instance_id"))
      else if "api_token" !in config then Err(MissingConfigKey("api_token"))
      else Ok(ZApiVariant(NewZApiProvider(config["instance_id"], config["api_token"])))
    else Err(UnsupportedProvider)
  }

  /** The config entries the chosen variant reads. */
  function KeysRead(name: string): set<string>
  {
    if name == "meta" then {"token", "phone_number_id"}
    else if name == "zapi" then {"instance_id", "api_token"}
    else {}
  }

  /** Only the chosen variant's keys are consulted: two configs that agree on them
      select the same provider, whatever else they hold. */
  lemma GetProviderReadsOnlyItsKeys(name: string, c1: map<string, string>, c2: map<string, string>)
    requires forall k :: k in KeysRead(name) ==> (k in c1 <==> k in c2) && (k in c1 ==> c1[k] == c2[k])
    ensures GetProvider(name, c1) == GetProvider(name, c2)
  {
    if name == "meta" {
      assert "token" in KeysRead(name) && "phone_number_id" in KeysRead(name);
    } else if name == "zapi" {
      assert "instance_id" in KeysRead(name) && "api_token" in KeysRead(name);
    }
  }

  /** `provider.send_message(phone_number, message)`, dispatched on the variant.
      Only the Meta request carries a credential header. */
  function SendMessage(p: Provider, phoneNumber: string, message: string): (r: HttpRequest)
    ensures p.Meta? ==> HeaderValue(r.headers, "Authorization") == Some("Bearer " + p.meta.token)
    ensures p.Meta? ==>
      (r.url == GraphUrl("v19.0", p.meta.phoneNumberId)
       && StrAt(r.json, [Key("to")]) == Some(phoneNumber)
       && StrAt(r.json, [Key("text"), Key("body")]) == Some(message))
    ensures p.ZApiVariant? ==>
      (r.headers == []
       && r.url == p.zapi.baseUrl + "/send-messages"
       && StrAt(r.json, [Key("phone")]) == Some(phoneNumber)
       && StrAt(r.json, [Key("message")]) == Some(message))
  {
    match p
    case Meta(m) => MetaCloud.SendMessage(m, phoneNumber, message)
    case ZApiVariant(z) => ZApi.SendMessage(z, phoneNumber, message)
  }
}
