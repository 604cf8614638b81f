/** whatsapp/zapi.py: a Z-API instance addressed purely by URL. */
module ZApi {
  import opened Wrappers
  import opened Strings
  import opened Json
  import opened Web

  /** The provider keeps only its base URL, fixed by the constructor. */
  datatype ZApiProvider = ZApiProvider(baseUrl: string)

  /** `ZApiProvider(instance_id, api_token)`. */
  function NewZApiProvider(instanceId: string, apiToken: string): (p: ZApiProvider)
    ensures StartsWith(p.baseUrl, "https://api.z-api.io/instances/")
  {
    var p := ZApiProvider("https://api.z-api.io/instances/" + instanceId + "/token/" + apiToken);
    assert p.baseUrl[..|"https://api.z-api.io/instances/"|] == "https://api.z-api.io/instances/";
    p
  }

  /** When neither credential holds a '/', both are read back from the path
      segments of the base URL, so distinct credentials give distinct URLs. */
  lemma BaseUrlSegments(instanceId: string, apiToken: string)
    requires '/' !in instanceId && '/' !in apiToken
    ensures Split(NewZApiProvider(instanceId, apiToken).baseUrl, '/')
            == ["https:", "", "api.z-api.io", "instances", instanceId, "token", apiToken]
  {
    var path := "instances" + ['/'] + instanceId + ['/'] + "token" + ['/'] + apiToken;
    PathSegments(instanceId, apiToken);
    HostSegments(path);
    BaseUrlShape(instanceId, apiToken);
  }

  /** The base URL as its separators and segments. */
  lemma BaseUrlShape(instanceId: string, apiToken: string)
    ensures NewZApiProvider(instanceId, apiToken).baseUrl
      == "https:" + ['/'] + ['/'] + "api.z-api.io" + ['/'] + ("instances" + ['/'] + instanceId + ['/'] + "token" + ['/'] + apiToken)
  {
    PrefixLiterals();
  }

  /** Literal identity behind BaseUrlShape: the URL's fixed text, cut at its slashes. */
  lemma PrefixLiterals()
    ensures "https://api.z-api.io/instances/" == "https:" + ['/'] + ['/'] + "api.z-api.io" + ['/'] + "instances" + ['/']
    ensures "/token/" == ['/'] + "token" + ['/']
  {
  }

  lemma PathSegments(instanceId: string, apiToken: string)
    requires '/' !in instanceId && '/' !in apiToken
    ensures Split("instances" + ['/'] + instanceId + ['/'] + "token" + ['/'] + apiToken, '/')
            == ["instances", instanceId, "token", apiToken]
  {
    var t1 := "token" + ['/'] + apiToken;
    var t2 := instanceId + ['/'] + t1;
    SplitFree(apiToken, '/');
    SplitAtFirstSep("token", apiToken, '/');
    SplitAtFirstSep(instanceId, t1, '/');
    SplitAtFirstSep("instances", t2, '/');
    assert "instances" + ['/'] + t2 == "instances" + ['/'] + instanceId + ['/'] + "token" + ['/'] + apiToken;
  }

  lemma HostSegments(path: string)
    ensures Split("https:" + ['/'] + ['/'] + "api.z-api.io" + ['/'] + path, '/')
            == ["https:", "", "api.z-api.io"] + Split(path, '/')
  {
    var t4 := "api.z-api.io" + ['/'] + path;
    var t5 := "" + ['/'] + t4;
    SplitAtFirstSep("api.z-api.io", path, '/');
    SplitAtFirstSep("", t4, '/');
    SplitAtFirstSep("https:", t5, '/');
    assert "https:" + ['/'] + t5 == "https:" + ['/'] + ['/'] + "api.z-api.io" + ['/'] + path;
  }

  /** `send_message`: a POST to `{base_url}/send-messages` whose payload is exactly
      phone and message; no header carries the credentials. */
  function SendMessage(p: ZApiProvider, phoneNumber: string, message: string): (r: HttpRequest)
    ensures r.url == p.baseUrl + "/send-messages"
    ensures r.headers == []
    ensures r.json.JObj? && r.json.fields.Keys == {"phone", "message"}
    ensures StrAt(r.json, [Key("phone")]) == Some(phoneNumber)
    ensures StrAt(r.json, [Key("message")]) == Some(message)
  {
    HttpRequest(p.baseUrl + "/send-messages", [],
                JObj(map["phone" := JStr(phoneNumber), "message" := JStr(message)]))
  }
}
