/** ai_agent/utils/signature.py: checking the X-Hub-Signature-256 header of a webhook
    POST. HMAC-SHA256 (RFC 2104) with hex output is the parameter `hmacHex(key, message)`. */
module Signature {
  import opened Wrappers
  import opened Strings
  import opened Web
  import opened Utf8

  const MissingSignature := HttpError(403, "Missing or invalid signature format")
  const InvalidSignature := HttpError(403, "Invalid signature")

  predicate IsAscii(s: string)
  {
    forall i :: 0 <= i < |s| ==> s[i] as int < 0x80
  }

  /** `signature.split("=")[1]`: the text between the first and the second '='. */
  function DigestOf(header: string): (d: string)
    requires '=' in header
  {
    SplitCount(header, '=');
    Split(header, '=')[1]
  }

  /** `hmac.new(app_secret.encode("utf-8"), msg=request_body, digestmod=sha256).hexdigest()`. */
  function Expected(appSecret: string, body: seq<byte>, hmacHex: (seq<byte>, seq<byte>) -> string): string
  {
    hmacHex(Encode(appSecret), body)
  }

  /** `verify_signature(app_secret, request_body, signature)`. `compare_digest` raises
      TypeError on a non-ASCII string, which the server answers with a 500. */
  function VerifySignature(appSecret: string, body: seq<byte>, signature: Option<string>,
                           hmacHex: (seq<byte>, seq<byte>) -> string): (r: Result<(), HttpError>)
    ensures r == Err(MissingSignature) <==> signature.None? || signature.value == "" || '=' !in signature.value
    ensures r.Ok? <==>
      signature.Some? && '=' in signature.value
      && DigestOf(signature.value) == Expected(appSecret, body, hmacHex)
      && IsAscii(Expected(appSecret, body, hmacHex))
    ensures r == Err(InternalError) <==>
      signature.Some? && '=' in signature.value
      && !(IsAscii(Expected(appSecret, body, hmacHex)) && IsAscii(DigestOf(signature.value)))
    ensures r.Err? ==> r.error in {MissingSignature, InvalidSignature, InternalError}
  {
    match signature
    case None => Err(MissingSignature)
    case Some(h) =>
      if h == "" || '=' !in h then Err(MissingSignature)
      else
        var digest := DigestOf(h);
        var expected := Expected(appSecret, body, hmacHex);
        if !IsAscii(expected) || !IsAscii(digest) then Err(InternalError)
        else if expected != digest then Err(InvalidSignature)
        else Ok(())
  }

  /** Only the segment after the first '=' is compared: `md5=`, `sha1=` or no
      algorithm name at all are as good as `sha256=`. */
  lemma PrefixNeverChecked(a: string, b: string, digest: string, rest: string)
    requires '=' !in a && '=' !in b && '=' !in digest
    requires rest == [] || rest[0] == '='
    ensures DigestOf(a + "=" + digest + rest) == digest
    ensures DigestOf(a + "=" + digest + rest) == DigestOf(b + "=" + digest + rest)
  {
    SplitSecondPart(a, digest, rest, '=');
    SplitSecondPart(b, digest, rest, '=');
    assert a + "=" + digest + rest == a + ['='] + digest + rest;
    assert b + "=" + digest + rest == b + ['='] + digest + rest;
  }

  /** The header Meta sends, `sha256=` followed by the hex HMAC of the raw body under
      the app secret, is accepted; the same header is refused for any other secret
      whose HMAC differs. */
  lemma GenuineHeaderAccepted(appSecret: string, body: seq<byte>, hmacHex: (seq<byte>, seq<byte>) -> string)
    requires IsAscii(Expected(appSecret, body, hmacHex)) && '=' !in Expected(appSecret, body, hmacHex)
    ensures VerifySignature(appSecret, body, Some("sha256=" + Expected(appSecret, body, hmacHex)), hmacHex) == Ok(())
    ensures forall other: string :: Expected(other, body, hmacHex) != Expected(appSecret, body, hmacHex) ==>
      VerifySignature(other, body, Some("sha256=" + Expected(appSecret, body, hmacHex)), hmacHex).Err?
  {
    var e := Expected(appSecret, body, hmacHex);
    PrefixNeverChecked("sha256", "sha256", e, []);
    assert "sha256" + "=" + e + [] == "sha256=" + e;
  }
}
