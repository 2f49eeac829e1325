/** The bearer-token middleware `requireApiKey` of `api/server/routes/haki.js`. It holds
    no state: the decision depends on the `Authorization` header and on `HAKI_API_KEY`. */
module Routes {
  import opened Wrappers
  import opened Controller

  const DEV_API_KEY := "dev-haki-key"
  const BEARER_PREFIX := "Bearer "

  /** `process.env.HAKI_API_KEY || 'dev-haki-key'`: an unset or empty variable falls back
      to the development key, so the key in force is never empty. */
  function ApiKey(hakiApiKey: Option<string>): (key: string)
    ensures key != ""
    ensures hakiApiKey.Some? && hakiApiKey.value != "" ==> key == hakiApiKey.value
    ensures hakiApiKey.None? || hakiApiKey.value == "" ==> key == DEV_API_KEY
  {
    match hakiApiKey
    case Some(k) => if k != "" then k else DEV_API_KEY
    case None => DEV_API_KEY
  }

  /** The middleware's outcome: pass on to the handler (`next()`, writing nothing), or
      answer with a status and a JSON body without calling `next`. */
  datatype Decision = Next | Reply(statusCode: nat, body: Payload)

  /** `requireApiKey(req, res, next)`: a missing header is refused; a present one passes
      exactly when it is `Bearer ` followed by nothing but the key in force. Every
      refusal is a 401 with body `{ error: 'Unauthorized' }`. */
  function RequireApiKey(authorization: Option<string>, hakiApiKey: Option<string>): (d: Decision)
    ensures authorization.None? ==> d.Reply?
    ensures authorization.Some? ==>
            var h := authorization.value;
            (d.Next? <==> && |h| >= |BEARER_PREFIX|
                          && h[..|BEARER_PREFIX|] == BEARER_PREFIX
                          && h[|BEARER_PREFIX|..] == ApiKey(hakiApiKey))
    ensures d.Reply? ==> d.statusCode == 401 && d.body == ErrorBody("Unauthorized")
  {
    assert authorization.Some? && |authorization.value| >= |BEARER_PREFIX| ==>
           authorization.value == authorization.value[..|BEARER_PREFIX|] + authorization.value[|BEARER_PREFIX|..];
    if authorization == Some(BEARER_PREFIX + ApiKey(hakiApiKey)) then Next
    else Reply(401, ErrorBody("Unauthorized"))
  }

  /** A header admits at most one key: two configurations that accept the same header
      have the same key in force. */
  lemma {:induction false} HeaderDeterminesKey(authorization: Option<string>, e1: Option<string>, e2: Option<string>)
    requires RequireApiKey(authorization, e1).Next? && RequireApiKey(authorization, e2).Next?
    ensures ApiKey(e1) == ApiKey(e2)
  {
    var h := authorization.value;
    assert ApiKey(e1) == h[|BEARER_PREFIX|..];
    assert ApiKey(e2) == h[|BEARER_PREFIX|..];
  }

  /** The bare key without the `Bearer ` prefix is refused, and so is a missing header. */
  lemma PrefixRequired(hakiApiKey: Option<string>)
    ensures RequireApiKey(Some(ApiKey(hakiApiKey)), hakiApiKey).Reply?
    ensures RequireApiKey(None, hakiApiKey).Reply?
  {
  }

  /** Without a configured secret the development key is accepted, whether the variable
      is unset or empty. */
  lemma DevKeyFallback(authorization: Option<string>)
    ensures RequireApiKey(Some("Bearer dev-haki-key"), None).Next?
    ensures RequireApiKey(authorization, None) == RequireApiKey(authorization, Some(""))
  {
    assert BEARER_PREFIX + DEV_API_KEY == "Bearer dev-haki-key";
  }
}
