/** Auth-token provisioning of src/ai/nearAuthHelper.js: deciding which NEAR AI
    auth token to hand out (none, a pre-configured one, a freshly signed one,
    or one with a placeholder signature), normalising the private key,
    building the nonce, and reading a token back out of a cookie. Key parsing,
    the NEAR connection and signing are outcomes the caller supplies; JSON
    text goes through a caller-supplied codec. */
module NearAuth {
  import opened Common
  import opened Config

  const Ed25519Prefix := "ed25519:"
  const PlaceholderSignature := "P6fZ5bp9j.....Z7BvtqDQ=="

  /** `hasValidNearCredentials`: both an account id and a private key are set. */
  predicate HasValidNearCredentials(env: Env)
  {
    Truthy(env.nearAccountId) && Truthy(env.nearPrivateKey)
  }

  /** `hasPreConfiguredAuthToken`: a token is set and is valid JSON. */
  predicate HasPreConfiguredAuthToken(env: Env, codec: JsonCodec)
  {
    Truthy(env.nearAiAuthToken) && codec.parse(env.nearAiAuthToken.value).Some?
  }

  /** The key text handed to the key parser: `ed25519:` is put in front of a
      key that does not already carry it. */
  function NormalizeKey(privateKey: string): (k: string)
    ensures StartsWith(k, Ed25519Prefix)
    ensures k == privateKey || k == Ed25519Prefix + privateKey
    ensures k == privateKey <==> StartsWith(privateKey, Ed25519Prefix)
  {
    if StartsWith(privateKey, Ed25519Prefix) then privateKey else Ed25519Prefix + privateKey
  }

  /** Normalising twice is normalising once. */
  lemma NormalizeKeyIdempotent(privateKey: string)
    ensures NormalizeKey(NormalizeKey(privateKey)) == NormalizeKey(privateKey)
  {
  }

  /** The nonce: the current time in milliseconds as decimal text, left-padded
      with '0' to 32 characters. It has length max(32, digits) and still
      reads as the time it was made from. */
  function Nonce(nowMs: nat): (n: string)
    ensures var digits := NatToString(nowMs, 10);
      |n| == (if |digits| >= 32 then |digits| else 32)
    ensures forall i :: 0 <= i < |n| ==> '0' <= n[i] <= '9'
    ensures StringToNat(n, 10) == nowMs
  {
    var digits := NatToString(nowMs, 10);
    var n := PadStart(digits, 32, '0');
    var zeros := n[..|n| - |digits|];
    assert n == zeros + digits;
    LeadingZerosIgnored(zeros, digits, 10);
    NatToStringRoundTrip(nowMs, 10);
    n
  }

  /** Two different times never give the same nonce. */
  lemma NonceInjective(t1: nat, t2: nat)
    requires Nonce(t1) == Nonce(t2)
    ensures t1 == t2
  {
  }

  /** A key pair as the key parser returns it; only its public key is read. */
  datatype KeyPair = KeyPair(publicKey: string)

  /** The outcomes of the NEAR calls token generation makes:
      `KeyPair.fromString`, the connection (key store, `connect`,
      `account`), and `keyPair.sign` of a message (its base64 text). */
  datatype Signer = Signer(
    fromString: string -> Result<KeyPair, string>,
    connect: Result<(), string>,
    sign: (KeyPair, string) -> Result<string, string>)

  /** The fields of a signed auth object. */
  function AuthObject(accountId: string, publicKey: string, signature: string, nonce: string): map<string, Json>
  {
    map[
      "account_id" := JString(accountId),
      "public_key" := JString(publicKey),
      "signature" := JString(signature),
      "message" := JString(AuthMessage),
      "recipient" := JString(AuthRecipient),
      "nonce" := JString(nonce),
      "callback_url" := JString(AuthCallbackUrl)
    ]
  }

  /** How `generateAuthToken` decided. `Unverified` is a token whose signature
      is the fixed placeholder. */
  datatype TokenDecision =
    | NoToken
    | Verbatim(text: string)
    | Rebound(obj: Json)
    | Signed(fields: map<string, Json>)
    | Unverified(fields: map<string, Json>)

  /** The string `generateAuthToken` returns for a decision (null is None). */
  function TokenText(d: TokenDecision, codec: JsonCodec): Option<string>
  {
    match d
    case NoToken => None
    case Verbatim(text) => Some(text)
    case Rebound(obj) => Some(codec.stringify(obj))
    case Signed(fields) => Some(codec.stringify(JObject(fields)))
    case Unverified(fields) => Some(codec.stringify(JObject(fields)))
  }

  /** The pre-configured-token step. Some(decision) when the parsed token
      decides the result; None when the step falls through to signing, which
      happens when the text is not JSON, when it is `null` (reading a field
      throws), and when it is a string, number or boolean (setting a field
      throws in the class body's strict mode). An array takes the field
      assignment but serialises without it, so it comes back unchanged. */
  function PreConfiguredStep(token: string, accountId: string, codec: JsonCodec): (d: Option<TokenDecision>)
    ensures d.Some? ==> d.value.Verbatim? || d.value.Rebound?
    ensures codec.parse(token).None? ==> d.None?
    ensures (d.Some? && d.value.Verbatim?) ==> d.value.text == token
  {
    match codec.parse(token)
    case None => None
    case Some(JObject(fields)) =>
      if "account_id" in fields && fields["account_id"] == JString(accountId) then Some(Verbatim(token))
      else Some(Rebound(JObject(fields["account_id" := JString(accountId)])))
    case Some(JArray(items)) => Some(Rebound(JArray(items)))
    case Some(_) => None
  }

  /** A pre-configured token bound to a different account is rebound to the
      requested account without a new signature: every other field,
      `signature` included, is kept. */
  lemma {:induction false} ReboundKeepsSignature(token: string, accountId: string, codec: JsonCodec, fields: map<string, Json>)
    requires codec.parse(token) == Some(JObject(fields))
    requires "account_id" !in fields || fields["account_id"] != JString(accountId)
    ensures var d := PreConfiguredStep(token, accountId, codec);
      d.Some? && d.value.Rebound? && d.value.obj.JObject?
    ensures var obj := PreConfiguredStep(token, accountId, codec).value.obj;
      obj.fields["account_id"] == JString(accountId) &&
      obj.fields.Keys == fields.Keys + {"account_id"} &&
      forall k :: k in fields && k != "account_id" ==> obj.fields[k] == fields[k]
  {
    var d := PreConfiguredStep(token, accountId, codec);
    assert d == Some(Rebound(JObject(fields["account_id" := JString(accountId)])));
  }

  /** `generateAuthToken(nearConfig, accountId, privateKey)` with the
      pre-configured token `preConfigured`, the time `nowMs` and the NEAR
      outcomes `signer`. In priority order: missing credentials give null; a
      failing key parse or connection gives null; a pre-configured token
      that parses as an object or array decides the result; a good signature
      gives a signed token; a failed signature gives the placeholder
      token. */
  function GenerateAuthToken(accountId: Option<string>, privateKey: Option<string>,
                             preConfigured: Option<string>, nowMs: nat,
                             signer: Signer, codec: JsonCodec): (d: TokenDecision)
    ensures !(Truthy(accountId) && Truthy(privateKey)) ==> d == NoToken
    ensures Truthy(accountId) && Truthy(privateKey) &&
            (signer.fromString(NormalizeKey(privateKey.value)).Err? || signer.connect.Err?) ==>
      d == NoToken
    ensures Truthy(accountId) && Truthy(privateKey) &&
            signer.fromString(NormalizeKey(privateKey.value)).Ok? && signer.connect.Ok? &&
            Truthy(preConfigured) && PreConfiguredStep(preConfigured.value, accountId.value, codec).Some? ==>
      d == PreConfiguredStep(preConfigured.value, accountId.value, codec).value
    ensures Truthy(accountId) && Truthy(privateKey) &&
            signer.fromString(NormalizeKey(privateKey.value)).Ok? && signer.connect.Ok? &&
            !(Truthy(preConfigured) && PreConfiguredStep(preConfigured.value, accountId.value, codec).Some?) ==>
      var sig := signer.sign(signer.fromString(NormalizeKey(privateKey.value)).value, AuthMessage);
      (sig.Ok? ==> d.Signed?) && (sig.Err? ==> d.Unverified?)
    ensures (d.Signed? || d.Unverified?) ==>
      Truthy(accountId) && signer.fromString(NormalizeKey(privateKey.value)).Ok? && signer.connect.Ok? &&
      (Truthy(preConfigured) ==> PreConfiguredStep(preConfigured.value, accountId.value, codec).None?)
    ensures d.Signed? ==> exists sig ::
      signer.sign(signer.fromString(NormalizeKey(privateKey.value)).value, AuthMessage) == Ok(sig) &&
      d.fields == AuthObject(accountId.value, signer.fromString(NormalizeKey(privateKey.value)).value.publicKey, sig, Nonce(nowMs))
    ensures d.Unverified? ==>
      signer.sign(signer.fromString(NormalizeKey(privateKey.value)).value, AuthMessage).Err? &&
      d.fields == AuthObject(accountId.value, signer.fromString(NormalizeKey(privateKey.value)).value.publicKey, PlaceholderSignature, Nonce(nowMs))
    ensures (d.Verbatim? || d.Rebound?) ==>
      Truthy(accountId) && Truthy(privateKey) && Truthy(preConfigured) &&
      PreConfiguredStep(preConfigured.value, accountId.value, codec) == Some(d)
  {
    if !Truthy(accountId) || !Truthy(privateKey) then NoToken
    else
      match signer.fromString(NormalizeKey(privateKey.value))
      case Err(_) => NoToken
      case Ok(keyPair) =>
        if signer.connect.Err? then NoToken
        else
          var nonce := Nonce(nowMs);
          var kept := if Truthy(preConfigured) then PreConfiguredStep(preConfigured.value, accountId.value, codec) else None;
          if kept.Some? then kept.value
          else
            match signer.sign(keyPair, AuthMessage)
            case Ok(signature) => Signed(AuthObject(accountId.value, keyPair.publicKey, signature, nonce))
            case Err(_) => Unverified(AuthObject(accountId.value, keyPair.publicKey, PlaceholderSignature, nonce))
  }

  /** A pre-configured token that parses and already names the account is
      returned exactly as configured. */
  lemma MatchingPreConfiguredIsVerbatim(accountId: string, privateKey: string, token: string, nowMs: nat,
                                        signer: Signer, codec: JsonCodec, fields: map<string, Json>)
    requires accountId != "" && privateKey != "" && token != ""
    requires signer.fromString(NormalizeKey(privateKey)).Ok? && signer.connect.Ok?
    requires codec.parse(token) == Some(JObject(fields))
    requires "account_id" in fields && fields["account_id"] == JString(accountId)
    ensures TokenText(GenerateAuthToken(Some(accountId), Some(privateKey), Some(token), nowMs, signer, codec), codec) == Some(token)
  {
  }

  /** JavaScript truthiness of a JSON value. */
  predicate JsonTruthy(v: Json)
  {
    match v
    case JNull => false
    case JBool(b) => b
    case JNumber(n) => n != 0.0
    case JString(s) => s != ""
    case JArray(_) => true
    case JObject(_) => true
  }

  predicate HasTruthyField(v: Json, key: string)
  {
    v.JObject? && key in v.fields && JsonTruthy(v.fields[key])
  }

  /** The structural check of POST /api/validate-token: `account_id`,
      `public_key`, `signature` and `message` are all truthy. No signature is
      verified. */
  predicate StructurallyValid(v: Json)
  {
    HasTruthyField(v, "account_id") && HasTruthyField(v, "public_key") &&
    HasTruthyField(v, "signature") && HasTruthyField(v, "message")
  }

  /** A built token passes the structural check whenever the account id,
      the public key and the signature are non-empty; the placeholder
      signature always is. */
  lemma BuiltTokenIsStructurallyValid(accountId: string, publicKey: string, signature: string, nonce: string)
    requires accountId != "" && publicKey != "" && signature != ""
    ensures StructurallyValid(JObject(AuthObject(accountId, publicKey, signature, nonce)))
    ensures StructurallyValid(JObject(AuthObject(accountId, publicKey, PlaceholderSignature, nonce)))
  {
  }

  /** The placeholder token differs from a signed one only in its signature. */
  lemma PlaceholderDiffersOnlyInSignature(accountId: string, publicKey: string, signature: string, nonce: string)
    ensures var signed := AuthObject(accountId, publicKey, signature, nonce);
      var placeholder := AuthObject(accountId, publicKey, PlaceholderSignature, nonce);
      signed.Keys == placeholder.Keys &&
      forall k :: k in signed && k != "signature" ==> signed[k] == placeholder[k]
  {
  }

  // ---------------------------------------------------------------------
  // Reading the token out of a cookie.
  // ---------------------------------------------------------------------

  /** The longest prefix of `s` without a ';'. */
  function UpToSemicolon(s: string): (r: string)
    ensures r <= s
    ensures ';' !in r
    ensures |r| < |s| ==> s[|r|] == ';'
  {
    if s == [] || s[0] == ';' then [] else [s[0]] + UpToSemicolon(s[1..])
  }

  /** The capture group of `/auth:([^;]+)/`: the leftmost `auth:` that is
      followed by at least one character other than ';', and every character
      up to the next ';'. */
  function AuthCookieMatch(s: string): (r: Option<string>)
    ensures r.Some? ==> r.value != "" && ';' !in r.value
    decreases |s|
  {
    if StartsWith(s, "auth:") && |s| > 5 && s[5] != ';' then Some(UpToSemicolon(s[5..]))
    else if s == [] then None
    else AuthCookieMatch(s[1..])
  }

  /** `.replace(/^"|"$/g, '')`: one leading and one trailing double quote go. */
  function StripQuotes(s: string): string
  {
    var head := if |s| > 0 && s[0] == '"' then s[1..] else s;
    if |head| > 0 && head[|head| - 1] == '"' then head[..|head| - 1] else head
  }

  /** A quoted value loses exactly its quotes; an unquoted one is unchanged. */
  lemma StripQuotesInverse(t: string)
    ensures StripQuotes("\"" + t + "\"") == t
    ensures (|t| == 0 || (t[0] != '"' && t[|t| - 1] != '"')) ==> StripQuotes(t) == t
  {
    var q := "\"" + t + "\"";
    assert q[1..] == t + "\"";
    assert (t + "\"")[..|t|] == t;
  }

  /** `extractAuthTokenFromCookie` with `decodeURIComponent` supplied as
      `decode` (None when it throws): null for an empty cookie, for a cookie
      without an `auth:` value and when decoding fails; otherwise the decoded
      value without its surrounding quotes. */
  function ExtractAuthTokenFromCookie(cookie: Option<string>, decode: string -> Option<string>): (r: Option<string>)
    ensures !Truthy(cookie) ==> r == None
    ensures Truthy(cookie) && AuthCookieMatch(cookie.value).None? ==> r == None
    ensures Truthy(cookie) && AuthCookieMatch(cookie.value).Some? ==>
      r == (match decode(AuthCookieMatch(cookie.value).value)
            case None => None
            case Some(decoded) => Some(StripQuotes(decoded)))
  {
    if !Truthy(cookie) then None
    else
      match AuthCookieMatch(cookie.value)
      case None => None
      case Some(raw) =>
        match decode(raw)
        case None => None
        case Some(decoded) => Some(StripQuotes(decoded))
  }

  /** A cookie that starts with `auth:` and a value without ';' gives that
      value back, after decoding and with its quotes removed, whatever other
      cookies follow it. */
  lemma CookieRoundTrip(value: string, rest: string, decode: string -> Option<string>)
    requires value != "" && ';' !in value
    requires decode(value).Some?
    ensures ExtractAuthTokenFromCookie(Some("auth:" + value), decode) == Some(StripQuotes(decode(value).value))
    ensures ExtractAuthTokenFromCookie(Some("auth:" + value + ";" + rest), decode) == Some(StripQuotes(decode(value).value))
  {
    UpToSemicolonPrefix(value, "");
    UpToSemicolonPrefix(value, ";" + rest);
    assert ("auth:" + value)[5..] == value + "";
    assert ("auth:" + value + ";" + rest)[5..] == value + (";" + rest);
  }

  lemma {:induction false} UpToSemicolonPrefix(value: string, rest: string)
    requires ';' !in value
    requires rest == [] || rest[0] == ';'
    ensures UpToSemicolon(value + rest) == value
    decreases |value|
  {
    if value == [] {
      assert value + rest == rest;
    } else {
      assert (value + rest)[1..] == value[1..] + rest;
      UpToSemicolonPrefix(value[1..], rest);
    }
  }
}
