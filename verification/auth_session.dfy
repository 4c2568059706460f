/** What the `Auth` class writes into the web session: the OAuth2 callback
    (`process_callback`) and the session accessors, which in this version of
    the library are stubs. The session, the token response and the decoded
    claims are string-keyed maps of opaque values `V`. */
module AuthSession {
  import opened Wrappers
  import opened Config
  import opened AuthUrls
  import opened Jwks

  /** The token-response fields copied into the session, in the order they
      are written. */
  const TokenFields: seq<string> := ["access_token", "id_token", "refresh_token", "expires_at"]

  const UsernameField: string := "username"

  /** Every session key the callback may write. */
  const CallbackFields: seq<string> := TokenFields + [UsernameField]

  /** The username is not one of the token fields. */
  lemma CallbackFieldsDistinct()
    ensures UsernameField !in TokenFields
    ensures forall k :: k in CallbackFields <==> k in TokenFields || k == UsernameField
  {
    assert UsernameField[0] == 'u';
    assert forall i :: 0 <= i < |TokenFields| ==> TokenFields[i][0] != 'u';
  }

  /** Two maps agree on `key`: both lack it or both hold the same value. */
  ghost predicate Agree<V>(a: map<string, V>, b: map<string, V>, key: string) {
    (key in a <==> key in b) && (key in a ==> a[key] == b[key])
  }

  /** Two maps agree on every key outside `keys`. */
  ghost predicate AgreeOutside<V>(a: map<string, V>, b: map<string, V>, keys: seq<string>) {
    forall k :: k !in keys ==> Agree(a, b, k)
  }

  datatype CallbackError =
    | ExchangeFailed
    | FieldMissing(field: string)
    | KeysUnavailable(cause: FetchError)
    | DecodeFailed

  /** The session and key cache after a callback, the URL of the key-set
      request it sent if any, and the exception it raised if any. Writes made
      before an exception stay in the session. */
  datatype CallbackResult<K, V> = CallbackResult(
    session: map<string, V>,
    cache: KeyCache<K>,
    keyRequest: Option<string>,
    error: Option<CallbackError>)

  /** `process_callback(code)`. The token exchange (`fetch_token`) and the
      token decoder (`jwt.decode`) are parameters; `None` from either means it
      raised. The key cache is consulted through `GetPublicKeys` at the
      key-set URL, with clock reading `now` and response `fetch`. */
  function ProcessCallback<K, V>(
    config: AuthConfig,
    cache: KeyCache<K>,
    session: map<string, V>,
    code: string,
    now: int,
    fetch: Fetch<K>,
    exchange: TokenRequest -> Option<map<string, V>>,
    decode: (V, Option<K>) -> Option<map<string, V>>): (r: CallbackResult<K, V>)
    // No session key outside the five callback fields ever changes.
    ensures AgreeOutside(r.session, session, CallbackFields)
    // The token request names the token endpoint, the code and the callback URL.
    ensures r.error == Some(ExchangeFailed) <==>
      exchange(TokenRequest(TokenUrl(config), "authorization_code", code, config.callbackUrl)).None?
    // Keys are looked up only after the four token fields were stored.
    ensures r.error == Some(ExchangeFailed) || (r.error.Some? && r.error.value.FieldMissing? && r.error.value.field in TokenFields)
      ==> r.cache == cache
    ensures r.cache == cache || r.cache == GetPublicKeys(cache, PublicKeyUrl(config), now, fetch).cache
    // A key-set request, if one is sent, goes to the public key URL.
    ensures r.keyRequest.Some? ==> r.keyRequest.value == PublicKeyUrl(config)
    // On success: every token field comes from the token response, the access
    // token was decoded with the cached keys, and the username is its claim.
    ensures r.error.None? ==>
      && var info := exchange(TokenRequestFor(config, code));
      && info.Some?
      && (forall k :: k in TokenFields ==> k in info.value && k in r.session && r.session[k] == info.value[k])
      && "access_token" in info.value
      && var claims := decode(info.value["access_token"], r.cache.token);
      && claims.Some?
      && UsernameField in claims.value
      && UsernameField in r.session
      && r.session[UsernameField] == claims.value[UsernameField]
  {
    match exchange(TokenRequestFor(config, code))
    case None => CallbackResult(session, cache, None, Some(ExchangeFailed))
    case Some(info) => StoreTokens(session, info, cache, PublicKeyUrl(config), now, fetch, decode)
  }

  /** `process_callback` after a successful exchange: copy the token fields
      from the response `info` in order, then hand over to `StoreClaims`. */
  function StoreTokens<K, V>(
    session: map<string, V>,
    info: map<string, V>,
    cache: KeyCache<K>,
    keysUrl: string,
    now: int,
    fetch: Fetch<K>,
    decode: (V, Option<K>) -> Option<map<string, V>>): (r: CallbackResult<K, V>)
    ensures AgreeOutside(r.session, session, CallbackFields)
    ensures r.error != Some(ExchangeFailed)
    ensures r.error.Some? && r.error.value.FieldMissing? && r.error.value.field in TokenFields
      ==> r.cache == cache && r.keyRequest.None?
    ensures r.cache == cache || r.cache == GetPublicKeys(cache, keysUrl, now, fetch).cache
    ensures r.keyRequest.Some? ==> r.keyRequest.value == keysUrl
    ensures r.error.None? ==>
      && (forall k :: k in TokenFields ==> k in info && k in r.session && r.session[k] == info[k])
      && "access_token" in info
      && var claims := decode(info["access_token"], r.cache.token);
      && claims.Some?
      && UsernameField in claims.value
      && UsernameField in r.session
      && r.session[UsernameField] == claims.value[UsernameField]
  {
    if "access_token" !in info then CallbackResult(session, cache, None, Some(FieldMissing("access_token")))
    else
      var s1 := session["access_token" := info["access_token"]];
      if "id_token" !in info then CallbackResult(s1, cache, None, Some(FieldMissing("id_token")))
      else
        var s2 := s1["id_token" := info["id_token"]];
        if "refresh_token" !in info then CallbackResult(s2, cache, None, Some(FieldMissing("refresh_token")))
        else
          var s3 := s2["refresh_token" := info["refresh_token"]];
          if "expires_at" !in info then CallbackResult(s3, cache, None, Some(FieldMissing("expires_at")))
          else StoreClaims(s3["expires_at" := info["expires_at"]], cache, keysUrl, now, fetch, decode)
  }

  /** The second half of `process_callback`, once the token fields are in the
      session: fetch or reuse the keys, decode the stored access token with
      them, and store its `username` claim. */
  function StoreClaims<K, V>(
    session: map<string, V>,
    cache: KeyCache<K>,
    keysUrl: string,
    now: int,
    fetch: Fetch<K>,
    decode: (V, Option<K>) -> Option<map<string, V>>): (r: CallbackResult<K, V>)
    requires "access_token" in session
    ensures r.error.Some? ==> r.session == session
    ensures r.cache == GetPublicKeys(cache, keysUrl, now, fetch).cache
    ensures r.keyRequest.Some? <==> !IsFresh(cache, now)
    ensures r.keyRequest.Some? ==> r.keyRequest.value == keysUrl
    ensures r.error.None? || r.error.value.KeysUnavailable? || r.error == Some(DecodeFailed)
      || r.error == Some(FieldMissing(UsernameField))
    ensures r.error.None? ==>
      && var claims := decode(session["access_token"], r.cache.token);
      && claims.Some?
      && UsernameField in claims.value
      && r.session == session[UsernameField := claims.value[UsernameField]]
  {
    var lookup := GetPublicKeys(cache, keysUrl, now, fetch);
    match lookup.keys
    case Failure(cause) => CallbackResult(session, lookup.cache, lookup.request, Some(KeysUnavailable(cause)))
    case Success(keys) =>
      match decode(session["access_token"], keys)
      case None => CallbackResult(session, lookup.cache, lookup.request, Some(DecodeFailed))
      case Some(claims) =>
        if UsernameField in claims then
          CallbackResult(session[UsernameField := claims[UsernameField]], lookup.cache, lookup.request, None)
        else
          CallbackResult(session, lookup.cache, lookup.request, Some(FieldMissing(UsernameField)))
  }

  /** The callback succeeds exactly when the exchange answers with all four
      token fields, the keys can be had, the access token decodes, and its
      claims carry a username; the session is then the old one with those
      five fields overwritten. */
  lemma CallbackSucceedsWhen<K, V>(
    config: AuthConfig, cache: KeyCache<K>, session: map<string, V>, code: string, now: int,
    fetch: Fetch<K>, exchange: TokenRequest -> Option<map<string, V>>,
    decode: (V, Option<K>) -> Option<map<string, V>>,
    info: map<string, V>, claims: map<string, V>)
    requires exchange(TokenRequestFor(config, code)) == Some(info)
    requires forall k :: k in TokenFields ==> k in info
    requires GetPublicKeys(cache, PublicKeyUrl(config), now, fetch).keys.Success?
    requires decode(info["access_token"], GetPublicKeys(cache, PublicKeyUrl(config), now, fetch).keys.value) == Some(claims)
    requires UsernameField in claims
    ensures var r := ProcessCallback(config, cache, session, code, now, fetch, exchange, decode);
      && r.error.None?
      && r.session == session
           ["access_token" := info["access_token"]]
           ["id_token" := info["id_token"]]
           ["refresh_token" := info["refresh_token"]]
           ["expires_at" := info["expires_at"]]
           [UsernameField := claims[UsernameField]]
      && r.cache == GetPublicKeys(cache, PublicKeyUrl(config), now, fetch).cache
      && r.keyRequest == GetPublicKeys(cache, PublicKeyUrl(config), now, fetch).request
  {
    var r := ProcessCallback(config, cache, session, code, now, fetch, exchange, decode);
    var expected := session
           ["access_token" := info["access_token"]]
           ["id_token" := info["id_token"]]
           ["refresh_token" := info["refresh_token"]]
           ["expires_at" := info["expires_at"]]
           [UsernameField := claims[UsernameField]];
    assert forall k :: k in CallbackFields ==> k in r.session && r.session[k] == expected[k];
    assert forall k :: k !in CallbackFields ==> Agree(r.session, expected, k);
    assert r.session.Keys == expected.Keys;
  }

  /** The session the token copy hands to `StoreClaims` when all four
      fields are present. */
  function CopiedTokens<V>(session: map<string, V>, info: map<string, V>): map<string, V>
    requires forall k :: k in TokenFields ==> k in info
  {
    session
      ["access_token" := info["access_token"]]
      ["id_token" := info["id_token"]]
      ["refresh_token" := info["refresh_token"]]
      ["expires_at" := info["expires_at"]]
  }

  /** The copied session holds the response's four token fields and the
      old username. */
  lemma CopiedTokensHoldResponse<V>(session: map<string, V>, info: map<string, V>)
    requires forall k :: k in TokenFields ==> k in info
    ensures forall k :: k in TokenFields ==>
      k in CopiedTokens(session, info) && CopiedTokens(session, info)[k] == info[k]
    ensures Agree(CopiedTokens(session, info), session, UsernameField)
  {
    CallbackFieldsDistinct();
    assert TokenFields == ["access_token", "id_token", "refresh_token", "expires_at"];
  }

  /** Either a token field is missing and the copy stops there, or all four
      are present and the rest of the callback is `StoreClaims` on the
      session with all four copied. */
  lemma StoreTokensCases<K, V>(
    session: map<string, V>, info: map<string, V>, cache: KeyCache<K>, keysUrl: string, now: int,
    fetch: Fetch<K>, decode: (V, Option<K>) -> Option<map<string, V>>)
    ensures var r := StoreTokens(session, info, cache, keysUrl, now, fetch, decode);
      if forall k :: k in TokenFields ==> k in info then
        r == StoreClaims(CopiedTokens(session, info), cache, keysUrl, now, fetch, decode)
      else
        r.error.Some? && r.error.value.FieldMissing? && r.error.value.field in TokenFields
        && r.cache == cache && r.keyRequest.None?
  {
    assert TokenFields == ["access_token", "id_token", "refresh_token", "expires_at"];
  }

  /** A failure in the key lookup, the decode or the `username` claim
      comes after the copy: all four token fields hold the response's values
      and the username is as it was. */
  lemma LateFailureKeepsTokens<K, V>(
    session: map<string, V>, info: map<string, V>, cache: KeyCache<K>, keysUrl: string, now: int,
    fetch: Fetch<K>, decode: (V, Option<K>) -> Option<map<string, V>>)
    requires var e := StoreTokens(session, info, cache, keysUrl, now, fetch, decode).error;
      e.Some? && (e.value.KeysUnavailable? || e.value == DecodeFailed || e.value == FieldMissing(UsernameField))
    ensures var r := StoreTokens(session, info, cache, keysUrl, now, fetch, decode);
      && (forall k :: k in TokenFields ==> k in info && k in r.session && r.session[k] == info[k])
      && Agree(r.session, session, UsernameField)
  {
    CallbackFieldsDistinct();
    StoreTokensCases(session, info, cache, keysUrl, now, fetch, decode);
    if forall k :: k in TokenFields ==> k in info {
      CopiedTokensHoldResponse(session, info);
    }
  }

  /** What a failed callback leaves in the session. A failed exchange
      writes nothing. A failure in the key lookup, the decode or the
      `username` claim comes after the copy, so all four token fields hold
      the response's values while the username is as it was. */
  lemma CallbackFailuresKeepWrites<K, V>(
    config: AuthConfig, cache: KeyCache<K>, session: map<string, V>, code: string, now: int,
    fetch: Fetch<K>, exchange: TokenRequest -> Option<map<string, V>>,
    decode: (V, Option<K>) -> Option<map<string, V>>)
    ensures var r := ProcessCallback(config, cache, session, code, now, fetch, exchange, decode);
      r.error == Some(ExchangeFailed) ==> r.session == session && r.cache == cache && r.keyRequest.None?
    ensures var r := ProcessCallback(config, cache, session, code, now, fetch, exchange, decode);
      var info := exchange(TokenRequestFor(config, code));
      (|| (r.error.Some? && r.error.value.KeysUnavailable?)
       || r.error == Some(DecodeFailed)
       || r.error == Some(FieldMissing(UsernameField))) ==>
        && info.Some?
        && (forall k :: k in TokenFields ==> k in info.value && k in r.session && r.session[k] == info.value[k])
        && Agree(r.session, session, UsernameField)
  {
    match exchange(TokenRequestFor(config, code))
    case None =>
    case Some(info) =>
      var r := StoreTokens(session, info, cache, PublicKeyUrl(config), now, fetch, decode);
      if r.error.Some? && (r.error.value.KeysUnavailable? || r.error.value == DecodeFailed
                           || r.error.value == FieldMissing(UsernameField)) {
        LateFailureKeepsTokens(session, info, cache, PublicKeyUrl(config), now, fetch, decode);
      }
  }

  /** The callback requests the key set exactly when the exchange answered
      with all four token fields and the cache was not fresh, and then it
      requests the public key URL. */
  lemma KeyRequestSentWhen<K, V>(
    config: AuthConfig, cache: KeyCache<K>, session: map<string, V>, code: string, now: int,
    fetch: Fetch<K>, exchange: TokenRequest -> Option<map<string, V>>,
    decode: (V, Option<K>) -> Option<map<string, V>>)
    ensures var r := ProcessCallback(config, cache, session, code, now, fetch, exchange, decode);
      var info := exchange(TokenRequestFor(config, code));
      r.keyRequest.Some? <==>
        && info.Some?
        && (forall k :: k in TokenFields ==> k in info.value)
        && !IsFresh(cache, now)
    ensures var r := ProcessCallback(config, cache, session, code, now, fetch, exchange, decode);
      r.keyRequest.Some? ==> r.keyRequest == Some(PublicKeyUrl(config))
  {
    match exchange(TokenRequestFor(config, code))
    case None =>
    case Some(info) =>
      StoreTokensCases(session, info, cache, PublicKeyUrl(config), now, fetch, decode);
  }

  /** A token response that lacks `id_token` raises after `access_token` was
      already stored: the session keeps that one write and nothing else. */
  lemma MissingFieldKeepsEarlierWrites<K, V>(
    config: AuthConfig, cache: KeyCache<K>, session: map<string, V>, code: string, now: int,
    fetch: Fetch<K>, exchange: TokenRequest -> Option<map<string, V>>,
    decode: (V, Option<K>) -> Option<map<string, V>>, info: map<string, V>)
    requires exchange(TokenRequestFor(config, code)) == Some(info)
    requires "access_token" in info && "id_token" !in info
    ensures var r := ProcessCallback(config, cache, session, code, now, fetch, exchange, decode);
      && r.error == Some(FieldMissing("id_token"))
      && r.session == session["access_token" := info["access_token"]]
      && r.cache == cache
  {
  }

  /** The token fields are copied in order and the copy stops at the first
      one the response lacks: an error naming `TokenFields[i]` means that
      field is missing while every earlier one is present, the earlier ones
      hold the response's values, and the field itself, the later ones and
      the username are as they were. */
  lemma TokenCopyStopsAtMissingField<K, V>(
    session: map<string, V>, info: map<string, V>, cache: KeyCache<K>, keysUrl: string, now: int,
    fetch: Fetch<K>, decode: (V, Option<K>) -> Option<map<string, V>>, i: nat)
    requires i < |TokenFields|
    requires StoreTokens(session, info, cache, keysUrl, now, fetch, decode).error == Some(FieldMissing(TokenFields[i]))
    ensures var r := StoreTokens(session, info, cache, keysUrl, now, fetch, decode);
      && TokenFields[i] !in info
      && (forall j :: 0 <= j < i ==>
            TokenFields[j] in info && TokenFields[j] in r.session && r.session[TokenFields[j]] == info[TokenFields[j]])
      && (forall j :: i <= j < |TokenFields| ==> Agree(r.session, session, TokenFields[j]))
      && Agree(r.session, session, UsernameField)
      && r.cache == cache
      && r.keyRequest.None?
  {
    CallbackFieldsDistinct();
    assert TokenFields == ["access_token", "id_token", "refresh_token", "expires_at"];
  }

  /** Conversely, when the first token field the response lacks is
      `TokenFields[i]`, the copy raises naming exactly that field. */
  lemma FirstMissingFieldIsReported<K, V>(
    session: map<string, V>, info: map<string, V>, cache: KeyCache<K>, keysUrl: string, now: int,
    fetch: Fetch<K>, decode: (V, Option<K>) -> Option<map<string, V>>, i: nat)
    requires i < |TokenFields|
    requires forall j :: 0 <= j < i ==> TokenFields[j] in info
    requires TokenFields[i] !in info
    ensures StoreTokens(session, info, cache, keysUrl, now, fetch, decode).error == Some(FieldMissing(TokenFields[i]))
  {
    assert TokenFields == ["access_token", "id_token", "refresh_token", "expires_at"];
    if i >= 1 { assert TokenFields[0] in info; }
    if i >= 2 { assert TokenFields[1] in info; }
    if i >= 3 { assert TokenFields[2] in info; }
  }

  /** `get_username`: a stub that always answers "". */
  function GetUsername<V>(session: map<string, V>): string {
    ""
  }

  /** `set_redirect`: a stub that stores nothing. */
  function SetRedirect<V>(session: map<string, V>, uri: string): map<string, V> {
    session
  }

  /** `get_redirect`: a stub that always answers "". */
  function GetRedirect<V>(session: map<string, V>): string {
    ""
  }

  /** In this version a redirect target is never remembered: setting one
      leaves the session as it was, and reading one back gives "". */
  lemma RedirectIsNotRemembered<V>(session: map<string, V>, uri: string)
    ensures SetRedirect(session, uri) == session
    ensures GetRedirect(SetRedirect(session, uri)) == ""
  {
  }

  /** The username a successful callback stores is not what `get_username`
      reports: the stub does not read the session. */
  lemma UsernameIsNotReadBack<K, V>(
    config: AuthConfig, cache: KeyCache<K>, session: map<string, V>, code: string, now: int,
    fetch: Fetch<K>, exchange: TokenRequest -> Option<map<string, V>>,
    decode: (V, Option<K>) -> Option<map<string, V>>)
    requires ProcessCallback(config, cache, session, code, now, fetch, exchange, decode).error.None?
    ensures var r := ProcessCallback(config, cache, session, code, now, fetch, exchange, decode);
      UsernameField in r.session && GetUsername(r.session) == ""
  {
  }
}
