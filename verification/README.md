# spp-cognito-auth in Dafny

A Dafny model of the core of `spp_cognito_auth`, a small Python library that
lets a Flask application log users in through an AWS Cognito hosted login
page. This early version of the library has three pieces of logic, and the
model covers all three:

- **URL normalisation.** `fix_url` puts `https://` in front of a host that
  lacks an `http://` or `https://` scheme (`utils.dfy`, module `Utils`).
- **Settings.** `AuthConfig` is an immutable record with a default list of
  five OAuth2 scopes (`config.dfy`, module `Config`).
- **The `Auth` class.**
  - It builds the login, key-set and token URLs (`auth_urls.dfy`, module
    `AuthUrls`).
  - It caches the identity provider's JSON Web Key Set with an expiry taken
    from `Cache-Control: max-age` (`jwks_cache.dfy`, module `Jwks`).
  - It handles the OAuth2 callback by writing the tokens and the username
    into the session (`auth_session.dfy`, module `AuthSession`).

Supporting modules: `Wrappers` holds `Option` and `Result`. `Strings` holds
prefix and suffix tests, Python's `sep.join` and `s.split(sep)`, and the
round-trip lemmas between them.

The model is functional. Everything outside the library becomes an input:
- the clock is an integer number of seconds;
- the key-set HTTP response is a value (`Jwks.Fetch`) with its parsed
  `max-age`;
- the OAuth2 token exchange and the JWT decoder are function parameters;
- the session is a `map<string, V>` passed in and returned.

Where the Python code raises, the model returns an error value. Writes the
code made before the exception stay visible in the returned state. There are
two exceptions, both listed under "## Left out": the corrected key lookup used
by the callback, and the `OverflowError` of an enormous `max-age`.

Where the code and the library's documented design disagree, the model
follows the code, except for the one bug recorded under "## Findings":
- A cached key set is reused only while `now < expires_at`. The code refetches
  when `expires_at <= now`, so at equality it refetches.
- This version has no anti-forgery state, no roles, and no `logged_in`,
  `logout` or `logout_url`. The callback stores only the four token fields
  and the username.
- Settings are stored exactly as given. `fix_url` is applied only when a URL
  is built.
- `tests/test_config.py` calls `AuthConfig.from_env` and passes
  `cognito_state`. Neither exists in `config.py`, so neither is modelled.
- `tests/test_blueprint.py` expects `set_redirect` and `get_redirect` to keep
  a value. In this version both are stubs, and the model says so.

## Model

| member | source | states |
|---|---|---|
| `Utils.FixUrl` | spp_cognito_auth/utils.py:4-7 | the result always starts with `http://` or `https://` and ends with the input; it equals the input exactly when the input already had one of those schemes; otherwise it is the input with `https://` (8 characters) in front |
| `Utils.SchemePatternIsPrefixTest` | spp_cognito_auth/utils.py:5 | matching `(?:http\|https)://` at position 0 with `re.match` is the same as a case-sensitive test for either prefix, in both directions |
| `Utils.FixUrlIdempotent` | spp_cognito_auth/utils.py:4-7 | normalising an already normalised URL changes nothing |
| `Utils.FixUrlShape` | spp_cognito_auth/utils.py:5-7 | the result is the input or `https://` followed by the input, so the length grows by 0 or 8 |
| `Utils.FixUrlOtherSchemes` | spp_cognito_auth/utils.py:5 | `ftp://x` and the upper-case `HTTPS://x` are not recognised and get `https://` prepended |
| `Utils.FixUrlTestCases` | tests/test_utils.py:4-13 | `http://google.com` and `https://google.com` are kept and `google.com` becomes `https://google.com` |
| `Strings.SplitJoin` | spp_cognito_auth/auth.py:27 | splitting the `+`-joined scopes at `+` gives back every scope once, in order, when the list is non-empty and no scope contains `+` |
| `Strings.JoinSplit` | spp_cognito_auth/auth.py:27 | joining the pieces of any string split at a separator restores the string |
| `Config.NewAuthConfig` | spp_cognito_auth/config.py:13-20 | the five string settings are stored exactly as given; omitted scopes become the default list and given scopes are stored unchanged |
| `Config.DefaultScopesAreQuerySafe` | spp_cognito_auth/config.py:4-10 | the default scope list has five distinct names, none containing `+`, `&` or `=` |
| `AuthUrls.DefaultScopeSegment` | spp_cognito_auth/config.py:4-10 | with the default scopes the scope parameter is `aws.cognito.signin.user.admin+email+openid+phone+profile` |
| `AuthUrls.LoginUrl` | spp_cognito_auth/auth.py:22-29 | the login URL begins with the normalised Cognito domain followed by `/login?` |
| `AuthUrls.LoginUrlStructure` | spp_cognito_auth/auth.py:22-29 | the login URL is the normalised domain, `/login`, `?`, then `client_id`, `response_type=code`, `scope` and `redirect_uri` in that order, joined by `&` |
| `AuthUrls.LoginQueryRoundTrip` | spp_cognito_auth/auth.py:25-28 | reading the query back gives the client id, `code`, every scope in order and the callback URL, provided no value contains `&` and no scope contains `+` |
| `AuthUrls.LoginUrlRoundTrip` | spp_cognito_auth/auth.py:22-29 | reading a whole login URL back gives the normalised domain and all four parameters, under the same conditions and with no `?` in the domain |
| `AuthUrls.ScopesAreNotEncoded` | spp_cognito_auth/auth.py:27 | nothing is URL-encoded: the scope lists `["a+b"]` and `["a", "b"]` give the same login URL |
| `AuthUrls.PublicKeyUrl` | spp_cognito_auth/auth.py:31-32 | the key-set URL starts with the normalised Cognito endpoint and ends with `/.well-known/jwks.json`, with nothing in between |
| `AuthUrls.TokenUrl` | spp_cognito_auth/auth.py:34-35 | the token URL starts with the normalised Cognito domain and ends with `/oauth2/token`, with nothing in between |
| `AuthUrls.NormalisedSettingsGiveSameUrls` | spp_cognito_auth/auth.py:22-35 | storing the domain and endpoint already normalised changes none of the URLs |
| `AuthUrls.LoginAndTokenShareBase` | spp_cognito_auth/auth.py:22-35 | the login URL and the token URL both begin with the normalised Cognito domain |
| `AuthUrls.UrlTestCases` | tests/test_auth.py:12-18 | for the unit-test settings, which already carry `https://`, the key-set and token URLs are built on the settings unchanged |
| `AuthUrls.LoginUrlTestCase` | tests/test_auth.py:2-9 | for the unit-test settings the login URL is the domain unchanged, `/login?`, `client_id=test-client-id`, `response_type=code`, the five default scopes joined by `+`, and the callback URL |
| `AuthUrls.DefaultConfigRoundTrips` | spp_cognito_auth/auth.py:22-29 | with the default scopes, a login URL reads back to the normalised domain, the client id, the five default scopes in order and the callback URL, whenever the domain has no `?` and the client id and callback URL have no `&` |
| `Jwks.GetPublicKeysAsWritten` | spp_cognito_auth/auth.py:55-66 | the code as written: a request goes out exactly when the cache is not fresh, and it goes to the key-set URL; on a hit the cache and the returned keys are the cached ones; a request that raises changes nothing; any response sets the expiry to `receivedAt + max-age`; a JSON body is stored and returned; a body that is not JSON raises and keeps the old keys |
| `Jwks.AsWrittenAgreesUnlessNotJson` | spp_cognito_auth/auth.py:55-66 | unless a response arrives whose body is not JSON, the code as written and the corrected lookup give the same keys, cache and request, so every property proved of the corrected lookup holds of the code on those inputs |
| `Jwks.AsWrittenDiffersOnlyInExpiry` | spp_cognito_auth/auth.py:64-65 | on a stale cache and a body that is not JSON, both raise the same error; the corrected lookup keeps the cache, while the code as written keeps the old keys with the new expiry |
| `Jwks.AsWrittenServesStaleKeysAfterFailedRefresh` | spp_cognito_auth/auth.py:64-65 | as written, a stale cache whose refresh gets a non-JSON body raises, yet it is fresh afterwards and the next call returns the old keys without a request |
| `Jwks.GetPublicKeys` | spp_cognito_auth/auth.py:55-66 | a request goes out exactly when the keys or the expiry are unset or `expires_at <= now`, and it goes to the key-set URL; a hit returns the cached keys and changes nothing; a successful fetch stores and returns the parsed body with expiry `receivedAt + max-age`; a failed fetch raises and leaves the cache as it was |
| `Jwks.FreshnessComesFromFetch` | spp_cognito_auth/auth.py:56-66 | if the cache is fresh at any reading after a call, then the call either hit an already fresh cache or fetched successfully and holds exactly the fetched document |
| `Jwks.FirstCallFetches` | spp_cognito_auth/auth.py:19-20 | a new `Auth` holds no keys, so its first lookup always fetches |
| `Jwks.ExpiryFollowsMaxAge` | spp_cognito_auth/auth.py:59-64 | after a fetch, later lookups hit strictly before `receivedAt + max-age` and fetch again from that reading on |
| `Jwks.NoMaxAgeMeansNoReuse` | spp_cognito_auth/auth.py:63-64 | without `max-age` the expiry defaults to 0 seconds, so every lookup at a non-decreasing clock reading fetches again |
| `Jwks.NullDocumentNeverCached` | spp_cognito_auth/auth.py:56-65 | a key-set body that parses to JSON `null` leaves the token unset, so the next lookup fetches again |
| `Jwks.HitsAreStable` | spp_cognito_auth/auth.py:56-66 | while the cache stays fresh, repeated lookups make no request and return the same keys |
| `AuthSession.ProcessCallback` | spp_cognito_auth/auth.py:37-53 | the token request (`AuthUrls.TokenRequestFor`, which models `get_auth_token`) carries the token URL, `authorization_code`, the code and the callback URL; no session key outside the five callback fields changes; keys are looked up only after all four token fields are stored; a key-set request, if sent, goes to the public key URL; on success the token fields come from the response and the username is the claim of the access token, decoded with the cached keys |
| `AuthSession.StoreTokens` | spp_cognito_auth/auth.py:39-45 | the four token fields are written in order and a missing one raises `KeyError` before any key lookup or request; no session key outside the five callback fields changes; on success all four token fields equal the response's values |
| `AuthSession.StoreClaims` | spp_cognito_auth/auth.py:44-45 | the cache is always the one the key lookup leaves; a request goes to the key-set URL exactly when the cache is not fresh; on failure the session is untouched; on success the stored access token decoded with the looked-up keys yields claims with a `username`, and exactly that session entry is set to it |
| `AuthSession.CallbackSucceedsWhen` | spp_cognito_auth/auth.py:37-45 | when the exchange returns all four fields, the keys are available, the token decodes and its claims carry a username, the callback succeeds; the session is then the old one with exactly those five fields overwritten |
| `AuthSession.StoreTokensCases` | spp_cognito_auth/auth.py:39-45 | either some token field is missing and the callback stops with that error, no request and the cache untouched, or all four are present and the rest is the key lookup and decode on the session with all four copied |
| `AuthSession.LateFailureKeepsTokens` | spp_cognito_auth/auth.py:39-45 | after a successful exchange, a failure in the key lookup, the decode or the `username` claim leaves all four token fields holding the response's values and the username as before |
| `AuthSession.CallbackFailuresKeepWrites` | spp_cognito_auth/auth.py:37-45 | a failed exchange leaves session and cache untouched and sends no key request; a failure in the key lookup, the decode or the `username` claim leaves all four token fields holding the response's values and the username as before |
| `AuthSession.KeyRequestSentWhen` | spp_cognito_auth/auth.py:37-61 | the callback requests the key set exactly when the exchange returned all four token fields and the cache was not fresh, and the request goes to the public key URL |
| `AuthSession.TokenCopyStopsAtMissingField` | spp_cognito_auth/auth.py:39-42 | an error naming the `i`-th token field means that field is missing and every earlier one present; the earlier fields hold the response's values, while that field, the later ones and the username are as before, and the key cache is untouched |
| `AuthSession.FirstMissingFieldIsReported` | spp_cognito_auth/auth.py:39-42 | when the first token field the response lacks is the `i`-th, the callback raises naming exactly that field |
| `AuthSession.MissingFieldKeepsEarlierWrites` | spp_cognito_auth/auth.py:39-40 | a response without `id_token` raises after `access_token` was written; the session keeps that one write and the key cache is untouched |
| `AuthSession.RedirectIsNotRemembered` | spp_cognito_auth/auth.py:71-75 | `set_redirect` stores nothing, so `get_redirect` afterwards still answers "" |
| `AuthSession.UsernameIsNotReadBack` | spp_cognito_auth/auth.py:68-69 | after a successful callback the session holds a username, but `get_username` still answers "" |

## Findings

| source | as written | input that shows it | evidently intended | confidence | as-written member | corrected member |
|---|---|---|---|---|---|---|
| spp_cognito_auth/auth.py:64-65 | The new `expires_at` is assigned before `resp.json()` parses the body. A body that is not JSON raises after the expiry has already moved forward. | The cache holds keys `k` that expired at 100. At clock 200 the response carries `max-age=3600` and a body that is not JSON. The call raises. The cache is now fresh until 3800, and a call at 201 returns the old `k` without a request. | Both fields change together or not at all. A failed refresh leaves the cache stale, so the next call tries again. | medium, not executed | `Jwks.GetPublicKeysAsWritten` (counterexample: `Jwks.AsWrittenServesStaleKeysAfterFailedRefresh`) | `Jwks.GetPublicKeys` (property: `Jwks.FreshnessComesFromFetch`) |

## Left out

- `spp_cognito_auth/blueprint.py`: this is Flask route registration. It calls `validate_state`, `logout` and `logout_url`, which this version of `Auth` does not define.
- `spp_cognito_auth/decorator.py`: `requires_auth` returns the wrapped function unchanged and has no logic.
- The HTTP GET for the key set: its target is recorded as `Jwks.Lookup.request` and its outcome is the input `Jwks.Fetch`. A request that raises is `NoResponse`.
- `OAuth2Session.fetch_token` and `jwt.decode`: these are the parameters `exchange` and `decode`. Returning `None` means the call raised. `decode` stands for `jwt.decode`, which checks the signature. This version never calls `claims.validate()`, so token expiry is not checked, and an expired access token is stored.
- `CacheController.parse_cache_control`: its result is `Response.maxAge`. `None` means no usable `max-age`. Negative and fractional values are not modelled.
- `Jwks.GetPublicKeys`, `Jwks.GetPublicKeysAsWritten`: the clock is unbounded, so a `max-age` large enough to move the expiry past year 9999 (about 2.5e11 seconds) is stored. The code raises `OverflowError` at auth.py:64 before either field is assigned; the model does not have that error path.
- `AuthSession.ProcessCallback`: its key lookup is the corrected `Jwks.GetPublicKeys`, not the code as written. On a stale cache whose refresh gets a non-JSON body, the code leaves the new expiry with the old keys; the model leaves the cache unchanged. Both raise the same error. `Jwks.AsWrittenAgreesUnlessNotJson` shows the two lookups agree on every other input, and `Jwks.AsWrittenDiffersOnlyInExpiry` states the difference.
- `AuthSession.StoreClaims`: the same corrected key lookup as `AuthSession.ProcessCallback`, with the same difference from the code.
- `datetime.now()` and `timedelta`: the clock is integer seconds. The code reads the clock twice, once in the freshness test and once to set the expiry. These are the inputs `now` and `receivedAt`. Properties that need a non-decreasing clock require it explicitly.
- Concurrency: the key cache has no lock. A shared `Auth` used by concurrent requests can interleave lookups, and the model does not cover that.
- `AuthSession.GetUsername`, `AuthSession.SetRedirect` and `AuthSession.GetRedirect` are stubs, modelled as constant functions. They have no contract of their own; the lemmas above state their behaviour.
- `Config.NewAuthConfig`: Python's `default_factory` hands every config the same `DEFAULT_SCOPES` list object, so mutating one config's scopes changes the default. Immutable sequences cannot show this. An explicit `cognito_scopes=None` is also not distinguished from an omitted argument.
- A session object that is not a mapping is not modelled. The unit tests pass `None`, and writing to it would raise `TypeError`.
- `setup.py`, `tests/conftest.py` and `tests/helpers.py` are packaging and test setup with no logic.
