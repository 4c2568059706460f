/** The URLs the `Auth` class builds from its settings, and the request it
    sends to the token endpoint. */
module AuthUrls {
  import opened Wrappers
  import opened Strings
  import opened Utils
  import opened Config

  const LoginPath: string := "/login"
  const JwksPath: string := "/.well-known/jwks.json"
  const TokenPath: string := "/oauth2/token"

  /** `login_url`: the hosted login page of the identity provider, with the
      client id, the response type, the scopes joined by `+` and the callback
      URL substituted literally into the query. */
  function LoginUrl(config: AuthConfig): (url: string)
    ensures StartsWith(url, FixUrl(config.cognitoDomain) + LoginPath + "?")
  {
    var base := FixUrl(config.cognitoDomain) + LoginPath + "?";
    var url := base
      + Parameter("client_id", config.clientId) + "&"
      + Parameter("response_type", "code") + "&"
      + Parameter("scope", Join('+', config.cognitoScopes)) + "&"
      + Parameter("redirect_uri", config.callbackUrl);
    assert url[..|base|] == base;
    url
  }

  /** `public_key_url`: where the identity provider publishes its key set. */
  function PublicKeyUrl(config: AuthConfig): (url: string)
    ensures StartsWith(url, FixUrl(config.cognitoEndpoint))
    ensures EndsWith(url, JwksPath)
    ensures |url| == |FixUrl(config.cognitoEndpoint)| + |JwksPath|
  {
    var base := FixUrl(config.cognitoEndpoint);
    var url := base + JwksPath;
    assert url[..|base|] == base && url[|base|..] == JwksPath;
    url
  }

  /** `token_url`: the identity provider's token endpoint. */
  function TokenUrl(config: AuthConfig): (url: string)
    ensures StartsWith(url, FixUrl(config.cognitoDomain))
    ensures EndsWith(url, TokenPath)
    ensures |url| == |FixUrl(config.cognitoDomain)| + |TokenPath|
  {
    var base := FixUrl(config.cognitoDomain);
    var url := base + TokenPath;
    assert url[..|base|] == base && url[|base|..] == TokenPath;
    url
  }

  /** The arguments `get_auth_token` hands to the OAuth2 client's
      `fetch_token`. */
  datatype TokenRequest = TokenRequest(
    url: string,
    grantType: string,
    code: string,
    authorizationResponse: string)

  function TokenRequestFor(config: AuthConfig, code: string): TokenRequest {
    TokenRequest(TokenUrl(config), "authorization_code", code, config.callbackUrl)
  }

  /** What a reader of a login URL recovers from its query string. */
  datatype LoginRequest = LoginRequest(
    clientId: string,
    responseType: string,
    scopes: seq<string>,
    redirectUri: string)

  /** Reads the query of a login URL back: exactly the four parameters in
      the order `login_url` writes them, each cut at its first `=`. */
  function ParseLoginQuery(query: string): Option<LoginRequest> {
    var parts := Split('&', query);
    if |parts| != 4 then None
    else
      var clientId := SplitOnce('=', parts[0]);
      var responseType := SplitOnce('=', parts[1]);
      var scope := SplitOnce('=', parts[2]);
      var redirect := SplitOnce('=', parts[3]);
      if clientId.0 == "client_id" && responseType.0 == "response_type"
        && scope.0 == "scope" && redirect.0 == "redirect_uri"
      then Some(LoginRequest(clientId.1, responseType.1, Split('+', scope.1), redirect.1))
      else None
  }

  /** Reads a login URL back: the text before the first `?` must end in
      `/login`, and the rest must be a login query. Yields the base URL and
      the parameters. */
  function ParseLoginUrl(url: string): (parsed: Option<(string, LoginRequest)>)
    ensures parsed.Some? ==> '?' !in parsed.value.0
  {
    var (path, query) := SplitOnce('?', url);
    if !EndsWith(path, LoginPath) then None
    else
      match ParseLoginQuery(query)
      case None => None
      case Some(request) =>
        var base := path[..|path| - |LoginPath|];
        assert path == base + path[|base|..];
        Some((base, request))
  }

  /** The query parameters of a login URL, each written `name=value`. */
  function LoginParameters(config: AuthConfig): seq<string> {
    [ Parameter("client_id", config.clientId),
      Parameter("response_type", "code"),
      Parameter("scope", Join('+', config.cognitoScopes)),
      Parameter("redirect_uri", config.callbackUrl) ]
  }

  /** One query parameter, written `name=value` with nothing encoded. */
  function Parameter(name: string, value: string): string {
    name + "=" + value
  }

  /** A login URL is the login path under the normalised domain, `?`, and the
      four parameters joined by `&`. */
  lemma LoginUrlStructure(config: AuthConfig)
    ensures LoginUrl(config)
      == FixUrl(config.cognitoDomain) + LoginPath + ['?'] + Join('&', LoginParameters(config))
  {
    var ps := LoginParameters(config);
    var base := FixUrl(config.cognitoDomain);
    JoinFour('&', ps[0], ps[1], ps[2], ps[3]);
    assert ps == [ps[0], ps[1], ps[2], ps[3]];
    PrefixedFour(FixUrl(config.cognitoDomain) + LoginPath + "?", '&', ps[0], ps[1], ps[2], ps[3]);
  }

  /** The parameters hold no `&`, so splitting their join at `&` gives them back. */
  lemma LoginParametersSplit(config: AuthConfig)
    requires '&' !in config.clientId && '&' !in config.callbackUrl
    requires forall i :: 0 <= i < |config.cognitoScopes| ==> '&' !in config.cognitoScopes[i]
    ensures Split('&', Join('&', LoginParameters(config))) == LoginParameters(config)
  {
    var ps := LoginParameters(config);
    JoinAvoids('+', '&', config.cognitoScopes);
    assert '&' !in ps[0] && '&' !in ps[1] && '&' !in ps[2] && '&' !in ps[3];
    SplitJoin('&', ps);
  }

  /** Each of the four parameters is cut back into its name and value. */
  lemma LoginParametersParse(config: AuthConfig)
    ensures var ps := LoginParameters(config);
      && SplitOnce('=', ps[0]) == ("client_id", config.clientId)
      && SplitOnce('=', ps[1]) == ("response_type", "code")
      && SplitOnce('=', ps[2]) == ("scope", Join('+', config.cognitoScopes))
      && SplitOnce('=', ps[3]) == ("redirect_uri", config.callbackUrl)
  {
    ParameterNamesHaveNoEquals();
    ParameterParses("client_id", config.clientId);
    ParameterParses("response_type", "code");
    ParameterParses("scope", Join('+', config.cognitoScopes));
    ParameterParses("redirect_uri", config.callbackUrl);
  }

  /** The query half of the round trip: the parameters come back as written,
      given no `&` in a value and no `+` in a scope. */
  lemma {:induction false} LoginQueryRoundTrip(config: AuthConfig)
    requires '&' !in config.clientId && '&' !in config.callbackUrl
    requires |config.cognitoScopes| >= 1
    requires forall i :: 0 <= i < |config.cognitoScopes| ==>
      '+' !in config.cognitoScopes[i] && '&' !in config.cognitoScopes[i]
    ensures ParseLoginQuery(Join('&', LoginParameters(config)))
      == Some(LoginRequest(config.clientId, "code", config.cognitoScopes, config.callbackUrl))
  {
    LoginParametersSplit(config);
    LoginParametersParse(config);
    SplitJoin('+', config.cognitoScopes);
  }

  /** None of the four parameter names contains `=`. */
  lemma ParameterNamesHaveNoEquals()
    ensures '=' !in "client_id" && '=' !in "response_type" && '=' !in "scope" && '=' !in "redirect_uri"
  {
  }

  /** One `name=value` parameter is cut back into its name and value. */
  lemma ParameterParses(name: string, value: string)
    requires '=' !in name
    ensures SplitOnce('=', Parameter(name, value)) == (name, value)
  {
    SplitOnceAtSeparator('=', name, value);
  }

  /** Reading a login URL back recovers the normalised domain, the client id,
      the response type, every scope in its original order and the callback
      URL — provided no value holds a character that would need URL-encoding
      (`?` in the domain, `&` in any value, `+` in a scope), because none is
      encoded, and the scope list is not empty. */
  lemma {:induction false} LoginUrlRoundTrip(config: AuthConfig)
    requires '?' !in config.cognitoDomain
    requires '&' !in config.clientId && '&' !in config.callbackUrl
    requires |config.cognitoScopes| >= 1
    requires forall i :: 0 <= i < |config.cognitoScopes| ==>
      '+' !in config.cognitoScopes[i] && '&' !in config.cognitoScopes[i]
    ensures ParseLoginUrl(LoginUrl(config))
      == Some((FixUrl(config.cognitoDomain),
               LoginRequest(config.clientId, "code", config.cognitoScopes, config.callbackUrl)))
  {
    var base := FixUrl(config.cognitoDomain);
    var query := Join('&', LoginParameters(config));
    var path := base + LoginPath;
    LoginUrlStructure(config);
    assert '?' !in base by {
      if base != config.cognitoDomain {
        assert base == HttpsScheme + config.cognitoDomain;
      }
    }
    assert '?' !in path;
    SplitOnceAtSeparator('?', path, query);
    assert path[|path| - |LoginPath|..] == LoginPath;
    assert path[..|path| - |LoginPath|] == base;
    LoginQueryRoundTrip(config);
  }

  /** Nothing is encoded, so a scope holding `+` cannot be told apart from two
      scopes: these two settings produce the same login URL. */
  lemma ScopesAreNotEncoded(config: AuthConfig)
    ensures LoginUrl(config.(cognitoScopes := ["a+b"]))
         == LoginUrl(config.(cognitoScopes := ["a", "b"]))
  {
    assert Join('+', ["a", "b"]) == "a+b";
  }

  /** Storing the domain and endpoint already normalised changes no URL. */
  lemma NormalisedSettingsGiveSameUrls(config: AuthConfig)
    ensures var normalised := config.(cognitoDomain := FixUrl(config.cognitoDomain),
                                      cognitoEndpoint := FixUrl(config.cognitoEndpoint));
      && LoginUrl(normalised) == LoginUrl(config)
      && PublicKeyUrl(normalised) == PublicKeyUrl(config)
      && TokenUrl(normalised) == TokenUrl(config)
      && TokenRequestFor(normalised, "").url == TokenRequestFor(config, "").url
  {
    FixUrlIdempotent(config.cognitoDomain);
    FixUrlIdempotent(config.cognitoEndpoint);
  }

  /** The login page and the token endpoint live under the same origin. */
  lemma LoginAndTokenShareBase(config: AuthConfig)
    ensures var base := FixUrl(config.cognitoDomain);
      StartsWith(LoginUrl(config), base) && StartsWith(TokenUrl(config), base)
  {
    var base := FixUrl(config.cognitoDomain);
    var login := LoginUrl(config);
    assert login[..|base|] == login[..|base + LoginPath + "?"|][..|base|];
  }

  /** The settings used by the library's unit tests. */
  function TestConfig(): AuthConfig {
    NewAuthConfig("test-client-id", "test-client-secret",
      "http://test-app-host.test.com/auth/callback",
      "https://test-cognito-domain.test.com",
      "https://test-cognito-endpoint.test.com", None)
  }

  /** With the default scopes the scope parameter lists the five names in
      order, separated by `+`. */
  lemma DefaultScopeSegment()
    ensures Join('+', DefaultScopes) ==
      "aws.cognito.signin.user.admin" + "+" + "email" + "+" + "openid" + "+" + "phone" + "+" + "profile"
  {
    var ds := DefaultScopes;
    assert Join('+', ds[4..]) == ds[4];
    assert Join('+', ds[3..]) == ds[3] + "+" + ds[4];
    assert Join('+', ds[2..]) == ds[2] + "+" + ds[3] + "+" + ds[4];
    assert Join('+', ds[1..]) == ds[1] + "+" + ds[2] + "+" + ds[3] + "+" + ds[4];
  }

  /** The test settings already carry a scheme, so the key-set and token
      URLs are built on them unchanged. */
  lemma UrlTestCases()
    ensures PublicKeyUrl(TestConfig()) == "https://test-cognito-endpoint.test.com" + "/.well-known/jwks.json"
    ensures TokenUrl(TestConfig()) == "https://test-cognito-domain.test.com" + "/oauth2/token"
  {
    var config := TestConfig();
    assert config.cognitoDomain[..8] == HttpsScheme;
    assert config.cognitoEndpoint[..8] == HttpsScheme;
  }

  /** The login URL of the test settings: the domain unchanged, `/login?`,
      then the client id, `response_type=code`, the five default scopes
      joined by `+` and the callback URL. */
  lemma LoginUrlTestCase()
    ensures LoginUrl(TestConfig()) ==
      "https://test-cognito-domain.test.com" + "/login" + "?"
      + Parameter("client_id", "test-client-id") + "&"
      + Parameter("response_type", "code") + "&"
      + Parameter("scope", "aws.cognito.signin.user.admin" + "+" + "email" + "+" + "openid" + "+" + "phone" + "+" + "profile") + "&"
      + Parameter("redirect_uri", "http://test-app-host.test.com/auth/callback")
  {
    var config := TestConfig();
    assert config.cognitoDomain[..8] == HttpsScheme;
    DefaultScopeSegment();
  }

  /** With the default scopes, any domain without `?` and any client id and
      callback URL without `&` give a login URL that reads back to the
      normalised domain, the client id, the five default scopes in order and
      the callback URL. */
  lemma DefaultConfigRoundTrips(clientId: string, clientSecret: string, callbackUrl: string,
                                cognitoDomain: string, cognitoEndpoint: string)
    requires '?' !in cognitoDomain
    requires '&' !in clientId && '&' !in callbackUrl
    ensures var config := NewAuthConfig(clientId, clientSecret, callbackUrl, cognitoDomain, cognitoEndpoint, None);
      ParseLoginUrl(LoginUrl(config))
        == Some((FixUrl(cognitoDomain), LoginRequest(clientId, "code", DefaultScopes, callbackUrl)))
  {
    DefaultScopesAreQuerySafe();
    LoginUrlRoundTrip(NewAuthConfig(clientId, clientSecret, callbackUrl, cognitoDomain, cognitoEndpoint, None));
  }
}
