/** The library's settings record (`AuthConfig`). */
module Config {
  import opened Wrappers

  /** The scopes requested when the application names none, in this order. */
  const DefaultScopes: seq<string> := [
    "aws.cognito.signin.user.admin",
    "email",
    "openid",
    "phone",
    "profile"
  ]

  /** An immutable settings record. The URL fields are kept exactly as given;
      scheme normalisation happens only where a URL is built. */
  datatype AuthConfig = AuthConfig(
    clientId: string,
    clientSecret: string,
    callbackUrl: string,
    cognitoDomain: string,
    cognitoEndpoint: string,
    cognitoScopes: seq<string>)

  /** The dataclass constructor; `scopes == None` means the argument was
      omitted, so the default list is used. */
  function NewAuthConfig(
    clientId: string,
    clientSecret: string,
    callbackUrl: string,
    cognitoDomain: string,
    cognitoEndpoint: string,
    scopes: Option<seq<string>>): (config: AuthConfig)
    ensures config.clientId == clientId && config.clientSecret == clientSecret
    ensures config.callbackUrl == callbackUrl
    ensures config.cognitoDomain == cognitoDomain && config.cognitoEndpoint == cognitoEndpoint
    ensures scopes.None? ==> config.cognitoScopes == DefaultScopes
    ensures scopes.Some? ==> config.cognitoScopes == scopes.value
  {
    AuthConfig(clientId, clientSecret, callbackUrl, cognitoDomain, cognitoEndpoint,
      scopes.GetOr(DefaultScopes))
  }

  /** The default scopes are five distinct names, none holding a character
      that has a meaning inside a query string. */
  lemma DefaultScopesAreQuerySafe()
    ensures |DefaultScopes| == 5
    ensures forall i, j :: 0 <= i < j < |DefaultScopes| ==> DefaultScopes[i] != DefaultScopes[j]
    ensures forall i :: 0 <= i < |DefaultScopes| ==>
      '+' !in DefaultScopes[i] && '&' !in DefaultScopes[i] && '=' !in DefaultScopes[i]
  {
  }
}
