/** What the Jira and Zoom OAuth clients share: the two grant requests of the OAuth 2.0
    authorization framework (RFC 6749) and the adapters' test for when to refresh. */
module OAuth {
  import opened Wrappers
  import opened Transport
  import opened DateTimeUtils
  import opened Tokens

  /** Client credentials and the registered redirect URI, read from the environment. */
  datatype OAuthConfig = OAuthConfig(clientId: string, clientSecret: string, redirectUri: string)

  /** A string parameter of a request body, whether it is sent as JSON or as a form. */
  function Param(body: Body, key: string): Option<string> {
    match body
    case NoBody => None
    case FormBody(form) => if key in form then Some(form[key]) else None
    case JsonBody(j) =>
      if j.JObj? && key in j.fields && j.fields[key].JStr? then Some(j.fields[key].s) else None
  }

  /** An access token request for an authorization code (section 4.1.3 of RFC 6749): a POST with
      grant type `authorization_code`, the code and the redirect URI. */
  predicate IsCodeGrant(req: HttpRequest, tokenUrl: string, code: string, redirectUri: string) {
    req.verb == HttpPost && req.url == tokenUrl
    && Param(req.body, "grant_type") == Some("authorization_code")
    && Param(req.body, "code") == Some(code)
    && Param(req.body, "redirect_uri") == Some(redirectUri)
  }

  /** A refresh request (section 6 of RFC 6749): a POST with grant type `refresh_token` and the
      refresh token held by the client. */
  predicate IsRefreshGrant(req: HttpRequest, tokenUrl: string, refreshToken: string) {
    req.verb == HttpPost && req.url == tokenUrl
    && Param(req.body, "grant_type") == Some("refresh_token")
    && Param(req.body, "refresh_token") == Some(refreshToken)
  }

  /** The adapters' test before each use of the access token: the cached token is used only when
      an expiry is stored and it has not passed; a stored expiry that does not parse raises. */
  function RefreshDue(t: TokenData, now: Instant): (r: Result<bool>)
    ensures r.Failure? <==> t.expiryDate.Some? && Parse(t.expiryDate.value).Failure?
    ensures r == Success(false) <==>
      (t.expiryDate.Some? && Parse(t.expiryDate.value).Success? && !AtOrBefore(Parse(t.expiryDate.value).value, now))
  {
    if t.expiryDate.None? then Success(true) else IsAccessTokenExpired(t, now)
  }

  /** A token without expiry is always refreshed; one stamped with the current instant as well. */
  lemma RefreshDueWithoutExpiry(access: Option<string>, refresh: Option<string>, now: Instant)
    ensures RefreshDue(TokenData(access, refresh, None), now) == Success(true)
    ensures RefreshDue(TokenData(access, refresh, Some(Format(now))), now) == Success(true)
  {
    ExpiredAtExpiryInstant(access, refresh, now);
  }

  /** A token just obtained with a positive lifetime is used as it is. */
  lemma FreshTokenNotDue(access: Option<string>, refresh: Option<string>, now: Instant, expiresIn: int)
    requires expiresIn > 0 && CalculateExpirationDateFromSeconds(now, Some(expiresIn)).Success?
    ensures var expiry := CalculateExpirationDateFromSeconds(now, Some(expiresIn)).value;
      RefreshDue(TokenData(access, refresh, Some(expiry)), now) == Success(false)
  {
    FreshTokenNotExpired(access, refresh, now, expiresIn);
  }
}
