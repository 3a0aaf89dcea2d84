/** The Zoom OAuth client: exchanging a code for tokens and refreshing them. Zoom authenticates
    the client with HTTP Basic and takes form-encoded bodies. */
module ZoomOauthService {
  import opened Wrappers
  import opened Transport
  import opened DateTimeUtils
  import opened Tokens
  import opened OAuth
  import JiraOauthService

  const AccessTokenUrl: string := "https://zoom.us/oauth/token"

  /** `__build_access_token_request`, sent as a form with the client's Basic credentials. */
  function AccessTokenRequest(cfg: OAuthConfig, code: string): (req: HttpRequest)
    ensures IsCodeGrant(req, AccessTokenUrl, code, cfg.redirectUri)
    ensures req.auth == Basic(cfg.clientId, cfg.clientSecret)
  {
    HttpRequest(HttpPost, AccessTokenUrl, Basic(cfg.clientId, cfg.clientSecret), FormBody(map[
      "grant_type" := "authorization_code",
      "code" := code,
      "redirect_uri" := cfg.redirectUri]))
  }

  /** `__build_refresh_token_request`: only the grant type and the refresh token. */
  function RefreshTokenRequest(cfg: OAuthConfig, refreshToken: string): (req: HttpRequest)
    ensures IsRefreshGrant(req, AccessTokenUrl, refreshToken)
    ensures req.auth == Basic(cfg.clientId, cfg.clientSecret)
    ensures req.body.FormBody? && req.body.form.Keys == {"grant_type", "refresh_token"}
  {
    HttpRequest(HttpPost, AccessTokenUrl, Basic(cfg.clientId, cfg.clientSecret), FormBody(map[
      "grant_type" := "refresh_token",
      "refresh_token" := refreshToken]))
  }

  /** `get_token_data` once the reply is in: the three values come from the response, whatever
      its status. */
  function TokenDataFromReply(reply: HttpReply, now: Instant): (r: Result<TokenData>)
    ensures r == JiraOauthService.TokenDataFromReply(reply, now)
  {
    var f :- JiraOauthService.TokenFields(reply, now);
    Success(TokenData(f.0, f.1, Some(f.2)))
  }

  /** `refresh_access_token` once the reply is in: `None` for any status but 200; on 200 the
      response's tokens replace both old ones, so Zoom's rotated refresh token is kept. */
  function RefreshedFromReply(reply: HttpReply, now: Instant): (r: Result<Option<TokenData>>)
    ensures reply.ConnectionError? ==> r.Failure?
    ensures reply.Reply? && reply.status != 200 ==> r == Success(None)
    ensures reply.Reply? && reply.status == 200 ==>
      (r.Success? <==> JiraOauthService.TokenFields(reply, now).Success?)
      && (r.Success? ==> var f := JiraOauthService.TokenFields(reply, now).value;
        r.value == Some(TokenData(f.0, f.1, Some(f.2))))
  {
    match reply
    case ConnectionError(m) => Failure(m)
    case Reply(status, _) =>
      if status != 200 then Success(None)
      else
        var f :- JiraOauthService.TokenFields(reply, now);
        Success(Some(TokenData(f.0, f.1, Some(f.2))))
  }

  /** Unlike Jira's, a Zoom refresh keeps no part of the old token data: the refresh token is
      whatever the response carries, missing included. */
  lemma RefreshReplacesRefreshToken(reply: HttpReply, now: Instant)
    requires RefreshedFromReply(reply, now).Success? && RefreshedFromReply(reply, now).value.Some?
    ensures reply.Reply? && reply.status == 200
    ensures RefreshedFromReply(reply, now).value.value.refreshToken
      == StringOf(Field(JsonOf(reply).value.fields, "refresh_token"))
  {
  }

  method GetTokenData(http: HttpClient, cfg: OAuthConfig, code: string, now: Instant) returns (r: Result<TokenData>)
    modifies http
    ensures http.sent == old(http.sent) + [AccessTokenRequest(cfg, code)]
    ensures r == TokenDataFromReply(old(http.NextReply(AccessTokenRequest(cfg, code))), now)
  {
    var reply := http.Send(AccessTokenRequest(cfg, code));
    r := TokenDataFromReply(reply, now);
  }

  method RefreshAccessToken(http: HttpClient, cfg: OAuthConfig, refreshToken: string, now: Instant)
    returns (r: Result<Option<TokenData>>)
    modifies http
    ensures http.sent == old(http.sent) + [RefreshTokenRequest(cfg, refreshToken)]
    ensures r == RefreshedFromReply(old(http.NextReply(RefreshTokenRequest(cfg, refreshToken))), now)
  {
    var reply := http.Send(RefreshTokenRequest(cfg, refreshToken));
    r := RefreshedFromReply(reply, now);
  }
}
