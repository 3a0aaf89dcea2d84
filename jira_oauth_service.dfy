/** The Jira (Atlassian) OAuth client: exchanging a code for tokens, refreshing, and finding the
    account's site name. */
module JiraOauthService {
  import opened Wrappers
  import opened Transport
  import opened DateTimeUtils
  import opened Tokens
  import opened OAuth

  const AccessTokenUrl: string := "https://auth.atlassian.com/oauth/token"
  const IdRequestUrl: string := "https://api.atlassian.com/oauth/token/accessible-resources"

  /** `__build_access_token_request`, sent as a JSON body. */
  function AccessTokenRequest(cfg: OAuthConfig, code: string): (req: HttpRequest)
    ensures IsCodeGrant(req, AccessTokenUrl, code, cfg.redirectUri)
  {
    HttpRequest(HttpPost, AccessTokenUrl, NoAuth, JsonBody(JObj(map[
      "grant_type" := JStr("authorization_code"),
      "client_id" := JStr(cfg.clientId),
      "client_secret" := JStr(cfg.clientSecret),
      "code" := JStr(code),
      "redirect_uri" := JStr(cfg.redirectUri)])))
  }

  /** `__build_refresh_token_request`: a `None` refresh token is sent as JSON null. */
  function RefreshTokenRequest(cfg: OAuthConfig, refreshToken: Option<string>): (req: HttpRequest)
    ensures refreshToken.Some? ==> IsRefreshGrant(req, AccessTokenUrl, refreshToken.value)
    ensures Param(req.body, "grant_type") == Some("refresh_token")
    ensures Param(req.body, "client_id") == Some(cfg.clientId)
  {
    HttpRequest(HttpPost, AccessTokenUrl, NoAuth, JsonBody(JObj(map[
      "grant_type" := JStr("refresh_token"),
      "client_id" := JStr(cfg.clientId),
      "client_secret" := JStr(cfg.clientSecret),
      "refresh_token" := StrOrNull(refreshToken)])))
  }

  /** The token response's three fields, the lifetime turned into an absolute expiry. */
  function TokenFields(reply: HttpReply, now: Instant): (r: Result<(Option<string>, Option<string>, string)>)
    ensures r.Success? <==> (JsonOf(reply).Success? && JsonOf(reply).value.JObj?
      && CalculateExpirationDateFromSeconds(now, IntOf(Field(JsonOf(reply).value.fields, "expires_in"))).Success?)
    ensures r.Success? ==> var f := JsonOf(reply).value.fields;
      r.value == (StringOf(Field(f, "access_token")), StringOf(Field(f, "refresh_token")),
        CalculateExpirationDateFromSeconds(now, IntOf(Field(f, "expires_in"))).value)
  {
    var body :- JsonOf(reply);
    if !body.JObj? then Failure("object has no attribute 'get'")
    else
      var f := body.fields;
      var expiry :- CalculateExpirationDateFromSeconds(now, IntOf(Field(f, "expires_in")));
      Success((StringOf(Field(f, "access_token")), StringOf(Field(f, "refresh_token")), expiry))
  }

  /** `get_token_data` once the reply is in: all three values come from the response. The status
      is not checked; an error body has no `expires_in`, which makes the expiry computation raise. */
  function TokenDataFromReply(reply: HttpReply, now: Instant): (r: Result<TokenData>)
    ensures r.Success? <==> TokenFields(reply, now).Success?
    ensures r.Success? ==> var f := TokenFields(reply, now).value;
      r.value == TokenData(f.0, f.1, Some(f.2))
  {
    var f :- TokenFields(reply, now);
    Success(TokenData(f.0, f.1, Some(f.2)))
  }

  /** `refresh_access_token` once the reply is in: Jira does not rotate refresh tokens, so the old
      one is kept; the access token and expiry come from the response. */
  function RefreshedFromReply(current: TokenData, reply: HttpReply, now: Instant): (r: Result<TokenData>)
    ensures r.Success? <==> TokenFields(reply, now).Success?
    ensures r.Success? ==> var f := TokenFields(reply, now).value;
      r.value == TokenData(f.0, current.refreshToken, Some(f.2))
  {
    var f :- TokenFields(reply, now);
    Success(TokenData(f.0, current.refreshToken, Some(f.2)))
  }

  /** A successful refresh keeps the refresh token and yields a token that is not yet due for
      refreshing whenever the server grants a positive lifetime. */
  lemma RefreshKeepsRefreshToken(current: TokenData, reply: HttpReply, now: Instant)
    requires RefreshedFromReply(current, reply, now).Success?
    ensures RefreshedFromReply(current, reply, now).value.refreshToken == current.refreshToken
    ensures var secs := IntOf(Field(JsonOf(reply).value.fields, "expires_in"));
      secs.value > 0 ==> RefreshDue(RefreshedFromReply(current, reply, now).value, now) == Success(false)
  {
    var secs := IntOf(Field(JsonOf(reply).value.fields, "expires_in"));
    if secs.value > 0 {
      var t := RefreshedFromReply(current, reply, now).value;
      FreshTokenNotDue(t.accessToken, t.refreshToken, now, secs.value);
    }
  }

  /** The accessible-resources request; `"Bearer " + None` raises. */
  function JiraIdRequest(accessToken: Option<string>): (r: Result<HttpRequest>)
    ensures r.Success? <==> accessToken.Some?
    ensures r.Success? ==> r.value == HttpRequest(HttpGet, IdRequestUrl, Bearer(accessToken.value), NoBody)
  {
    if accessToken.None? then Failure("can only concatenate str (not \"NoneType\") to str")
    else Success(HttpRequest(HttpGet, IdRequestUrl, Bearer(accessToken.value), NoBody))
  }

  /** `get_jira_id` once the reply is in: the `name` of the first accessible resource; an empty
      list, or a first resource without a non-empty name, raises. */
  function JiraIdFromReply(reply: HttpReply): (r: Result<string>)
    ensures r.Success? <==> (JsonOf(reply).Success? && JsonOf(reply).value.JArr?
      && |JsonOf(reply).value.items| > 0 && JsonOf(reply).value.items[0].JObj?
      && "name" in JsonOf(reply).value.items[0].fields
      && JsonOf(reply).value.items[0].fields["name"].JStr?
      && JsonOf(reply).value.items[0].fields["name"].s != "")
    ensures r.Success? ==> r.value == JsonOf(reply).value.items[0].fields["name"].s
  {
    var body :- JsonOf(reply);
    match body
    case JArr(items) =>
      if |items| == 0 then Failure("jira did not return any response for given access token")
      else
        var name :- Get(items[0], "name");
        if name.Some? && name.value.JStr? && name.value.s != "" then Success(name.value.s)
        else Failure("jira did not return any name/id for given access token")
    case _ => Failure("jira did not return a list of accessible resources")
  }

  method GetJiraId(http: HttpClient, accessToken: Option<string>) returns (r: Result<string>)
    modifies http
    ensures JiraIdRequest(accessToken).Failure? ==> r.Failure? && http.sent == old(http.sent)
    ensures JiraIdRequest(accessToken).Success? ==>
      http.sent == old(http.sent) + [JiraIdRequest(accessToken).value]
      && r == JiraIdFromReply(old(http.NextReply(JiraIdRequest(accessToken).value)))
  {
    var req := JiraIdRequest(accessToken);
    if req.Failure? {
      return Failure(req.error);
    }
    var reply := http.Send(req.value);
    r := JiraIdFromReply(reply);
  }

  method GetTokenData(http: HttpClient, cfg: OAuthConfig, code: string, now: Instant) returns (r: Result<TokenData>)
    modifies http
    ensures http.sent == old(http.sent) + [AccessTokenRequest(cfg, code)]
    ensures r == TokenDataFromReply(old(http.NextReply(AccessTokenRequest(cfg, code))), now)
  {
    var reply := http.Send(AccessTokenRequest(cfg, code));
    r := TokenDataFromReply(reply, now);
  }

  method RefreshAccessToken(http: HttpClient, cfg: OAuthConfig, t: TokenData, now: Instant) returns (r: Result<TokenData>)
    modifies http
    ensures http.sent == old(http.sent) + [RefreshTokenRequest(cfg, t.refreshToken)]
    ensures r == RefreshedFromReply(t, old(http.NextReply(RefreshTokenRequest(cfg, t.refreshToken))), now)
  {
    var reply := http.Send(RefreshTokenRequest(cfg, t.refreshToken));
    r := RefreshedFromReply(t, reply, now);
  }
}
