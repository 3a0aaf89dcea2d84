/** The Zoom adapter: opens a meeting for the incident, refreshing the access token first when it
    is due. Every failure while opening the meeting ends in "no call". */
module ZoomApiService {
  import opened Wrappers
  import opened Transport
  import opened DateTimeUtils
  import opened Tokens
  import opened Integrations
  import opened OAuth
  import opened Dynamo
  import ZoomOauthService

  const ZoomApiUrl: string := "https://api.zoom.us/v2/users/"
  const ZoomGetUserApi: string := "https://api.zoom.us/v2/users/me"
  const NoCallIntegration: string := "No call integration for team"

  /** `__get_user_id`'s request for the authorised user. */
  function UserRequest(token: string): HttpRequest {
    HttpRequest(HttpGet, ZoomGetUserApi, Bearer(token), NoBody)
  }

  /** The meeting `create_call` opens: scheduled (`type` 2), joinable before the host. */
  function MeetingRequest(token: string, userId: string): HttpRequest {
    HttpRequest(HttpPost, ZoomApiUrl + userId + "/meetings", Bearer(token), JsonBody(JObj(map[
      "type" := JInt(2),
      "settings" := JObj(map["join_before_host" := JBool(true), "jbh_time" := JInt(0)])])))
  }

  /** The user id read from the reply's `id`; anything that is not a string ends the call. */
  function UserIdFromReply(reply: HttpReply): (r: Option<string>)
    ensures r.Some? <==> (reply.Reply? && reply.body.Some? && reply.body.value.JObj?
      && "id" in reply.body.value.fields && reply.body.value.fields["id"].JStr?)
    ensures r.Some? ==> r.value == reply.body.value.fields["id"].s
  {
    if reply.Reply? && reply.body.Some? && reply.body.value.JObj? then
      StringOf(Field(reply.body.value.fields, "id"))
    else None
  }

  /** The meeting's `join_url` when the meeting was created (201); a missing link reads as "". */
  function MeetingLinkFromReply(reply: HttpReply): (r: Option<string>)
    ensures r.Some? <==> reply.Reply? && reply.status == 201 && reply.body.Some? && reply.body.value.JObj?
    ensures r.Some? && "join_url" in reply.body.value.fields && reply.body.value.fields["join_url"].JStr? ==>
      r.value == reply.body.value.fields["join_url"].s
  {
    if reply.Reply? && reply.status == 201 && reply.body.Some? && reply.body.value.JObj? then
      Some(StringOf(Field(reply.body.value.fields, "join_url")).GetOr(""))
    else None
  }

  /** What `__get_access_token` ends with, fixed before it runs by the stored token data, the
      clock, the reply a refresh would get and whether the team's record takes the save: `None`
      when it raises, else the token it returns. Saving refreshed data that Zoom refused raises. */
  function TokenOutcome(data: Option<TokenData>, now: Instant, refreshReply: HttpReply, saves: bool): Option<Option<string>> {
    if data.None? then None
    else match RefreshDue(data.value, now)
      case Failure(_) => None
      case Success(due) =>
        if !due then Some(data.value.accessToken)
        else if data.value.refreshToken.None? then None
        else
          var refreshed := ZoomOauthService.RefreshedFromReply(refreshReply, now);
          if refreshed.Success? && refreshed.value.Some? && saves then Some(refreshed.value.value.accessToken) else None
  }

  /** Whether `__get_access_token` sends a refresh: one is due and a refresh token is stored. */
  predicate RefreshSent(data: Option<TokenData>, now: Instant) {
    data.Some? && data.value.refreshToken.Some? && RefreshDue(data.value, now) == Success(true)
  }

  /** The requests `__get_access_token` sends. */
  function RefreshRequests(data: Option<TokenData>, cfg: OAuthConfig, now: Instant): seq<HttpRequest> {
    if RefreshSent(data, now) then
      [ZoomOauthService.RefreshTokenRequest(cfg, data.value.refreshToken.value)]
    else []
  }

  /** The reply a refresh would get as the request at position `base` of the server's sequence;
      without a refresh token there is nothing to send. */
  function RefreshReplyAt(data: Option<TokenData>, cfg: OAuthConfig, respond: (nat, HttpRequest) -> HttpReply,
    base: nat): HttpReply
  {
    if data.Some? && data.value.refreshToken.Some? then
      respond(base, ZoomOauthService.RefreshTokenRequest(cfg, data.value.refreshToken.value))
    else ConnectionError("")
  }

  /** The token data `__get_access_token` leaves when it yields a token: the refreshed data when
      a refresh was sent, the stored data otherwise. */
  function TokensAfter(data: Option<TokenData>, now: Instant, refreshReply: HttpReply): Option<TokenData> {
    var refreshed := ZoomOauthService.RefreshedFromReply(refreshReply, now);
    if RefreshSent(data, now) && refreshed.Success? then refreshed.value
    else data
  }

  /** What `create_call` ends with when the server's replies start at position `base`: no call
      when no token is obtained, when the user lookup names no user, or when the meeting reply
      is not a 201 object; otherwise the record with the token data it leaves and the join link. */
  function CallOutcome(zoom: Integration, cfg: OAuthConfig, respond: (nat, HttpRequest) -> HttpReply, base: nat,
    now: Instant, saves: bool): Option<Integration>
    requires zoom.Zoom?
  {
    var reply := RefreshReplyAt(zoom.tokenData, cfg, respond, base);
    var token := TokenOutcome(zoom.tokenData, now, reply, saves);
    if token.None? || token.value.None? then None
    else MeetingOutcome(respond, base + |RefreshRequests(zoom.tokenData, cfg, now)|, token.value.value,
      TokensAfter(zoom.tokenData, now, reply))
  }

  /** The requests `create_call` sends when the server's replies start at position `base`: the
      refresh when one is due, then, once a token is obtained, the user lookup and the meeting. */
  function CallRequests(zoom: Integration, cfg: OAuthConfig, respond: (nat, HttpRequest) -> HttpReply, base: nat,
    now: Instant, saves: bool): seq<HttpRequest>
    requires zoom.Zoom?
  {
    var token := TokenOutcome(zoom.tokenData, now, RefreshReplyAt(zoom.tokenData, cfg, respond, base), saves);
    var k := base + |RefreshRequests(zoom.tokenData, cfg, now)|;
    RefreshRequests(zoom.tokenData, cfg, now)
    + (if token.Some? && token.value.Some? then MeetingRequests(respond, k, token.value.value) else [])
  }

  /** `create_call` ends as its starting record `zoom0`, requests `sent0` and the save test
      `saves` fix: it has sent `CallRequests` after `sent0`, returned `CallOutcome`, and left the
      record `zoom`, which is the call when one is made and keeps the link otherwise. */
  predicate CallEnds(zoom0: Integration, sent0: seq<HttpRequest>, saves: bool, cfg: OAuthConfig,
    respond: (nat, HttpRequest) -> HttpReply, now: Instant, zoom: Integration, sent: seq<HttpRequest>, r: Option<Integration>)
    requires zoom0.Zoom?
  {
    sent == sent0 + CallRequests(zoom0, cfg, respond, |sent0|, now, saves)
    && r == CallOutcome(zoom0, cfg, respond, |sent0|, now, saves)
    && (r.Some? ==> zoom == r.value)
    && (r.None? ==> zoom.link == zoom0.link)
  }

  /** Where the user lookup and the meeting stand in what `create_call` sent after `sent0`: at
      most three requests are added, and when a call `r` is made, the lookup with the record's
      token is the last request but one and the meeting for the user it named is the last, whose
      reply carries the record's link. */
  predicate CallShape(sent0: seq<HttpRequest>, sent: seq<HttpRequest>, respond: (nat, HttpRequest) -> HttpReply,
    zoom: Integration, r: Option<Integration>)
  {
    |sent0| <= |sent| <= |sent0| + 3 && sent[..|sent0|] == sent0
    && (r.Some? ==> (|sent| >= |sent0| + 2
      && zoom.tokenData.Some? && zoom.tokenData.value.accessToken.Some?
      && var token := zoom.tokenData.value.accessToken.value;
      var n := |sent|;
      sent[n - 2] == UserRequest(token)
      && var user := UserIdFromReply(respond(n - 2, sent[n - 2]));
      user.Some? && sent[n - 1] == MeetingRequest(token, user.value)
      && MeetingLinkFromReply(respond(n - 1, sent[n - 1])) == Some(zoom.link)
      && r == Some(zoom)))
  }

  /** Once the token is obtained, `create_call` ends as the user lookup and the meeting decide,
      after the refresh requests `mid` holds; `zoom1` is the record after the token. */
  lemma CallAfterToken(zoom0: Integration, sent0: seq<HttpRequest>, saves: bool, cfg: OAuthConfig,
    respond: (nat, HttpRequest) -> HttpReply, now: Instant, token: string, zoom1: Integration, mid: seq<HttpRequest>,
    zoom: Integration, sent: seq<HttpRequest>, r: Option<Integration>)
    requires zoom0.Zoom?
    requires var reply := RefreshReplyAt(zoom0.tokenData, cfg, respond, |sent0|);
      TokenOutcome(zoom0.tokenData, now, reply, saves) == Some(Some(token))
      && zoom1.tokenData == TokensAfter(zoom0.tokenData, now, reply)
    requires zoom1.link == zoom0.link && zoom1.tokenData.Some? && zoom1.tokenData.value.accessToken == Some(token)
    requires mid == sent0 + RefreshRequests(zoom0.tokenData, cfg, now)
    requires sent == mid + MeetingRequests(respond, |mid|, token)
    requires r == MeetingOutcome(respond, |mid|, token, zoom1.tokenData)
    requires r.Some? ==> zoom == r.value
    requires r.None? ==> zoom == zoom1
    ensures CallEnds(zoom0, sent0, saves, cfg, respond, now, zoom, sent, r)
  {
  }

  /** Without a token, `create_call` makes no call and sends only the refresh requests. */
  lemma CallWithoutToken(zoom0: Integration, sent0: seq<HttpRequest>, saves: bool, cfg: OAuthConfig,
    respond: (nat, HttpRequest) -> HttpReply, now: Instant, zoom: Integration, sent: seq<HttpRequest>)
    requires zoom0.Zoom?
    requires var token := TokenOutcome(zoom0.tokenData, now, RefreshReplyAt(zoom0.tokenData, cfg, respond, |sent0|), saves);
      token.None? || token.value.None?
    requires sent == sent0 + RefreshRequests(zoom0.tokenData, cfg, now)
    requires zoom.link == zoom0.link
    ensures CallEnds(zoom0, sent0, saves, cfg, respond, now, zoom, sent, None)
  {
  }

  /** Where a call ends as `CallEnds` says, the requests added and the record it made stand as
      `CallShape` says. */
  lemma CallEndsShape(zoom0: Integration, sent0: seq<HttpRequest>, saves: bool, cfg: OAuthConfig,
    respond: (nat, HttpRequest) -> HttpReply, now: Instant, zoom: Integration, sent: seq<HttpRequest>, r: Option<Integration>)
    requires zoom0.Zoom?
    requires CallEnds(zoom0, sent0, saves, cfg, respond, now, zoom, sent, r)
    ensures CallShape(sent0, sent, respond, zoom, r)
  {
    var reply := RefreshReplyAt(zoom0.tokenData, cfg, respond, |sent0|);
    var token := TokenOutcome(zoom0.tokenData, now, reply, saves);
    var mid := sent0 + RefreshRequests(zoom0.tokenData, cfg, now);
    assert mid[..|sent0|] == sent0;
    if token.Some? && token.value.Some? {
      TokenKept(zoom0.tokenData, now, reply, saves);
      MeetingShape(sent0, mid, sent, respond, token.value.value, TokensAfter(zoom0.tokenData, now, reply), zoom, r);
    } else {
      assert sent == mid && r.None?;
    }
  }

  /** The token `__get_access_token` yields is the access token of the data it leaves. */
  lemma TokenKept(data: Option<TokenData>, now: Instant, refreshReply: HttpReply, saves: bool)
    requires TokenOutcome(data, now, refreshReply, saves).Some? && TokenOutcome(data, now, refreshReply, saves).value.Some?
    ensures var tokens := TokensAfter(data, now, refreshReply);
      tokens.Some? && tokens.value.accessToken == TokenOutcome(data, now, refreshReply, saves).value
  {
  }

  /** After the token, the user lookup and the meeting end where `CallShape` says. */
  lemma MeetingShape(sent0: seq<HttpRequest>, mid: seq<HttpRequest>, sent: seq<HttpRequest>,
    respond: (nat, HttpRequest) -> HttpReply, token: string, tokens: Option<TokenData>, zoom: Integration,
    r: Option<Integration>)
    requires |sent0| <= |mid| <= |sent0| + 1 && mid[..|sent0|] == sent0
    requires sent == mid + MeetingRequests(respond, |mid|, token)
    requires r == MeetingOutcome(respond, |mid|, token, tokens)
    requires tokens.Some? && tokens.value.accessToken == Some(token)
    requires r.Some? ==> zoom == r.value
    ensures CallShape(sent0, sent, respond, zoom, r)
  {
    assert sent[..|mid|] == mid;
  }


  /** The requests of `create_call` after the token: the user lookup at position `k`, then the
      meeting when the lookup names a user. */
  function MeetingRequests(respond: (nat, HttpRequest) -> HttpReply, k: nat, token: string): seq<HttpRequest> {
    var user := UserIdFromReply(respond(k, UserRequest(token)));
    [UserRequest(token)] + (if user.Some? then [MeetingRequest(token, user.value)] else [])
  }

  /** The part of `create_call` after the token: the user lookup is the request at position `k`
      and the meeting the one after it; a 201 object reply gives the record with `tokens` and
      the join link. */
  function MeetingOutcome(respond: (nat, HttpRequest) -> HttpReply, k: nat, token: string,
    tokens: Option<TokenData>): Option<Integration>
  {
    var user := UserIdFromReply(respond(k, UserRequest(token)));
    if user.None? then None
    else
      var link := MeetingLinkFromReply(respond(k + 1, MeetingRequest(token, user.value)));
      if link.None? then None else Some(Zoom(tokens, link.value))
  }

  class ZoomApiService {
    const teamId: string
    const store: DynamoUtils
    const http: HttpClient
    const cfg: OAuthConfig
    var zoom: Integration

    ghost predicate Valid()
      reads this, store
    {
      zoom.Zoom? && store.Valid()
    }

    constructor (teamId: string, store: DynamoUtils, http: HttpClient, cfg: OAuthConfig, zoom: Integration)
      requires zoom.Zoom? && store.Valid()
      ensures Valid() && this.zoom == zoom
      ensures this.teamId == teamId && this.store == store && this.http == http && this.cfg == cfg
    {
      this.teamId := teamId;
      this.store := store;
      this.http := http;
      this.cfg := cfg;
      this.zoom := zoom;
    }

    /** The outcome of `GetAccessToken(now)` from the current state. */
    ghost function TokenPlan(now: Instant): Option<Option<string>>
      requires Valid()
      reads this, store, http
    {
      TokenOutcome(zoom.tokenData, now, RefreshReplyAt(zoom.tokenData, cfg, http.respond, |http.sent|),
        HasApps(store.users, teamId))
    }

    /** The outcome of `CreateCall(now)` from the current state. */
    ghost function CallPlan(now: Instant): Option<Integration>
      requires Valid()
      reads this, store, http
    {
      CallOutcome(zoom, cfg, http.respond, |http.sent|, now, HasApps(store.users, teamId))
    }

    /** `__get_access_token`: the cached token while an unexpired expiry is stored; otherwise a
        refresh, which needs a refresh token. The refreshed data (possibly none, when Zoom
        refuses) replaces the adapter's and is saved; saving no data raises. */
    method GetAccessToken(now: Instant) returns (r: Result<Option<string>>)
      requires Valid()
      modifies this, store, http
      ensures Valid() && store.incidents == old(store.incidents) && zoom.link == old(zoom.link)
      ensures r.Success? ==> zoom.tokenData.Some? && r.value == zoom.tokenData.value.accessToken
      ensures r.Success? <==> old(TokenPlan(now)).Some?
      ensures r.Success? ==> r.value == old(TokenPlan(now)).value
      ensures HasApps(store.users, teamId) == old(HasApps(store.users, teamId))
      ensures old(zoom.tokenData).None? ==>
        r.Failure? && http.sent == old(http.sent) && zoom == old(zoom) && store.users == old(store.users)
      ensures old(zoom.tokenData).Some? && old(RefreshDue(zoom.tokenData.value, now)).Failure? ==>
        r.Failure? && http.sent == old(http.sent) && zoom == old(zoom) && store.users == old(store.users)
      ensures old(zoom.tokenData).Some? && old(RefreshDue(zoom.tokenData.value, now)) == Success(false) ==>
        r.Success? && http.sent == old(http.sent) && zoom == old(zoom) && store.users == old(store.users)
      ensures (old(zoom.tokenData).Some? && old(RefreshDue(zoom.tokenData.value, now)) == Success(true)
        && old(zoom.tokenData.value.refreshToken).None?) ==>
        r.Failure? && http.sent == old(http.sent) && zoom == old(zoom) && store.users == old(store.users)
      ensures old(zoom.tokenData).Some? && old(zoom.tokenData.value.refreshToken).Some? ==>
        var t := old(zoom.tokenData.value);
        var req := ZoomOauthService.RefreshTokenRequest(cfg, t.refreshToken.value);
        RefreshDue(t, now) == Success(true) ==>
          http.sent == old(http.sent) + [req]
          && var refreshed := ZoomOauthService.RefreshedFromReply(old(http.NextReply(req)), now);
          (refreshed.Failure? ==> r.Failure? && zoom == old(zoom) && store.users == old(store.users))
          && (refreshed.Success? ==> (zoom == Zoom(refreshed.value, old(zoom.link))
            && (r.Success? <==> (refreshed.value.Some? && teamId in old(store.users) && old(store.users)[teamId].apps.Some?))
            && (r.Success? ==> store.GetZoomData(teamId) == Some(NewZoom(refreshed.value.value)))
            && (r.Failure? ==> store.users == old(store.users))))
    {
      if zoom.tokenData.None? {
        return Failure("'NoneType' object has no attribute 'expiry_date'");
      }
      var t := zoom.tokenData.value;
      var due := RefreshDue(t, now);
      if due.Failure? {
        return Failure(due.error);
      }
      if !due.value {
        return Success(t.accessToken);
      }
      if t.refreshToken.None? {
        return Failure("");
      }
      var refreshed := ZoomOauthService.RefreshAccessToken(http, cfg, t.refreshToken.value, now);
      if refreshed.Failure? {
        return Failure(refreshed.error);
      }
      zoom := Zoom(refreshed.value, zoom.link);
      var saved := store.SaveZoomData(teamId, zoom);
      if saved.Failure? {
        return Failure(saved.error);
      }
      r := Success(zoom.tokenData.value.accessToken);
    }

    /** `__create_request_header`: the bearer token; a `None` token makes the concatenation raise. */
    method Authorization(now: Instant) returns (r: Result<string>)
      requires Valid()
      modifies this, store, http
      ensures Valid() && store.incidents == old(store.incidents) && zoom.link == old(zoom.link)
      ensures r.Success? ==> zoom.tokenData.Some? && zoom.tokenData.value.accessToken == Some(r.value)
      ensures r.Success? <==> old(TokenPlan(now)).Some? && old(TokenPlan(now)).value.Some?
      ensures r.Success? ==> r.value == old(TokenPlan(now)).value.value
      ensures http.sent == old(http.sent) + RefreshRequests(old(zoom.tokenData), cfg, now)
      ensures r.Success? ==>
        zoom == Zoom(TokensAfter(old(zoom.tokenData), now, old(RefreshReplyAt(zoom.tokenData, cfg, http.respond, |http.sent|))),
          old(zoom.link))
      ensures HasApps(store.users, teamId) == old(HasApps(store.users, teamId))
      ensures |old(http.sent)| <= |http.sent| <= |old(http.sent)| + 1 && http.sent[..|old(http.sent)|] == old(http.sent)
      ensures old(zoom.tokenData).Some? && old(RefreshDue(zoom.tokenData.value, now)) == Success(false) ==>
        http.sent == old(http.sent) && zoom == old(zoom) && store.users == old(store.users)
        && (r.Success? <==> old(zoom.tokenData.value.accessToken).Some?)
    {
      var token := GetAccessToken(now);
      if token.Failure? {
        return Failure(token.error);
      }
      if token.value.None? {
        return Failure("can only concatenate str (not \"NoneType\") to str");
      }
      r := Success(token.value.value);
    }

    /** What `create_call` ends with, from the state it starts in: the requests it sends and the
        call it returns are those `CallRequests` and `CallOutcome` fix from that state; a call
        made is the adapter's record, and without one the link is unchanged. */
    twostate predicate CallMade(now: Instant, new r: Option<Integration>)
      requires old(Valid())
      reads this, http
    {
      CallEnds(old(zoom), old(http.sent), old(HasApps(store.users, teamId)), cfg, http.respond, now, zoom, http.sent, r)
    }

    /** `create_call`: reads the authorised user, then opens a meeting for them; on 201 the join
        link is set on the adapter's integration, which is returned. Any other outcome, raised
        errors included, gives no call. */
    method CreateCall(now: Instant) returns (r: Option<Integration>)
      requires Valid()
      modifies this, store, http
      ensures Valid() && store.incidents == old(store.incidents)
      ensures HasApps(store.users, teamId) == old(HasApps(store.users, teamId))
      ensures r.None? ==> zoom.link == old(zoom.link)
      ensures r.Some? ==> zoom == r.value
      ensures CallMade(now, r)
      ensures r == old(CallPlan(now))
    {
      ghost var z0, s0, saves := zoom, http.sent, HasApps(store.users, teamId);
      var token := Authorization(now);
      if token.Failure? {
        CallWithoutToken(z0, s0, saves, cfg, http.respond, now, zoom, http.sent);
        return None;
      }
      ghost var z1, s1 := zoom, http.sent;
      r := OpenMeeting(token.value);
      CallAfterToken(z0, s0, saves, cfg, http.respond, now, token.value, z1, s1, zoom, http.sent, r);
    }

    /** The rest of `create_call` once the token is in hand: the user lookup, then the meeting. */
    method OpenMeeting(token: string) returns (r: Option<Integration>)
      requires Valid()
      modifies this, http
      ensures Valid() && zoom.tokenData == old(zoom.tokenData)
      ensures var n0 := |old(http.sent)|;
        |http.sent| > n0 && http.sent[..n0] == old(http.sent) && http.sent[n0] == UserRequest(token)
        && var user := UserIdFromReply(http.respond(n0, http.sent[n0]));
        (user.None? ==> |http.sent| == n0 + 1 && r.None? && zoom == old(zoom))
        && (user.Some? ==>
          |http.sent| == n0 + 2 && http.sent[n0 + 1] == MeetingRequest(token, user.value)
          && var link := MeetingLinkFromReply(http.respond(n0 + 1, http.sent[n0 + 1]));
          (link.None? ==> r.None? && zoom == old(zoom))
          && (link.Some? ==> zoom == Zoom(old(zoom.tokenData), link.value) && r == Some(zoom)))
      ensures r == MeetingOutcome(http.respond, |old(http.sent)|, token, old(zoom.tokenData))
      ensures http.sent == old(http.sent) + MeetingRequests(http.respond, |old(http.sent)|, token)
    {
      var userReply := http.Send(UserRequest(token));
      var user := UserIdFromReply(userReply);
      if user.None? {
        return None;
      }
      var meetingReply := http.Send(MeetingRequest(token, user.value));
      var link := MeetingLinkFromReply(meetingReply);
      if link.None? {
        return None;
      }
      zoom := Zoom(zoom.tokenData, link.value);
      r := Some(zoom);
    }
  }

  /** `ZoomApiService(team_id)`: raises unless Zoom data is stored for the team and is valid. */
  method NewZoomApiService(teamId: string, store: DynamoUtils, http: HttpClient, cfg: OAuthConfig)
    returns (r: Result<ZoomApiService>)
    requires store.Valid()
    ensures r.Success? <==> store.GetZoomData(teamId).Some? && Integrations.IsValid(store.GetZoomData(teamId).value)
    ensures r.Success? ==> (fresh(r.value) && r.value.Valid() && r.value.zoom == store.GetZoomData(teamId).value
      && r.value.teamId == teamId && r.value.store == store && r.value.http == http && r.value.cfg == cfg)
  {
    var zoom := store.GetZoomData(teamId);
    if zoom.None? || !Integrations.IsValid(zoom.value) {
      return Failure(NoCallIntegration);
    }
    var service := new ZoomApiService(teamId, store, http, cfg, zoom.value);
    r := Success(service);
  }
}
