/** The Jira adapter: creates the incident's ticket and comments on it, refreshing the access
    token first when it is due and saving the refreshed token data. */
module JiraApiService {
  import opened Wrappers
  import opened Text
  import opened Transport
  import opened DateTimeUtils
  import opened Tokens
  import opened Integrations
  import opened OAuth
  import opened Dynamo
  import JiraOauthService

  const NoTicketIntegration: string := "No ticket integration for team"
  const CommentError: string := "Comment request to Jira returned an error"

  /** `BASE_URL % account_id`. */
  function BaseUrl(account: string): string {
    "https://" + account + ".atlassian.net/rest/api/2"
  }

  /** `JIRA_TICKET_BASE_URL % account_id`. */
  function TicketBaseUrl(account: string): string {
    "https://" + account + ".atlassian.net/browse"
  }

  /** `__get_ticket_url`. */
  function TicketUrl(ticketBase: string, key: string): string {
    ticketBase + "/" + key
  }

  /** `__build_issue_request`: a task in project `WAT` summarised with the day it is opened. */
  function IssueRequest(baseUrl: string, token: string, issueDate: string): HttpRequest {
    HttpRequest(HttpPost, baseUrl + "/issue/", Bearer(token), JsonBody(JObj(map[
      "fields" := JObj(map[
        "project" := JObj(map["key" := JStr("WAT")]),
        "summary" := JStr("Incident " + issueDate),
        "description" := JStr("Outage"),
        "issuetype" := JObj(map["name" := JStr("Task")])])])))
  }

  /** `__build_comment_request`, posted to the issue's comment resource. */
  function CommentRequest(baseUrl: string, token: string, ticketId: string, comment: string): HttpRequest {
    HttpRequest(HttpPost, baseUrl + "/issue/" + ticketId + "/comment", Bearer(token),
      JsonBody(JObj(map["body" := JStr(comment)])))
  }

  /** What `add_comment` returns: the status, and either `success` or a `descriptive_error`. */
  datatype CommentResponse = CommentResponse(responseCode: int, success: Option<bool>, descriptiveError: Option<string>)

  function CommentResponseOf(status: int): (r: CommentResponse)
    ensures r.responseCode == status
    ensures r.success == Some(true) <==> status == 201
    ensures r.success.None? <==> status != 201
    ensures r.descriptiveError.Some? <==> status != 201
  {
    if status == 201 then CommentResponse(status, Some(true), None)
    else CommentResponse(status, None, Some(CommentError))
  }

  /** The ticket link `create_ticket` derives from the reply: on 201 the body's `key` appended to
      the ticket base URL, otherwise no ticket. Reading the body can raise. */
  function TicketLinkFromReply(reply: HttpReply, ticketBase: string): (r: Result<Option<string>>)
    ensures reply.ConnectionError? ==> r.Failure?
    ensures reply.Reply? && reply.status != 201 ==> r == Success(None)
    ensures reply.Reply? && reply.status == 201 ==>
      (r.Success? <==> (reply.body.Some? && reply.body.value.JObj? && "key" in reply.body.value.fields
        && reply.body.value.fields["key"].JStr?))
      && (r.Success? ==> r.value == Some(TicketUrl(ticketBase, reply.body.value.fields["key"].s)))
  {
    match reply
    case ConnectionError(m) => Failure(m)
    case Reply(status, body) =>
      if status != 201 then Success(None)
      else if body.Some? && body.value.JObj? && "key" in body.value.fields && body.value.fields["key"].JStr? then
        Success(Some(TicketUrl(ticketBase, body.value.fields["key"].s)))
      else Failure("'key'")
  }

  /** The two ends of an occurrence of `/browse/` are slashes. */
  lemma OccurrenceEnds(s: string, j: int)
    requires OccursAt(s, BrowseSeparator, j)
    ensures s[j] == '/' && s[j + 7] == '/'
  {
    assert s[j] == s[j..j + 8][0];
    assert s[j + 7] == s[j..j + 8][7];
  }

  /** The ticket link's site part holds slashes only in `https://`. */
  lemma SiteSlashes(account: string, key: string, j: int)
    requires '/' !in account
    requires 0 <= j < |"https://" + account + ".atlassian.net"| && j != 6 && j != 7
    ensures ("https://" + account + ".atlassian.net" + BrowseSeparator + key)[j] != '/'
  {
    var site := "https://" + account + ".atlassian.net";
    var link := site + BrowseSeparator + key;
    assert link[j] == site[j];
    if j < 8 {
      assert site[j] == "https://"[j];
    } else if j < 8 + |account| {
      assert site[j] == account[j - 8];
    } else {
      assert site[j] == ".atlassian.net"[j - 8 - |account|];
    }
  }

  /** `get_code` of a link made by `create_ticket` gives back the issue key, provided neither
      the account name nor the key holds a slash. */
  lemma TicketCodeRoundTrip(account: string, key: string, t: Option<TokenData>, a: Option<string>)
    requires '/' !in account && '/' !in key
    ensures GetCode(Jira(t, a, TicketUrl(TicketBaseUrl(account), key))) == Some(key)
  {
    var site := "https://" + account + ".atlassian.net";
    TicketLinkShape(account, key);
    FirstBrowseAfterSite(account, key);
    NotContainsWithoutFirst(key, BrowseSeparator);
    SplitAtOnly(site, BrowseSeparator, key);
  }

  /** The ticket link is the site, `/browse/` and the key. */
  lemma TicketLinkShape(account: string, key: string)
    ensures TicketUrl(TicketBaseUrl(account), key) == "https://" + account + ".atlassian.net" + BrowseSeparator + key
  {
    assert ".atlassian.net/browse" + "/" == ".atlassian.net" + BrowseSeparator;
  }

  /** The first `/browse/` of a ticket link is the one after the site. */
  lemma FirstBrowseAfterSite(account: string, key: string)
    requires '/' !in account
    ensures IndexOf("https://" + account + ".atlassian.net" + BrowseSeparator + key, BrowseSeparator)
      == Some(|"https://" + account + ".atlassian.net"|)
  {
    var site := "https://" + account + ".atlassian.net";
    var link := site + BrowseSeparator + key;
    forall j | 0 <= j < |site|
      ensures !OccursAt(link, BrowseSeparator, j)
    {
      if OccursAt(link, BrowseSeparator, j) {
        OccurrenceEnds(link, j);
        SiteSlashes(account, key, j);
        SiteSlashes(account, key, j + 7);
      }
    }
    assert link[|site|..|site| + 8] == BrowseSeparator;
    IndexOfAt(link, BrowseSeparator, |site|);
  }

  /** What `__get_access_token` ends with, fixed before it runs by the stored token data, the
      clock, the reply a refresh would get and whether the team's record takes the save: `None`
      when it raises, else the token it returns. */
  function TokenOutcome(t: TokenData, now: Instant, refreshReply: HttpReply, saves: bool): Option<Option<string>> {
    match RefreshDue(t, now)
    case Failure(_) => None
    case Success(due) =>
      if !due then Some(t.accessToken)
      else
        var refreshed := JiraOauthService.RefreshedFromReply(t, refreshReply, now);
        if refreshed.Success? && saves then Some(refreshed.value.accessToken) else None
  }

  /** The requests `__get_access_token` sends: the refresh, exactly when one is due. */
  function RefreshRequests(t: TokenData, cfg: OAuthConfig, now: Instant): seq<HttpRequest> {
    if RefreshDue(t, now) == Success(true) then [JiraOauthService.RefreshTokenRequest(cfg, t.refreshToken)] else []
  }

  /** The record `__get_access_token` leaves when it yields a token: refreshed token data when a
      refresh was due, the record unchanged otherwise. */
  function RecordAfterToken(jira: Integration, now: Instant, refreshReply: HttpReply): Integration
    requires jira.Jira? && jira.tokenData.Some?
  {
    var t := jira.tokenData.value;
    var refreshed := JiraOauthService.RefreshedFromReply(t, refreshReply, now);
    if RefreshDue(t, now) == Success(true) && refreshed.Success? then jira.(tokenData := Some(refreshed.value))
    else jira
  }

  /** An adapter for one team, made only from valid stored Jira data. */
  class JiraApiService {
    const teamId: string
    const store: DynamoUtils
    const http: HttpClient
    const cfg: OAuthConfig
    const account: string
    var jira: Integration

    ghost predicate Valid()
      reads this, store
    {
      jira.Jira? && jira.tokenData.Some? && jira.accountId == Some(account) && store.Valid()
    }

    constructor (teamId: string, store: DynamoUtils, http: HttpClient, cfg: OAuthConfig, jira: Integration)
      requires jira.Jira? && jira.tokenData.Some? && jira.accountId.Some? && store.Valid()
      ensures Valid() && this.jira == jira && account == jira.accountId.value
      ensures this.teamId == teamId && this.store == store && this.http == http && this.cfg == cfg
    {
      this.teamId := teamId;
      this.store := store;
      this.http := http;
      this.cfg := cfg;
      this.account := jira.accountId.value;
      this.jira := jira;
    }

    /** The outcome of `GetAccessToken(now)` from the current state. */
    ghost function TokenPlan(now: Instant): Option<Option<string>>
      requires Valid()
      reads this, store, http
    {
      var t := jira.tokenData.value;
      TokenOutcome(t, now, http.NextReply(JiraOauthService.RefreshTokenRequest(cfg, t.refreshToken)),
        HasApps(store.users, teamId))
    }

    /** The reply a refresh of the stored token would get now. */
    ghost function RefreshReply(): HttpReply
      requires Valid()
      reads this, store, http
    {
      http.NextReply(JiraOauthService.RefreshTokenRequest(cfg, jira.tokenData.value.refreshToken))
    }

    /** The outcome of `CreateTicket(now)` from the current state: `None` when it raises, else
        no ticket or the record carrying the new ticket's link. The issue request follows the
        refresh, if one is due, in the server's sequence of replies. */
    ghost function TicketPlan(now: Instant): Option<Option<Integration>>
      requires Valid()
      reads this, store, http
    {
      var token := TokenPlan(now);
      if token.None? || token.value.None? then None
      else
        var k := |http.sent| + |RefreshRequests(jira.tokenData.value, cfg, now)|;
        var issue := IssueRequest(BaseUrl(account), token.value.value, FormatMonthDayYear(now.date));
        match TicketLinkFromReply(http.respond(k, issue), TicketBaseUrl(account))
        case Failure(_) => None
        case Success(link) =>
          if link.None? then Some(None)
          else Some(Some(RecordAfterToken(jira, now, RefreshReply()).(link := link.value)))
    }

    /** How many requests `CreateTicket(now)` sends from the current state: the refresh when it
        is due, and the issue request when a token is obtained. */
    ghost function TicketSends(now: Instant): nat
      requires Valid()
      reads this, store, http
    {
      var token := TokenPlan(now);
      |RefreshRequests(jira.tokenData.value, cfg, now)| + (if token.Some? && token.value.Some? then 1 else 0)
    }

    /** `__get_access_token`: the cached token when an unexpired expiry is stored; otherwise one
        refresh whose result replaces the token data and is saved before it is returned. */
    method GetAccessToken(now: Instant) returns (r: Result<Option<string>>)
      requires Valid()
      modifies this, store, http
      ensures Valid() && store.incidents == old(store.incidents) && jira.link == old(jira.link)
      ensures r.Success? ==> r.value == jira.tokenData.value.accessToken
      ensures r.Success? <==> old(TokenPlan(now)).Some?
      ensures r.Success? ==> r.value == old(TokenPlan(now)).value
      ensures HasApps(store.users, teamId) == old(HasApps(store.users, teamId))
      ensures old(RefreshDue(jira.tokenData.value, now)).Failure? ==>
        r.Failure? && http.sent == old(http.sent) && jira == old(jira) && store.users == old(store.users)
      ensures old(RefreshDue(jira.tokenData.value, now)) == Success(false) ==>
        r.Success? && http.sent == old(http.sent) && jira == old(jira) && store.users == old(store.users)
      ensures var t := old(jira.tokenData.value); var req := JiraOauthService.RefreshTokenRequest(cfg, t.refreshToken);
        RefreshDue(t, now) == Success(true) ==>
          http.sent == old(http.sent) + [req]
          && var refreshed := JiraOauthService.RefreshedFromReply(t, old(http.NextReply(req)), now);
          (refreshed.Failure? ==> r.Failure? && jira == old(jira) && store.users == old(store.users))
          && (refreshed.Success? ==> (jira == old(jira).(tokenData := Some(refreshed.value))
            && (r.Success? <==> teamId in old(store.users) && old(store.users)[teamId].apps.Some?)
            && (r.Success? ==> store.GetJiraData(teamId) == Some(NewJira(refreshed.value, Some(account))))
            && (r.Failure? ==> store.users == old(store.users))))
    {
      var t := jira.tokenData.value;
      var due := RefreshDue(t, now);
      if due.Failure? {
        return Failure(due.error);
      }
      if !due.value {
        return Success(t.accessToken);
      }
      var refreshed := JiraOauthService.RefreshAccessToken(http, cfg, t, now);
      if refreshed.Failure? {
        return Failure(refreshed.error);
      }
      jira := jira.(tokenData := Some(refreshed.value));
      var saved := store.SaveJiraData(teamId, jira);
      if saved.Failure? {
        return Failure(saved.error);
      }
      r := Success(refreshed.value.accessToken);
    }

    /** `__create_request_header`: the bearer token; a `None` token makes the concatenation raise. */
    method Authorization(now: Instant) returns (r: Result<string>)
      requires Valid()
      modifies this, store, http
      ensures Valid() && store.incidents == old(store.incidents) && jira.link == old(jira.link)
      ensures r.Success? ==> jira.tokenData.value.accessToken == Some(r.value)
      ensures r.Success? <==> old(TokenPlan(now)).Some? && old(TokenPlan(now)).value.Some?
      ensures r.Success? ==> r.value == old(TokenPlan(now)).value.value
      ensures http.sent == old(http.sent) + RefreshRequests(old(jira.tokenData.value), cfg, now)
      ensures r.Success? ==> jira == RecordAfterToken(old(jira), now, old(RefreshReply()))
      ensures HasApps(store.users, teamId) == old(HasApps(store.users, teamId))
      ensures |old(http.sent)| <= |http.sent| <= |old(http.sent)| + 1 && http.sent[..|old(http.sent)|] == old(http.sent)
      ensures old(RefreshDue(jira.tokenData.value, now)) == Success(false) ==>
        http.sent == old(http.sent) && jira == old(jira) && store.users == old(store.users)
        && (r.Success? <==> old(jira.tokenData.value.accessToken).Some?)
    {
      var token := GetAccessToken(now);
      if token.Failure? {
        return Failure(token.error);
      }
      if token.value.None? {
        return Failure("can only concatenate str (not \"NoneType\") to str");
      }
      r := Success(token.value.value);
    }

    /** What `create_ticket` ends with, from the state it starts in: it raises when no token is
        obtained; otherwise the issue request is the last one sent, and its reply alone decides
        between a raise, no ticket, and the integration carrying the new link. */
    twostate predicate TicketMade(now: Instant, new r: Result<Option<Integration>>)
      requires old(Valid())
      reads this, http
    {
      var plan := old(TokenPlan(now));
      if plan.None? || plan.value.None? then
        r.Failure? && jira.link == old(jira.link) && |http.sent| <= |old(http.sent)| + 1
      else
        |http.sent| > |old(http.sent)|
        && http.sent[|http.sent| - 1] == IssueRequest(BaseUrl(account), plan.value.value, FormatMonthDayYear(now.date))
        && var link := TicketLinkFromReply(http.respond(|http.sent| - 1, http.sent[|http.sent| - 1]), TicketBaseUrl(account));
        (r.Failure? <==> link.Failure?)
        && (link.Success? && link.value.None? ==> r == Success(None))
        && (link.Success? && link.value.Some? ==> jira.link == link.value.value && r == Success(Some(jira)))
    }

    /** `create_ticket`: opens the issue dated with the clock's day; on 201 the link is set on
        the adapter's integration, which is returned. Nothing raised here is caught. */
    method CreateTicket(now: Instant) returns (r: Result<Option<Integration>>)
      requires Valid()
      modifies this, store, http
      ensures Valid() && store.incidents == old(store.incidents)
      ensures |old(http.sent)| <= |http.sent| <= |old(http.sent)| + 2 && http.sent[..|old(http.sent)|] == old(http.sent)
      ensures r.Success? ==> (|http.sent| > |old(http.sent)|
        && var req := http.sent[|http.sent| - 1];
        jira.tokenData.value.accessToken.Some?
        && req == IssueRequest(BaseUrl(account), jira.tokenData.value.accessToken.value, FormatMonthDayYear(now.date))
        && var link := TicketLinkFromReply(http.respond(|http.sent| - 1, req), TicketBaseUrl(account));
        link.Success?
        && (link.value.None? ==> r.value.None? && jira.link == old(jira.link))
        && (link.value.Some? ==> jira.link == link.value.value && r.value == Some(jira)))
      ensures old(RefreshDue(jira.tokenData.value, now)) == Success(false) ==>
        store.users == old(store.users) && jira.tokenData == old(jira.tokenData) && |http.sent| <= |old(http.sent)| + 1
      ensures TicketMade(now, r)
      ensures r.Failure? <==> old(TicketPlan(now)).None?
      ensures r.Success? ==> r.value == old(TicketPlan(now)).value
      ensures |http.sent| == |old(http.sent)| + old(TicketSends(now))
      ensures HasApps(store.users, teamId) == old(HasApps(store.users, teamId))
    {
      ghost var plan := TicketPlan(now);
      ghost var k := |http.sent| + |RefreshRequests(jira.tokenData.value, cfg, now)|;
      ghost var record := RecordAfterToken(jira, now, RefreshReply());
      var token := Authorization(now);
      if token.Failure? {
        assert plan.None?;
        return Failure(token.error);
      }
      assert |http.sent| == k && jira == record;
      r := PostIssue(token.value, now);
    }

    /** The rest of `create_ticket` once the token is in hand: the issue request, and the link
        its reply sets on the integration. */
    method PostIssue(token: string, now: Instant) returns (r: Result<Option<Integration>>)
      requires Valid()
      modifies this, http
      ensures Valid() && jira.tokenData == old(jira.tokenData)
      ensures http.sent == old(http.sent) + [IssueRequest(BaseUrl(account), token, FormatMonthDayYear(now.date))]
      ensures var link := TicketLinkFromReply(http.respond(|old(http.sent)|, http.sent[|old(http.sent)|]), TicketBaseUrl(account));
        (r.Failure? <==> link.Failure?)
        && (link.Failure? ==> jira == old(jira))
        && (link.Success? && link.value.None? ==> r == Success(None) && jira == old(jira))
        && (link.Success? && link.value.Some? ==> jira == old(jira).(link := link.value.value) && r == Success(Some(jira)))
    {
      var req := IssueRequest(BaseUrl(account), token, FormatMonthDayYear(now.date));
      var reply := http.Send(req);
      var link := TicketLinkFromReply(reply, TicketBaseUrl(account));
      if link.Failure? {
        return Failure(link.error);
      }
      if link.value.None? {
        return Success(None);
      }
      jira := jira.(link := link.value.value);
      r := Success(Some(jira));
    }

    /** `add_comment`: posts the comment to the issue and reports the status; only a failure to
        obtain a token or to reach the server raises. */
    method AddComment(ticketId: string, comment: string, now: Instant) returns (r: Result<CommentResponse>)
      requires Valid()
      modifies this, store, http
      ensures Valid() && store.incidents == old(store.incidents) && jira.link == old(jira.link)
      ensures |old(http.sent)| <= |http.sent| <= |old(http.sent)| + 2 && http.sent[..|old(http.sent)|] == old(http.sent)
      ensures r.Success? ==> (|http.sent| > |old(http.sent)|
        && var req := http.sent[|http.sent| - 1];
        jira.tokenData.value.accessToken.Some?
        && req == CommentRequest(BaseUrl(account), jira.tokenData.value.accessToken.value, ticketId, comment)
        && var reply := http.respond(|http.sent| - 1, req);
        reply.Reply? && r.value == CommentResponseOf(reply.status))
      ensures var plan := old(TokenPlan(now));
        if plan.None? || plan.value.None? then
          r.Failure? && |http.sent| <= |old(http.sent)| + 1
        else
          |http.sent| > |old(http.sent)|
          && http.sent[|http.sent| - 1] == CommentRequest(BaseUrl(account), plan.value.value, ticketId, comment)
          && var reply := http.respond(|http.sent| - 1, http.sent[|http.sent| - 1]);
          r == (if reply.ConnectionError? then Failure(reply.message) else Success(CommentResponseOf(reply.status)))
    {
      var token := Authorization(now);
      if token.Failure? {
        return Failure(token.error);
      }
      var req := CommentRequest(BaseUrl(account), token.value, ticketId, comment);
      var reply := http.Send(req);
      if reply.ConnectionError? {
        return Failure(reply.message);
      }
      r := Success(CommentResponseOf(reply.status));
    }
  }

  /** `JiraApiService(team_id)`: raises unless Jira data is stored for the team and is valid. */
  method NewJiraApiService(teamId: string, store: DynamoUtils, http: HttpClient, cfg: OAuthConfig)
    returns (r: Result<JiraApiService>)
    requires store.Valid()
    ensures r.Success? <==> store.GetJiraData(teamId).Some? && Integrations.IsValid(store.GetJiraData(teamId).value)
    ensures r.Success? ==> (fresh(r.value) && r.value.Valid() && r.value.jira == store.GetJiraData(teamId).value
      && r.value.teamId == teamId && r.value.store == store && r.value.http == http && r.value.cfg == cfg)
  {
    var jira := store.GetJiraData(teamId);
    if jira.None? || !Integrations.IsValid(jira.value) {
      return Failure(NoTicketIntegration);
    }
    var service := new JiraApiService(teamId, store, http, cfg, jira.value);
    r := Success(service);
  }
}
