/** Incident actions for one team: opening an incident with its ticket and call, reading the
    call link, listing, closing, and logging comments on the ticket. */
module IncidentService {
  import opened Wrappers
  import opened Text
  import opened DateTimeUtils
  import opened Integrations
  import opened Incidents
  import opened Dynamo
  import opened UserService
  import JiraApiService
  import ZoomApiService

  const NotOngoingIncident: string := "Not ongoing incident in this channel, please run this command in an incident channel"
  const NoTicketForIncident: string := "No ticket associated to this incident"
  const CouldNotLogComment: string := "Could not log comment"
  const IssueSeparator: string := "browse/"

  /** What `log_comment` returns: `{"status": "ok"}` or a failure with its description. */
  datatype LogResult = LogOk | LogFailure(description: string)

  /** The last ticket adapter of the list, which `__set_integrated_services` keeps. */
  function LastTicket(services: seq<IntegratedService>): (r: Option<JiraApiService.JiraApiService>)
    ensures r.Some? <==> exists k :: 0 <= k < |services| && services[k].JiraService?
    ensures r.Some? ==> exists k :: (0 <= k < |services| && services[k] == JiraService(r.value)
      && forall j :: k < j < |services| ==> !services[j].JiraService?)
  {
    if |services| == 0 then None
    else
      var n := |services| - 1;
      if services[n].JiraService? then
        assert services[n] == JiraService(services[n].jira);
        Some(services[n].jira)
      else
        var prefix := services[..n];
        assert forall k :: 0 <= k < n ==> prefix[k] == services[k];
        var r := LastTicket(prefix);
        assert r.Some? ==> exists k :: (0 <= k < n && prefix[k] == JiraService(r.value)
          && forall j :: k < j < n ==> !prefix[j].JiraService?);
        assert (exists k :: 0 <= k < |services| && services[k].JiraService?) ==> exists k :: 0 <= k < n && prefix[k].JiraService?;
        r
  }

  /** The last call adapter of the list, which `__set_integrated_services` keeps. */
  function LastCall(services: seq<IntegratedService>): (r: Option<ZoomApiService.ZoomApiService>)
    ensures r.Some? <==> exists k :: 0 <= k < |services| && services[k].ZoomService?
    ensures r.Some? ==> exists k :: (0 <= k < |services| && services[k] == ZoomService(r.value)
      && forall j :: k < j < |services| ==> !services[j].ZoomService?)
  {
    if |services| == 0 then None
    else
      var n := |services| - 1;
      if services[n].ZoomService? then
        assert services[n] == ZoomService(services[n].zoom);
        Some(services[n].zoom)
      else
        var prefix := services[..n];
        assert forall k :: 0 <= k < n ==> prefix[k] == services[k];
        var r := LastCall(prefix);
        assert r.Some? ==> exists k :: (0 <= k < n && prefix[k] == ZoomService(r.value)
          && forall j :: k < j < n ==> !prefix[j].ZoomService?);
        assert (exists k :: 0 <= k < |services| && services[k].ZoomService?) ==> exists k :: 0 <= k < n && prefix[k].ZoomService?;
        r
  }

  /** The issue id `log_comment` reads from a ticket link: the text after the first `browse/`,
      up to the next one. A link without it makes the indexing raise. */
  function IssueIdOf(link: string): (r: Option<string>)
    ensures r.Some? <==> Contains(link, IssueSeparator)
  {
    var pieces := Split(link, IssueSeparator);
    if |pieces| >= 2 then Some(pieces[1])
    else
      assert IndexOf(link, IssueSeparator).None?;
      None
  }

  /** Every character of a pattern a string contains is in the string. */
  lemma ContainsHasChars(s: string, p: string, k: int)
    requires 0 <= k < |p|
    ensures Contains(s, p) ==> p[k] in s
  {
    match IndexOf(s, p)
    case None =>
    case Some(i) =>
      assert s[i + k] == s[i..i + |p|][k];
  }

  /** `browse/` cannot start before the one `create_ticket` put in a ticket link. */
  lemma NoEarlierIssueSeparator(account: string, key: string, j: int)
    requires '/' !in account
    requires 0 <= j <= |"https://" + account + ".atlassian.net"|
    ensures !OccursAt("https://" + account + ".atlassian.net" + BrowseSeparator + key, IssueSeparator, j)
  {
    var site := "https://" + account + ".atlassian.net";
    var link := site + BrowseSeparator + key;
    var w := link[j..j + 7];
    assert w[0] == link[j] && w[6] == link[j + 6];
    if j + 6 < |site| {
      if j >= 2 {
        JiraApiService.SiteSlashes(account, key, j + 6);
      } else {
        assert link[j] == site[j] == "https://"[j];
      }
    } else if j + 6 == |site| {
      assert link[j] == site[j] == ".atlassian.net"[8];
    } else {
      assert link[j + 6] == BrowseSeparator[j + 6 - |site|];
    }
  }

  /** The issue id `log_comment` reads from a link made by `create_ticket` is the issue key Jira
      returned, provided neither the account name nor the key holds a slash. */
  lemma IssueIdOfTicketUrl(account: string, key: string)
    requires '/' !in account && '/' !in key
    ensures IssueIdOf(JiraApiService.TicketUrl(JiraApiService.TicketBaseUrl(account), key)) == Some(key)
  {
    var site := "https://" + account + ".atlassian.net";
    var link := site + BrowseSeparator + key;
    assert JiraApiService.TicketUrl(JiraApiService.TicketBaseUrl(account), key) == link;
    var at := |site| + 1;
    forall j | 0 <= j < at
      ensures !OccursAt(link, IssueSeparator, j)
    {
      NoEarlierIssueSeparator(account, key, j);
    }
    assert link[at..at + 7] == IssueSeparator;
    IndexOfAt(link, IssueSeparator, at);
    SplitStep(link, IssueSeparator, at);
    assert link[at + 7..] == key;
    ContainsHasChars(key, IssueSeparator, 6);
  }

  /** The adapter's last request is the comment `text` on issue `issueId`, sent with
      the adapter's access token, and Jira answered it with 201. */
  ghost predicate CommentAccepted(j: JiraApiService.JiraApiService, issueId: string, text: string)
    reads j, j.http
  {
    var sent := j.http.sent;
    |sent| > 0 && j.jira.tokenData.Some? && j.jira.tokenData.value.accessToken.Some?
    && sent[|sent| - 1] == JiraApiService.CommentRequest(JiraApiService.BaseUrl(j.account),
      j.jira.tokenData.value.accessToken.value, issueId, text)
    && j.http.respond(|sent| - 1, sent[|sent| - 1]).Reply?
    && j.http.respond(|sent| - 1, sent[|sent| - 1]).status == 201
  }

  /** What the comment step of `log_comment` reports for the issue `issueId`, given what the
      adapter's token step yields (`plan`): a failure when no token is obtained or the
      server cannot be reached; otherwise the comment request is the last one sent and its
      status decides, 201 being the only success. */
  ghost predicate CommentLogged(j: JiraApiService.JiraApiService, plan: Option<Option<string>>, issueId: string,
    text: string, result: LogResult)
    reads j, j.http
  {
    if plan.None? || plan.value.None? then
      result == LogFailure(CouldNotLogComment)
    else
      var sent := j.http.sent;
      |sent| > 0
      && sent[|sent| - 1] == JiraApiService.CommentRequest(JiraApiService.BaseUrl(j.account), plan.value.value, issueId, text)
      && var reply := j.http.respond(|sent| - 1, sent[|sent| - 1]);
      result == (if reply.ConnectionError? then LogFailure(CouldNotLogComment)
        else if reply.status == 201 then LogOk
        else LogFailure(JiraApiService.CommentError))
  }

  class IncidentService {
    const teamId: string
    const store: DynamoUtils
    const ticketService: Option<JiraApiService.JiraApiService>
    const callService: Option<ZoomApiService.ZoomApiService>

    ghost predicate Valid()
      reads this, store
      reads if ticketService.Some? then {ticketService.value} else {}
      reads if callService.Some? then {callService.value} else {}
    {
      store.Valid()
      && (ticketService.Some? ==> (ticketService.value.store == store
        && ticketService.value.Valid() && ticketService.value.teamId == teamId))
      && (callService.Some? ==> (callService.value.store == store
        && callService.value.Valid() && callService.value.teamId == teamId))
    }

    /** `IncidentService(team_id, integrated_services)`: keeps the last adapter of each kind. */
    constructor (teamId: string, store: DynamoUtils, services: seq<IntegratedService>)
      requires store.Valid()
      requires forall k :: 0 <= k < |services| ==> ServesTeam(services[k], teamId, store)
      ensures Valid() && this.teamId == teamId && this.store == store
      ensures ticketService == LastTicket(services) && callService == LastCall(services)
    {
      var tickets: Option<JiraApiService.JiraApiService> := None;
      var calls: Option<ZoomApiService.ZoomApiService> := None;
      var i := 0;
      while i < |services|
        invariant 0 <= i <= |services|
        invariant tickets == LastTicket(services[..i]) && calls == LastCall(services[..i])
        invariant tickets.Some? ==> ServesTeam(JiraService(tickets.value), teamId, store)
        invariant calls.Some? ==> ServesTeam(ZoomService(calls.value), teamId, store)
      {
        assert services[..i + 1][..i] == services[..i];
        if services[i].ZoomService? {
          calls := Some(services[i].zoom);
        } else {
          tickets := Some(services[i].jira);
        }
        i := i + 1;
      }
      assert services[..i] == services;
      this.teamId := teamId;
      this.store := store;
      ticketService := tickets;
      callService := calls;
    }

    /** What `create_incident`'s ticket step yields from the current state: `None` when the
        adapter raises; no ticket without an adapter; otherwise the adapter's plan. */
    ghost function PlannedTicket(now: Instant): Option<Option<Integration>>
      requires Valid()
      reads this, store
      reads if ticketService.Some? then {ticketService.value, ticketService.value.http} else {}
      reads if callService.Some? then {callService.value} else {}
    {
      if ticketService.None? then Some(None) else ticketService.value.TicketPlan(now)
    }

    /** What `create_incident`'s call step yields from the current state once the ticket step
        has succeeded: no call without an adapter; otherwise the adapter's plan, whose replies
        come after the ticket step's requests when both adapters share one client. */
    ghost function PlannedCall(now: Instant): Option<Integration>
      requires Valid()
      reads this, store
      reads if ticketService.Some? then {ticketService.value, ticketService.value.http} else {}
      reads if callService.Some? then {callService.value, callService.value.http} else {}
    {
      if callService.None? then None
      else
        var c := callService.value;
        ZoomApiService.CallOutcome(c.zoom, c.cfg, c.http.respond, CallBase(now), now, HasApps(store.users, teamId))
    }

    /** Where the call adapter's replies start once the ticket step is done: after the ticket
        step's requests when both adapters share one client. */
    ghost function CallBase(now: Instant): nat
      requires Valid() && callService.Some?
      reads this, store
      reads if ticketService.Some? then {ticketService.value, ticketService.value.http} else {}
      reads callService.value, callService.value.http
    {
      var c := callService.value;
      |c.http.sent| + if ticketService.Some? && ticketService.value.http == c.http then ticketService.value.TicketSends(now) else 0
    }

    /** `create_ticket`: no ticket without a ticket adapter or when the adapter makes none. The
        adapter's errors are not caught. */
    method CreateTicket(now: Instant) returns (r: Result<Option<Integration>>)
      requires Valid()
      modifies store
      modifies if ticketService.Some? then {ticketService.value, ticketService.value.http} else {}
      ensures Valid() && store.incidents == old(store.incidents)
      ensures ticketService.None? ==> r == Success(None) && store.users == old(store.users)
      ensures r.Success? && r.value.Some? ==>
        ticketService.Some? && r.value.value == ticketService.value.jira && r.value.value.Jira?
      ensures ticketService.Some? ==> ticketService.value.TicketMade(now, r)
      ensures r.Failure? <==> old(PlannedTicket(now)).None?
      ensures r.Success? ==> r.value == old(PlannedTicket(now)).value
    {
      if ticketService.None? {
        return Success(None);
      }
      r := ticketService.value.CreateTicket(now);
    }

    /** `create_call`: no call without a call adapter or when the adapter makes none. */
    method CreateCall(now: Instant) returns (r: Option<Integration>)
      requires Valid()
      modifies store
      modifies if callService.Some? then {callService.value, callService.value.http} else {}
      ensures Valid() && store.incidents == old(store.incidents)
      ensures callService.None? ==> r.None? && store.users == old(store.users)
      ensures r.Some? ==> callService.Some? && r.value == callService.value.zoom && r.value.Zoom?
      ensures callService.Some? ==> callService.value.CallMade(now, r)
      ensures callService.Some? ==> r == old(callService.value.CallPlan(now))
      ensures ticketService.Some? ==> ticketService.value.jira == old(ticketService.value.jira)
    {
      if callService.None? {
        return None;
      }
      r := callService.value.CreateCall(now);
    }

    /** The row `create_incident` saves for a new incident with the given ticket and call. */
    function NewRecord(incidentId: string, name: string, ticket: Option<Integration>, call: Option<Integration>,
      now: Instant): IncidentRecord
    {
      IncidentRecord(teamId, incidentId, name,
        if call.Some? then call.value.link else "",
        if ticket.Some? then ticket.value.link else "",
        StatusName(Ongoing), CurrentDatetimeAsString(now))
    }

    /** The last part of `create_incident`: a new ongoing incident stamped with the clock, given
        the ticket and call obtained, is saved. */
    method SaveNewIncident(incidentId: string, name: string, ticket: Option<Integration>, call: Option<Integration>,
      now: Instant) returns (incident: Incident)
      requires store.Valid()
      modifies store
      ensures store.Valid() && store.users == old(store.users)
      ensures fresh(incident)
      ensures incident.View() == IncidentView(teamId, incidentId, name, Enum(Ongoing),
        Some(CurrentDatetimeAsString(now)), ticket, call)
      ensures store.incidents == old(store.incidents)[IncidentKey(teamId, incidentId) :=
        NewRecord(incidentId, name, ticket, call, now)]
    {
      incident := new Incident(teamId, incidentId, name, now);
      if ticket.Some? {
        incident.SetTicket(ticket.value);
      }
      if call.Some? {
        incident.SetCall(call.value);
      }
      var saved := store.CreateIncident(incident);
      if saved.Failure? {
        assert false;
      }
    }

    /** `create_ticket` with only what `create_incident` relies on: where the ticket comes from,
        and that the call adapter, whose replies now start after the ticket step's requests, is
        left with the plan it had before. */
    method TicketStep(now: Instant) returns (r: Result<Option<Integration>>)
      requires Valid()
      modifies store
      modifies if ticketService.Some? then {ticketService.value, ticketService.value.http} else {}
      ensures Valid() && store.incidents == old(store.incidents)
      ensures ticketService.None? ==> r == Success(None)
      ensures r.Success? && r.value.Some? ==>
        ticketService.Some? && r.value.value == ticketService.value.jira && r.value.value.Jira?
      ensures r.Failure? <==> old(PlannedTicket(now)).None?
      ensures r.Success? ==> r.value == old(PlannedTicket(now)).value
      ensures callService.Some? ==> CallKept(now)
    {
      if ticketService.None? {
        return Success(None);
      }
      r := ticketService.value.CreateTicket(now);
    }

    /** Across the ticket step, the call adapter's state is what its plan depends on, with its
        replies now starting after the ticket step's requests when both adapters share a client. */
    twostate predicate CallKept(now: Instant)
      requires old(Valid()) && Valid() && callService.Some?
      reads this, store, callService.value, callService.value.http
      reads if ticketService.Some? then {ticketService.value, ticketService.value.http} else {}
    {
      var c := callService.value;
      c.zoom == old(c.zoom) && HasApps(store.users, teamId) == old(HasApps(store.users, teamId))
      && |c.http.sent| == old(CallBase(now))
    }

    /** The call the adapter is planned to make after the ticket step is the one planned before it. */
    twostate lemma CallPlanKept(now: Instant)
      requires old(Valid()) && Valid() && callService.Some?
      requires CallKept(now)
      ensures callService.value.CallPlan(now) == old(PlannedCall(now))
    {
    }

    /** The two integration steps of `create_incident`: the ticket, then, unless the ticket
        adapter raised, the call. */
    method CreateIntegrations(now: Instant) returns (ticket: Result<Option<Integration>>, call: Option<Integration>)
      requires Valid()
      modifies store
      modifies if ticketService.Some? then {ticketService.value, ticketService.value.http} else {}
      modifies if callService.Some? then {callService.value, callService.value.http} else {}
      ensures Valid() && store.incidents == old(store.incidents)
      ensures ticketService.None? ==> ticket == Success(None)
      ensures callService.None? || ticket.Failure? ==> call.None?
      ensures ticket.Success? && ticket.value.Some? ==> ticketService.Some? && ticket.value.value == ticketService.value.jira
      ensures call.Some? ==> callService.Some? && call.value == callService.value.zoom
      ensures ticket.Failure? <==> old(PlannedTicket(now)).None?
      ensures ticket.Success? ==> ticket.value == old(PlannedTicket(now)).value && call == old(PlannedCall(now))
    {
      ticket := TicketStep(now);
      if ticket.Failure? {
        return ticket, None;
      }
      if callService.Some? {
        CallPlanKept(now);
      }
      call := CallStep(now);
    }

    /** `create_call` with only what `create_incident` relies on: the adapter's plan. */
    method CallStep(now: Instant) returns (r: Option<Integration>)
      requires Valid()
      modifies store
      modifies if callService.Some? then {callService.value, callService.value.http} else {}
      ensures Valid() && store.incidents == old(store.incidents)
      ensures callService.None? ==> r.None?
      ensures r.Some? ==> callService.Some? && r.value == callService.value.zoom
      ensures callService.Some? ==> r == old(callService.value.CallPlan(now))
      ensures ticketService.Some? ==> ticketService.value.jira == old(ticketService.value.jira)
    {
      if callService.None? {
        return None;
      }
      r := callService.value.CreateCall(now);
    }

    /** `create_incident`: the ticket first, then the call, then the new ongoing incident,
        stamped with the clock, is saved with their links. A ticket adapter error aborts it
        before anything is saved. `ticket` and `call` are what the two steps returned, which
        are the outcomes `PlannedTicket` and `PlannedCall` fix from the state on entry. */
    method CreateIncident(incidentId: string, name: string, now: Instant)
      returns (r: Result<Incident>, ghost ticket: Result<Option<Integration>>, ghost call: Option<Integration>)
      requires Valid()
      modifies store
      modifies if ticketService.Some? then {ticketService.value, ticketService.value.http} else {}
      modifies if callService.Some? then {callService.value, callService.value.http} else {}
      ensures Valid()
      ensures ticketService.None? ==> ticket == Success(None)
      ensures callService.None? ==> call.None?
      ensures r.Failure? <==> ticket.Failure?
      ensures ticket.Failure? <==> old(PlannedTicket(now)).None?
      ensures ticket.Success? ==> ticket.value == old(PlannedTicket(now)).value && call == old(PlannedCall(now))
      ensures r.Failure? ==> store.incidents == old(store.incidents)
      ensures r.Success? ==> (fresh(r.value)
        && var v := r.value.View();
        v.teamId == teamId && v.incidentId == incidentId && v.name == name && v.status == Enum(Ongoing)
        && v.startedDatetime == Some(CurrentDatetimeAsString(now))
        && v.ticket == ticket.value && v.call == call
        && (v.ticket.Some? ==> ticketService.Some? && v.ticket.value == ticketService.value.jira)
        && (v.call.Some? ==> callService.Some? && v.call.value == callService.value.zoom)
        && store.incidents == old(store.incidents)[IncidentKey(teamId, incidentId) :=
          NewRecord(incidentId, name, v.ticket, v.call, now)])
    {
      var ticketMade, callMade := CreateIntegrations(now);
      ticket, call := ticketMade, callMade;
      if ticketMade.Failure? {
        return Failure(ticketMade.error), ticket, call;
      }
      var incident := SaveNewIncident(incidentId, name, ticketMade.value, callMade, now);
      r := Success(incident);
    }

    /** `get_call`: the stored call link of the incident, or "" when there is no such incident. */
    method GetCall(incidentId: string, now: Instant) returns (link: string)
      requires Valid()
      ensures var key := IncidentKey(teamId, incidentId);
        link == if key in store.incidents then store.incidents[key].callLink else ""
    {
      var incident := store.GetIncident(teamId, incidentId, now);
      if incident.Some? && incident.value.HasCall() {
        return GetLink(incident.value.call.value);
      }
      link := "";
    }

    /** `get_ongoing_incidents`. */
    method GetOngoingIncidents(now: Instant) returns (ongoing: seq<Incident>)
      requires Valid()
      ensures exists rows: seq<IncidentRecord> :: (store.IsTeamListing(rows, teamId)
        && IncidentViews(ongoing) == RecordViews(OngoingRows(rows)))
    {
      ongoing := store.GetOngoingIncidents(teamId, now);
    }

    /** `get_today_incidents`. */
    method GetTodayIncidents(now: Instant) returns (today: seq<Incident>)
      requires Valid()
      ensures exists rows: seq<IncidentRecord> :: (store.IsTeamListing(rows, teamId)
        && IncidentViews(today) == (match TodayRows(rows, CurrentDate(now))
            case Success(kept) => RecordViews(kept)
            case Failure(_) => []))
    {
      today := store.GetTodayIncidents(teamId, now);
    }

    /** `close_incident`: marks the incident CLOSED when it exists, whatever its status. */
    method CloseIncident(incidentId: string, now: Instant) returns (updated: bool)
      requires Valid()
      modifies store
      ensures Valid() && store.users == old(store.users)
      ensures var key := IncidentKey(teamId, incidentId);
        && (updated <==> key in old(store.incidents))
        && (updated ==> store.incidents == old(store.incidents)[key := old(store.incidents)[key].(status := "CLOSED")])
        && (!updated ==> store.incidents == old(store.incidents))
    {
      var incident := new Incident(teamId, incidentId, "", now);
      updated := store.UpdateIncidentStatus(incident, Closed);
    }

    /** The checks `log_comment` makes before commenting: an incident in this channel, a ticket
        on it, and an issue id in the ticket's link; each failure carries its description. */
    method FindIssue(incidentId: string, now: Instant) returns (r: Result<string>)
      requires Valid()
      ensures var key := IncidentKey(teamId, incidentId);
        if key !in store.incidents then r == Failure(NotOngoingIncident)
        else if store.incidents[key].ticketLink == "" then r == Failure(NoTicketForIncident)
        else if IssueIdOf(store.incidents[key].ticketLink).None? then r == Failure(CouldNotLogComment)
        else r == Success(IssueIdOf(store.incidents[key].ticketLink).value)
    {
      var incident := store.GetIncident(teamId, incidentId, now);
      if incident.None? {
        return Failure(NotOngoingIncident);
      }
      if !incident.value.HasTicket() {
        return Failure(NoTicketForIncident);
      }
      var issueId := IssueIdOf(GetLink(incident.value.ticket.value));
      if issueId.None? {
        return Failure(CouldNotLogComment);
      }
      r := Success(issueId.value);
    }

    /** The comment step of `log_comment`, once the issue id is known. */
    method CommentOnIssue(issueId: string, text: string, now: Instant) returns (result: LogResult)
      requires Valid() && ticketService.Some?
      modifies store, ticketService.value, ticketService.value.http
      ensures Valid() && store.incidents == old(store.incidents)
      ensures CommentLogged(ticketService.value, old(ticketService.value.TokenPlan(now)), issueId, text, result)
      ensures result.LogFailure? ==> result.description in {CouldNotLogComment, JiraApiService.CommentError}
      ensures result == LogOk ==> CommentAccepted(ticketService.value, issueId, text)
    {
      var response := ticketService.value.AddComment(issueId, text, now);
      if response.Failure? {
        return LogFailure(CouldNotLogComment);
      }
      if response.value.success == Some(true) {
        return LogOk;
      }
      result := LogFailure(response.value.descriptiveError.GetOr(""));
    }

    /** `log_comment`: comments on the ticket of the incident in this channel. Every error on the
        way, raised ones included, is reported as a failure. */
    method LogComment(incidentId: string, text: string, now: Instant) returns (result: LogResult)
      requires Valid()
      modifies store
      modifies if ticketService.Some? then {ticketService.value, ticketService.value.http} else {}
      ensures Valid() && store.incidents == old(store.incidents)
      ensures result.LogFailure? ==>
        result.description in {NotOngoingIncident, NoTicketForIncident, CouldNotLogComment, JiraApiService.CommentError}
      ensures var key := IncidentKey(teamId, incidentId);
        && (key !in store.incidents <==> result == LogFailure(NotOngoingIncident))
        && (key in store.incidents && store.incidents[key].ticketLink == "" ==> result == LogFailure(NoTicketForIncident))
        && ((key in store.incidents && store.incidents[key].ticketLink != ""
          && (IssueIdOf(store.incidents[key].ticketLink).None? || ticketService.None?)) ==> result == LogFailure(CouldNotLogComment))
      ensures var key := IncidentKey(teamId, incidentId);
        result == LogOk ==> (key in store.incidents && IssueIdOf(store.incidents[key].ticketLink).Some?
          && ticketService.Some? && CommentAccepted(ticketService.value, IssueIdOf(store.incidents[key].ticketLink).value, text))
      ensures var key := IncidentKey(teamId, incidentId);
        key in store.incidents && IssueIdOf(store.incidents[key].ticketLink).Some? && ticketService.Some? ==>
          CommentLogged(ticketService.value, old(ticketService.value.TokenPlan(now)),
            IssueIdOf(store.incidents[key].ticketLink).value, text, result)
    {
      var issueId := FindIssue(incidentId, now);
      if issueId.Failure? {
        return LogFailure(issueId.error);
      }
      if ticketService.None? {
        return LogFailure(CouldNotLogComment);
      }
      ghost var link := store.incidents[IncidentKey(teamId, incidentId)].ticketLink;
      assert IssueIdOf(link) == Some(issueId.value);
      result := CommentOnIssue(issueId.value, text, now);
    }
  }
}
