/** Which adapters a team has: one per integration whose token data is stored. */
module UserService {
  import opened Wrappers
  import opened Text
  import opened Transport
  import opened Integrations
  import opened OAuth
  import opened Dynamo
  import JiraApiService
  import ZoomApiService

  /** An `IntegratedService`: the ticket adapter or the call adapter. */
  datatype IntegratedService =
    | JiraService(jira: JiraApiService.JiraApiService)
    | ZoomService(zoom: ZoomApiService.ZoomApiService)

  /** `get_type` of the two abstract kinds (`TicketService`, `CallService`). */
  function ServiceType(s: IntegratedService): (t: IntegrationType)
    ensures t == Ticket <==> s.JiraService?
    ensures t == Call <==> s.ZoomService?
  {
    if s.JiraService? then Ticket else Call
  }

  /** `name in apps` on what `get_authorized_apps` returns: a key of the apps map, or a
      substring of the error text. */
  predicate HasApp(apps: AppsOrError, name: string) {
    match apps
    case Apps(m) => name in m
    case ErrorString(text) => Contains(text, name)
  }

  /** The error text names neither integration, so a team without an apps map gets no adapter. */
  lemma ErrorTextHasNoApps()
    ensures !HasApp(ErrorString(ThereWasAnError), "jira")
    ensures !HasApp(ErrorString(ThereWasAnError), "zoom")
  {
    assert "jira"[0] !in ThereWasAnError;
    assert "zoom"[0] !in ThereWasAnError;
    NotContainsWithoutFirst(ThereWasAnError, "jira");
    NotContainsWithoutFirst(ThereWasAnError, "zoom");
  }

  /** The adapter is ready for use and serves this team through this store. */
  ghost predicate ServesTeam(s: IntegratedService, teamId: string, store: DynamoUtils)
    reads if s.JiraService? then {s.jira, s.jira.store} else {s.zoom, s.zoom.store}
  {
    match s
    case JiraService(j) => j.Valid() && j.teamId == teamId && j.store == store
    case ZoomService(z) => z.Valid() && z.teamId == teamId && z.store == store
  }

  /** ... and talks through this HTTP client. */
  ghost predicate Wired(s: IntegratedService, teamId: string, store: DynamoUtils, http: HttpClient)
    reads if s.JiraService? then {s.jira, s.jira.store} else {s.zoom, s.zoom.store}
  {
    ServesTeam(s, teamId, store) && (if s.JiraService? then s.jira.http == http else s.zoom.http == http)
  }

  /** Every integration the team authorised has valid token data stored, so that its adapter
      can be built. */
  predicate AdaptersBuild(teamId: string, store: DynamoUtils)
    reads store
  {
    var apps := store.GetAuthorizedApps(teamId);
    (HasApp(apps, "jira") ==> store.GetJiraData(teamId).Some? && Integrations.IsValid(store.GetJiraData(teamId).value))
    && (HasApp(apps, "zoom") ==> store.GetZoomData(teamId).Some? && Integrations.IsValid(store.GetZoomData(teamId).value))
  }

  /** `get_integrated_services`: a Jira adapter when the apps hold `jira`, then a Zoom adapter
      when they hold `zoom`. Building an adapter over invalid data raises. */
  method GetIntegratedServices(teamId: string, store: DynamoUtils, http: HttpClient, jiraCfg: OAuthConfig, zoomCfg: OAuthConfig)
    returns (r: Result<seq<IntegratedService>>)
    requires store.Valid()
    ensures var apps := store.GetAuthorizedApps(teamId);
      var wantJira := HasApp(apps, "jira");
      var wantZoom := HasApp(apps, "zoom");
      (r.Success? <==> AdaptersBuild(teamId, store))
      && (r.Success? ==> (|r.value| == (if wantJira then 1 else 0) + (if wantZoom then 1 else 0)
        && (wantJira ==> r.value[0].JiraService? && r.value[0].jira.jira == store.GetJiraData(teamId).value)
        && (wantZoom ==> r.value[|r.value| - 1].ZoomService? && r.value[|r.value| - 1].zoom.zoom == store.GetZoomData(teamId).value)))
    ensures r.Success? ==> forall k :: 0 <= k < |r.value| ==> Wired(r.value[k], teamId, store, http)
    ensures r.Success? ==> forall k :: 0 <= k < |r.value| ==>
      (if r.value[k].JiraService? then fresh(r.value[k].jira) else fresh(r.value[k].zoom))
  {
    var services: seq<IntegratedService> := [];
    var apps := store.GetAuthorizedApps(teamId);
    if HasApp(apps, "jira") {
      if apps.ErrorString? {
        ErrorTextHasNoApps();
        assert false;
      }
      var jira := JiraApiService.NewJiraApiService(teamId, store, http, jiraCfg);
      if jira.Failure? {
        return Failure(jira.error);
      }
      services := services + [JiraService(jira.value)];
    }
    if HasApp(apps, "zoom") {
      if apps.ErrorString? {
        ErrorTextHasNoApps();
        assert false;
      }
      var zoom := ZoomApiService.NewZoomApiService(teamId, store, http, zoomCfg);
      if zoom.Failure? {
        return Failure(zoom.error);
      }
      services := services + [ZoomService(zoom.value)];
    }
    r := Success(services);
  }
}
