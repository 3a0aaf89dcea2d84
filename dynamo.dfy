/** The two DynamoDB tables the bot keeps, as maps: the users table keyed by team id and the
    incidents table keyed by (team id, incident id). */
module Dynamo {
  import opened Wrappers
  import opened Seqs
  import opened DateTimeUtils
  import opened Tokens
  import opened Integrations
  import opened Incidents

  /** One entry of a team's `apps` map; Zoom entries have no `id`. */
  datatype AppRecord = AppRecord(id: Option<string>, accessToken: Option<string>,
    refreshToken: Option<string>, expiryDate: Option<string>)

  /** One item of the users table. The responder set is kept in insertion order, without
      duplicates; an empty set is never stored (the attribute is absent instead). */
  datatype UserItem = UserItem(accessToken: Option<string>, apps: Option<map<string, AppRecord>>,
    responders: Option<seq<string>>, oncall: Option<string>)

  datatype IncidentKey = IncidentKey(teamId: string, incidentId: string)

  /** The `responders` entry of the `Attributes` an update with `ReturnValues="UPDATED_NEW"`
      hands back; `attributes` is `None` when nothing is returned. */
  datatype ResponderAttributes = ResponderAttributes(responders: Option<seq<string>>)
  datatype UpdateResponse = UpdateResponse(attributes: Option<ResponderAttributes>)

  /** What `get_authorized_apps` returns: the apps map, or the error text it returns instead of
      raising. */
  datatype AppsOrError = Apps(apps: map<string, AppRecord>) | ErrorString(text: string)

  const ThereWasAnError: string := "there was an error"

  const EmptyUser: UserItem := UserItem(None, None, None, None)

  predicate NoDuplicates(s: seq<string>) {
    forall i, j :: 0 <= i < j < |s| ==> s[i] != s[j]
  }

  /** DynamoDB's `ADD` on a string set: the ids of `b` not yet in `a` join the end of `a`. */
  function Union(a: seq<string>, b: seq<string>): (r: seq<string>)
    ensures forall x :: x in r <==> x in a || x in b
    ensures |a| <= |r| && r[..|a|] == a
    ensures NoDuplicates(a) ==> NoDuplicates(r)
    decreases |b|
  {
    if b == [] then a
    else if b[0] in a then Union(a, b[1..])
    else
      var a' := a + [b[0]];
      assert a'[..|a|] == a;
      Union(a', b[1..])
  }

  /** DynamoDB's `DELETE` on a string set: the ids of `a` that are not in `b`, in order. */
  function Difference(a: seq<string>, b: seq<string>): (r: seq<string>)
    ensures forall x :: x in r <==> x in a && x !in b
    ensures |r| <= |a|
    ensures NoDuplicates(a) ==> NoDuplicates(r)
  {
    if a == [] then []
    else
      var rest := Difference(a[1..], b);
      assert forall x :: x in a[1..] ==> x in a;
      assert NoDuplicates(a) ==> forall k :: 0 <= k < |a| - 1 ==> a[1..][k] != a[0];
      if a[0] in b then rest else [a[0]] + rest
  }

  /** Adding ids and then removing a superset of them leaves what removing alone leaves. */
  lemma {:induction false} DifferenceOfUnion(a: seq<string>, b: seq<string>, c: seq<string>)
    requires forall x :: x in b ==> x in c
    ensures Difference(Union(a, b), c) == Difference(a, c)
    decreases |b|
  {
    if b != [] {
      assert forall x :: x in b[1..] ==> x in b;
      if b[0] in a {
        DifferenceOfUnion(a, b[1..], c);
      } else {
        DifferenceOfUnion(a + [b[0]], b[1..], c);
        DifferenceDropsLast(a, b[0], c);
      }
    }
  }

  /** Removing the ids just added undoes the addition, except for ids that were already there. */
  lemma AddThenRemove(a: seq<string>, b: seq<string>)
    ensures Difference(Union(a, b), b) == Difference(a, b)
  {
    DifferenceOfUnion(a, b, b);
  }

  lemma {:induction false} DifferenceDropsLast(a: seq<string>, x: string, b: seq<string>)
    requires x in b
    ensures Difference(a + [x], b) == Difference(a, b)
    decreases |a|
  {
    if a == [] {
      assert [x][1..] == [];
    } else {
      assert (a + [x])[1..] == a[1..] + [x];
      DifferenceDropsLast(a[1..], x, b);
    }
  }

  /** A stored set: present means non-empty, duplicate-free and made of non-empty ids. */
  predicate WellFormedSet(s: Option<seq<string>>) {
    s.Some? ==> |s.value| > 0 && NoDuplicates(s.value) && forall id :: id in s.value ==> id != ""
  }

  /** The optional set an update leaves: an emptied set is removed. */
  function StoredSet(s: seq<string>): (r: Option<seq<string>>)
    ensures r.Some? <==> |s| > 0
    ensures r.Some? ==> r.value == s
  {
    if |s| == 0 then None else Some(s)
  }

  /** What `UPDATED_NEW` returns for the responder set after an update. */
  function NewResponders(s: Option<seq<string>>): (r: UpdateResponse)
    ensures r.attributes.Some? <==> s.Some?
    ensures r.attributes.Some? ==> r.attributes.value.responders == s
  {
    if s.Some? then UpdateResponse(Some(ResponderAttributes(s))) else UpdateResponse(None)
  }

  function ItemOf(users: map<string, UserItem>, teamId: string): UserItem {
    if teamId in users then users[teamId] else EmptyUser
  }

  function CurrentResponders(item: UserItem): seq<string> {
    if item.responders.Some? then item.responders.value else []
  }

  /** Whether the team's item holds an `apps` map, the one condition a `SET apps.<name>` update
      needs from the table. */
  predicate HasApps(users: map<string, UserItem>, teamId: string) {
    teamId in users && users[teamId].apps.Some?
  }

  class DynamoUtils {
    var users: map<string, UserItem>
    var incidents: map<IncidentKey, IncidentRecord>

    ghost predicate Valid()
      reads this
    {
      (forall t :: t in users ==> WellFormedSet(users[t].responders))
      && (forall t :: t in users && users[t].oncall.Some? ==> users[t].oncall.value != "")
      && (forall k :: k in incidents ==>
            incidents[k].teamId == k.teamId && incidents[k].incidentId == k.incidentId)
    }

    constructor ()
      ensures Valid() && users == map[] && incidents == map[]
    {
      users := map[];
      incidents := map[];
    }

    // ------------------------------------------------------------ users table

    /** `save_jira_data`: `SET apps.jira = :new_app`. The update fails when the team has no
        `apps` map (an invalid document path) or the integration carries no token data. */
    method SaveJiraData(teamId: string, jira: Integration) returns (r: Result<()>)
      requires Valid() && jira.Jira?
      modifies this
      ensures Valid() && incidents == old(incidents)
      ensures r.Success? <==> teamId in old(users) && old(users)[teamId].apps.Some? && jira.tokenData.Some?
      ensures r.Success? ==> users == old(users)[teamId := old(users)[teamId].(apps := Some(
        old(users)[teamId].apps.value["jira" := AppRecord(jira.accountId,
          jira.tokenData.value.accessToken, jira.tokenData.value.refreshToken, jira.tokenData.value.expiryDate)]))]
      ensures r.Success? ==> GetJiraData(teamId) == Some(NewJira(jira.tokenData.value, jira.accountId))
      ensures r.Failure? ==> users == old(users)
    {
      if teamId in users && users[teamId].apps.Some? && jira.tokenData.Some? {
        var item := users[teamId];
        var t := jira.tokenData.value;
        var rec := AppRecord(jira.accountId, t.accessToken, t.refreshToken, t.expiryDate);
        users := users[teamId := item.(apps := Some(item.apps.value["jira" := rec]))];
        r := Success(());
      } else {
        r := Failure("The document path provided in the update expression is invalid for update");
      }
    }

    /** `save_zoom_data`: `SET apps.zoom = :new_app`, failing like `SaveJiraData`. */
    method SaveZoomData(teamId: string, zoom: Integration) returns (r: Result<()>)
      requires Valid() && zoom.Zoom?
      modifies this
      ensures Valid() && incidents == old(incidents)
      ensures r.Success? <==> teamId in old(users) && old(users)[teamId].apps.Some? && zoom.tokenData.Some?
      ensures r.Success? ==> users == old(users)[teamId := old(users)[teamId].(apps := Some(
        old(users)[teamId].apps.value["zoom" := AppRecord(None,
          zoom.tokenData.value.accessToken, zoom.tokenData.value.refreshToken, zoom.tokenData.value.expiryDate)]))]
      ensures r.Success? ==> GetZoomData(teamId) == Some(NewZoom(zoom.tokenData.value))
      ensures r.Failure? ==> users == old(users)
    {
      if teamId in users && users[teamId].apps.Some? && zoom.tokenData.Some? {
        var item := users[teamId];
        var t := zoom.tokenData.value;
        var rec := AppRecord(None, t.accessToken, t.refreshToken, t.expiryDate);
        users := users[teamId := item.(apps := Some(item.apps.value["zoom" := rec]))];
        r := Success(());
      } else {
        r := Failure("The document path provided in the update expression is invalid for update");
      }
    }

    /** `save_slack_access_token`: sets the token and creates an empty `apps` map if there is
        none; the item is created when missing. */
    method SaveSlackAccessToken(teamId: string, accessToken: string)
      requires Valid()
      modifies this
      ensures Valid() && incidents == old(incidents)
      ensures var item := ItemOf(old(users), teamId);
        users == old(users)[teamId := item.(accessToken := Some(accessToken),
          apps := if item.apps.Some? then item.apps else Some(map[]))]
    {
      var item := ItemOf(users, teamId);
      var apps := if item.apps.Some? then item.apps else Some(map[]);
      users := users[teamId := item.(accessToken := Some(accessToken), apps := apps)];
    }

    /** `save_responders`: `ADD responders :responders` (set union), creating the item when
        missing, and returning the whole new set. */
    method SaveResponders(teamId: string, responders: seq<string>) returns (response: UpdateResponse)
      requires Valid() && forall id :: id in responders ==> id != ""
      modifies this
      ensures Valid() && incidents == old(incidents)
      ensures var item := ItemOf(old(users), teamId);
        var stored := StoredSet(Union(CurrentResponders(item), responders));
        users == old(users)[teamId := item.(responders := stored)] && response == NewResponders(stored)
    {
      var item := ItemOf(users, teamId);
      var stored := StoredSet(Union(CurrentResponders(item), responders));
      users := users[teamId := item.(responders := stored)];
      response := NewResponders(stored);
    }

    /** `remove_responders`: `DELETE responders :responders` (set difference); an emptied set
        disappears, and then nothing is returned. */
    method RemoveResponders(teamId: string, responders: seq<string>) returns (response: UpdateResponse)
      requires Valid()
      modifies this
      ensures Valid() && incidents == old(incidents)
      ensures var item := ItemOf(old(users), teamId);
        var stored := StoredSet(Difference(CurrentResponders(item), responders));
        users == old(users)[teamId := item.(responders := stored)] && response == NewResponders(stored)
    {
      var item := ItemOf(users, teamId);
      var stored := StoredSet(Difference(CurrentResponders(item), responders));
      users := users[teamId := item.(responders := stored)];
      response := NewResponders(stored);
    }

    /** `save_oncall`: `SET oncall=:oncall`, creating the item when missing. */
    method SaveOncall(teamId: string, userId: string)
      requires Valid() && userId != ""
      modifies this
      ensures Valid() && incidents == old(incidents)
      ensures users == old(users)[teamId := ItemOf(old(users), teamId).(oncall := Some(userId))]
    {
      users := users[teamId := ItemOf(users, teamId).(oncall := Some(userId))];
    }

    /** `get_oncall`: the stored on-call id, `None` when unset, and the error text when the team
        has no item. */
    function GetOncall(teamId: string): (r: Option<string>)
      reads this
      ensures teamId !in users ==> r == Some(ThereWasAnError)
      ensures teamId in users ==> r == users[teamId].oncall
    {
      if teamId in users then users[teamId].oncall else Some(ThereWasAnError)
    }

    /** `get_responders`: the stored set, or `[]` when the team has no item or no set. */
    function GetResponders(teamId: string): (r: seq<string>)
      reads this
      ensures teamId in users && users[teamId].responders.Some? ==> r == users[teamId].responders.value
      ensures !(teamId in users && users[teamId].responders.Some?) ==> r == []
    {
      CurrentResponders(ItemOf(users, teamId))
    }

    /** `get_authorized_apps`: the `apps` map, or the error text when the item or map is missing. */
    function GetAuthorizedApps(teamId: string): (r: AppsOrError)
      reads this
      ensures r.Apps? <==> teamId in users && users[teamId].apps.Some?
      ensures r.Apps? ==> r.apps == users[teamId].apps.value
      ensures r.ErrorString? ==> r.text == ThereWasAnError
    {
      if teamId in users && users[teamId].apps.Some? then Apps(users[teamId].apps.value)
      else ErrorString(ThereWasAnError)
    }

    /** `get_slack_access_token`. */
    function GetSlackAccessToken(teamId: string): (r: Option<string>)
      reads this
      ensures teamId !in users ==> r == Some(ThereWasAnError)
      ensures teamId in users ==> r == users[teamId].accessToken
    {
      if teamId in users then users[teamId].accessToken else Some(ThereWasAnError)
    }

    /** `get_jira_data`: the stored Jira record as a Jira integration without link, or `None`
        when there is none (every exception is swallowed). */
    function GetJiraData(teamId: string): (r: Option<Integration>)
      reads this
      ensures r.Some? <==> GetAuthorizedApps(teamId).Apps? && "jira" in GetAuthorizedApps(teamId).apps
      ensures r.Some? ==> var rec := GetAuthorizedApps(teamId).apps["jira"];
        r.value == NewJira(TokenData(rec.accessToken, rec.refreshToken, rec.expiryDate), rec.id)
    {
      match GetAuthorizedApps(teamId)
      case ErrorString(_) => None
      case Apps(apps) =>
        if "jira" !in apps then None
        else
          var rec := apps["jira"];
          Some(NewJira(TokenData(rec.accessToken, rec.refreshToken, rec.expiryDate), rec.id))
    }

    /** `get_zoom_data`: the stored Zoom record as a Zoom integration without link, or `None`. */
    function GetZoomData(teamId: string): (r: Option<Integration>)
      reads this
      ensures r.Some? <==> GetAuthorizedApps(teamId).Apps? && "zoom" in GetAuthorizedApps(teamId).apps
      ensures r.Some? ==> var rec := GetAuthorizedApps(teamId).apps["zoom"];
        r.value == NewZoom(TokenData(rec.accessToken, rec.refreshToken, rec.expiryDate))
    {
      match GetAuthorizedApps(teamId)
      case ErrorString(_) => None
      case Apps(apps) =>
        if "zoom" !in apps then None
        else
          var rec := apps["zoom"];
          Some(NewZoom(TokenData(rec.accessToken, rec.refreshToken, rec.expiryDate)))
    }

    // ------------------------------------------------------------ incidents table

    /** `create_incident`: `put_item` of the whole row, replacing any row with the same key.
        A missing call or ticket is stored as `""`; the status is stored by its enum name, so an
        incident whose status is a raw string makes `.name` raise. */
    method CreateIncident(incident: Incident) returns (r: Result<()>)
      requires Valid()
      modifies this
      ensures Valid() && users == old(users)
      ensures r.Success? <==> incident.status.Enum?
      ensures r.Success? ==> incidents == old(incidents)[
        IncidentKey(incident.teamId, incident.incidentId) := IncidentRecord(
          incident.teamId, incident.incidentId, incident.name,
          if incident.call.Some? then incident.call.value.link else "",
          if incident.ticket.Some? then incident.ticket.value.link else "",
          StatusName(incident.status.status),
          incident.startedDatetime.GetOr(""))]
      ensures r.Failure? ==> incidents == old(incidents)
    {
      if incident.status.Raw? {
        return Failure("'str' object has no attribute 'name'");
      }
      var callLink := if incident.call.Some? then incident.call.value.link else "";
      var ticketLink := if incident.ticket.Some? then incident.ticket.value.link else "";
      var key := IncidentKey(incident.teamId, incident.incidentId);
      incidents := incidents[key := IncidentRecord(incident.teamId, incident.incidentId, incident.name,
        callLink, ticketLink, StatusName(incident.status.status), incident.startedDatetime.GetOr(""))];
      r := Success(());
    }

    /** `update_incident_status`: a conditional update that only touches an existing row. It
        reports whether a row was updated (`None` in Python when the condition fails). Any
        status may be written over any other. */
    method UpdateIncidentStatus(incident: Incident, status: IncidentStatus) returns (updated: bool)
      requires Valid()
      modifies this
      ensures Valid() && users == old(users)
      ensures var key := IncidentKey(incident.teamId, incident.incidentId);
        && (updated <==> key in old(incidents))
        && (updated ==> incidents == old(incidents)[key := old(incidents)[key].(status := StatusName(status))])
        && (!updated ==> incidents == old(incidents))
    {
      var key := IncidentKey(incident.teamId, incident.incidentId);
      if key in incidents {
        incidents := incidents[key := incidents[key].(status := StatusName(status))];
        updated := true;
      } else {
        updated := false;
      }
    }

    /** `get_incident`: the row with this key as an incident carrying both a Zoom call and a Jira
        ticket with the stored links (and no token data). The constructor's status, ONGOING, is
        kept whatever the row says. */
    method GetIncident(teamId: string, incidentId: string, now: Instant) returns (r: Option<Incident>)
      ensures r.None? <==> IncidentKey(teamId, incidentId) !in incidents
      ensures r.Some? ==> fresh(r.value) && var row := incidents[IncidentKey(teamId, incidentId)];
        r.value.View() == IncidentView(teamId, incidentId, row.name, Enum(Ongoing),
          Some(row.startedDatetime), Some(Jira(None, Some(""), row.ticketLink)), Some(Zoom(None, row.callLink)))
    {
      var key := IncidentKey(teamId, incidentId);
      if key !in incidents {
        return None;
      }
      var row := incidents[key];
      var incident := new Incident(teamId, incidentId, row.name, now);
      incident.SetCall(Zoom(None, row.callLink));
      incident.SetTicket(Jira(None, Some(""), row.ticketLink));
      incident.startedDatetime := Some(row.startedDatetime);
      r := Some(incident);
    }

    /** `rows` lists exactly the team's rows of the incidents table, each once. */
    ghost predicate IsTeamListing(rows: seq<IncidentRecord>, teamId: string)
      reads this
    {
      RowsNoDuplicates(rows)
      && forall r :: r in rows <==> (r.teamId == teamId
        && IncidentKey(teamId, r.incidentId) in incidents && incidents[IncidentKey(teamId, r.incidentId)] == r)
    }

    /** The rows a query on the team's partition key returns. DynamoDB returns them sorted by
        incident id; the order here is left open. */
    method QueryTeam(teamId: string) returns (rows: seq<IncidentRecord>)
      requires Valid()
      ensures IsTeamListing(rows, teamId)
    {
      rows := [];
      var keys := incidents.Keys;
      while keys != {}
        invariant keys <= incidents.Keys
        invariant RowsNoDuplicates(rows)
        invariant forall r :: r in rows <==> (r.teamId == teamId
          && IncidentKey(teamId, r.incidentId) in incidents.Keys - keys
          && incidents[IncidentKey(teamId, r.incidentId)] == r)
        decreases keys
      {
        var k :| k in keys;
        if k.teamId == teamId {
          rows := rows + [incidents[k]];
        }
        keys := keys - {k};
      }
    }

    /** `get_ongoing_incidents`: the team's rows whose status is ONGOING. */
    method GetOngoingIncidents(teamId: string, now: Instant) returns (ongoing: seq<Incident>)
      requires Valid()
      ensures exists rows: seq<IncidentRecord> :: (IsTeamListing(rows, teamId)
        && IncidentViews(ongoing) == RecordViews(OngoingRows(rows)))
    {
      var rows := QueryTeam(teamId);
      ongoing := FilterOngoingIncidents(rows, now);
    }

    /** Over the whole table: a stored incident of the team is among the rows the ongoing
        filter keeps from any listing of the team exactly when it was stored as ONGOING. */
    lemma StoredIncidentListedOngoing(rows: seq<IncidentRecord>, teamId: string, incidentId: string)
      requires Valid() && IsTeamListing(rows, teamId) && IncidentKey(teamId, incidentId) in incidents
      ensures var row := incidents[IncidentKey(teamId, incidentId)];
        row in OngoingRows(rows) <==> row.status == StatusName(Ongoing)
    {
      var row := incidents[IncidentKey(teamId, incidentId)];
      assert row.teamId == teamId && row.incidentId == incidentId;
    }

    /** `get_today_incidents`: the team's rows started today, of any status; `[]` when some row's
        start time cannot be parsed (the exception is swallowed). */
    method GetTodayIncidents(teamId: string, now: Instant) returns (today: seq<Incident>)
      requires Valid()
      ensures exists rows: seq<IncidentRecord> :: (IsTeamListing(rows, teamId)
        && IncidentViews(today) == (match TodayRows(rows, CurrentDate(now))
            case Success(kept) => RecordViews(kept)
            case Failure(_) => []))
    {
      var rows := QueryTeam(teamId);
      var filtered := FilterTodayIncidents(rows, now);
      today := match filtered case Success(kept) => kept case Failure(_) => [];
    }
  }

  // -------------------------------------------------------------- the two filters

  predicate RowsNoDuplicates(rows: seq<IncidentRecord>) {
    forall i, j :: 0 <= i < j < |rows| ==> rows[i] != rows[j]
  }

  function IncidentViews(s: seq<Incident>): (r: seq<IncidentView>)
    reads set i | i in s
    ensures |r| == |s| && forall k :: 0 <= k < |s| ==> r[k] == s[k].View()
  {
    if s == [] then [] else [s[0].View()] + IncidentViews(s[1..])
  }

  function RecordViews(rows: seq<IncidentRecord>): (r: seq<IncidentView>)
    ensures |r| == |rows| && forall k :: 0 <= k < |rows| ==> r[k] == RecordView(rows[k])
  {
    if rows == [] then [] else [RecordView(rows[0])] + RecordViews(rows[1..])
  }

  /** The rows `__filter_ongoing_incidents` keeps, in order: status exactly "ONGOING". */
  function OngoingRows(rows: seq<IncidentRecord>): (r: seq<IncidentRecord>)
    ensures forall x :: x in r <==> x in rows && x.status == StatusName(Ongoing)
    ensures |r| <= |rows|
  {
    if rows == [] then []
    else
      var rest := OngoingRows(rows[1..]);
      assert forall x :: x in rows <==> x == rows[0] || x in rows[1..];
      if rows[0].status == StatusName(Ongoing) then [rows[0]] + rest else rest
  }

  /** The rows `__filter_today_incidents` keeps, in order: started on `today`, whatever the
      status. Fails as soon as a row's start time does not parse. */
  function TodayRows(rows: seq<IncidentRecord>, today: Date): (r: Result<seq<IncidentRecord>>)
    ensures r.Success? ==> |r.value| <= |rows|
  {
    if rows == [] then Success([])
    else
      match StartedToday(Some(rows[0].startedDatetime), today)
      case Failure(e) => Failure(e)
      case Success(isToday) =>
        match TodayRows(rows[1..], today)
        case Failure(e) => Failure(e)
        case Success(rest) => Success(if isToday then [rows[0]] + rest else rest)
  }

  /** `__filter_ongoing_incidents`: builds an incident from every ONGOING row, in order. */
  method FilterOngoingIncidents(rows: seq<IncidentRecord>, now: Instant) returns (ongoing: seq<Incident>)
    ensures IncidentViews(ongoing) == RecordViews(OngoingRows(rows))
  {
    ongoing := [];
    var i := 0;
    while i < |rows|
      invariant 0 <= i <= |rows|
      invariant IncidentViews(ongoing) == RecordViews(OngoingRows(rows[..i]))
    {
      OngoingRowsSnoc(rows[..i], rows[i]);
      assert rows[..i + 1] == rows[..i] + [rows[i]];
      if rows[i].status == StatusName(Ongoing) {
        var incident := new Incident.BuildFromDict(rows[i], now);
        ViewsSnoc(ongoing, incident);
        RecordViewsSnoc(OngoingRows(rows[..i]), rows[i]);
        ongoing := ongoing + [incident];
      }
      i := i + 1;
    }
    assert rows[..|rows|] == rows;
  }

  /** `__filter_today_incidents`: builds an incident from every row and keeps those from today,
      in order. `is_from_today` raises on a start time that does not parse. */
  method FilterTodayIncidents(rows: seq<IncidentRecord>, now: Instant) returns (r: Result<seq<Incident>>)
    ensures r.Success? <==> TodayRows(rows, CurrentDate(now)).Success?
    ensures r.Success? ==> IncidentViews(r.value) == RecordViews(TodayRows(rows, CurrentDate(now)).value)
  {
    var today := CurrentDate(now);
    var kept: seq<Incident> := [];
    var i := 0;
    assert rows[..0] == [];
    assert TodayRows([], today) == Success([]);
    while i < |rows|
      invariant 0 <= i <= |rows|
      invariant TodayRows(rows[..i], today).Success?
      invariant IncidentViews(kept) == RecordViews(TodayRows(rows[..i], today).value)
    {
      assert rows[..i + 1] == rows[..i] + [rows[i]];
      TodayRowsSnoc(rows[..i], rows[i], today);
      var incident := new Incident.BuildFromDict(rows[i], now);
      var fromToday := incident.IsFromToday(today);
      if fromToday.Failure? {
        TodayRowsFailsWithRow(rows, i, today);
        return Failure(fromToday.error);
      }
      if fromToday.value {
        ViewsSnoc(kept, incident);
        RecordViewsSnoc(TodayRows(rows[..i], today).value, rows[i]);
        kept := kept + [incident];
      }
      i := i + 1;
    }
    assert rows[..|rows|] == rows;
    r := Success(kept);
  }

  lemma ViewsSnoc(s: seq<Incident>, i: Incident)
    ensures IncidentViews(s + [i]) == IncidentViews(s) + [i.View()]
  {
  }

  lemma RecordViewsSnoc(rows: seq<IncidentRecord>, x: IncidentRecord)
    ensures RecordViews(rows + [x]) == RecordViews(rows) + [RecordView(x)]
  {
  }

  lemma {:induction false} OngoingRowsSnoc(rows: seq<IncidentRecord>, x: IncidentRecord)
    ensures OngoingRows(rows + [x]) == OngoingRows(rows) + (if x.status == StatusName(Ongoing) then [x] else [])
    decreases |rows|
  {
    if rows != [] {
      assert (rows + [x])[1..] == rows[1..] + [x];
      OngoingRowsSnoc(rows[1..], x);
    }
  }

  lemma {:induction false} TodayRowsSnoc(rows: seq<IncidentRecord>, x: IncidentRecord, today: Date)
    requires TodayRows(rows, today).Success?
    ensures TodayRows(rows + [x], today) == match StartedToday(Some(x.startedDatetime), today)
      case Failure(e) => Failure(e)
      case Success(b) => Success(TodayRows(rows, today).value + if b then [x] else [])
    decreases |rows|
  {
    if rows == [] {
      var none: seq<IncidentRecord> := [];
      assert rows + [x] == [x] + none;
      TodayRowsCons(x, none, today);
      assert TodayRows(none, today) == Success(none);
      assert [x] + none == none + [x] && none + none == none;
    } else {
      var y, rest := rows[0], rows[1..];
      assert rows == [y] + rest;
      assert rows + [x] == [y] + (rest + [x]);
      TodayRowsCons(y, rest, today);
      TodayRowsCons(y, rest + [x], today);
      TodayRowsSnoc(rest, x, today);
      var kept := TodayRows(rest, today).value;
      match StartedToday(Some(x.startedDatetime), today)
      case Failure(_) =>
      case Success(b) =>
        var extra := if b then [x] else [];
        Associates([y], kept, extra);
    }
  }

  /** The filter on a list with a first row. */
  lemma TodayRowsCons(y: IncidentRecord, rest: seq<IncidentRecord>, today: Date)
    ensures TodayRows([y] + rest, today) == match StartedToday(Some(y.startedDatetime), today)
      case Failure(e) => Failure(e)
      case Success(b) =>
        match TodayRows(rest, today)
        case Failure(e) => Failure(e)
        case Success(kept) => Success(if b then [y] + kept else kept)
  {
    assert ([y] + rest)[0] == y && ([y] + rest)[1..] == rest;
  }

  /** The filter fails exactly when some row's start time does not parse, and otherwise keeps
      exactly the rows started on `today`. */
  lemma {:induction false} TodayRowsKeepsToday(rows: seq<IncidentRecord>, today: Date)
    ensures TodayRows(rows, today).Success? <==> forall x :: x in rows ==> Parse(x.startedDatetime).Success?
    ensures TodayRows(rows, today).Success? ==>
      forall x :: x in TodayRows(rows, today).value <==> x in rows && Parse(x.startedDatetime).value.date == today
    decreases |rows|
  {
    if rows != [] {
      assert forall x :: x in rows <==> x == rows[0] || x in rows[1..];
      TodayRowsKeepsToday(rows[1..], today);
    }
  }

  lemma TodayRowsFailsWithRow(rows: seq<IncidentRecord>, i: int, today: Date)
    requires 0 <= i < |rows| && Parse(rows[i].startedDatetime).Failure?
    ensures TodayRows(rows, today).Failure?
  {
    TodayRowsKeepsToday(rows, today);
    assert rows[i] in rows;
  }
}
