/** The incident entity: one incident per Slack channel, with an optional ticket and call. */
module Incidents {
  import opened Wrappers
  import opened DateTimeUtils
  import opened Integrations

  datatype IncidentStatus = Ongoing | Mitigated | Closed

  /** The enum member's `.name`, which is also its value. */
  function StatusName(s: IncidentStatus): (r: string)
    ensures r in {"ONGOING", "MITIGATED", "CLOSED"}
  {
    match s
    case Ongoing => "ONGOING"
    case Mitigated => "MITIGATED"
    case Closed => "CLOSED"
  }

  lemma StatusNamesDistinct(a: IncidentStatus, b: IncidentStatus)
    ensures StatusName(a) == StatusName(b) <==> a == b
  {
  }

  /** What the `status` attribute holds: the constructor stores the enum member, while
      `build_from_dict` stores the raw string read from the table. */
  datatype StatusValue = Enum(status: IncidentStatus) | Raw(text: string)

  /** One row of the incidents table, keyed by team and incident (channel) id. */
  datatype IncidentRecord = IncidentRecord(
    teamId: string, incidentId: string, name: string, callLink: string, ticketLink: string,
    status: string, startedDatetime: string)

  /** A snapshot of every field of an `Incident`. */
  datatype IncidentView = IncidentView(
    teamId: string, incidentId: string, name: string, status: StatusValue,
    startedDatetime: Option<string>, ticket: Option<Integration>, call: Option<Integration>)

  /** What `build_from_dict` makes of a row: its ids, name and start time, the raw status, and
      neither ticket nor call. */
  function RecordView(r: IncidentRecord): IncidentView {
    IncidentView(r.teamId, r.incidentId, r.name, Raw(r.status), Some(r.startedDatetime), None, None)
  }

  /** `has_ticket` / `has_call`: the reference is set and its link is non-empty. */
  predicate HasLink(i: Option<Integration>) {
    i.Some? && i.value.link != ""
  }

  /** `is_from_today` on a start time and the current day: false without a start time, otherwise
      whether the start time's day is today. Parsing the start time can raise. */
  function StartedToday(started: Option<string>, today: Date): (r: Result<bool>)
    ensures started.None? ==> r == Success(false)
    ensures started.Some? ==> (r.Success? <==> Parse(started.value).Success?)
    ensures r.Success? && started.Some? ==> (r.value <==> Parse(started.value).value.date == today)
  {
    match started
    case None => Success(false)
    case Some(s) =>
      match ConvertStringDateToDateOnly(s)
      case Failure(e) => Failure(e)
      case Success(d) => Success(d == today)
  }

  /** An incident stamped with the clock reading is from the clock's day. */
  lemma StampedTodayIsFromToday(now: Instant)
    ensures StartedToday(Some(CurrentDatetimeAsString(now)), CurrentDate(now)) == Success(true)
  {
  }

  /** A start time on another day is not from today. */
  lemma OtherDayIsNotToday(t: Instant, today: Date)
    requires t.date != today
    ensures StartedToday(Some(Format(t)), today) == Success(false)
  {
    ParseFormat(t);
  }

  class Incident {
    var teamId: string
    var incidentId: string
    var name: string
    var status: StatusValue
    var startedDatetime: Option<string>
    var ticket: Option<Integration>
    var call: Option<Integration>

    function View(): IncidentView
      reads this
    {
      IncidentView(teamId, incidentId, name, status, startedDatetime, ticket, call)
    }

    /** `Incident(team_id, channel_id, name)`: ongoing, stamped with the clock, nothing attached. */
    constructor (teamId: string, channelId: string, name: string, now: Instant)
      ensures View() == IncidentView(teamId, channelId, name, Enum(Ongoing),
        Some(CurrentDatetimeAsString(now)), None, None)
    {
      this.teamId := teamId;
      this.incidentId := channelId;
      this.name := name;
      this.status := Enum(Ongoing);
      this.startedDatetime := Some(CurrentDatetimeAsString(now));
      this.ticket := None;
      this.call := None;
    }

    /** `Incident.build_from_dict`: the constructor, then the raw status string and the stored
        start time overwrite the defaults. */
    constructor BuildFromDict(r: IncidentRecord, now: Instant)
      ensures View() == RecordView(r)
    {
      this.teamId := r.teamId;
      this.incidentId := r.incidentId;
      this.name := r.name;
      this.status := Enum(Ongoing);
      this.startedDatetime := Some(CurrentDatetimeAsString(now));
      this.ticket := None;
      this.call := None;
      new;
      this.status := Raw(r.status);
      this.startedDatetime := Some(r.startedDatetime);
    }

    method SetCall(c: Integration)
      modifies this
      ensures View() == old(View()).(call := Some(c))
    {
      call := Some(c);
    }

    method SetTicket(t: Integration)
      modifies this
      ensures View() == old(View()).(ticket := Some(t))
    {
      ticket := Some(t);
    }

    function IsFromToday(today: Date): Result<bool>
      reads this
    {
      StartedToday(startedDatetime, today)
    }

    predicate HasTicket()
      reads this
    {
      HasLink(ticket)
    }

    predicate HasCall()
      reads this
    {
      HasLink(call)
    }
  }
}
