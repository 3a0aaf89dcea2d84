/** The question asked when ongoing incidents already started today: the incidents, then a
    button that creates another incident and one that cancels. */
module CreateIncidentConfirmFormatter {
  import opened Wrappers
  import opened Transport
  import opened Incidents

  const Question: string := ":eyes: There are already incidents opened *TODAY* \n \n Do you still wish to create a new incident?"

  /** Python's rendering of the `status` attribute in an f-string: the enum member's qualified
      name, or the raw string read from the table. */
  function StatusText(s: StatusValue): string {
    match s
    case Enum(status) => "IncidentStatus." + StatusName(status)
    case Raw(text) => text
  }

  /** `__incident_section`. */
  function IncidentSection(v: IncidentView): Block {
    Section(Mrkdwn("*<#" + v.incidentId + ">*\n*Started at*: " + v.startedDatetime.GetOr("None")
      + "\n*Status*: " + StatusText(v.status)))
  }

  /** `__add_action_buttons`: the create button carries the incident name back. */
  function ActionButtons(name: string): Block {
    Actions([
      Button(PlainText("Create new incident", true), Primary, "create_incident", Some(name)),
      Button(PlainText("Cancel", true), Danger, "cancel", None)])
  }

  /** The name the formatter keeps: a missing or empty name becomes a single space. */
  function DefaultName(name: Option<string>): (r: string)
    ensures r != ""
    ensures name.Some? && name.value != "" ==> r == name.value
  {
    if name.Some? && name.value != "" then name.value else " "
  }

  class CreateIncidentConfirmFormatter {
    const incidentName: string

    constructor (incidentName: Option<string>)
      ensures this.incidentName == DefaultName(incidentName)
    {
      this.incidentName := DefaultName(incidentName);
    }

    /** `format`: the question and a divider, a section and a divider per incident in order,
        and the buttons last. */
    method Format(incidents: seq<Incident>) returns (blocks: seq<Block>)
      ensures |blocks| == 2 + 2 * |incidents| + 1
      ensures blocks[0] == Section(Mrkdwn(Question)) && blocks[1] == Divider
      ensures forall k :: 0 <= k < |incidents| ==>
        blocks[2 + 2 * k] == IncidentSection(incidents[k].View()) && blocks[3 + 2 * k] == Divider
      ensures blocks[|blocks| - 1] == ActionButtons(incidentName)
    {
      blocks := [Section(Mrkdwn(Question)), Divider];
      var i := 0;
      while i < |incidents|
        invariant 0 <= i <= |incidents|
        invariant |blocks| == 2 + 2 * i
        invariant blocks[0] == Section(Mrkdwn(Question)) && blocks[1] == Divider
        invariant forall k :: 0 <= k < i ==>
          blocks[2 + 2 * k] == IncidentSection(incidents[k].View()) && blocks[3 + 2 * k] == Divider
      {
        blocks := blocks + [IncidentSection(incidents[i].View()), Divider];
        i := i + 1;
      }
      blocks := blocks + [ActionButtons(incidentName)];
    }
  }
}
