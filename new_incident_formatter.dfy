/** The message announcing a new incident: a heading, the incident's name, on-call person and
    channel, and a section of links to its call and ticket when there are any. */
module NewIncidentFormatter {
  import opened Wrappers
  import opened Transport
  import opened Integrations

  const Heading: string := "A new incident has been opened"
  const NoDescription: string := "No description set"
  const NoOncall: string := "No oncall set"

  /** The name shown: the incident's own, or a placeholder when it is empty. */
  function NameText(name: string): string {
    if name != "" then name else NoDescription
  }

  /** The on-call person as a mention, or a placeholder when none (or "") is set. */
  function OncallText(oncall: Option<string>): string {
    if oncall.Some? && oncall.value != "" then "<@" + oncall.value + ">" else NoOncall
  }

  /** Python's rendering of `get_code()` in an f-string: the code, or `None`. */
  function CodeText(code: Option<string>): string {
    if code.Some? then code.value else "None"
  }

  /** `__build_call_section`. */
  function CallField(i: Integration): TextObject {
    Mrkdwn("Call\n<" + GetLink(i) + "|Join>")
  }

  /** `__build_ticket_section`: the link labelled with the ticket code. */
  function TicketField(i: Integration): TextObject {
    Mrkdwn("Ticket\n<" + GetLink(i) + "|" + CodeText(GetCode(i)) + ">")
  }

  /** The field one integration contributes: a call or a ticket field when it has a link. */
  function LinkField(i: Integration): (f: Option<TextObject>)
    ensures f.Some? <==> GetLink(i) != ""
    ensures f.Some? && GetType(i) == Call ==> f.value == CallField(i)
    ensures f.Some? && GetType(i) == Ticket ==> f.value == TicketField(i)
  {
    if GetType(i) == Call && GetLink(i) != "" then Some(CallField(i))
    else if GetType(i) == Ticket && GetLink(i) != "" then Some(TicketField(i))
    else None
  }

  /** The fields of the links section, in the integrations' order. */
  function LinkFields(integrations: seq<Integration>): seq<TextObject> {
    if |integrations| == 0 then []
    else
      var last := integrations[|integrations| - 1];
      LinkFields(integrations[..|integrations| - 1]) + (if LinkField(last).Some? then [LinkField(last).value] else [])
  }

  /** The number of integrations that have a link. */
  function LinkedCount(integrations: seq<Integration>): nat {
    if |integrations| == 0 then 0
    else LinkedCount(integrations[..|integrations| - 1]) + (if GetLink(integrations[|integrations| - 1]) != "" then 1 else 0)
  }

  /** One field per integration that has a link, and only for those. */
  lemma {:induction false} LinkFieldsCount(integrations: seq<Integration>)
    ensures |LinkFields(integrations)| == LinkedCount(integrations)
    ensures LinkedCount(integrations) == 0 <==> forall k :: 0 <= k < |integrations| ==> GetLink(integrations[k]) == ""
    decreases |integrations|
  {
    if |integrations| > 0 {
      var n := |integrations| - 1;
      LinkFieldsCount(integrations[..n]);
      assert forall k :: 0 <= k < n ==> integrations[..n][k] == integrations[k];
    }
  }

  /** Fields follow the integrations' order: the fields of a concatenation are the concatenation
      of the fields. */
  lemma {:induction false} LinkFieldsAppend(a: seq<Integration>, b: seq<Integration>)
    ensures LinkFields(a + b) == LinkFields(a) + LinkFields(b)
    decreases |b|
  {
    if |b| > 0 {
      var n := |b| - 1;
      assert (a + b)[..|a + b| - 1] == a + b[..n];
      assert (a + b)[|a + b| - 1] == b[n];
      LinkFieldsAppend(a, b[..n]);
    } else {
      assert a + b == a;
    }
  }

  /** The fields made for a ticket followed by a call, as `create_incident` hands them over. */
  lemma TicketThenCall(ticket: Integration, call: Integration)
    requires ticket.Jira? && call.Zoom? && ticket.link != "" && call.link != ""
    ensures LinkFields([ticket, call]) == [TicketField(ticket), CallField(call)]
  {
    assert [ticket, call][..1] == [ticket];
    assert [ticket][..0] == [];
    assert LinkField(ticket) == Some(TicketField(ticket));
    assert LinkFields([ticket]) == [TicketField(ticket)];
    assert LinkField(call) == Some(CallField(call));
  }

  /** `__build_links_section`: the fields of all integrations with a link, or none at all. */
  method BuildLinksSection(integrations: seq<Integration>) returns (section: Option<Block>)
    ensures section.Some? <==> LinkFields(integrations) != []
    ensures section.Some? ==> section.value == FieldsSection(LinkFields(integrations))
  {
    var fields: seq<TextObject> := [];
    var i := 0;
    while i < |integrations|
      invariant 0 <= i <= |integrations|
      invariant fields == LinkFields(integrations[..i])
    {
      var integration := integrations[i];
      assert integrations[..i + 1][..i] == integrations[..i];
      if GetType(integration) == Call && GetLink(integration) != "" {
        fields := fields + [CallField(integration)];
      }
      if GetType(integration) == Ticket && GetLink(integration) != "" {
        fields := fields + [TicketField(integration)];
      }
      i := i + 1;
    }
    assert integrations[..i] == integrations;
    if |fields| > 0 {
      return Some(FieldsSection(fields));
    }
    section := None;
  }

  /** `build_response`: two blocks always, and a third with the links iff some integration has
      a link. */
  method BuildResponse(name: string, channelId: string, integrations: seq<Integration>, oncall: Option<string>)
    returns (blocks: seq<Block>)
    ensures |blocks| == 2 || |blocks| == 3
    ensures blocks[0] == Section(Mrkdwn(Heading))
    ensures blocks[1] == FieldsSection([Mrkdwn("*Incident:*\n" + NameText(name)),
      Mrkdwn("*Oncall:*\n" + OncallText(oncall)), Mrkdwn("*Channel:*\n<#" + channelId + ">")])
    ensures |blocks| == 3 <==> exists k :: 0 <= k < |integrations| && GetLink(integrations[k]) != ""
    ensures |blocks| == 3 ==> blocks[2] == FieldsSection(LinkFields(integrations))
  {
    blocks := [Section(Mrkdwn(Heading)), FieldsSection([Mrkdwn("*Incident:*\n" + NameText(name)),
      Mrkdwn("*Oncall:*\n" + OncallText(oncall)), Mrkdwn("*Channel:*\n<#" + channelId + ">")])];
    var fields := BuildLinksSection(integrations);
    LinkFieldsCount(integrations);
    if fields.Some? {
      blocks := blocks + [fields.value];
    }
  }
}
