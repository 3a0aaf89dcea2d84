/** What the bot does when it is @-mentioned: an if/elif chain over the message text picks one
    action, and each action's reply is a fixed text or one built from what the handler returned. */
module Mention {
  import opened Wrappers
  import opened Text
  import Integrations
  import Handler

  /** The fields of a mention event that the routing reads. */
  datatype MentionEvent = MentionEvent(subtype: Option<string>, text: Option<string>, user: string)

  /** The branch `handle_mention` takes. */
  datatype MentionRoute =
    | ReplyAlive
    | CreateTicket
    | CreateCall
    | GetCall
    | NewIncident(name: string)
    | WhoIsOncall
    | ListOngoing
    | NoAction

  const TextMissing: string := "TypeError: argument of type 'NoneType' is not iterable"
  const TicketNotCreated: string := "Ticket not created. " + "Do you have a ticket integration?"
  const CallNotCreated: string := "Call not created. " + "Do you have a call integration?"
  const NoCallInChannel: string := "No call available in this channel"
  const OncallNotSet: string := "An oncall hasn't been set yet." + "```/sereno set oncall <user>```"

  /** Whether the text asks who is on call, with either spelling the source accepts (the second
      uses the typographic apostrophe U+2019). */
  predicate AsksOncall(text: string) {
    Contains(text, "who is oncall") || Contains(text, "who’s oncall")
  }

  /** Whether the text asks for the ongoing incidents. */
  predicate AsksOngoing(text: string) {
    Contains(text, "ongoing") && (Contains(text, "incident") || Contains(text, "incidents"))
  }

  /** Whether the text asks for a new incident. */
  predicate AsksNewIncident(text: string) {
    Contains(text, "new incident") || Contains(text, "create incident")
  }

  /** `handle_mention`'s choice. A message with a subtype (an edit, a bot message) is never acted
      on; without one the text is searched, and a missing text raises. */
  function Route(ev: MentionEvent): (r: Result<MentionRoute>)
    ensures ev.subtype.Some? ==> r == Success(NoAction)
    ensures r.Failure? <==> ev.subtype.None? && ev.text.None?
  {
    if ev.subtype.Some? then Success(NoAction)
    else if ev.text.None? then Failure(TextMissing)
    else Success(RouteText(ev.text.value))
  }

  /** The branch taken for the text of a message without a subtype. */
  function RouteText(t: string): (r: MentionRoute)
    ensures r.NewIncident? ==> r.name == Handler.SanitiseIncidentName(t)
    ensures r.NewIncident? <==>
      !Contains(t, "alive") && !Contains(t, "create ticket") && !Contains(t, "create call") && !Contains(t, "get call")
      && AsksNewIncident(t)
  {
    if Contains(t, "alive") then ReplyAlive
    else if Contains(t, "create ticket") then CreateTicket
    else if Contains(t, "create call") then CreateCall
    else if Contains(t, "get call") then GetCall
    else if AsksNewIncident(t) then NewIncident(Handler.SanitiseIncidentName(t))
    else if AsksOncall(t) then WhoIsOncall
    else if AsksOngoing(t) then ListOngoing
    else NoAction
  }

  /** The branches are tried in order and the first that holds wins: alive, create ticket,
      create call, get call, a new incident, who is on call, the ongoing incidents. */
  lemma RoutePrecedence(subtype: Option<string>, t: string, user: string)
    ensures var r := Route(MentionEvent(subtype, Some(t), user));
      r.Success?
      && (r.value == ReplyAlive <==> subtype.None? && Contains(t, "alive"))
      && (r.value == CreateTicket <==> subtype.None? && !Contains(t, "alive") && Contains(t, "create ticket"))
      && (r.value == CreateCall <==>
            subtype.None? && !Contains(t, "alive") && !Contains(t, "create ticket") && Contains(t, "create call"))
      && (r.value == GetCall <==>
            subtype.None? && !Contains(t, "alive") && !Contains(t, "create ticket") && !Contains(t, "create call")
            && Contains(t, "get call"))
      && (r.value.NewIncident? <==>
            subtype.None? && !Contains(t, "alive") && !Contains(t, "create ticket") && !Contains(t, "create call")
            && !Contains(t, "get call") && AsksNewIncident(t))
      && (r.value == WhoIsOncall <==>
            subtype.None? && !Contains(t, "alive") && !Contains(t, "create ticket") && !Contains(t, "create call")
            && !Contains(t, "get call") && !AsksNewIncident(t) && AsksOncall(t))
      && (r.value == ListOngoing <==>
            subtype.None? && !Contains(t, "alive") && !Contains(t, "create ticket") && !Contains(t, "create call")
            && !Contains(t, "get call") && !AsksNewIncident(t) && !AsksOncall(t) && AsksOngoing(t))
  {
  }

  /** The incident is created under the sanitised text, which has no whitespace at either end
      and is no longer than the message. */
  lemma NewIncidentNameIsSanitised(t: string)
    requires RouteText(t).NewIncident?
    ensures RouteText(t).name == Handler.SanitiseIncidentName(t)
    ensures |RouteText(t).name| <= |t| && Strip(RouteText(t).name) == RouteText(t).name
  {
    Handler.SanitisedIsTrimmed(t);
  }

  /** "incidents" contains "incident", so the second half of the ongoing test adds nothing. */
  lemma OngoingNeedsOnlyIncident(t: string)
    ensures AsksOngoing(t) <==> Contains(t, "ongoing") && Contains(t, "incident")
  {
    if Contains(t, "incidents") {
      assert "incidents" == "incident" + "s";
      ContainsLonger(t, "incident", "s");
    }
  }

  /** `Yes, <@user>! I am!` */
  function AliveReply(user: string): (r: string)
    ensures |r| == |user| + 15 && r[..7] == "Yes, <@" && r[7..|r| - 8] == user && r[|r| - 8..] == ">! I am!"
  {
    "Yes, <@" + user + ">! I am!"
  }

  /** The reply to "create ticket": the new ticket's link, or the hint to add an integration. */
  function TicketReply(ticket: Option<Integrations.Integration>): (r: string)
    ensures ticket.None? <==> r == TicketNotCreated
    ensures ticket.Some? ==> |r| >= 16 && r[..16] == "ticket created: " && r[16..] == Integrations.GetLink(ticket.value)
  {
    match ticket
    case Some(i) =>
      var r := "ticket created: " + Integrations.GetLink(i);
      assert r[0] == 't' && TicketNotCreated[0] == 'T';
      r
    case None => TicketNotCreated
  }

  /** The reply to "create call": the new call's link, or the hint to add an integration. */
  function CallReply(call: Option<Integrations.Integration>): (r: string)
    ensures call.None? <==> r == CallNotCreated
    ensures call.Some? ==> |r| >= 14 && r[..14] == "call created: " && r[14..] == Integrations.GetLink(call.value)
  {
    match call
    case Some(i) =>
      var r := "call created: " + Integrations.GetLink(i);
      assert r[0] == 'c' && CallNotCreated[0] == 'C';
      r
    case None => CallNotCreated
  }

  /** The reply to "get call": an empty or missing link counts as no call. */
  function GetCallReply(link: Option<string>): (r: string)
    ensures (link.None? || link.value == "") <==> r == NoCallInChannel
    ensures link.Some? && link.value != "" ==> |r| >= 6 && r[..6] == "Call: " && r[6..] == link.value
  {
    if link.Some? && link.value != "" then
      var r := "Call: " + link.value;
      assert r[0] != NoCallInChannel[0];
      r
    else NoCallInChannel
  }

  /** The reply to "who is oncall": the on-call user, or the hint to set one. */
  function OncallReply(userId: Option<string>): (r: string)
    ensures userId.None? <==> r == OncallNotSet
    ensures userId.Some? ==> |r| == |userId.value| + 13 && r[..2] == "<@" && r[2..|r| - 11] == userId.value && r[|r| - 11..] == "> is oncall"
  {
    match userId
    case Some(u) =>
      var r := "<@" + u + "> is oncall";
      assert r[0] == '<' && OncallNotSet[0] == 'A';
      r
    case None => OncallNotSet
  }
}
