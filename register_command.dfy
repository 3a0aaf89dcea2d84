/** The shared parts of the `/sereno register` reply formatters: the "already registered"
    context block and the OAuth `state` parameter that identifies the team and the user. */
module RegisterCommand {
  import opened Transport
  import Utf8
  import Base64

  /** `build_already_registered_item`: a check mark and the words "Already registered". */
  const AlreadyRegisteredItem: Block :=
    Context([Mrkdwn(":white_check_mark:"), PlainText("Already registered", true)])

  /** The text the `state` parameter carries. */
  function StateText(teamId: string, userId: string): string {
    teamId + ":" + userId
  }

  /** `build_state_param`: the Base64 form of the UTF-8 octets of `team:user`, a whole number of
      four-character groups of the Base64 alphabet and padding. */
  function BuildStateParam(teamId: string, userId: string): (s: string)
    ensures |s| % 4 == 0 && |s| >= 4
    ensures forall k :: 0 <= k < |s| ==> Base64.Value(s[k]).Some? || s[k] == Base64.Pad
  {
    Base64.Encode(Utf8.Encode(StateText(teamId, userId)))
  }
}
