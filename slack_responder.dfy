/** A responder to notify about an incident: a Slack user (id starting with `U`) or a Slack
    channel (id starting with `C`). */
module SlackResponders {

  datatype SlackResponder = SlackResponder(id: string) {
    /** Reads the first character of the id, so the id must not be empty. */
    predicate IsUser()
      requires |id| > 0
    {
      id[0] == 'U'
    }

    predicate IsChannel()
      requires |id| > 0
    {
      id[0] == 'C'
    }
  }

  /** The three ways a responder id can be read. */
  datatype Kind = UserKind | ChannelKind | NeitherKind

  function KindOf(r: SlackResponder): (k: Kind)
    requires |r.id| > 0
    ensures k == UserKind <==> r.IsUser()
    ensures k == ChannelKind <==> r.IsChannel()
    ensures k == NeitherKind <==> r.id[0] != 'U' && r.id[0] != 'C'
  {
    if r.IsUser() then UserKind else if r.IsChannel() then ChannelKind else NeitherKind
  }

  /** No id is both a user and a channel, and the kind depends on the first character alone. */
  lemma KindIsFirstCharacter(r: SlackResponder, s: SlackResponder)
    requires |r.id| > 0 && |s.id| > 0
    ensures !(r.IsUser() && r.IsChannel())
    ensures r.id[0] == s.id[0] ==> KindOf(r) == KindOf(s)
  {
  }

  /** The two cases the repository's own tests check. */
  lemma RespondersFromTests()
    ensures SlackResponder("UserResponderID").IsUser() && !SlackResponder("UserResponderID").IsChannel()
    ensures SlackResponder("ChannelResponderID").IsChannel() && !SlackResponder("ChannelResponderID").IsUser()
  {
  }
}
