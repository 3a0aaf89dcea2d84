/** The two integrations an incident can carry: a Jira ticket and a Zoom call. The abstract
    `Integration` base class and the `IntegrationType` enum become one datatype with a tag. */
module Integrations {
  import opened Wrappers
  import opened Text
  import opened Tokens

  /** `IntegrationType`: what an integration provides. */
  datatype IntegrationType = Ticket | Call

  /** A link is a string, with Python's `None` kept as the empty string. The one place the
      source can store a non-string link, a meeting reply without a string `join_url`, is
      narrowed to "" as well (see `ZoomApiService.MeetingLinkFromReply`). */
  datatype Integration =
    | Jira(tokenData: Option<TokenData>, accountId: Option<string>, link: string)
    | Zoom(tokenData: Option<TokenData>, link: string)

  const BrowseSeparator: string := "/browse/"

  /** `Jira(token_data, account_id)`: no link yet. */
  function NewJira(tokenData: TokenData, accountId: Option<string>): (j: Integration)
    ensures j.Jira? && j.tokenData == Some(tokenData) && j.accountId == accountId && GetLink(j) == ""
  {
    Jira(Some(tokenData), accountId, "")
  }

  /** `Zoom(token_data)`: no link yet. */
  function NewZoom(tokenData: TokenData): (z: Integration)
    ensures z.Zoom? && z.tokenData == Some(tokenData) && GetLink(z) == ""
  {
    Zoom(Some(tokenData), "")
  }

  /** `is_valid`: the token data must be valid; Jira also needs a non-empty account id. The
      Python method reads the token data, so it must be present. */
  predicate IsValid(i: Integration)
    requires i.tokenData.Some?
  {
    Tokens.IsValid(i.tokenData.value) && (i.Jira? ==> Truthy(i.accountId))
  }

  function GetLink(i: Integration): string {
    i.link
  }

  function GetType(i: Integration): (t: IntegrationType)
    ensures t == Ticket <==> i.Jira?
    ensures t == Call <==> i.Zoom?
  {
    if i.Jira? then Ticket else Call
  }

  /** `get_code`: for a Jira ticket, the text after `/browse/` when the link splits into exactly
      two pieces around it; Zoom never has a code. */
  function GetCode(i: Integration): Option<string> {
    match i
    case Zoom(_, _) => None
    case Jira(_, _, link) =>
      if link == "" then None
      else
        var pieces := Split(link, BrowseSeparator);
        if |pieces| == 2 then Some(pieces[1]) else None
  }

  /** A code is always the part after the one and only `/browse/` of the link. */
  lemma CodeFollowsOnlySeparator(i: Integration)
    requires GetCode(i).Some?
    ensures exists before :: (i.link == before + BrowseSeparator + GetCode(i).value
      && !Contains(before, BrowseSeparator) && !Contains(GetCode(i).value, BrowseSeparator))
  {
    var pieces := Split(i.link, BrowseSeparator);
    JoinSplit(i.link, BrowseSeparator);
    SplitPiecesFree(i.link, BrowseSeparator);
    assert pieces[1..] == [pieces[1]];
    assert i.link == pieces[0] + BrowseSeparator + pieces[1];
  }

  /** A link without `/browse/` has no code. */
  lemma NoSeparatorNoCode(i: Integration)
    requires i.Jira? && !Contains(i.link, BrowseSeparator)
    ensures GetCode(i) == None
  {
  }

  /** Zoom calls never have a code; Jira is always a ticket and Zoom always a call. */
  lemma ZoomHasNoCode(z: Integration)
    requires z.Zoom?
    ensures GetCode(z) == None && GetType(z) == Call
  {
  }
}
