/** The replies of the responders slash commands. */
module SlackCommandsHandler {
  import opened Wrappers
  import opened SlackResponders
  import opened Dynamo
  import RespondersList
  import opened RespondersListFormatter
  import opened RespondersService

  const AddError: string := "There was an error adding responders"
  const AddedMessage: string := "Responders added: \n"
  const RemovedEmpty: string := "Responders removed. List is empty"
  const RemovedMessage: string := "Responders removed. This is the updated list: \n"
  const ListEmpty: string := "Responders list is empty"

  /** The responders built from a list of ids, one per id and in order. */
  function Responders(ids: seq<string>): (rs: seq<SlackResponder>)
    ensures RespondersList.Ids(rs) == ids
  {
    seq(|ids|, i requires 0 <= i < |ids| => SlackResponder(ids[i]))
  }

  /** A responder list is determined by its ids. */
  lemma ResponderIds(rs: seq<SlackResponder>)
    ensures rs == Responders(RespondersList.Ids(rs))
  {
  }

  /** The reply to adding responders, given the ids of the resulting list. */
  function AddReply(ids: seq<string>): string {
    if |ids| == 0 then AddError else AddedMessage + Lines(Responders(ids), 1)
  }

  /** The reply to removing responders, given the ids that remain. */
  function RemoveReply(ids: seq<string>): string {
    if |ids| == 0 then RemovedEmpty else RemovedMessage + Lines(Responders(ids), 1)
  }

  /** The reply to listing the responders, given the stored ids. */
  function ListReply(ids: seq<string>): string {
    if |ids| == 0 then ListEmpty else DefaultMessage + Lines(Responders(ids), 1)
  }

  /** The error reply is given exactly when the resulting list is empty. */
  lemma AddReplyErrorIff(ids: seq<string>)
    ensures AddReply(ids) == AddError <==> |ids| == 0
  {
    if |ids| > 0 {
      assert AddReply(ids)[0] == 'R' != AddError[0];
    }
  }

  /** Adding reports an error only when there was nothing stored and nothing to add. */
  lemma AddErrorOnlyWhenNothing(stored: seq<string>, ids: seq<string>)
    ensures AddReply(Union(stored, ids)) == AddError <==> stored == [] && ids == []
  {
    AddReplyErrorIff(Union(stored, ids));
    if ids != [] {
      assert ids[0] in Union(stored, ids);
    }
  }

  /** The "List is empty" reply is given exactly when nothing remains. */
  lemma RemoveReplyEmptyIff(ids: seq<string>)
    ensures RemoveReply(ids) == RemovedEmpty <==> |ids| == 0
  {
    if |ids| > 0 {
      assert RemoveReply(ids)[20] == 'T' != RemovedEmpty[20];
    }
  }

  /** The "list is empty" reply is given exactly when nothing is stored. */
  lemma ListReplyEmptyIff(ids: seq<string>)
    ensures ListReply(ids) == ListEmpty <==> |ids| == 0
  {
    if |ids| > 0 {
      assert ListReply(ids)[10] == ':' != ListEmpty[10];
    }
  }

  /** Every stored id of a well-formed store is non-empty, so it can be formatted. */
  lemma StoredIdsNonEmpty(store: DynamoUtils, teamId: string, rs: seq<SlackResponder>)
    requires store.Valid() && RespondersList.Ids(rs) == store.GetResponders(teamId)
    ensures IdsNonEmpty(rs)
  {
    forall k | 0 <= k < |rs|
      ensures |rs[k].id| > 0
    {
      assert RespondersList.Ids(rs)[k] in store.GetResponders(teamId);
    }
  }

  class SlackCommandsHandler {
    const teamId: string
    const respondersService: RespondersService

    /** The service answers for the handler's own team, over a well-formed store. */
    ghost predicate Valid()
      reads respondersService.store
    {
      respondersService.teamId == teamId && respondersService.store.Valid()
    }

    constructor (teamId: string, store: DynamoUtils)
      requires store.Valid()
      ensures Valid() && this.teamId == teamId && respondersService.store == store
    {
      this.teamId := teamId;
      this.respondersService := new RespondersService(teamId, store);
    }

    /** `add_responders`: adds the ids and replies with the whole new list, or the error text
        when the resulting list is empty. */
    method AddResponders(ids: seq<string>) returns (reply: string)
      requires Valid() && forall id :: id in ids ==> id != ""
      modifies respondersService.store
      ensures Valid()
      ensures respondersService.store.GetResponders(teamId)
        == Union(old(respondersService.store.GetResponders(teamId)), ids)
      ensures reply == AddReply(respondersService.store.GetResponders(teamId))
    {
      var response := respondersService.SetResponders(ids);
      if |response| == 0 {
        return AddError;
      }
      ResponderIds(response);
      StoredIdsNonEmpty(respondersService.store, teamId, response);
      reply := Format(response, AddedMessage);
    }

    /** `remove_responders`: removes the ids and replies with what remains. */
    method RemoveResponders(ids: seq<string>) returns (reply: string)
      requires Valid()
      modifies respondersService.store
      ensures Valid()
      ensures respondersService.store.GetResponders(teamId)
        == Difference(old(respondersService.store.GetResponders(teamId)), ids)
      ensures reply == RemoveReply(respondersService.store.GetResponders(teamId))
    {
      var response := respondersService.RemoveResponders(ids);
      if |response| == 0 {
        return RemovedEmpty;
      }
      ResponderIds(response);
      StoredIdsNonEmpty(respondersService.store, teamId, response);
      reply := Format(response, RemovedMessage);
    }

    /** `list_responders`: the stored list under the default heading. */
    method ListResponders() returns (reply: string)
      requires Valid()
      ensures reply == ListReply(respondersService.store.GetResponders(teamId))
    {
      var response := respondersService.GetResponders();
      if |response| == 0 {
        return ListEmpty;
      }
      ResponderIds(response);
      StoredIdsNonEmpty(respondersService.store, teamId, response);
      reply := Format(response, DefaultMessage);
    }

    /** `set_oncall`: stores the on-call id. */
    method SetOncall(userId: string)
      requires Valid() && userId != ""
      modifies respondersService.store
      ensures Valid()
      ensures respondersService.store.GetOncall(teamId) == Some(userId)
    {
      respondersService.SetOncall(userId);
    }
  }
}
