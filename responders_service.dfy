/** The responders of one team together with its on-call person. */
module RespondersService {
  import opened Wrappers
  import opened SlackResponders
  import opened Dynamo
  import RespondersList

  /** The ids to notify: the listed responders, then the on-call id when there is one and it is
      not listed already. */
  function WithOncall(ids: seq<string>, oncall: Option<string>): seq<string> {
    if oncall.Some? && oncall.value !in ids then ids + [oncall.value] else ids
  }

  /** The listed responders come first and keep their order; at most the on-call id is added. */
  lemma WithOncallExtends(ids: seq<string>, oncall: Option<string>)
    ensures |ids| <= |WithOncall(ids, oncall)| <= |ids| + 1
    ensures WithOncall(ids, oncall)[..|ids|] == ids
    ensures forall x :: x in WithOncall(ids, oncall) <==> x in ids || (oncall.Some? && x == oncall.value)
  {
  }

  /** An on-call id is notified exactly once when the list has no duplicates. */
  lemma WithOncallNoDuplicates(ids: seq<string>, oncall: Option<string>)
    requires NoDuplicates(ids)
    ensures NoDuplicates(WithOncall(ids, oncall))
  {
    if oncall.Some? && oncall.value !in ids {
      var r := ids + [oncall.value];
      forall i, j | 0 <= i < j < |r|
        ensures r[i] != r[j]
      {
        if j == |ids| {
          assert r[i] == ids[i];
        }
      }
    }
  }

  /** Adding the on-call id a second time changes nothing. */
  lemma WithOncallIdempotent(ids: seq<string>, oncall: Option<string>)
    ensures WithOncall(WithOncall(ids, oncall), oncall) == WithOncall(ids, oncall)
  {
  }

  /** A team without a users item gets the error text appended as if it were an on-call id. */
  lemma UnknownTeamNotifiesErrorText(store: DynamoUtils, teamId: string)
    requires teamId !in store.users
    ensures WithOncall(store.GetResponders(teamId), store.GetOncall(teamId)) == [ThereWasAnError]
  {
  }

  class RespondersService {
    const teamId: string
    const store: DynamoUtils

    constructor (teamId: string, store: DynamoUtils)
      ensures this.teamId == teamId && this.store == store
    {
      this.teamId := teamId;
      this.store := store;
    }

    /** `get_oncall`: the stored on-call id of the given team. */
    function GetOncall(teamId: string): (r: Option<string>)
      reads store
      ensures teamId !in store.users ==> r == Some(ThereWasAnError)
      ensures teamId in store.users ==> r == store.users[teamId].oncall
    {
      store.GetOncall(teamId)
    }

    /** `get_responders`: the stored responders of this team. */
    method GetResponders() returns (responders: seq<SlackResponder>)
      ensures RespondersList.Ids(responders) == store.GetResponders(teamId)
    {
      responders := RespondersList.List(store, teamId);
    }

    /** The scan of `get_responders_with_oncall`: whether some listed responder carries `id`. */
    method Listed(responders: seq<SlackResponder>, id: string) returns (listed: bool)
      ensures listed <==> id in RespondersList.Ids(responders)
    {
      ghost var ids := RespondersList.Ids(responders);
      listed := false;
      var i := 0;
      while i < |responders|
        invariant 0 <= i <= |responders|
        invariant listed <==> id in ids[..i]
      {
        assert ids[..i + 1] == ids[..i] + [responders[i].id];
        listed := listed || responders[i].id == id;
        i := i + 1;
      }
      assert ids[..i] == ids;
    }

    /** `get_responders_with_oncall`: scans the listed responders for the on-call id and appends
        the on-call responder when no listed responder carries it. */
    method GetRespondersWithOncall() returns (responders: seq<SlackResponder>)
      ensures RespondersList.Ids(responders) == WithOncall(store.GetResponders(teamId), store.GetOncall(teamId))
    {
      responders := RespondersList.List(store, teamId);
      var oncall := store.GetOncall(teamId);
      if oncall.Some? {
        var listed := Listed(responders, oncall.value);
        if !listed {
          ghost var ids := RespondersList.Ids(responders);
          responders := responders + [SlackResponder(oncall.value)];
          assert RespondersList.Ids(responders) == ids + [oncall.value];
        }
      }
    }

    /** `set_oncall`: stores the on-call id of this team. */
    method SetOncall(userId: string)
      requires store.Valid() && userId != ""
      modifies store
      ensures store.Valid() && store.incidents == old(store.incidents)
      ensures store.GetOncall(teamId) == Some(userId)
      ensures store.GetResponders(teamId) == old(store.GetResponders(teamId))
      ensures forall t :: t != teamId ==>
        ((t in store.users <==> t in old(store.users)) && (t in store.users ==> store.users[t] == old(store.users)[t]))
    {
      store.SaveOncall(teamId, userId);
    }

    /** `set_responders`: adds ids to this team's responders and returns the whole new list. */
    method SetResponders(ids: seq<string>) returns (responders: seq<SlackResponder>)
      requires store.Valid() && forall id :: id in ids ==> id != ""
      modifies store
      ensures store.Valid() && store.incidents == old(store.incidents)
      ensures store.GetResponders(teamId) == Union(old(store.GetResponders(teamId)), ids)
      ensures RespondersList.Ids(responders) == store.GetResponders(teamId)
      ensures teamId in old(store.users) ==> store.GetOncall(teamId) == old(store.GetOncall(teamId))
    {
      responders := RespondersList.Add(store, teamId, ids);
    }

    /** `remove_responders`: removes ids from this team's responders and returns what remains. */
    method RemoveResponders(ids: seq<string>) returns (responders: seq<SlackResponder>)
      requires store.Valid()
      modifies store
      ensures store.Valid() && store.incidents == old(store.incidents)
      ensures store.GetResponders(teamId) == Difference(old(store.GetResponders(teamId)), ids)
      ensures RespondersList.Ids(responders) == store.GetResponders(teamId)
      ensures teamId in old(store.users) ==> store.GetOncall(teamId) == old(store.GetOncall(teamId))
    {
      responders := RespondersList.Remove(store, teamId, ids);
    }
  }
}
