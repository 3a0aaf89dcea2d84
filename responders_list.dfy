/** The team's responder list as stored in the users table, read and updated as responders. */
module RespondersList {
  import opened Wrappers
  import opened SlackResponders
  import opened Dynamo

  function Ids(rs: seq<SlackResponder>): (ids: seq<string>)
    ensures |ids| == |rs| && forall i :: 0 <= i < |rs| ==> ids[i] == rs[i].id
  {
    if rs == [] then [] else [rs[0].id] + Ids(rs[1..])
  }

  /** `RespondersList.has_responders`: the response has `Attributes` with a `responders` entry. */
  predicate HasResponders(response: UpdateResponse) {
    response.attributes.Some? && response.attributes.value.responders.Some?
  }

  /** `__build_responders_list`: one responder per id, in order. */
  method BuildRespondersList(ids: seq<string>) returns (responders: seq<SlackResponder>)
    ensures Ids(responders) == ids
  {
    responders := [];
    var i := 0;
    while i < |ids|
      invariant 0 <= i <= |ids|
      invariant |responders| == i && forall k :: 0 <= k < i ==> responders[k] == SlackResponder(ids[k])
    {
      responders := responders + [SlackResponder(ids[i])];
      i := i + 1;
    }
  }

  /** `RespondersList.list`: the stored responders of the team, in order. */
  method List(store: DynamoUtils, teamId: string) returns (responders: seq<SlackResponder>)
    ensures Ids(responders) == store.GetResponders(teamId)
  {
    responders := BuildRespondersList(store.GetResponders(teamId));
  }

  /** `RespondersList.add`: adds the ids to the stored set and returns the whole new set, which is
      `[]` exactly when the update returns no responders. */
  method Add(store: DynamoUtils, teamId: string, ids: seq<string>) returns (responders: seq<SlackResponder>)
    requires store.Valid() && forall id :: id in ids ==> id != ""
    modifies store
    ensures store.Valid() && store.incidents == old(store.incidents)
    ensures teamId in store.users && store.users[teamId].oncall == ItemOf(old(store.users), teamId).oncall
    ensures store.GetResponders(teamId) == Union(old(store.GetResponders(teamId)), ids)
    ensures Ids(responders) == Union(old(store.GetResponders(teamId)), ids)
    ensures forall t :: t != teamId ==>
      ((t in store.users <==> t in old(store.users)) && (t in store.users ==> store.users[t] == old(store.users)[t]))
  {
    var response := store.SaveResponders(teamId, ids);
    if HasResponders(response) {
      responders := BuildRespondersList(response.attributes.value.responders.value);
    } else {
      responders := [];
    }
  }

  /** `RespondersList.remove`: removes the ids from the stored set and returns what remains. */
  method Remove(store: DynamoUtils, teamId: string, ids: seq<string>) returns (responders: seq<SlackResponder>)
    requires store.Valid()
    modifies store
    ensures store.Valid() && store.incidents == old(store.incidents)
    ensures teamId in store.users && store.users[teamId].oncall == ItemOf(old(store.users), teamId).oncall
    ensures store.GetResponders(teamId) == Difference(old(store.GetResponders(teamId)), ids)
    ensures Ids(responders) == Difference(old(store.GetResponders(teamId)), ids)
    ensures forall t :: t != teamId ==>
      ((t in store.users <==> t in old(store.users)) && (t in store.users ==> store.users[t] == old(store.users)[t]))
  {
    var response := store.RemoveResponders(teamId, ids);
    if HasResponders(response) {
      responders := BuildRespondersList(response.attributes.value.responders.value);
    } else {
      responders := [];
    }
  }
}
