/** The incident workflow driven from Slack: deciding whether to open an incident, naming and
    creating its channel, announcing it and notifying the responders, and closing it. */
module SlackEventsHandler {
  import opened Wrappers
  import opened Seqs
  import opened Text
  import opened Transport
  import opened DateTimeUtils
  import opened Integrations
  import opened Incidents
  import opened Dynamo
  import opened SlackResponders
  import opened RespondersList
  import opened RespondersService
  import opened UserService
  import opened OAuth
  import IncidentService
  import NewIncidentFormatter
  import CreateIncidentConfirmFormatter

  const AckMessage: string := "Ack... creating a new incident channel"
  const ErrorCreatingChannel: string := "Error creating channel"
  const NonExistentIncident: string := "Error: trying to close a non existent incident!!"
  const IncidentClosed: string := "Incident closed!"

  function Embarrassing(error: string): string {
    "This is embarrassing... There was an error whilst creating the incident " + error
  }

  function ChannelNotCreated(teamId: string): string {
    "Incident channel could not be created for team " + teamId
  }

  function ChannelCreated(channelId: string): string {
    "Channel created - <#" + channelId + ">"
  }

  // -------------------------------------------------------------- the channel name

  /** The name as a channel-name fragment: stripped, spaces made hyphens, lower-cased. */
  function Slug(name: string): string {
    Lower(ReplaceAll(Strip(name), " ", "-"))
  }

  /** Python's `s[:n]`. */
  function Take(s: string, n: nat): (r: string)
    ensures |r| <= n && r <= s
  {
    if |s| <= n then s else s[..n]
  }

  /** `__build_channel_name`: `i-<slug, at most 14 characters>-<dd-mm-yy>`, or, for a blank
      name, `i-sereno-<dd-mm-yy>_<n + 1>` where `n` counts today's incidents. */
  function ChannelName(name: string, now: Instant, todayCount: nat): string {
    var day := FormatDayMonthShortYear(now.date);
    if Slug(name) != "" then "i-" + Take(Slug(name), 14) + "-" + day
    else "i-sereno-" + day + "_" + NatToString(todayCount + 1)
  }

  /** The slug is empty exactly when the stripped name is, and holds no space and no upper-case
      ASCII letter. */
  lemma SlugIsChannelSafe(name: string)
    ensures Slug(name) == "" <==> Strip(name) == ""
    ensures forall k :: 0 <= k < |Slug(name)| ==> Slug(name)[k] != ' ' && !('A' <= Slug(name)[k] <= 'Z')
  {
    ReplaceCharByChar(Strip(name), ' ', '-');
    var hyphenated := ReplaceAll(Strip(name), " ", "-");
    forall k | 0 <= k < |Slug(name)|
      ensures Slug(name)[k] != ' ' && !('A' <= Slug(name)[k] <= 'Z')
    {
      assert Slug(name)[k] == LowerChar(hyphenated[k]);
      assert hyphenated[k] in hyphenated;
    }
  }

  /** A named incident's channel: the prefix, at most fourteen characters of the slug and the
      day, so at most 25 characters, and the count of today's incidents plays no part. */
  lemma NamedChannel(name: string, now: Instant, n: nat, m: nat)
    requires Strip(name) != ""
    ensures var c := ChannelName(name, now, n);
      c == "i-" + Take(Slug(name), 14) + "-" + FormatDayMonthShortYear(now.date)
      && |c| <= 25 && c == ChannelName(name, now, m)
  {
    SlugIsChannelSafe(name);
  }

  /** A blank name gives the numbered channel. */
  lemma BlankNameNumbered(name: string, now: Instant, n: nat)
    requires Strip(name) == ""
    ensures ChannelName(name, now, n) == "i-sereno-" + FormatDayMonthShortYear(now.date) + "_" + NatToString(n + 1)
  {
    SlugIsChannelSafe(name);
  }

  /** The confirm question's create button carries " " for a missing name, and that value,
      sent back, gives the numbered channel. */
  lemma ConfirmedBlankNameNumbered(now: Instant, n: nat)
    ensures CreateIncidentConfirmFormatter.DefaultName(None) == " "
    ensures ChannelName(" ", now, n) == "i-sereno-" + FormatDayMonthShortYear(now.date) + "_" + NatToString(n + 1)
  {
    assert IsSpace(' ');
    assert StripLeading(" ") == "";
    BlankNameNumbered(" ", now, n);
  }

  /** Today's incidents counted for the numbered name; none when a start time cannot be read. */
  function TodayCount(rows: seq<IncidentRecord>, today: Date): nat {
    match TodayRows(rows, today)
    case Success(kept) => |kept|
    case Failure(_) => 0
  }

  // -------------------------------------------------------------- the topic

  /** The channel topic: the name when it is not blank, otherwise the call link when there is
      one, otherwise none. */
  function Topic(name: string, call: Option<Integration>): Option<string> {
    if Strip(name) != "" then Some(name)
    else if HasLink(call) then Some(call.value.link)
    else None
  }

  // -------------------------------------------------------------- notifying the responders

  /** The user ids, in order: ids starting with `U`. */
  function UserIds(ids: seq<string>): seq<string> {
    if |ids| == 0 then []
    else
      var id := ids[|ids| - 1];
      UserIds(ids[..|ids| - 1]) + (if |id| > 0 && id[0] == 'U' then [id] else [])
  }

  /** The channel ids, in order: ids starting with `C`. */
  function ChannelIds(ids: seq<string>): seq<string> {
    if |ids| == 0 then []
    else
      var id := ids[|ids| - 1];
      ChannelIds(ids[..|ids| - 1]) + (if |id| > 0 && id[0] == 'C' then [id] else [])
  }

  /** Every user id and every channel id goes to its own side; other ids go nowhere. */
  lemma {:induction false} PartitionMembers(ids: seq<string>)
    ensures forall x :: x in UserIds(ids) <==> x in ids && |x| > 0 && x[0] == 'U'
    ensures forall x :: x in ChannelIds(ids) <==> x in ids && |x| > 0 && x[0] == 'C'
    decreases |ids|
  {
    if |ids| > 0 {
      var n := |ids| - 1;
      PartitionMembers(ids[..n]);
      assert ids == ids[..n] + [ids[n]];
      assert forall x :: x in ids <==> x in ids[..n] || x == ids[n];
    }
  }

  /** What a run of Slack calls sent, and whether one of them raised. */
  datatype Run = Run(calls: seq<SlackRequest>, raised: bool)

  /** The channel notices from call number `n` on: each channel is joined, and gets the
      announcement only when the join answers `ok`. A raised error ends the run. */
  function Notices(respond: (nat, SlackRequest) -> SlackReply, n: nat, channels: seq<string>, blocks: seq<Block>): Run
    decreases |channels|
  {
    if |channels| == 0 then Run([], false)
    else
      var join := Join(channels[0]);
      var post := PostBlocks(channels[0], blocks);
      match respond(n, join)
      case SlackApiError(_) => Run([join], true)
      case SlackResponse(ok, _) =>
        if !ok then
          var rest := Notices(respond, n + 1, channels[1..], blocks);
          Run([join] + rest.calls, rest.raised)
        else if respond(n + 1, post).SlackApiError? then Run([join, post], true)
        else
          var rest := Notices(respond, n + 2, channels[1..], blocks);
          Run([join, post] + rest.calls, rest.raised)
  }

  /** `__notify_responders` from call number `n` on: the users are invited in one call when
      there are any, then the channels are notified. */
  function NotifyRun(respond: (nat, SlackRequest) -> SlackReply, n: nat, channelId: string,
    users: seq<string>, channels: seq<string>, blocks: seq<Block>): Run
  {
    if |users| == 0 then Notices(respond, n, channels, blocks)
    else
      var invite := Invite(channelId, users);
      if respond(n, invite).SlackApiError? then Run([invite], true)
      else
        var rest := Notices(respond, n + 1, channels, blocks);
        Run([invite] + rest.calls, rest.raised)
  }

  /** The `k`-th call, if a notice, follows a join of the same channel that answered `ok`. */
  predicate PostAfterOkJoin(respond: (nat, SlackRequest) -> SlackReply, n: nat, calls: seq<SlackRequest>,
    blocks: seq<Block>, k: nat)
    requires k < |calls|
  {
    calls[k].PostBlocks? ==>
      (k > 0 && calls[k - 1] == Join(calls[k].channel) && calls[k].blocks == blocks
      && respond(n + k - 1, calls[k - 1]).SlackResponse? && respond(n + k - 1, calls[k - 1]).ok)
  }

  /** The `k`-th call, if a join answered `ok`, is followed by the notice to that channel. */
  predicate OkJoinFollowed(respond: (nat, SlackRequest) -> SlackReply, n: nat, calls: seq<SlackRequest>,
    blocks: seq<Block>, k: nat)
    requires k < |calls|
  {
    (calls[k].Join? && respond(n + k, calls[k]).SlackResponse? && respond(n + k, calls[k]).ok) ==>
      (k + 1 < |calls| && calls[k + 1] == PostBlocks(calls[k].channel, blocks))
  }

  /** Every call of the run is a join or a notice for one of the channels. */
  lemma {:induction false} NoticeCallsForChannels(respond: (nat, SlackRequest) -> SlackReply, n: nat,
    channels: seq<string>, blocks: seq<Block>)
    ensures forall k :: 0 <= k < |Notices(respond, n, channels, blocks).calls| ==>
      var c := Notices(respond, n, channels, blocks).calls[k]; (c.Join? || c.PostBlocks?) && c.channel in channels
    decreases |channels|
  {
    if |channels| > 0 {
      var join := Join(channels[0]);
      var post := PostBlocks(channels[0], blocks);
      var calls := Notices(respond, n, channels, blocks).calls;
      assert forall c :: c in channels[1..] ==> c in channels;
      match respond(n, join)
      case SlackApiError(_) =>
      case SlackResponse(ok, _) =>
        if !ok {
          NoticeCallsForChannels(respond, n + 1, channels[1..], blocks);
          var rest := Notices(respond, n + 1, channels[1..], blocks).calls;
          assert calls == [join] + rest;
          forall k | 1 <= k < |calls|
            ensures (calls[k].Join? || calls[k].PostBlocks?) && calls[k].channel in channels
          {
            assert calls[k] == rest[k - 1];
            assert rest[k - 1] in rest;
          }
        } else if !respond(n + 1, post).SlackApiError? {
          NoticeCallsForChannels(respond, n + 2, channels[1..], blocks);
          var rest := Notices(respond, n + 2, channels[1..], blocks).calls;
          assert calls == [join, post] + rest;
          forall k | 2 <= k < |calls|
            ensures (calls[k].Join? || calls[k].PostBlocks?) && calls[k].channel in channels
          {
            assert calls[k] == rest[k - 2];
            assert rest[k - 2] in rest;
          }
        }
    }
  }

  /** A notice is posted only to a channel whose join, just before, answered `ok`. */
  lemma {:induction false} NoticesFollowOkJoins(respond: (nat, SlackRequest) -> SlackReply, n: nat,
    channels: seq<string>, blocks: seq<Block>)
    ensures forall k :: 0 <= k < |Notices(respond, n, channels, blocks).calls| ==>
      PostAfterOkJoin(respond, n, Notices(respond, n, channels, blocks).calls, blocks, k)
    decreases |channels|
  {
    if |channels| > 0 {
      var join := Join(channels[0]);
      var post := PostBlocks(channels[0], blocks);
      var calls := Notices(respond, n, channels, blocks).calls;
      match respond(n, join)
      case SlackApiError(_) =>
      case SlackResponse(ok, _) =>
        if !ok {
          NoticesFollowOkJoins(respond, n + 1, channels[1..], blocks);
          var rest := Notices(respond, n + 1, channels[1..], blocks).calls;
          assert calls == [join] + rest;
          forall k | 1 <= k < |calls|
            ensures PostAfterOkJoin(respond, n, calls, blocks, k)
          {
            assert calls[k] == rest[k - 1];
            assert PostAfterOkJoin(respond, n + 1, rest, blocks, k - 1);
            if k >= 2 {
              assert calls[k - 1] == rest[k - 2];
            }
          }
        } else if !respond(n + 1, post).SlackApiError? {
          NoticesFollowOkJoins(respond, n + 2, channels[1..], blocks);
          var rest := Notices(respond, n + 2, channels[1..], blocks).calls;
          assert calls == [join, post] + rest;
          forall k | 2 <= k < |calls|
            ensures PostAfterOkJoin(respond, n, calls, blocks, k)
          {
            assert calls[k] == rest[k - 2];
            assert PostAfterOkJoin(respond, n + 2, rest, blocks, k - 2);
            if k >= 3 {
              assert calls[k - 1] == rest[k - 3];
            }
          }
        }
    }
  }

  /** A join that answered `ok` is always followed by the notice to that channel. */
  lemma {:induction false} OkJoinsGetNotices(respond: (nat, SlackRequest) -> SlackReply, n: nat,
    channels: seq<string>, blocks: seq<Block>)
    ensures forall k :: 0 <= k < |Notices(respond, n, channels, blocks).calls| ==>
      OkJoinFollowed(respond, n, Notices(respond, n, channels, blocks).calls, blocks, k)
    decreases |channels|
  {
    if |channels| > 0 {
      var join := Join(channels[0]);
      var post := PostBlocks(channels[0], blocks);
      var calls := Notices(respond, n, channels, blocks).calls;
      match respond(n, join)
      case SlackApiError(_) =>
      case SlackResponse(ok, _) =>
        if !ok {
          OkJoinsGetNotices(respond, n + 1, channels[1..], blocks);
          var rest := Notices(respond, n + 1, channels[1..], blocks).calls;
          assert calls == [join] + rest;
          forall k | 1 <= k < |calls|
            ensures OkJoinFollowed(respond, n, calls, blocks, k)
          {
            assert calls[k] == rest[k - 1];
            assert OkJoinFollowed(respond, n + 1, rest, blocks, k - 1);
            if k + 1 < |calls| {
              assert calls[k + 1] == rest[k];
            }
          }
        } else if !respond(n + 1, post).SlackApiError? {
          OkJoinsGetNotices(respond, n + 2, channels[1..], blocks);
          var rest := Notices(respond, n + 2, channels[1..], blocks).calls;
          assert calls == [join, post] + rest;
          forall k | 2 <= k < |calls|
            ensures OkJoinFollowed(respond, n, calls, blocks, k)
          {
            assert calls[k] == rest[k - 2];
            assert OkJoinFollowed(respond, n + 2, rest, blocks, k - 2);
            if k + 1 < |calls| {
              assert calls[k + 1] == rest[k - 1];
            }
          }
        }
    }
  }

  /** Without a raised error, every channel is joined. */
  lemma {:induction false} EveryChannelJoined(respond: (nat, SlackRequest) -> SlackReply, n: nat,
    channels: seq<string>, blocks: seq<Block>)
    ensures !Notices(respond, n, channels, blocks).raised ==>
      forall c :: c in channels ==> Join(c) in Notices(respond, n, channels, blocks).calls
    decreases |channels|
  {
    if |channels| > 0 {
      var join := Join(channels[0]);
      var post := PostBlocks(channels[0], blocks);
      assert forall c :: c in channels ==> c == channels[0] || c in channels[1..];
      match respond(n, join)
      case SlackApiError(_) =>
      case SlackResponse(ok, _) =>
        if !ok {
          EveryChannelJoined(respond, n + 1, channels[1..], blocks);
        } else if !respond(n + 1, post).SlackApiError? {
          EveryChannelJoined(respond, n + 2, channels[1..], blocks);
        }
    }
  }

  /** The notice for one channel from call number `n` on: the join, and the announcement when
      the join answers `ok`. */
  function ChannelNotice(respond: (nat, SlackRequest) -> SlackReply, n: nat, channel: string, blocks: seq<Block>): (r: Run)
    ensures 1 <= |r.calls| <= 2 && r.calls[0] == Join(channel)
  {
    var join := Join(channel);
    var post := PostBlocks(channel, blocks);
    match respond(n, join)
    case SlackApiError(_) => Run([join], true)
    case SlackResponse(ok, _) =>
      if !ok then Run([join], false)
      else Run([join, post], respond(n + 1, post).SlackApiError?)
  }

  /** `calls` followed by a run. */
  function After(calls: seq<SlackRequest>, run: Run): Run {
    Run(calls + run.calls, run.raised)
  }

  lemma AfterAssociates(a: seq<SlackRequest>, b: seq<SlackRequest>, run: Run)
    ensures After(a, After(b, run)) == After(a + b, run)
  {
    assert a + (b + run.calls) == (a + b) + run.calls;
  }

  /** The notices are the first channel's notice followed, unless it raised, by the rest. */
  lemma NoticesStep(respond: (nat, SlackRequest) -> SlackReply, n: nat, channels: seq<string>, blocks: seq<Block>)
    requires |channels| > 0
    ensures var first := ChannelNotice(respond, n, channels[0], blocks);
      Notices(respond, n, channels, blocks)
        == if first.raised then first else After(first.calls, Notices(respond, n + |first.calls|, channels[1..], blocks))
  {
  }

  /** The `i`-th channel's notice moves from the notices still to come to the calls made. */
  lemma NoticesAdvance(respond: (nat, SlackRequest) -> SlackReply, n: nat, channels: seq<string>, i: nat,
    blocks: seq<Block>, done: seq<SlackRequest>, notice: Run)
    requires i < |channels| && notice == ChannelNotice(respond, n + |done|, channels[i], blocks)
    requires Notices(respond, n, channels, blocks) == After(done, Notices(respond, n + |done|, channels[i..], blocks))
    ensures notice.raised ==> Notices(respond, n, channels, blocks) == Run(done + notice.calls, true)
    ensures !notice.raised ==>
      Notices(respond, n, channels, blocks)
      == After(done + notice.calls, Notices(respond, n + |done + notice.calls|, channels[i + 1..], blocks))
  {
    var rest := channels[i..];
    assert rest[0] == channels[i] && rest[1..] == channels[i + 1..];
    NoticesStep(respond, n + |done|, rest, blocks);
    if !notice.raised {
      AfterAssociates(done, notice.calls, Notices(respond, n + |done + notice.calls|, channels[i + 1..], blocks));
    }
  }

  /** The invitation goes out once, first, with every user, and only when there are users;
      everything after it is a join or a notice for one of the channels. */
  lemma InviteFirstAndOnce(respond: (nat, SlackRequest) -> SlackReply, n: nat, channelId: string,
    users: seq<string>, channels: seq<string>, blocks: seq<Block>)
    ensures var calls := NotifyRun(respond, n, channelId, users, channels, blocks).calls;
      (|users| > 0 ==> |calls| > 0 && calls[0] == Invite(channelId, users))
      && forall k :: 0 <= k < |calls| && (|users| > 0 ==> k > 0) ==>
        (calls[k].Join? || calls[k].PostBlocks?) && calls[k].channel in channels
  {
    if |users| == 0 {
      NoticeCallsForChannels(respond, n, channels, blocks);
    } else if !respond(n, Invite(channelId, users)).SlackApiError? {
      NoticeCallsForChannels(respond, n + 1, channels, blocks);
      var calls := NotifyRun(respond, n, channelId, users, channels, blocks).calls;
      var rest := Notices(respond, n + 1, channels, blocks).calls;
      assert calls == [Invite(channelId, users)] + rest;
      forall k | 1 <= k < |calls|
        ensures (calls[k].Join? || calls[k].PostBlocks?) && calls[k].channel in channels
      {
        assert calls[k] == rest[k - 1];
      }
    }
  }

  // -------------------------------------------------------------- announcing the incident

  /** The announcement in the incident channel from call number `n` on, followed by the topic
      when there is one; a raised error ends it. */
  function HeadlineRun(respond: (nat, SlackRequest) -> SlackReply, n: nat, channelId: string, blocks: seq<Block>,
    topic: Option<string>): (r: Run)
    ensures 1 <= |r.calls| <= 2 && r.calls[0] == PostBlocks(channelId, blocks)
  {
    var post := PostBlocks(channelId, blocks);
    if respond(n, post).SlackApiError? then Run([post], true)
    else if topic.None? then Run([post], false)
    else
      var setTopic := SetTopic(channelId, topic.value);
      Run([post, setTopic], respond(n + 1, setTopic).SlackApiError?)
  }

  /** What `__create_new_incident` sends once the incident is saved, from call number `n` on:
      the announcement and topic, then the responders' notices. A raised error ends the run. */
  function AnnounceRun(respond: (nat, SlackRequest) -> SlackReply, n: nat, channelId: string, blocks: seq<Block>,
    topic: Option<string>, users: seq<string>, channels: seq<string>): Run
  {
    var head := HeadlineRun(respond, n, channelId, blocks, topic);
    if head.raised then head
    else After(head.calls, NotifyRun(respond, n + |head.calls|, channelId, users, channels, blocks))
  }

  /** The integrations an incident carries, ticket first. */
  function Attached(ticket: Option<Integration>, call: Option<Integration>): (r: seq<Integration>)
    ensures |r| == (if ticket.Some? then 1 else 0) + (if call.Some? then 1 else 0)
    ensures ticket.Some? ==> r[0] == ticket.value
    ensures call.Some? ==> r[|r| - 1] == call.value
  {
    (if ticket.Some? then [ticket.value] else []) + (if call.Some? then [call.value] else [])
  }

  /** `blocks` announce an incident of this name, in this channel, with this on-call person and
      these integrations. */
  predicate Announcement(blocks: seq<Block>, name: string, channelId: string, oncall: Option<string>,
    integrations: seq<Integration>)
  {
    (|blocks| == 2 || |blocks| == 3)
    && blocks[0] == Section(Mrkdwn(NewIncidentFormatter.Heading))
    && blocks[1] == FieldsSection([Mrkdwn("*Incident:*\n" + NewIncidentFormatter.NameText(name)),
      Mrkdwn("*Oncall:*\n" + NewIncidentFormatter.OncallText(oncall)), Mrkdwn("*Channel:*\n<#" + channelId + ">")])
    && (|blocks| == 3 <==> exists k :: 0 <= k < |integrations| && GetLink(integrations[k]) != "")
    && (|blocks| == 3 ==> blocks[2] == FieldsSection(NewIncidentFormatter.LinkFields(integrations)))
  }

  /** Every responder id the store can hand out is non-empty, so reading its first character
      never raises. */
  lemma StoredIdsNonEmpty(store: DynamoUtils, teamId: string)
    requires store.Valid()
    ensures forall x :: x in WithOncall(store.GetResponders(teamId), store.GetOncall(teamId)) ==> x != ""
  {
    WithOncallExtends(store.GetResponders(teamId), store.GetOncall(teamId));
    if teamId in store.users {
      assert WellFormedSet(store.users[teamId].responders);
    }
  }

  /** The partition loop of `__notify_responders`: user ids and channel ids, each in order;
      ids of neither kind are dropped. */
  method Partition(responders: seq<SlackResponder>) returns (users: seq<string>, channels: seq<string>)
    requires forall k :: 0 <= k < |responders| ==> responders[k].id != ""
    ensures users == UserIds(RespondersList.Ids(responders))
    ensures channels == ChannelIds(RespondersList.Ids(responders))
  {
    ghost var ids := RespondersList.Ids(responders);
    users := [];
    channels := [];
    var i := 0;
    while i < |responders|
      invariant 0 <= i <= |responders|
      invariant users == UserIds(ids[..i]) && channels == ChannelIds(ids[..i])
    {
      assert ids[..i + 1][..i] == ids[..i];
      var responder := responders[i];
      if responder.IsUser() {
        users := users + [responder.id];
      } else if responder.IsChannel() {
        channels := channels + [responder.id];
      }
      i := i + 1;
    }
    assert ids[..i] == ids;
  }

  // -------------------------------------------------------------- creating the channel

  /** What `__create_channel` does: the Slack calls it makes and what it gives back, which is the
      new channel's id, no id when the channel could not be made (the calling channel has then
      been told so), or the error that escaped while telling it. */
  datatype ChannelOutcome = ChannelOutcome(calls: seq<SlackRequest>, result: Result<Option<string>>)

  /** `__create_channel` from call number `n`. An error of the create call is reported once; a
      missing id is reported inside the `try`, so a notice that raises there is caught and sent
      once more; an error of the confirmation is caught and reported. Only the last notice can
      let an error escape. */
  function ChannelCreation(respond: (nat, SlackRequest) -> SlackReply, n: nat, teamId: string,
    channelName: string, calling: string): (r: ChannelOutcome)
    ensures 2 <= |r.calls| <= 3 && r.calls[0] == CreateConversation(channelName)
    ensures r.result.Success? && r.result.value.Some? ==>
      r.calls == [CreateConversation(channelName), PostText(calling, ChannelCreated(r.result.value.value))]
      && respond(n, r.calls[0]).SlackResponse? && respond(n, r.calls[0]).channelId == r.result.value
      && !respond(n + 1, r.calls[1]).SlackApiError?
    ensures !(r.result.Success? && r.result.value.Some?) ==>
      r.calls[|r.calls| - 1] == PostText(calling, ChannelNotCreated(teamId))
      && (r.result.Failure? <==> respond(n + |r.calls| - 1, r.calls[|r.calls| - 1]).SlackApiError?)
  {
    var create := CreateConversation(channelName);
    var notice := PostText(calling, ChannelNotCreated(teamId));
    var created := respond(n, create);
    if created.SlackApiError? then
      ChannelOutcome([create, notice], NoticeResult(respond(n + 1, notice)))
    else if created.channelId.None? then
      if respond(n + 1, notice).SlackApiError? then
        ChannelOutcome([create, notice, notice], NoticeResult(respond(n + 2, notice)))
      else ChannelOutcome([create, notice], Success(None))
    else
      var told := PostText(calling, ChannelCreated(created.channelId.value));
      if respond(n + 1, told).SlackApiError? then
        ChannelOutcome([create, told, notice], NoticeResult(respond(n + 2, notice)))
      else ChannelOutcome([create, told], Success(created.channelId))
  }

  /** What `__create_channel` gives back once the failure notice has been sent. */
  function NoticeResult(reply: SlackReply): (r: Result<Option<string>>)
    ensures r.Failure? <==> reply.SlackApiError?
    ensures r.Success? ==> r.value.None?
  {
    if reply.SlackApiError? then Failure(reply.message) else Success(None)
  }

  /** The exception `__create_new_incident` raises when no channel came back. */
  function ChannelError(result: Result<Option<string>>): string
    requires !(result.Success? && result.value.Some?)
  {
    if result.Failure? then result.error else ErrorCreatingChannel
  }

  /** The channel-name count, whichever way the name was built: it only matters for a blank name. */
  ghost predicate NamedFor(channelName: string, name: string, now: Instant, rows: seq<IncidentRecord>) {
    if Strip(name) != "" then channelName == ChannelName(name, now, 0)
    else channelName == ChannelName(name, now, TodayCount(rows, now.date))
  }

  /** One more row for the today filter. */
  lemma TodayRowsStep(rows: seq<IncidentRecord>, i: int, today: Date, kept: seq<IncidentRecord>, isToday: bool)
    requires 0 <= i < |rows| && TodayRows(rows[..i], today) == Success(kept)
    requires StartedToday(Some(rows[i].startedDatetime), today) == Success(isToday)
    ensures TodayRows(rows[..i + 1], today) == Success(if isToday then kept + [rows[i]] else kept)
  {
    assert rows[..i + 1] == rows[..i] + [rows[i]];
    TodayRowsSnoc(rows[..i], rows[i], today);
    assert kept + [] == kept;
  }

  /** The list comprehension of `handle_new_incident_creation`: the incidents whose start time is
      today, in order; an incident whose start time does not parse raises. */
  method FilterFromToday(incidents: seq<Incident>, ghost rows: seq<IncidentRecord>, today: Date)
    returns (r: Result<seq<Incident>>)
    requires |incidents| == |rows| && forall k :: 0 <= k < |rows| ==> incidents[k].View() == RecordView(rows[k])
    ensures r.Success? <==> TodayRows(rows, today).Success?
    ensures r.Success? ==> IncidentViews(r.value) == RecordViews(TodayRows(rows, today).value)
  {
    var kept: seq<Incident> := [];
    ghost var keptRows: seq<IncidentRecord> := [];
    var i := 0;
    while i < |incidents|
      invariant 0 <= i <= |incidents| == |rows|
      invariant TodayRows(rows[..i], today) == Success(keptRows)
      invariant IncidentViews(kept) == RecordViews(keptRows)
    {
      var incident := incidents[i];
      var fromToday := incident.IsFromToday(today);
      assert fromToday == StartedToday(Some(rows[i].startedDatetime), today);
      if fromToday.Failure? {
        TodayRowsFailsWithRow(rows, i, today);
        return Failure(fromToday.error);
      }
      TodayRowsStep(rows, i, today, keptRows, fromToday.value);
      if fromToday.value {
        ViewsSnoc(kept, incident);
        RecordViewsSnoc(keptRows, rows[i]);
        kept := kept + [incident];
        keptRows := keptRows + [rows[i]];
      }
      i := i + 1;
    }
    assert rows[..|rows|] == rows;
    r := Success(kept);
  }

  /** One channel of `__notify_responders`: joined, and sent the announcement when the join
      answers `ok`. */
  method NotifyChannel(slack: SlackClient, channel: string, blocks: seq<Block>) returns (r: Result<()>, ghost notice: Run)
    modifies slack
    ensures notice == ChannelNotice(slack.respond, |old(slack.sent)|, channel, blocks)
    ensures slack.sent == old(slack.sent) + notice.calls && (r.Failure? <==> notice.raised)
  {
    notice := ChannelNotice(slack.respond, |slack.sent|, channel, blocks);
    var joined := slack.Call(Join(channel));
    if joined.SlackApiError? {
      r := Failure(joined.message);
      return;
    }
    if joined.ok {
      var posted := slack.Call(PostBlocks(channel, blocks));
      if posted.SlackApiError? {
        r := Failure(posted.message);
        return;
      }
    }
    r := Success(());
  }

  /** One turn of the loop of `NotifyChannels`: the notice of the `i`-th channel moves from
      the notices still to come to the calls made. */
  method NotifyNext(slack: SlackClient, channels: seq<string>, i: nat, blocks: seq<Block>,
    ghost sent0: seq<SlackRequest>, ghost done: seq<SlackRequest>) returns (r: Result<()>, ghost calls: seq<SlackRequest>)
    requires i < |channels| && slack.sent == sent0 + done
    requires Notices(slack.respond, |sent0|, channels, blocks)
      == After(done, Notices(slack.respond, |sent0| + |done|, channels[i..], blocks))
    modifies slack
    ensures slack.sent == sent0 + calls
    ensures r.Failure? ==> Notices(slack.respond, |sent0|, channels, blocks) == Run(calls, true)
    ensures r.Success? ==>
      Notices(slack.respond, |sent0|, channels, blocks)
      == After(calls, Notices(slack.respond, |sent0| + |calls|, channels[i + 1..], blocks))
  {
    ghost var notice;
    r, notice := NotifyChannel(slack, channels[i], blocks);
    NoticesAdvance(slack.respond, |sent0|, channels, i, blocks, done, notice);
    Associates(sent0, done, notice.calls);
    calls := done + notice.calls;
  }

  /** The channel notices of `__notify_responders`, channel by channel, until one raises. */
  method NotifyChannels(slack: SlackClient, channels: seq<string>, blocks: seq<Block>) returns (r: Result<()>, ghost run: Run)
    modifies slack
    ensures run == Notices(slack.respond, |old(slack.sent)|, channels, blocks)
    ensures slack.sent == old(slack.sent) + run.calls && (r.Failure? <==> run.raised)
  {
    ghost var sent0 := slack.sent;
    ghost var done: seq<SlackRequest> := [];
    assert channels[0..] == channels;
    assert sent0 + [] == sent0;
    assert [] + Notices(slack.respond, |sent0|, channels, blocks).calls == Notices(slack.respond, |sent0|, channels, blocks).calls;
    var i := 0;
    while i < |channels|
      invariant 0 <= i <= |channels|
      invariant slack.sent == sent0 + done
      invariant Notices(slack.respond, |sent0|, channels, blocks)
        == After(done, Notices(slack.respond, |sent0| + |done|, channels[i..], blocks))
    {
      var notified;
      notified, done := NotifyNext(slack, channels, i, blocks, sent0, done);
      if notified.Failure? {
        run := Run(done, true);
        r := Failure(notified.error);
        return;
      }
      i := i + 1;
    }
    assert done + [] == done;
    run := Run(done, false);
    r := Success(());
  }

  /** What the `try` block of `__create_new_incident` went through: whether the incident was
      saved, with which ticket and call, and the announcement it sent with its calls. */
  datatype Opening = Opening(saved: bool, ticket: Option<Integration>, call: Option<Integration>,
    blocks: seq<Block>, run: Run)

  /** The calls the `try` block made. */
  function OpenCalls(o: Opening): seq<SlackRequest> {
    if o.saved then o.run.calls else []
  }

  /** Whether the `try` block reported `ok`. */
  function OpenOk(o: Opening): bool {
    o.saved && !o.run.raised
  }

  /** What the handler reads from the store: the incident table, the team's on-call person and
      its responders with the on-call person. */
  datatype Stored = Stored(incidents: map<IncidentKey, IncidentRecord>, oncall: Option<string>, responders: seq<string>)

  /** What `__create_new_incident` went through: the channel name and the rows counted for it,
      the channel creation, the `try` block, and what it returned or raised. */
  datatype Creation = Creation(channelName: string, rows: seq<IncidentRecord>, outcome: ChannelOutcome,
    opening: Opening, created: Result<bool>)

  /** Whether the channel came back with an id. */
  predicate ChannelMade(outcome: ChannelOutcome) {
    outcome.result.Success? && outcome.result.value.Some?
  }

  /** The calls `__create_new_incident` made. */
  function CreationCalls(c: Creation): seq<SlackRequest> {
    c.outcome.calls + (if ChannelMade(c.outcome) then OpenCalls(c.opening) else [])
  }

  /** The blocks `show_ongoing_incidents_message` builds for the incident name `name` and the
      incidents `views`: the question and a divider, a section and a divider per incident in
      order, then the buttons, which carry the name (a blank one when it is empty). */
  ghost predicate ConfirmPost(blocks: seq<Block>, name: string, views: seq<IncidentView>) {
    |blocks| == 2 + 2 * |views| + 1
    && blocks[0] == Section(Mrkdwn(CreateIncidentConfirmFormatter.Question)) && blocks[1] == Divider
    && (forall k :: 0 <= k < |views| ==>
      blocks[2 + 2 * k] == CreateIncidentConfirmFormatter.IncidentSection(views[k]) && blocks[3 + 2 * k] == Divider)
    && blocks[|blocks| - 1] == CreateIncidentConfirmFormatter.ActionButtons(CreateIncidentConfirmFormatter.DefaultName(Some(name)))
  }

  class SlackEventsHandler {
    const slack: SlackClient
    const teamId: string
    const store: DynamoUtils
    const incidentService: IncidentService.IncidentService
    const respondersService: RespondersService
    var incidentName: string

    ghost predicate Valid()
      reads incidentService, store
      reads if incidentService.ticketService.Some? then {incidentService.ticketService.value} else {}
      reads if incidentService.callService.Some? then {incidentService.callService.value} else {}
    {
      incidentService.store == store && incidentService.teamId == teamId
      && respondersService.store == store && respondersService.teamId == teamId
      && incidentService.Valid()
    }

    /** `SlackEventsHandler(client, team_id)`, given the team's integrated services. */
    constructor (slack: SlackClient, teamId: string, store: DynamoUtils, services: seq<IntegratedService>)
      requires store.Valid()
      requires forall k :: 0 <= k < |services| ==> ServesTeam(services[k], teamId, store)
      ensures Valid() && this.slack == slack && this.teamId == teamId && this.store == store
      ensures incidentName == "" && fresh(incidentService) && fresh(respondersService)
      ensures incidentService.ticketService == IncidentService.LastTicket(services)
      ensures incidentService.callService == IncidentService.LastCall(services)
    {
      this.slack := slack;
      this.teamId := teamId;
      this.store := store;
      incidentName := "";
      incidentService := new IncidentService.IncidentService(teamId, store, services);
      respondersService := new RespondersService(teamId, store);
    }

    /** The first half of `__notify_responders`: the listed responders and the on-call
        person, split by kind. */
    method RespondersByKind() returns (users: seq<string>, channels: seq<string>)
      requires Valid()
      ensures var ids := WithOncall(store.GetResponders(teamId), store.GetOncall(teamId));
        users == UserIds(ids) && channels == ChannelIds(ids)
    {
      var responders := respondersService.GetRespondersWithOncall();
      ghost var ids := RespondersList.Ids(responders);
      StoredIdsNonEmpty(store, teamId);
      forall k | 0 <= k < |responders|
        ensures responders[k].id != ""
      {
        assert ids[k] == responders[k].id && ids[k] in ids;
      }
      users, channels := Partition(responders);
    }

    /** The second half of `__notify_responders`: the users are invited in one call when there
        are any, then the channels are notified. */
    method InviteAndNotify(channelId: string, users: seq<string>, channels: seq<string>, blocks: seq<Block>)
      returns (r: Result<()>, ghost run: Run)
      modifies slack
      ensures run == NotifyRun(slack.respond, |old(slack.sent)|, channelId, users, channels, blocks)
      ensures slack.sent == old(slack.sent) + run.calls && (r.Failure? <==> run.raised)
    {
      ghost var sent0 := slack.sent;
      run := NotifyRun(slack.respond, |sent0|, channelId, users, channels, blocks);
      if |users| == 0 {
        var notified, notices := NotifyChannels(slack, channels, blocks);
        r := notified;
      } else {
        var invited := slack.Call(Invite(channelId, users));
        if invited.SlackApiError? {
          r := Failure(invited.message);
          return;
        }
        var notified, notices := NotifyChannels(slack, channels, blocks);
        assert run == After([Invite(channelId, users)], notices);
        Associates(sent0, [Invite(channelId, users)], notices.calls);
        r := notified;
      }
    }

    /** `__notify_responders`. */
    method NotifyResponders(channelId: string, blocks: seq<Block>) returns (r: Result<()>, ghost run: Run)
      requires Valid()
      modifies slack
      ensures var ids := WithOncall(store.GetResponders(teamId), store.GetOncall(teamId));
        run == NotifyRun(slack.respond, |old(slack.sent)|, channelId, UserIds(ids), ChannelIds(ids), blocks)
      ensures slack.sent == old(slack.sent) + run.calls && (r.Failure? <==> run.raised)
    {
      var users, channels := RespondersByKind();
      r, run := InviteAndNotify(channelId, users, channels, blocks);
    }

    /** The announcement and the topic `__create_new_incident` sends. */
    method Headline(channelId: string, blocks: seq<Block>, topic: Option<string>) returns (r: Result<()>, ghost run: Run)
      modifies slack
      ensures run == HeadlineRun(slack.respond, |old(slack.sent)|, channelId, blocks, topic)
      ensures slack.sent == old(slack.sent) + run.calls && (r.Failure? <==> run.raised)
    {
      run := HeadlineRun(slack.respond, |slack.sent|, channelId, blocks, topic);
      var posted := slack.Call(PostBlocks(channelId, blocks));
      if posted.SlackApiError? {
        r := Failure(posted.message);
        return;
      }
      if topic.Some? {
        var topicSet := slack.Call(SetTopic(channelId, topic.value));
        if topicSet.SlackApiError? {
          r := Failure(topicSet.message);
          return;
        }
      }
      r := Success(());
    }

    /** The announcement, the topic and the notices, as `__create_new_incident` sends them. */
    method Announce(channelId: string, blocks: seq<Block>, topic: Option<string>) returns (r: Result<()>, ghost run: Run)
      requires Valid()
      modifies slack
      ensures var ids := WithOncall(store.GetResponders(teamId), store.GetOncall(teamId));
        run == AnnounceRun(slack.respond, |old(slack.sent)|, channelId, blocks, topic, UserIds(ids), ChannelIds(ids))
      ensures slack.sent == old(slack.sent) + run.calls && (r.Failure? <==> run.raised)
    {
      ghost var sent0 := slack.sent;
      var headline, head := Headline(channelId, blocks, topic);
      if headline.Failure? {
        r, run := headline, head;
        return;
      }
      KeepsValid();
      var notified, notices := NotifyResponders(channelId, blocks);
      run := After(head.calls, notices);
      Associates(sent0, head.calls, notices.calls);
      r := notified;
    }

    /** The ticket adapter and its HTTP client, which commenting and ticket creation change. */
    ghost function TicketAdapter(): set<object>
      reads incidentService
    {
      if incidentService.ticketService.Some? then
        {incidentService.ticketService.value, incidentService.ticketService.value.http}
      else {}
    }

    /** The call adapter and its HTTP client, which call creation changes. */
    ghost function CallAdapter(): set<object>
      reads incidentService
    {
      if incidentService.callService.Some? then
        {incidentService.callService.value, incidentService.callService.value.http}
      else {}
    }

    /** The ticket and the call come from this handler's adapters, and there is none of a kind
        without an adapter of that kind. */
    ghost predicate MadeBy(ticket: Option<Integration>, call: Option<Integration>)
      reads incidentService
      reads if incidentService.ticketService.Some? then {incidentService.ticketService.value} else {}
      reads if incidentService.callService.Some? then {incidentService.callService.value} else {}
    {
      (ticket.Some? ==> incidentService.ticketService.Some? && ticket.value == incidentService.ticketService.value.jira)
      && (call.Some? ==> incidentService.callService.Some? && call.value == incidentService.callService.value.zoom)
      && (incidentService.ticketService.None? ==> ticket.None?) && (incidentService.callService.None? ==> call.None?)
    }

    /** `__build_channel_name`; for a blank name, today's incidents of the team are counted. */
    method BuildChannelName(name: string, now: Instant) returns (channelName: string, ghost rows: seq<IncidentRecord>)
      requires Valid()
      ensures Strip(name) == "" ==> store.IsTeamListing(rows, teamId)
      ensures NamedFor(channelName, name, now, rows)
    {
      SlugIsChannelSafe(name);
      var day := FormatDayMonthShortYear(CurrentDate(now));
      var slug := Lower(ReplaceAll(Strip(name), " ", "-"));
      rows := [];
      if slug != "" {
        channelName := "i-" + Take(slug, 14) + "-" + day;
      } else {
        var today := incidentService.GetTodayIncidents(now);
        rows :| store.IsTeamListing(rows, teamId) && IncidentViews(today) == (match TodayRows(rows, CurrentDate(now))
            case Success(kept) => RecordViews(kept)
            case Failure(_) => []);
        assert |today| == |IncidentViews(today)| == TodayCount(rows, now.date);
        channelName := "i-sereno-" + day + "_" + NatToString(|today| + 1);
      }
    }

    /** `__handle_channel_creation_error`: the calling channel is told; an error raised by that
        post escapes. */
    method ReportChannelError(callingChannel: string) returns (r: Result<Option<string>>)
      modifies slack
      ensures slack.sent == old(slack.sent) + [PostText(callingChannel, ChannelNotCreated(teamId))]
      ensures r == NoticeResult(old(slack.NextReply(PostText(callingChannel, ChannelNotCreated(teamId)))))
    {
      var reply := slack.Call(PostText(callingChannel, ChannelNotCreated(teamId)));
      r := if reply.SlackApiError? then Failure(reply.message) else Success(None);
    }

    /** `__create_channel`. Its second test for a missing id can never fire and is not modelled. */
    method CreateChannel(channelName: string, callingChannel: string)
      returns (r: Result<Option<string>>, ghost outcome: ChannelOutcome)
      modifies slack
      ensures StoreNow() == old(StoreNow())
      ensures outcome == ChannelCreation(slack.respond, |old(slack.sent)|, teamId, channelName, callingChannel)
      ensures slack.sent == old(slack.sent) + outcome.calls && r == outcome.result
    {
      outcome := ChannelCreation(slack.respond, |slack.sent|, teamId, channelName, callingChannel);
      var created := slack.Call(CreateConversation(channelName));
      if created.SlackApiError? {
        r := ReportChannelError(callingChannel);
        return;
      }
      if created.channelId.None? {
        var reported := ReportChannelError(callingChannel);
        if reported.Failure? {
          r := ReportChannelError(callingChannel);
          return;
        }
        r := Success(None);
        return;
      }
      var told := slack.Call(PostText(callingChannel, ChannelCreated(created.channelId.value)));
      if told.SlackApiError? {
        r := ReportChannelError(callingChannel);
        return;
      }
      r := Success(created.channelId);
    }

    /** `create_new_incident`: the incident name is kept, the calling channel is told the
        incident is being created, then `__create_new_incident` runs; what it raises is
        apologised for in the calling channel. An error raised by either post escapes. */
    method CreateNewIncident(channel: string, name: string, now: Instant) returns (r: Result<()>, ghost c: Creation)
      requires Valid()
      modifies this, slack, store, TicketAdapter(), CallAdapter()
      ensures incidentName == name
      ensures NewIncidentCreated(r, c, StoreNow(), slack.sent, channel, name, now, old(store.incidents), old(slack.sent))
      ensures var ack := PostText(channel, AckMessage);
        !slack.respond(|old(slack.sent)|, ack).SlackApiError? && Strip(name) == "" ==> old(store.IsTeamListing(c.rows, teamId))
    {
      incidentName := name;
      r, c := AcknowledgeAndCreate(channel, name, now);
    }

    /** What `create_new_incident` did from a store holding `incidents0` and after the calls
        `before`: the acknowledgement and, unless it raised, `__create_new_incident` and the
        apology for what that raised. */
    ghost predicate NewIncidentCreated(r: Result<()>, c: Creation, st: Stored, sent: seq<SlackRequest>,
      channel: string, name: string, now: Instant,
      incidents0: map<IncidentKey, IncidentRecord>, before: seq<SlackRequest>)
    {
      var ack := PostText(channel, AckMessage);
      var acked := slack.respond(|before|, ack);
      if acked.SlackApiError? then
        r == Failure(acked.message) && st.incidents == incidents0 && sent == before + [ack]
      else (IncidentCreation(c, st, name, channel, now, incidents0, before + [ack])
        && CreatedAfterAck(r, c, sent, channel, before + [ack]))
    }

    /** What `create_new_incident` sent and returned once `__create_new_incident` went through
        `c` after the calls `before`: nothing more when it returned, and otherwise the apology
        for what it raised, whose own error escapes. */
    ghost predicate CreatedAfterAck(r: Result<()>, c: Creation, sent: seq<SlackRequest>, channel: string,
      before: seq<SlackRequest>)
    {
      if c.created.Success? then r == Success(()) && sent == before + CreationCalls(c)
         else
           var sorry := PostText(channel, Embarrassing(c.created.error));
           sent == before + CreationCalls(c) + [sorry]
           && (r.Failure? <==> slack.respond(|before + CreationCalls(c)|, sorry).SlackApiError?)
    }

    /** The body of `create_new_incident` after the name is kept. */
    method AcknowledgeAndCreate(channel: string, name: string, now: Instant) returns (r: Result<()>, ghost c: Creation)
      requires Valid()
      modifies slack, store, TicketAdapter(), CallAdapter()
      ensures NewIncidentCreated(r, c, StoreNow(), slack.sent, channel, name, now, old(store.incidents), old(slack.sent))
      ensures var ack := PostText(channel, AckMessage);
        !slack.respond(|old(slack.sent)|, ack).SlackApiError? && Strip(name) == "" ==> old(store.IsTeamListing(c.rows, teamId))
    {
      var acked := slack.Call(PostText(channel, AckMessage));
      if acked.SlackApiError? {
        c := Creation("", [], ChannelOutcome([], Failure("")), Opening(false, None, None, [], Run([], false)), Failure(""));
        return Failure(acked.message), c;
      }
      r, c := CreateAfterAck(channel, name, now);
    }

    /** `create_new_incident` once its acknowledgement went through. */
    method CreateAfterAck(channel: string, name: string, now: Instant) returns (r: Result<()>, ghost c: Creation)
      requires Valid()
      modifies slack, store, TicketAdapter(), CallAdapter()
      ensures IncidentCreation(c, StoreNow(), name, channel, now, old(store.incidents), old(slack.sent))
      ensures CreatedAfterAck(r, c, slack.sent, channel, old(slack.sent))
      ensures Strip(name) == "" ==> old(store.IsTeamListing(c.rows, teamId))
    {
      var created;
      created, c := CreateIncidentWithChannel(name, channel, now);
      ghost var st := StoreNow();
      if created.Failure? {
        r := Apologise(channel, created.error);
      } else {
        r := Success(());
      }
      assert StoreNow() == st;
    }

    /** The apology of `create_new_incident` for what `__create_new_incident` raised; an error
        raised by the post escapes. */
    method Apologise(channel: string, error: string) returns (r: Result<()>)
      modifies slack
      ensures StoreNow() == old(StoreNow())
      ensures slack.sent == old(slack.sent) + [PostText(channel, Embarrassing(error))]
      ensures r.Failure? <==> old(slack.NextReply(PostText(channel, Embarrassing(error)))).SlackApiError?
    {
      var apologised := slack.Call(PostText(channel, Embarrassing(error)));
      r := if apologised.SlackApiError? then Failure(apologised.message) else Success(());
    }

    /** What `__create_new_incident` did from a store holding `incidents0` and after the calls
        `before`, when asked from `calling`: the channel named after the incident is created;
        without an id for it the call raises `ChannelError` and the table is left alone; with
        one, the `try` block runs in it and its status is returned. */
    ghost predicate IncidentCreation(c: Creation, st: Stored, name: string, calling: string, now: Instant,
      incidents0: map<IncidentKey, IncidentRecord>, before: seq<SlackRequest>)
    {
      NamedFor(c.channelName, name, now, c.rows)
      && c.outcome == ChannelCreation(slack.respond, |before|, teamId, c.channelName, calling)
      && if ChannelMade(c.outcome) then
           c.created == Success(OpenOk(c.opening))
           && Opened(c.opening, st, c.outcome.result.value.value, name, now, incidents0, before + c.outcome.calls)
         else
           c.created == Failure(ChannelError(c.outcome.result)) && st.incidents == incidents0
    }

    /** `__create_new_incident`. */
    method CreateIncidentWithChannel(name: string, calling: string, now: Instant) returns (r: Result<bool>, ghost c: Creation)
      requires Valid()
      modifies slack, store, TicketAdapter(), CallAdapter()
      ensures Strip(name) == "" ==> old(store.IsTeamListing(c.rows, teamId))
      ensures IncidentCreation(c, StoreNow(), name, calling, now, old(store.incidents), old(slack.sent)) && r == c.created
      ensures slack.sent == old(slack.sent) + CreationCalls(c)
    {
      ghost var sent0 := slack.sent;
      var channelName, rows := BuildChannelName(name, now);
      var made, outcome := CreateChannel(channelName, calling);
      KeepsValid();
      r, c := CreateInChannel(name, calling, now, channelName, rows, made, outcome, sent0);
    }

    /** The rest of `__create_new_incident`, once the channel was asked for: a channel that
        came back with an id gets the incident opened in it, any other answer is an error. */
    method CreateInChannel(name: string, calling: string, now: Instant, channelName: string,
      ghost rows: seq<IncidentRecord>, made: Result<Option<string>>, ghost outcome: ChannelOutcome,
      ghost before: seq<SlackRequest>)
      returns (r: Result<bool>, ghost c: Creation)
      requires Valid() && NamedFor(channelName, name, now, rows)
      requires outcome == ChannelCreation(slack.respond, |before|, teamId, channelName, calling)
      requires slack.sent == before + outcome.calls && made == outcome.result
      modifies slack, store, TicketAdapter(), CallAdapter()
      ensures c.rows == rows
      ensures IncidentCreation(c, StoreNow(), name, calling, now, old(store.incidents), before) && r == c.created
      ensures slack.sent == before + CreationCalls(c)
    {
      if !(made.Success? && made.value.Some?) {
        r := Failure(ChannelError(made));
        c := Creation(channelName, rows, outcome, Opening(false, None, None, [], Run([], false)), r);
        assert outcome.calls + [] == outcome.calls;
      } else {
        var ok, opening := OpenIncident(made.value.value, name, now);
        r := Success(ok);
        c := Creation(channelName, rows, outcome, opening, r);
        Associates(before, outcome.calls, OpenCalls(opening));
      }
    }

    /** A call that changes nothing `Valid` reads keeps it. */
    twostate lemma KeepsValid()
      requires old(Valid())
      requires unchanged(this, incidentService, store)
      requires incidentService.ticketService.Some? ==> unchanged(incidentService.ticketService.value)
      requires incidentService.callService.Some? ==> unchanged(incidentService.callService.value)
      ensures Valid()
    {
    }

    /** The team's responders with its on-call person, as `get_responders_with_oncall` reads them. */
    function TeamResponders(): seq<string>
      reads store
    {
      WithOncall(store.GetResponders(teamId), store.GetOncall(teamId))
    }

    /** What the handler reads from its store now. */
    ghost function StoreNow(): Stored
      reads store
    {
      Stored(store.incidents, store.GetOncall(teamId), TeamResponders())
    }

    /** What the `try` block of `__create_new_incident` did for the channel `channelId`, from a
        store holding `incidents0` and after the calls `before`: an incident not saved leaves the
        table alone and sends nothing (only a ticket adapter can make saving fail); a saved one
        is in the table, stamped with the clock, and announced. */
    ghost predicate Opened(o: Opening, st: Stored, channelId: string, name: string, now: Instant,
      incidents0: map<IncidentKey, IncidentRecord>, before: seq<SlackRequest>)
    {
      if !o.saved then st.incidents == incidents0
      else
        st.incidents == incidents0[IncidentKey(teamId, channelId) :=
          incidentService.NewRecord(channelId, name, o.ticket, o.call, now)]
        && Announcement(o.blocks, name, channelId, st.oncall, Attached(o.ticket, o.call))
        && o.run == AnnounceRun(slack.respond, |before|, channelId, o.blocks, Topic(name, o.call),
          UserIds(st.responders), ChannelIds(st.responders))
    }

    /** The `try` block of `__create_new_incident`, once the channel exists: the incident is
        saved with its ticket and call, announced in its channel with a topic, and the responders
        are notified. A raised error ends it and is swallowed into a failed status, and nothing
        done before it is undone. */
    method OpenIncident(channelId: string, name: string, now: Instant) returns (ok: bool, ghost opening: Opening)
      requires Valid()
      modifies slack, store, TicketAdapter(), CallAdapter()
      ensures Opened(opening, StoreNow(), channelId, name, now, old(store.incidents), old(slack.sent))
      ensures !opening.saved ==> incidentService.ticketService.Some?
      ensures opening.saved <==> old(incidentService.PlannedTicket(now)).Some?
      ensures opening.saved ==> (opening.ticket == old(incidentService.PlannedTicket(now)).value
        && opening.call == old(incidentService.PlannedCall(now)))
      ensures slack.sent == old(slack.sent) + OpenCalls(opening) && ok == OpenOk(opening)
    {
      var saved, ticket, call;
      ghost var made, joined;
      saved, ticket, call, made, joined := SaveIncident(channelId, name, now);
      if !saved {
        return false, Opening(false, None, None, [], Run([], false));
      }
      ghost var blocks, run;
      ok, blocks, run := AnnounceIncident(channelId, name, ticket, call);
      opening := Opening(true, ticket, call, blocks, run);
    }

    /** `create_incident` as `__create_new_incident` calls it: whether the incident was saved,
        and the ticket and call it was saved with. These are what the ticket and call steps
        returned (`made`, `joined`), which are the outcomes `PlannedTicket` and `PlannedCall`
        fix from the state on entry. */
    method SaveIncident(channelId: string, name: string, now: Instant)
      returns (saved: bool, ticket: Option<Integration>, call: Option<Integration>,
        ghost made: Result<Option<Integration>>, ghost joined: Option<Integration>)
      requires Valid()
      modifies store, TicketAdapter(), CallAdapter()
      ensures Valid() && slack.sent == old(slack.sent)
      ensures !saved ==> incidentService.ticketService.Some? && store.incidents == old(store.incidents)
      ensures saved ==> store.incidents == old(store.incidents)[IncidentKey(teamId, channelId) :=
        incidentService.NewRecord(channelId, name, ticket, call, now)]
      ensures saved ==> MadeBy(ticket, call)
      ensures saved <==> made.Success?
      ensures saved ==> ticket == made.value && call == joined
      ensures saved <==> old(incidentService.PlannedTicket(now)).Some?
      ensures saved ==>
        ticket == old(incidentService.PlannedTicket(now)).value && call == old(incidentService.PlannedCall(now))
      ensures incidentService.ticketService.None? ==> made == Success(None)
      ensures incidentService.callService.None? ==> joined.None?
    {
      assert slack !in TicketAdapter() + CallAdapter();
      var created;
      created, made, joined := incidentService.CreateIncident(channelId, name, now);
      if created.Failure? {
        return false, None, None, made, joined;
      }
      var incident := created.value;
      return true, incident.ticket, incident.call, made, joined;
    }

    /** The announcement part of `__create_new_incident` for a saved incident of this name,
        ticket and call: the blocks name its links and the on-call person, the topic follows
        `Topic`. */
    method AnnounceIncident(channelId: string, name: string, ticket: Option<Integration>, call: Option<Integration>)
      returns (ok: bool, ghost blocks: seq<Block>, ghost run: Run)
      requires Valid()
      modifies slack
      ensures Announcement(blocks, name, channelId, store.GetOncall(teamId), Attached(ticket, call))
      ensures var ids := WithOncall(store.GetResponders(teamId), store.GetOncall(teamId));
        run == AnnounceRun(slack.respond, |old(slack.sent)|, channelId, blocks, Topic(name, call),
          UserIds(ids), ChannelIds(ids))
      ensures slack.sent == old(slack.sent) + run.calls && (ok <==> !run.raised)
    {
      var response, topic := BuildAnnouncement(channelId, name, ticket, call);
      blocks := response;
      var announced;
      announced, run := Announce(channelId, response, topic);
      ok := announced.Success?;
    }

    /** The blocks and the topic `__create_new_incident` sends for a saved incident: the
        integrations are the ticket then the call, the on-call person is read from the store. */
    method BuildAnnouncement(channelId: string, name: string, ticket: Option<Integration>, call: Option<Integration>)
      returns (blocks: seq<Block>, topic: Option<string>)
      requires Valid()
      ensures Announcement(blocks, name, channelId, store.GetOncall(teamId), Attached(ticket, call))
      ensures topic == Topic(name, call)
    {
      var integrations: seq<Integration> := [];
      if ticket.Some? {
        integrations := integrations + [ticket.value];
      }
      if call.Some? {
        integrations := integrations + [call.value];
      }
      assert integrations == Attached(ticket, call);
      var oncall := respondersService.GetOncall(teamId);
      blocks := NewIncidentFormatter.BuildResponse(name, channelId, integrations, oncall);
      topic := None;
      if Strip(name) != "" {
        topic := Some(name);
      } else if HasLink(call) {
        topic := Some(GetLink(call.value));
      }
    }

    /** The ongoing incidents of the team that started today, as `handle_new_incident_creation`
        lists them: the team's rows `rows`, those with status "ONGOING", those started today;
        a start time that does not parse raises. */
    method ListTodayOngoing(now: Instant) returns (r: Result<seq<Incident>>, ghost rows: seq<IncidentRecord>)
      requires Valid()
      ensures store.IsTeamListing(rows, teamId)
      ensures r.Success? <==> TodayRows(OngoingRows(rows), CurrentDate(now)).Success?
      ensures r.Success? ==> IncidentViews(r.value) == RecordViews(TodayRows(OngoingRows(rows), CurrentDate(now)).value)
    {
      var ongoing := incidentService.GetOngoingIncidents(now);
      rows :| store.IsTeamListing(rows, teamId) && IncidentViews(ongoing) == RecordViews(OngoingRows(rows));
      forall k | 0 <= k < |OngoingRows(rows)|
        ensures ongoing[k].View() == RecordView(OngoingRows(rows)[k])
      {
        assert IncidentViews(ongoing)[k] == RecordViews(OngoingRows(rows))[k];
      }
      r := FilterFromToday(ongoing, OngoingRows(rows), CurrentDate(now));
    }

    /** `show_ongoing_incidents_message` and its post: the question about `today`, asked in
        `channel`; an error raised by the post escapes. */
    method ConfirmOngoing(channel: string, today: seq<Incident>) returns (r: Result<()>, ghost blocks: seq<Block>)
      modifies slack
      ensures StoreNow() == old(StoreNow())
      ensures ConfirmPost(blocks, incidentName, old(IncidentViews(today)))
      ensures slack.sent == old(slack.sent) + [PostBlocks(channel, blocks)]
      ensures r.Failure? <==> old(slack.NextReply(PostBlocks(channel, blocks))).SlackApiError?
    {
      var formatter := new CreateIncidentConfirmFormatter.CreateIncidentConfirmFormatter(Some(incidentName));
      var response := formatter.Format(today);
      blocks := response;
      var posted := slack.Call(PostBlocks(channel, response));
      r := if posted.SlackApiError? then Failure(posted.message) else Success(());
    }

    /** What `handle_new_incident_creation` did from a store holding `incidents0` and after the
        calls `before`, given what listing today's ongoing incidents gave: a raised error escapes
        before anything is sent; with none, `create_new_incident` runs; otherwise the calling
        channel is asked to confirm, and nothing is created. */
    ghost predicate NewIncidentHandled(r: Result<()>, c: Creation, blocks: seq<Block>, today: Result<seq<IncidentRecord>>,
      st: Stored, sent: seq<SlackRequest>, channel: string, name: string, now: Instant,
      incidents0: map<IncidentKey, IncidentRecord>, before: seq<SlackRequest>)
    {
      if today.Failure? then r.Failure? && st.incidents == incidents0 && sent == before
      else if today.value == [] then NewIncidentCreated(r, c, st, sent, channel, name, now, incidents0, before)
      else
        var post := PostBlocks(channel, blocks);
        ConfirmPost(blocks, name, RecordViews(today.value)) && st.incidents == incidents0
        && sent == before + [post] && (r.Failure? <==> slack.respond(|before|, post).SlackApiError?)
    }

    /** `handle_new_incident_creation`: the name is kept; a new incident is created only when no
        ongoing incident of the team started today, and otherwise the user is asked whether to
        create another one. */
    method HandleNewIncidentCreation(channel: string, name: string, now: Instant)
      returns (r: Result<()>, ghost c: Creation, ghost blocks: seq<Block>, ghost rows: seq<IncidentRecord>)
      requires Valid()
      modifies this, slack, store, TicketAdapter(), CallAdapter()
      ensures incidentName == name && old(store.IsTeamListing(rows, teamId))
      ensures NewIncidentHandled(r, c, blocks, TodayRows(OngoingRows(rows), CurrentDate(now)), StoreNow(), slack.sent,
        channel, name, now, old(store.incidents), old(slack.sent))
    {
      incidentName := name;
      var today;
      today, rows := ListTodayOngoing(now);
      c := Creation("", [], ChannelOutcome([], Failure("")), Opening(false, None, None, [], Run([], false)), Failure(""));
      blocks := [];
      if today.Failure? {
        return Failure(today.error), c, blocks, rows;
      }
      if |today.value| == 0 {
        r, c := CreateNewIncident(channel, name, now);
      } else {
        r, blocks := ConfirmOngoing(channel, today.value);
      }
    }

    /** What `log_comment` did after the calls `before`, given the table it looked in and what
        the incident service answered: a channel with no incident in the table is exactly the
        "not ongoing" failure; on success nothing more is sent, and a failure's description is
        posted in the incident channel. */
    ghost predicate CommentLogged(r: Result<()>, logged: IncidentService.LogResult, sent: seq<SlackRequest>,
      incidentId: string, incidents: map<IncidentKey, IncidentRecord>, before: seq<SlackRequest>)
    {
      var key := IncidentKey(teamId, incidentId);
      (key !in incidents <==> logged == IncidentService.LogFailure(IncidentService.NotOngoingIncident))
      && (key in incidents && incidents[key].ticketLink == "" ==>
        logged == IncidentService.LogFailure(IncidentService.NoTicketForIncident))
      && if logged.LogOk? then r == Success(()) && sent == before
         else
           var post := PostText(incidentId, logged.description);
           sent == before + [post] && (r.Failure? <==> slack.respond(|before|, post).SlackApiError?)
    }

    /** `log_comment`: the incident service comments on the incident's ticket; when it reports
        a failure, the description is posted in the incident channel, and an error raised by
        that post escapes. */
    method LogComment(incidentId: string, text: string, now: Instant)
      returns (r: Result<()>, ghost logged: IncidentService.LogResult)
      requires Valid()
      modifies slack, store, TicketAdapter()
      ensures Valid() && store.incidents == old(store.incidents)
      ensures CommentLogged(r, logged, slack.sent, incidentId, store.incidents, old(slack.sent))
    {
      var response := incidentService.LogComment(incidentId, text, now);
      logged := response;
      if response.LogOk? {
        return Success(()), logged;
      }
      var posted := slack.Call(PostText(incidentId, response.description));
      r := if posted.SlackApiError? then Failure(posted.message) else Success(());
    }

    /** What `close_incident_and_add_resolution` did for `channelId` from a store holding
        `incidents0` and after the calls `before`: an unknown channel is told the incident does
        not exist; a known one has its incident closed, is told so, and gets the resolution
        logged, unless telling it raised. */
    ghost predicate ResolutionAdded(r: Result<()>, logged: Option<IncidentService.LogResult>,
      incidents: map<IncidentKey, IncidentRecord>, sent: seq<SlackRequest>, channelId: string,
      incidents0: map<IncidentKey, IncidentRecord>, before: seq<SlackRequest>)
    {
      var key := IncidentKey(teamId, channelId);
      if key !in incidents0 then
        var post := PostText(channelId, NonExistentIncident);
        incidents == incidents0 && logged.None? && sent == before + [post]
        && (r.Failure? <==> slack.respond(|before|, post).SlackApiError?)
      else
        var post := PostText(channelId, IncidentClosed);
        var told := slack.respond(|before|, post);
        incidents == incidents0[key := incidents0[key].(status := StatusName(Closed))]
        && if told.SlackApiError? then r == Failure(told.message) && logged.None? && sent == before + [post]
           else logged.Some? && CommentLogged(r, logged.value, sent, channelId, incidents, before + [post])
    }

    /** `close_incident_and_add_resolution`. */
    method CloseIncidentAndAddResolution(channelId: string, resolution: string, now: Instant)
      returns (r: Result<()>, ghost logged: Option<IncidentService.LogResult>)
      requires Valid()
      modifies slack, store, TicketAdapter()
      ensures Valid()
      ensures ResolutionAdded(r, logged, store.incidents, slack.sent, channelId, old(store.incidents), old(slack.sent))
    {
      var updated := incidentService.CloseIncident(channelId, now);
      if !updated {
        var told := slack.Call(PostText(channelId, NonExistentIncident));
        r := if told.SlackApiError? then Failure(told.message) else Success(());
        return r, None;
      }
      var told := slack.Call(PostText(channelId, IncidentClosed));
      if told.SlackApiError? {
        return Failure(told.message), None;
      }
      ghost var comment;
      r, comment := LogComment(channelId, resolution, now);
      logged := Some(comment);
    }

    /** Closing a known incident logs its resolution against it: the comment never fails for
        want of an incident. */
    lemma ClosedIncidentIsFound(r: Result<()>, logged: Option<IncidentService.LogResult>,
      incidents: map<IncidentKey, IncidentRecord>, sent: seq<SlackRequest>, channelId: string,
      incidents0: map<IncidentKey, IncidentRecord>, before: seq<SlackRequest>)
      requires ResolutionAdded(r, logged, incidents, sent, channelId, incidents0, before)
      ensures logged.Some? <==>
        IncidentKey(teamId, channelId) in incidents0
        && !slack.respond(|before|, PostText(channelId, IncidentClosed)).SlackApiError?
      ensures logged.Some? ==> logged.value != IncidentService.LogFailure(IncidentService.NotOngoingIncident)
    {
    }
  }

  /** `SlackEventsHandler(client, team_id)`: the team's adapters are built first, and a failure
      to build one raises before the handler exists. */
  method NewSlackEventsHandler(slack: SlackClient, teamId: string, store: DynamoUtils, http: HttpClient,
    jiraCfg: OAuthConfig, zoomCfg: OAuthConfig) returns (r: Result<SlackEventsHandler>)
    requires store.Valid()
    ensures r.Success? <==> AdaptersBuild(teamId, store)
    ensures r.Success? ==>
      fresh(r.value) && r.value.Valid() && r.value.incidentName == ""
      && r.value.slack == slack && r.value.teamId == teamId && r.value.store == store
    ensures r.Success? ==> var apps := store.GetAuthorizedApps(teamId);
      && (r.value.incidentService.ticketService.Some? <==> HasApp(apps, "jira"))
      && (r.value.incidentService.callService.Some? <==> HasApp(apps, "zoom"))
  {
    var services := GetIntegratedServices(teamId, store, http, jiraCfg, zoomCfg);
    if services.Failure? {
      return Failure(services.error);
    }
    var handler := new SlackEventsHandler(slack, teamId, store, services.value);
    r := Success(handler);
  }
}
