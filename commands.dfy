/** The `/sereno` slash command: the command text picks one action by the words it contains,
    and the responder and on-call ids are read out of Slack's escaped mentions `<@U123|name>`
    and channel links `<#C123|name>`. */
module Commands {
  import opened Wrappers
  import opened Text

  /** The branch `command_handler` takes. */
  datatype CommandRoute =
    | ShowRegister
    | AddResponders(ids: seq<string>, emptyWarning: bool)
    | RemoveResponders(ids: seq<string>)
    | ListResponders
    | RespondersOptions
    | SetOncall(userId: string)
    | OncallWrongFormat
    | NoReply
    | ShowHelp
    | CloseIncidentModal
    | Unknown

  const UserMarker: char := '@'
  const ChannelMarker: char := '#'
  const EmptyResponders: string := "List of responders cannot be empty!"
  const RespondersOptionsText: string := "Sorry I did not understand the command: " + "options are add, remove, list"
  const OncallWrongFormatText: string := "Sorry, wrong format. " + "Do `/sereno set oncall <user>`"
  const UnknownText: string := "Sorry I did not understand the command. "
    + "Type `/sereno help` to see a list of available commands"

  // ------------------------------------------------------------------ `<@([^|]+)` and `<#([^|]+)`

  /** Whether the pattern `<` marker `([^|]+)` matches at the start of `s`. */
  predicate MatchesAt(s: string, marker: char) {
    |s| >= 3 && s[0] == '<' && s[1] == marker && s[2] != '|'
  }

  /** `re.findall`: scanning from the left, each match captures the run of characters other
      than `|` after `<` and the marker, and the scan resumes where the run ends. */
  function Captures(s: string, marker: char): (r: seq<string>)
    ensures forall k :: 0 <= k < |r| ==> r[k] != [] && '|' !in r[k]
    decreases |s|
  {
    if |s| < 3 then []
    else if MatchesAt(s, marker) then
      var e := NextOf(s, 2, '|');
      assert '|' !in s[2..e];
      [s[2..e]] + Captures(s[e..], marker)
    else Captures(s[1..], marker)
  }

  /** `re.search(...).group(1)`: the capture of the leftmost match, if any. */
  function Search(s: string, marker: char): (r: Option<string>)
    ensures r.Some? ==> r.value != [] && '|' !in r.value
    decreases |s|
  {
    if |s| < 3 then None
    else if MatchesAt(s, marker) then
      var e := NextOf(s, 2, '|');
      assert '|' !in s[2..e];
      Some(s[2..e])
    else Search(s[1..], marker)
  }

  /** The first match `re.search` finds is the first of those `re.findall` lists. */
  lemma {:induction false} SearchIsFirstCapture(s: string, marker: char)
    ensures Search(s, marker).Some? <==> Captures(s, marker) != []
    ensures Search(s, marker).Some? ==> Search(s, marker).value == Captures(s, marker)[0]
    decreases |s|
  {
    if |s| >= 3 && !MatchesAt(s, marker) {
      SearchIsFirstCapture(s[1..], marker);
    }
  }

  /** The ids of `responders add` and `responders remove`: the user ids, then the channel ids. */
  function ResponderIds(command: string): (ids: seq<string>)
    ensures forall k :: 0 <= k < |ids| ==> ids[k] != [] && '|' !in ids[k]
  {
    Captures(command, UserMarker) + Captures(command, ChannelMarker)
  }

  /** Text without `<` holds no match. */
  lemma {:induction false} CapturesSkip(u: string, rest: string, marker: char)
    requires '<' !in u
    ensures Captures(u + rest, marker) == Captures(rest, marker)
    decreases |u|
  {
    if u != [] {
      var s := u + rest;
      assert s[0] == u[0];
      assert s[1..] == u[1..] + rest;
      assert '<' !in u[1..] by {
        assert forall c :: c in u[1..] ==> c in u;
      }
      CapturesSkip(u[1..], rest, marker);
      if |s| < 3 {
        assert |rest| < 3;
      }
    } else {
      assert u + rest == rest;
    }
  }

  /** How Slack writes a mention or a channel link into the command text. */
  function Escaped(marker: char, id: string, name: string): string {
    ['<', marker] + id + ['|'] + name + ['>', ' ']
  }

  /** The mentions of `ids` (shown as `names`), one after the other. */
  function Mentions(marker: char, ids: seq<string>, names: seq<string>): string
    requires |ids| == |names|
  {
    if ids == [] then [] else Escaped(marker, ids[0], names[0]) + Mentions(marker, ids[1..], names[1..])
  }

  /** Ids and names as Slack writes them: ids are non-empty and hold no `|` or `<`, names hold
      no `<`. */
  predicate WellFormed(ids: seq<string>, names: seq<string>) {
    |ids| == |names|
    && (forall k :: 0 <= k < |ids| ==> ids[k] != [] && '|' !in ids[k] && '<' !in ids[k])
    && (forall k :: 0 <= k < |names| ==> '<' !in names[k])
  }

  /** One escaped mention yields its id for its own marker and nothing for another. */
  lemma EscapedCaptured(marker: char, id: string, name: string, rest: string, scan: char)
    requires marker != '<' && id != [] && '|' !in id && '<' !in id && '<' !in name
    ensures Captures(Escaped(marker, id, name) + rest, scan)
      == (if scan == marker then [id] else []) + Captures(rest, scan)
  {
    var esc := Escaped(marker, id, name);
    var s := esc + rest;
    var tail := ['|'] + name + ['>', ' '];
    assert esc == ['<', marker] + id + tail;
    assert '<' !in tail;
    if scan == marker {
      assert MatchesAt(s, scan);
      var e := NextOf(s, 2, '|');
      assert s[2 + |id|] == '|';
      forall j | 2 <= j < 2 + |id|
        ensures s[j] != '|'
      {
        assert s[j] == id[j - 2];
      }
      assert e == 2 + |id|;
      assert s[2..e] == id;
      assert s[e..] == tail + rest;
      CapturesSkip(tail, rest, scan);
    } else {
      assert !MatchesAt(s, scan);
      var u := [marker] + id + tail;
      assert s[1..] == u + rest;
      assert '<' !in u;
      CapturesSkip(u, rest, scan);
    }
  }

  /** The mentions read back as their ids for their own marker, and as nothing for the other. */
  lemma {:induction false} MentionsCaptured(marker: char, ids: seq<string>, names: seq<string>, rest: string, scan: char)
    requires marker != '<' && WellFormed(ids, names)
    ensures Captures(Mentions(marker, ids, names) + rest, scan)
      == (if scan == marker then ids else []) + Captures(rest, scan)
    decreases |ids|
  {
    if ids == [] {
      assert Mentions(marker, ids, names) + rest == rest;
    } else {
      var esc := Escaped(marker, ids[0], names[0]);
      var more := Mentions(marker, ids[1..], names[1..]);
      assert Mentions(marker, ids, names) + rest == esc + (more + rest);
      assert WellFormed(ids[1..], names[1..]) by {
        assert forall k :: 0 <= k < |ids[1..]| ==> ids[1..][k] == ids[k + 1];
        assert forall k :: 0 <= k < |names[1..]| ==> names[1..][k] == names[k + 1];
      }
      EscapedCaptured(marker, ids[0], names[0], more + rest, scan);
      MentionsCaptured(marker, ids[1..], names[1..], rest, scan);
      var c := Captures(rest, scan);
      if scan == marker {
        assert [ids[0]] + (ids[1..] + c) == ids + c;
      } else {
        assert [] + ([] + c) == c;
      }
    }
  }

  /** `responders add <@U1|ann> <#C1|ops>` adds the users, then the channels, in the order
      written: the ids Slack escapes are recovered exactly. */
  lemma ResponderIdsRoundTrip(prefix: string, users: seq<string>, userNames: seq<string>,
                              channels: seq<string>, channelNames: seq<string>)
    requires '<' !in prefix && WellFormed(users, userNames) && WellFormed(channels, channelNames)
    ensures ResponderIds(prefix + Mentions(UserMarker, users, userNames) + Mentions(ChannelMarker, channels, channelNames))
      == users + channels
  {
    var mu := Mentions(UserMarker, users, userNames);
    var mc := Mentions(ChannelMarker, channels, channelNames);
    assert prefix + mu + mc == prefix + (mu + mc);
    TwoKindsCaptured(prefix, users, userNames, channels, channelNames, UserMarker);
    TwoKindsCaptured(prefix, users, userNames, channels, channelNames, ChannelMarker);
  }

  /** What one scan reads from a prefix without `<`, user mentions and channel links. */
  lemma TwoKindsCaptured(prefix: string, users: seq<string>, userNames: seq<string>,
                         channels: seq<string>, channelNames: seq<string>, scan: char)
    requires '<' !in prefix && WellFormed(users, userNames) && WellFormed(channels, channelNames)
    requires scan == UserMarker || scan == ChannelMarker
    ensures var mu := Mentions(UserMarker, users, userNames);
      var mc := Mentions(ChannelMarker, channels, channelNames);
      Captures(prefix + (mu + mc), scan) == if scan == UserMarker then users else channels
  {
    var mu := Mentions(UserMarker, users, userNames);
    var mc := Mentions(ChannelMarker, channels, channelNames);
    CapturesSkip(prefix, mu + mc, scan);
    MentionsCaptured(UserMarker, users, userNames, mc, scan);
    assert mc + [] == mc;
    MentionsCaptured(ChannelMarker, channels, channelNames, [], scan);
    assert Captures([], scan) == [];
    if scan == UserMarker {
      assert users + ([] + []) == users;
    } else {
      assert [] + (channels + []) == channels;
    }
  }

  /** A match at the front yields its capture, and the scan resumes after it. */
  lemma CapturesFront(s: string, marker: char)
    requires MatchesAt(s, marker)
    ensures var e := NextOf(s, 2, '|');
      Captures(s, marker) == [s[2..e]] + Captures(s[e..], marker) && Search(s, marker) == Some(s[2..e])
  {
  }

  /** Without a `|` to stop it, a capture runs to the end of the command, swallowing any later
      mention: `set oncall <@U1> <@U2>` as plain text sets `U1> <@U2>`. */
  lemma GreedyCapture(id: string)
    requires id != [] && '|' !in id
    ensures Captures("<@" + id, UserMarker) == [id]
    ensures Search("<@" + id, UserMarker) == Some(id)
  {
    var s := "<@" + id;
    assert MatchesAt(s, UserMarker);
    forall j | 2 <= j < |s|
      ensures s[j] != '|'
    {
      assert s[j] == id[j - 2];
    }
    assert NextOf(s, 2, '|') == |s|;
    assert s[2..|s|] == id;
    CapturesFront(s, UserMarker);
    assert s[|s|..] == [];
    assert Captures([], UserMarker) == [];
    assert [id] + [] == [id];
  }

  // ------------------------------------------------------------------ command_handler

  /** `command_handler`'s choice, tried in order: register, responders (add, remove, list, or
      the options), oncall (set), help, close incident, and otherwise the help hint. */
  function Route(command: string): (r: CommandRoute)
    ensures r == ShowRegister <==> Contains(command, "register")
    ensures r.AddResponders? ==> r.ids == ResponderIds(command) && (r.emptyWarning <==> r.ids == [])
    ensures r.RemoveResponders? ==> r.ids == ResponderIds(command)
    ensures r.SetOncall? ==> Search(command, UserMarker) == Some(r.userId)
    ensures r == NoReply <==>
      !Contains(command, "register") && !Contains(command, "responders") && Contains(command, "oncall")
      && !Contains(command, "set")
    ensures r == CloseIncidentModal <==>
      !Contains(command, "register") && !Contains(command, "responders") && !Contains(command, "oncall")
      && !Contains(command, "help") && Contains(command, "close incident")
    ensures r == Unknown <==>
      !Contains(command, "register") && !Contains(command, "responders") && !Contains(command, "oncall")
      && !Contains(command, "help") && !Contains(command, "close incident")
  {
    if Contains(command, "register") then ShowRegister
    else if Contains(command, "responders") then
      if Contains(command, "add") then
        var ids := ResponderIds(command);
        AddResponders(ids, ids == [])
      else if Contains(command, "remove") then RemoveResponders(ResponderIds(command))
      else if Contains(command, "list") then ListResponders
      else RespondersOptions
    else if Contains(command, "oncall") then
      if Contains(command, "set") then
        match Search(command, UserMarker)
        case Some(id) => SetOncall(id)
        case None => OncallWrongFormat
      else NoReply
    else if Contains(command, "help") then ShowHelp
    else if Contains(command, "close incident") then CloseIncidentModal
    else Unknown
  }

  /** The branches are tried in order and the first that holds wins: register, then within
      responders add, remove, list and the options, then oncall, then help. */
  lemma RoutePrecedence(command: string)
    ensures var r := Route(command);
      var register := Contains(command, "register");
      var responders := !register && Contains(command, "responders");
      var oncall := !register && !Contains(command, "responders") && Contains(command, "oncall");
      && (r.AddResponders? <==> responders && Contains(command, "add"))
      && (r.RemoveResponders? <==> responders && !Contains(command, "add") && Contains(command, "remove"))
      && (r == ListResponders <==>
            responders && !Contains(command, "add") && !Contains(command, "remove") && Contains(command, "list"))
      && (r == RespondersOptions <==>
            responders && !Contains(command, "add") && !Contains(command, "remove") && !Contains(command, "list"))
      && (r.SetOncall? || r == OncallWrongFormat <==> oncall && Contains(command, "set"))
      && (r == ShowHelp <==>
            !register && !Contains(command, "responders") && !Contains(command, "oncall") && Contains(command, "help"))
  {
  }

  /** `set oncall` with a mention sets the first mentioned user, and without one gets the
      format hint. */
  lemma SetOncallFirstMention(command: string)
    requires !Contains(command, "register") && !Contains(command, "responders")
    requires Contains(command, "oncall") && Contains(command, "set")
    ensures Captures(command, UserMarker) != [] ==> Route(command) == SetOncall(Captures(command, UserMarker)[0])
    ensures Captures(command, UserMarker) == [] ==> Route(command) == OncallWrongFormat
  {
    SearchIsFirstCapture(command, UserMarker);
  }

  /** A display name holding "register" turns any command into the register reply. */
  lemma RegisterInNameWins(command: string, before: string, after: string)
    requires command == before + "register" + after
    ensures Route(command) == ShowRegister
  {
    ContainsWithin(before, "register", after);
  }

  /** `<@U1> set as oncall` */
  function OncallSetReply(userId: string): (r: string)
    ensures |r| == |userId| + 17 && r[..2] == "<@" && r[2..|r| - 15] == userId && r[|r| - 15..] == "> set as oncall"
  {
    "<@" + userId + "> set as oncall"
  }
}
