/** The request handling of the Flask app that Slack and the OAuth providers call: the incident
    name is cleaned of the bot mention and the command words, and the OAuth callbacks read
    the authorization code and the team and user back from the `state` parameter. */
module Handler {
  import opened Wrappers
  import opened Text
  import Utf8
  import Base64
  import RegisterCommand

  const NoCode: string := "no code!"
  const StateMissing: string := "TypeError: argument should be a bytes-like object or ASCII string, not 'NoneType'"
  const StateNotPair: string := "ValueError: the state does not hold exactly one ':'"

  // ------------------------------------------------------------------ the mention pattern `<@([^|]+)>`

  /** The index of the last `>` of `t` in `[lo, hi)`, if any. */
  function LastClose(t: string, lo: nat, hi: nat): (r: Option<nat>)
    requires hi <= |t|
    ensures r.Some? ==> lo <= r.value < hi && t[r.value] == '>'
    ensures r.Some? ==> forall j :: r.value < j < hi ==> t[j] != '>'
    ensures r.None? ==> forall j :: lo <= j < hi ==> t[j] != '>'
    decreases hi
  {
    if hi <= lo then None
    else if t[hi - 1] == '>' then Some(hi - 1)
    else LastClose(t, lo, hi - 1)
  }

  /** Where the match of `<@([^|]+)>` that starts `t` ends, if one does: after `<@`, the
      greedy run of characters other than `|` backs off to its last `>`, leaving at least
      one character before it. */
  function MentionAt(t: string): (r: Option<nat>)
    ensures r.Some? ==> 4 <= r.value <= |t| && t[..2] == "<@" && t[r.value - 1] == '>'
    ensures r.Some? ==> forall j :: 2 <= j < r.value ==> t[j] != '|'
  {
    if |t| >= 2 && t[..2] == "<@" then
      match LastClose(t, 3, NextOf(t, 2, '|'))
      case Some(j) => Some(j + 1)
      case None => None
    else None
  }

  /** `re.sub("<@([^|]+)>", "", s)`: every match, scanning from the left, is removed. */
  function RemoveMentions(s: string): (r: string)
    ensures |r| <= |s|
    decreases |s|
  {
    if s == [] then []
    else
      match MentionAt(s)
      case Some(e) => RemoveMentions(s[e..])
      case None => [s[0]] + RemoveMentions(s[1..])
  }

  /** Text without `<@` keeps every character. */
  lemma {:induction false} RemoveMentionsAbsent(s: string)
    requires !Contains(s, "<@")
    ensures RemoveMentions(s) == s
    decreases |s|
  {
    if s != [] {
      assert !("<@" <= s);
      assert MentionAt(s).None?;
      RemoveMentionsAbsent(s[1..]);
    }
  }

  /** A mention at the front is removed up to its `>` when no `>` follows it, whatever the id
      holds: an id may itself contain `>`, so everything from the first `<@` to the last `>`
      before a `|` goes. */
  lemma LeadingMentionRemoved(id: string, rest: string)
    requires id != "" && '|' !in id && '>' !in rest
    ensures RemoveMentions("<@" + id + ">" + rest) == RemoveMentions(rest)
  {
    var t := "<@" + id + ">" + rest;
    var close := 2 + |id|;
    assert t[..2] == "<@" && t[close] == '>';
    forall j | 2 <= j < close
      ensures t[j] != '|'
    {
      assert t[j] == id[j - 2];
    }
    forall j | close < j < |t|
      ensures t[j] != '>'
    {
      assert t[j] == rest[j - close - 1];
    }
    var bar := NextOf(t, 2, '|');
    assert close < bar;
    assert LastClose(t, 3, bar) == Some(close);
    assert t[close + 1..] == rest;
  }

  /** The greedy pattern also swallows the text between two mentions: in `<@BOT> new incident
      for <@U1> db down` everything up to the second mention's `>` goes. */
  lemma GreedyMentionSwallowsText(bot: string, words: string, user: string, rest: string)
    requires bot != "" && '|' !in bot + words + user && '>' !in rest
    ensures RemoveMentions("<@" + bot + ">" + words + "<@" + user + ">" + rest) == RemoveMentions(rest)
  {
    var id := bot + ">" + words + "<@" + user;
    assert "<@" + bot + ">" + words + "<@" + user + ">" + rest == "<@" + id + ">" + rest;
    assert forall c :: c in id && c != '>' && c != '<' && c != '@' ==> c in bot + words + user;
    LeadingMentionRemoved(id, rest);
  }

  // ------------------------------------------------------------------ sanitise_incident_name

  /** `sanitise_incident_name`: the mention of the bot is removed, then the words "new incident"
      and "create incident", then surrounding whitespace. */
  function SanitiseIncidentName(name: string): string {
    Strip(ReplaceAll(ReplaceAll(RemoveMentions(name), "new incident", ""), "create incident", ""))
  }

  /** What `strip` promises, for any string. */
  lemma StripBounds(b: string)
    ensures |Strip(b)| <= |b| && Strip(Strip(b)) == Strip(b)
    ensures Strip(b) == [] || (!IsSpace(Strip(b)[0]) && !IsSpace(Strip(b)[|Strip(b)| - 1]))
  {
    StripShape(b);
    StripIdempotent(b);
  }

  /** The name is never longer than the text it came from and has no whitespace at either end. */
  lemma SanitisedIsTrimmed(name: string)
    ensures |SanitiseIncidentName(name)| <= |name|
    ensures Strip(SanitiseIncidentName(name)) == SanitiseIncidentName(name)
    ensures var r := SanitiseIncidentName(name); r == [] || (!IsSpace(r[0]) && !IsSpace(r[|r| - 1]))
  {
    var m := RemoveMentions(name);
    var a := ReplaceAll(m, "new incident", "");
    var b := ReplaceAll(a, "create incident", "");
    RemoveShrinks(m, "new incident");
    RemoveShrinks(a, "create incident");
    StripBounds(b);
  }

  /** A name without mentions or command words and without surrounding whitespace is kept. */
  lemma SanitiseKeepsPlainName(name: string)
    requires !Contains(name, "<@") && !Contains(name, "new incident") && !Contains(name, "create incident")
    requires name == [] || (!IsSpace(name[0]) && !IsSpace(name[|name| - 1]))
    ensures SanitiseIncidentName(name) == name
  {
    RemoveMentionsAbsent(name);
    ReplaceAbsent(name, "new incident", "");
    ReplaceAbsent(name, "create incident", "");
    StripTrimmed(name);
  }

  /** Removing a word that follows a space and does not occur again leaves the space and the
      rest. */
  lemma RemoveWordAfterSpace(word: string, name: string)
    requires |word| > 0 && word[0] != ' ' && !Contains(name, word)
    ensures ReplaceAll(" " + word + " " + name, word, "") == [' '] + ([' '] + name)
  {
    var t := [' '] + name;
    SpacedWord(word, name);
    ReplaceSkip(' ', word + t, word);
    ReplaceDrop(word, t);
    ContainsCons(' ', name, word);
    ReplaceAbsent(t, word, "");
  }

  lemma SpacedWord(word: string, name: string)
    ensures " " + word + " " + name == [' '] + (word + ([' '] + name))
  {
  }

  /** A character that cannot start the pattern is kept. */
  lemma ReplaceSkip(c: char, u: string, p: string)
    requires |p| > 0 && p[0] != c
    ensures ReplaceAll([c] + u, p, "") == [c] + ReplaceAll(u, p, "")
  {
    assert ([c] + u)[0] == c && ([c] + u)[1..] == u;
  }

  /** A leading occurrence of the pattern is dropped. */
  lemma ReplaceDrop(p: string, rest: string)
    requires |p| > 0
    ensures ReplaceAll(p + rest, p, "") == ReplaceAll(rest, p, "")
  {
    assert p <= p + rest && (p + rest)[|p|..] == rest;
  }

  /** After a mention, a space, one command word and a space, only the name survives. */
  lemma RemoveMentionAndWord(bot: string, word: string, other: string, name: string)
    requires bot != "" && '|' !in bot && '>' !in name && '<' !in name
    requires |word| > 0 && word[0] != ' ' && '>' !in word && '<' !in word && !Contains(name, word)
    requires |other| > 0 && other[0] != ' ' && !Contains(name, other)
    requires name == [] || (!IsSpace(name[0]) && !IsSpace(name[|name| - 1]))
    ensures Strip(ReplaceAll(ReplaceAll(RemoveMentions("<@" + bot + ">" + (" " + word + " " + name)),
      word, ""), other, "")) == name
  {
    var rest := " " + word + " " + name;
    assert '>' !in rest && '<' !in rest;
    LeadingMentionRemoved(bot, rest);
    NotContainsWithoutFirst(rest, "<@");
    RemoveMentionsAbsent(rest);
    RemoveWordAfterSpace(word, name);
    var tail := [' '] + name;
    ContainsCons(' ', name, other);
    ContainsCons(' ', tail, other);
    ReplaceAbsent([' '] + tail, other, "");
    StripSpaceCons(tail);
    StripSpaceCons(name);
    StripTrimmed(name);
  }

  /** The words of the command are taken out of the name: `<@BOT> new incident db down` names
      the incident `db down`. */
  lemma SanitiseCommand(bot: string, name: string)
    requires bot != "" && '|' !in bot && '>' !in name && '<' !in name
    requires !Contains(name, "new incident") && !Contains(name, "create incident")
    requires name == [] || (!IsSpace(name[0]) && !IsSpace(name[|name| - 1]))
    ensures SanitiseIncidentName("<@" + bot + ">" + (" " + "new incident" + " " + name)) == name
  {
    RemoveMentionAndWord(bot, "new incident", "create incident", name);
  }

  // ------------------------------------------------------------------ the OAuth callbacks

  /** What an OAuth callback reads from its query: the authorization code and the team and
      user of the `state` parameter. */
  datatype OAuthCallback = OAuthCallback(code: string, teamId: string, userId: string)

  /** `request.args.get("code") or "no code!"`. */
  function CodeOrDefault(code: Option<string>): (r: string)
    ensures r != ""
    ensures code.Some? && code.value != "" ==> r == code.value
  {
    if code.Some? && code.value != "" then code.value else NoCode
  }

  /** `b64decode(state).decode()` split on `:` into exactly a team and a user; a missing state,
      a malformed encoding and any other number of pieces raise. */
  function DecodeState(state: Option<string>): Result<(string, string)> {
    if state.None? then Failure(StateMissing)
    else
      match Base64.Decode(state.value)
      case Failure(e) => Failure(e)
      case Success(octets) =>
        match Utf8.Decode(octets)
        case Failure(e) => Failure(e)
        case Success(text) =>
          var parts := Split(text, ":");
          if |parts| != 2 then Failure(StateNotPair) else Success((parts[0], parts[1]))
  }

  /** The head of `jira_oauth` and `zoom_auth`. */
  function ReadCallback(code: Option<string>, state: Option<string>): Result<OAuthCallback> {
    match DecodeState(state)
    case Failure(e) => Failure(e)
    case Success((teamId, userId)) => Success(OAuthCallback(CodeOrDefault(code), teamId, userId))
  }

  /** The state the register reply builds reads back as its team and user, for ids without
      `:`. */
  lemma StateRoundTrip(teamId: string, userId: string)
    requires ':' !in teamId && ':' !in userId
    ensures DecodeState(Some(RegisterCommand.BuildStateParam(teamId, userId))) == Success((teamId, userId))
  {
    var text := RegisterCommand.StateText(teamId, userId);
    Base64.DecodeEncode(Utf8.Encode(text));
    Utf8.DecodeEncode(text);
    assert text == teamId + [':'] + userId;
    SplitOnce(teamId, ':', userId);
  }

  /** A state that reads back holds exactly one `:`, between the team and the user. */
  lemma DecodedStateIsPair(state: Option<string>)
    requires DecodeState(state).Success?
    ensures var (teamId, userId) := DecodeState(state).value;
      ':' !in teamId && ':' !in userId
      && Utf8.Decode(Base64.Decode(state.value).value) == Success(RegisterCommand.StateText(teamId, userId))
  {
    var text := Utf8.Decode(Base64.Decode(state.value).value).value;
    var parts := Split(text, ":");
    SplitPiecesFree(text, ":");
    ContainsChar(parts[0], ':');
    ContainsChar(parts[1], ':');
    JoinSplit(text, ":");
    assert parts == [parts[0]] + parts[1..] && parts[1..] == [parts[1]];
    JoinCons(parts[0], parts[1..], ":");
  }

  /** A callback whose state came from the register reply names that team and user. */
  lemma CallbackRoundTrip(code: Option<string>, teamId: string, userId: string)
    requires ':' !in teamId && ':' !in userId
    ensures ReadCallback(code, Some(RegisterCommand.BuildStateParam(teamId, userId)))
      == Success(OAuthCallback(CodeOrDefault(code), teamId, userId))
  {
    StateRoundTrip(teamId, userId);
  }
}
