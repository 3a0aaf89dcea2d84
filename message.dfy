/** What the bot does with a plain channel message: a joke reply to "parca", and a comment
    logged on the channel's incident ticket for a message that starts with `log:`. */
module Message {
  import opened Wrappers
  import opened Text

  /** The fields of a message event that the routing reads. */
  datatype MessageEvent = MessageEvent(subtype: Option<string>, text: Option<string>, user: string)

  /** The branch `handle_message` takes. */
  datatype MessageRoute =
    | Parca(reply: string)
    | LogComment(comment: string)
    | Ignore

  const TextMissing: string := "TypeError: argument of type 'NoneType' is not iterable"
  const LogMarker: string := "LOG: "

  /** `re.search("^log:", text, re.IGNORECASE)`: the text starts with `log:` in any case. */
  predicate StartsWithLog(t: string) {
    |t| >= 4 && Lower(t[..4]) == "log:"
  }

  /** `You probably meant Lisandro, <@user>! :tada:` */
  function ParcaReply(user: string): (r: string)
    ensures |r| == |user| + 40 && r[..31] == "You probably meant Lisandro, <@" && r[31..|r| - 9] == user
  {
    "You probably meant Lisandro, <@" + user + ">! :tada:"
  }

  /** The comment logged for a `log:` message: the text with every `LOG: ` taken out. */
  function Comment(t: string): (c: string)
    ensures |c| <= |t|
  {
    RemoveShrinks(t, LogMarker);
    ReplaceAll(t, LogMarker, "")
  }

  /** `handle_message`'s choice. A message with a subtype is ignored; without one a missing
      text raises. */
  function Route(ev: MessageEvent): (r: Result<MessageRoute>)
    ensures ev.subtype.Some? ==> r == Success(Ignore)
    ensures r.Failure? <==> ev.subtype.None? && ev.text.None?
  {
    if ev.subtype.Some? then Success(Ignore)
    else if ev.text.None? then Failure(TextMissing)
    else Success(RouteText(ev.text.value, ev.user))
  }

  /** The branch taken for the text of a message without a subtype: "parca" anywhere wins over
      a `log:` prefix, and the comment is the text less every `LOG: `. */
  function RouteText(t: string, user: string): (r: MessageRoute)
    ensures r.Parca? <==> Contains(t, "parca")
    ensures r.Parca? ==> r.reply == ParcaReply(user)
    ensures r.LogComment? <==> !Contains(t, "parca") && StartsWithLog(t)
    ensures r.LogComment? ==> r.comment == Comment(t)
  {
    if Contains(t, "parca") then Parca(ParcaReply(user))
    else if StartsWithLog(t) then LogComment(Comment(t))
    else Ignore
  }

  /** The prefix test, letter by letter: `l`, `o` and `g` in either case, then `:`. */
  lemma StartsWithLogLetters(t: string)
    ensures StartsWithLog(t) <==>
      |t| >= 4 && (t[0] == 'l' || t[0] == 'L') && (t[1] == 'o' || t[1] == 'O')
      && (t[2] == 'g' || t[2] == 'G') && t[3] == ':'
  {
    if |t| >= 4 {
      var low := Lower(t[..4]);
      assert low[0] == LowerChar(t[0]) && low[1] == LowerChar(t[1]) && low[2] == LowerChar(t[2])
        && low[3] == LowerChar(t[3]);
      assert low == "log:" <==> low[0] == 'l' && low[1] == 'o' && low[2] == 'g' && low[3] == ':';
    }
  }

  /** `LOG: x` logs `x` when `x` has no further `LOG: `. */
  lemma UpperMarkerRemoved(x: string)
    requires !Contains(x, LogMarker)
    ensures StartsWithLog(LogMarker + x) && Comment(LogMarker + x) == x
  {
    var s := LogMarker + x;
    assert s[..5] == LogMarker && s[5..] == x;
    assert s[..4] == "LOG:";
    ReplaceAbsent(x, LogMarker, "");
  }

  /** `log: x` is logged whole, prefix included, since only the upper-case marker is removed. */
  lemma LowerMarkerKept(x: string)
    requires !Contains(x, LogMarker)
    ensures StartsWithLog("log: " + x) && Comment("log: " + x) == "log: " + x
  {
    var s := "log: " + x;
    assert s[..4] == "log:";
    assert 'L' !in "log: ";
    ContainsAfter("log: ", x, LogMarker);
    ReplaceAbsent(s, LogMarker, "");
  }
}
