/** The numbered listing of responders shown by the responders commands. */
module RespondersListFormatter {
  import opened Text
  import opened Seqs
  import opened SlackResponders

  const DefaultMessage: string := "Responders: \n"

  /** Formatting reads each id's first character, so no id may be empty. */
  predicate IdsNonEmpty(rs: seq<SlackResponder>) {
    forall k :: 0 <= k < |rs| ==> |rs[k].id| > 0
  }

  /** The line for one responder at position `n`: a user mention, a channel mention, or nothing
      for an id of neither kind. */
  function Line(r: SlackResponder, n: nat): string
  {
    if |r.id| > 0 && r.IsUser() then NatToString(n) + ". <@" + r.id + "> \n"
    else if |r.id| > 0 && r.IsChannel() then NatToString(n) + ". <#" + r.id + "> \n"
    else ""
  }

  /** The lines of a list whose first responder is at position `first`. */
  function Lines(rs: seq<SlackResponder>, first: nat): string
    decreases |rs|
  {
    if rs == [] then "" else Line(rs[0], first) + Lines(rs[1..], first + 1)
  }

  lemma {:induction false} LinesAppend(a: seq<SlackResponder>, b: seq<SlackResponder>, first: nat)
    ensures Lines(a + b, first) == Lines(a, first) + Lines(b, first + |a|)
    decreases |a|
  {
    if a == [] {
      assert a + b == b;
    } else {
      assert (a + b)[0] == a[0];
      assert (a + b)[1..] == a[1..] + b;
      LinesAppend(a[1..], b, first + 1);
    }
  }

  /** The responder at index `k` is numbered `first + k`, whatever kinds come before it: the
      counter also advances past ids that print nothing. */
  lemma LinesAt(rs: seq<SlackResponder>, k: nat, first: nat)
    requires k < |rs|
    ensures Lines(rs, first) == Lines(rs[..k], first) + Line(rs[k], first + k) + Lines(rs[k + 1..], first + k + 1)
  {
    assert rs == rs[..k + 1] + rs[k + 1..];
    LinesAppend(rs[..k + 1], rs[k + 1..], first);
    LinesSnoc(rs, k, first);
  }

  /** One more responder adds its line at the end. */
  lemma LinesSnoc(rs: seq<SlackResponder>, i: nat, first: nat)
    requires i < |rs|
    ensures Lines(rs[..i + 1], first) == Lines(rs[..i], first) + Line(rs[i], first + i)
  {
    assert rs[..i + 1] == rs[..i] + [rs[i]];
    LinesAppend(rs[..i], [rs[i]], first);
    assert [rs[i]][1..] == [];
    assert Lines([rs[i]], first + i) == Line(rs[i], first + i) + "";
  }

  /** Only users and channels are shown: a list with neither kind prints no lines. */
  lemma {:induction false} NeitherKindPrintsNothing(rs: seq<SlackResponder>, first: nat)
    requires IdsNonEmpty(rs) && forall k :: 0 <= k < |rs| ==> rs[k].id[0] != 'U' && rs[k].id[0] != 'C'
    ensures Lines(rs, first) == ""
    decreases |rs|
  {
    if rs != [] {
      assert rs[0] == rs[0];
      NeitherKindPrintsNothing(rs[1..], first + 1);
    }
  }

  /** A user is shown as a mention, a channel as a channel link, each after its number. */
  lemma MentionLines(id: string, n: nat)
    requires |id| > 0
    ensures id[0] == 'U' ==> Line(SlackResponder(id), n) == NatToString(n) + ". <@" + id + "> \n"
    ensures id[0] == 'C' ==> Line(SlackResponder(id), n) == NatToString(n) + ". <#" + id + "> \n"
  {
  }

  /** `RespondersListFormatter.format`: the message followed by one numbered line per user or
      channel, numbered from 1 by position in the list. */
  method Format(responders: seq<SlackResponder>, message: string) returns (response: string)
    requires IdsNonEmpty(responders)
    ensures response == message + Lines(responders, 1)
  {
    response := message;
    var cont := 1;
    var i := 0;
    while i < |responders|
      invariant 0 <= i <= |responders| && cont == i + 1
      invariant response == message + Lines(responders[..i], 1)
    {
      var responder := responders[i];
      var line := "";
      if responder.IsUser() {
        line := NatToString(cont) + ". <@" + responder.id + "> \n";
      } else if responder.IsChannel() {
        line := NatToString(cont) + ". <#" + responder.id + "> \n";
      }
      assert line == Line(responder, cont);
      LinesSnoc(responders, i, 1);
      Associates(message, Lines(responders[..i], 1), line);
      response := response + line;
      cont := cont + 1;
      i := i + 1;
    }
    assert responders[..i] == responders;
  }
}
