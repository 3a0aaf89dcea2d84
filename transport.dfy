/** The outside world the bot talks to, as values and oracles: JSON documents, HTTP exchanges
    with the OAuth and REST servers, calls to the Slack Web API, and the Block Kit blocks the bot
    posts. A client object records every request it sends; what comes back is decided by a
    response function fixed when the client is made, so a proof holds for every server. */
module Transport {
  import opened Wrappers

  datatype Json =
    | JNull
    | JBool(b: bool)
    | JInt(i: int)
    | JStr(s: string)
    | JArr(items: seq<Json>)
    | JObj(fields: map<string, Json>)

  /** `d.get(key)` on a decoded document: only an object has `get`. */
  function Get(j: Json, key: string): (r: Result<Option<Json>>)
    ensures r.Success? <==> j.JObj?
    ensures r.Success? ==> (r.value.Some? <==> key in j.fields)
    ensures r.Success? && r.value.Some? ==> r.value.value == j.fields[key]
  {
    match j
    case JObj(fields) => Success(if key in fields then Some(fields[key]) else None)
    case _ => Failure("object has no attribute 'get'")
  }

  /** The value under `key` in an object's fields, if any. */
  function Field(fields: map<string, Json>, key: string): (r: Option<Json>)
    ensures r.Some? <==> key in fields
  {
    if key in fields then Some(fields[key]) else None
  }

  /** A field read as a string: `None` when it is missing, null or not a string. */
  function StringOf(v: Option<Json>): (r: Option<string>)
    ensures r.Some? <==> v.Some? && v.value.JStr?
  {
    if v.Some? && v.value.JStr? then Some(v.value.s) else None
  }

  /** A field read as a whole number of seconds: `None` when it is missing or not an integer. */
  function IntOf(v: Option<Json>): (r: Option<int>)
    ensures r.Some? <==> v.Some? && v.value.JInt?
  {
    if v.Some? && v.value.JInt? then Some(v.value.i) else None
  }

  /** A string field of a request body: a JSON string, or null for `None`. */
  function StrOrNull(s: Option<string>): (j: Json)
    ensures s.Some? <==> j.JStr?
  {
    if s.Some? then JStr(s.value) else JNull
  }

  // ------------------------------------------------------------------ HTTP

  datatype Verb = HttpGet | HttpPost

  /** How a request authenticates: not at all, with a bearer token, or with HTTP Basic. */
  datatype Auth = NoAuth | Bearer(token: string) | Basic(user: string, password: string)

  /** A request body: none, a JSON document, or a form of string fields. */
  datatype Body = NoBody | JsonBody(json: Json) | FormBody(form: map<string, string>)

  datatype HttpRequest = HttpRequest(verb: Verb, url: string, auth: Auth, body: Body)

  /** What `requests` hands back: a status and a body that may or may not decode as JSON; or an
      exception raised before any status arrives. */
  datatype HttpReply = Reply(status: int, body: Option<Json>) | ConnectionError(message: string)

  /** `r.json()`: the decoded body; raises on a connection error or an undecodable body. */
  function JsonOf(reply: HttpReply): (r: Result<Json>)
    ensures r.Success? <==> reply.Reply? && reply.body.Some?
    ensures r.Success? ==> r.value == reply.body.value
  {
    match reply
    case ConnectionError(m) => Failure(m)
    case Reply(_, body) =>
      if body.Some? then Success(body.value) else Failure("Expecting value: line 1 column 1 (char 0)")
  }

  /** An HTTP client: `respond(n, req)` is the reply to the `n`-th request sent. */
  class HttpClient {
    const respond: (nat, HttpRequest) -> HttpReply
    var sent: seq<HttpRequest>

    constructor (respond: (nat, HttpRequest) -> HttpReply)
      ensures this.respond == respond && sent == []
    {
      this.respond := respond;
      sent := [];
    }

    /** The reply the next request would get. */
    function NextReply(req: HttpRequest): HttpReply
      reads this
    {
      respond(|sent|, req)
    }

    method Send(req: HttpRequest) returns (reply: HttpReply)
      modifies this
      ensures sent == old(sent) + [req]
      ensures reply == old(NextReply(req))
    {
      reply := respond(|sent|, req);
      sent := sent + [req];
    }
  }

  // ------------------------------------------------------------------ Slack Block Kit

  datatype TextObject = Mrkdwn(text: string) | PlainText(text: string, emoji: bool)

  datatype ButtonStyle = Primary | Danger

  datatype Button = Button(caption: TextObject, style: ButtonStyle, actionId: string, value: Option<string>)

  datatype Block =
    | Section(text: TextObject)
    | FieldsSection(fields: seq<TextObject>)
    | Divider
    | Actions(buttons: seq<Button>)
    | Context(elements: seq<TextObject>)

  // ------------------------------------------------------------------ Slack Web API

  datatype SlackRequest =
    | PostText(channel: string, text: string)
    | PostBlocks(channel: string, blocks: seq<Block>)
    | CreateConversation(name: string)
    | SetTopic(channel: string, topic: string)
    | Invite(channel: string, users: seq<string>)
    | Join(channel: string)

  /** A Web API response (its `ok` flag and, for a created conversation, `channel.id`), or a
      `SlackApiError` raised by the client. */
  datatype SlackReply = SlackResponse(ok: bool, channelId: Option<string>) | SlackApiError(message: string)

  /** A Slack `WebClient`: `respond(n, req)` is the answer to the `n`-th call. */
  class SlackClient {
    const respond: (nat, SlackRequest) -> SlackReply
    var sent: seq<SlackRequest>

    constructor (respond: (nat, SlackRequest) -> SlackReply)
      ensures this.respond == respond && sent == []
    {
      this.respond := respond;
      sent := [];
    }

    function NextReply(req: SlackRequest): SlackReply
      reads this
    {
      respond(|sent|, req)
    }

    method Call(req: SlackRequest) returns (reply: SlackReply)
      modifies this
      ensures sent == old(sent) + [req]
      ensures reply == old(NextReply(req))
    {
      reply := respond(|sent|, req);
      sent := sent + [req];
    }
  }
}
