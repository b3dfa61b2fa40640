/** The webhook client: it exchanges one user message for one display string
    and never fails. The network is a parameter: `network` gives the outcome
    of a request, and the client reports the requests it issues next to its
    reply, so how many requests it sends is part of its result. */
module N8nService {
  import opened Wrappers
  import opened JsString
  import opened Constants

  /** A decoded JSON value, as `response.json()` produces it. */
  datatype Json =
    | JNull
    | JBool(b: bool)
    | JNum(n: real)
    | JStr(s: string)
    | JArr(items: seq<Json>)
    | JObj(fields: map<string, Json>)

  /** What reading the body as JSON gives: a value, or a rejection because
      the body is not JSON. */
  datatype Body = Malformed | Decoded(data: Json)

  /** The outcome of the one `fetch`: it rejects (connection refused, DNS
      failure, ...), or it yields a response with a status and a body. */
  datatype Exchange = TransportFailure | Response(status: int, body: Body)

  /** The request `fetch` is given. The body is the JSON value that
      `JSON.stringify` serialises. */
  datatype Request = Request(httpMethod: string, url: string, headers: map<string, string>, body: Json)

  /** What one call yields: the display string, and the requests issued to
      obtain it, in order. */
  datatype Outcome = Outcome(reply: string, sent: seq<Request>)

  const SimulatedResponse: string := "This is a simulated response. Please configure your n8n webhook URL in the settings to get a real reply."

  const UnexpectedFormatMessage: string := "I received a response, but the format was unexpected."

  /** `!webhookUrl || webhookUrl.includes('YOUR_N8N_INSTANCE')`: the empty
      string is the only falsy string. */
  predicate IsUnconfigured(webhookUrl: string) {
    webhookUrl == "" || Contains(webhookUrl, PlaceholderMarker)
  }

  /** `response.ok`: the status lies in the range 200 to 299. */
  predicate IsOk(status: int) {
    200 <= status <= 299
  }

  /** JavaScript truthiness of a decoded value (JSON has no NaN, so a
      number is falsy exactly when it is zero). The falsy JSON values are
      exactly `null`, `false`, `0` and `""`. */
  predicate Truthy(j: Json)
    ensures Truthy(j) <==> j !in {JNull, JBool(false), JNum(0.0), JStr("")}
  {
    match j
    case JNull => false
    case JBool(b) => b
    case JNum(n) => n != 0.0
    case JStr(s) => s != ""
    case JArr(_) => true
    case JObj(_) => true
  }

  /** `typeof j.output === 'string'`, with the string when it holds. Only an
      object with an own `output` member can have one: arrays, strings,
      numbers and booleans read `output` as `undefined`. The source reads it
      only from truthy values, so the read on `null` that would throw never
      happens. */
  function OutputOf(j: Json): (r: Option<string>)
    ensures r.Some? ==> HasOutput(j, r.value)
    ensures r.None? ==> forall s :: !HasOutput(j, s)
  {
    if j.JObj? && "output" in j.fields && j.fields["output"].JStr?
    then Some(j.fields["output"].s)
    else None
  }

  /** The documented reply shape: an object whose `output` member is the
      string `s`. */
  ghost predicate HasOutput(j: Json, s: string) {
    j.JObj? && "output" in j.fields && j.fields["output"] == JStr(s)
  }

  /** The two reply shapes the webhook may send, carrying reply text `s`:
      `[{"output": s}, ...]` or `{"output": s}`. */
  ghost predicate Carries(data: Json, s: string) {
    || (data.JArr? && |data.items| > 0 && HasOutput(data.items[0], s))
    || HasOutput(data, s)
  }

  /** The normalisation of a decoded body, in the source's order: first the
      array whose first element has a string `output`, then the object with
      a string `output`; `None` stands for "neither shape". It finds the
      reply text exactly when the body has one of the documented shapes. */
  function Normalize(data: Json): (r: Option<string>)
    ensures r.Some? ==> Carries(data, r.value)
    ensures r.None? ==> forall s :: !Carries(data, s)
  {
    if data.JArr? && |data.items| > 0 && Truthy(data.items[0]) && OutputOf(data.items[0]).Some?
    then OutputOf(data.items[0])
    else if Truthy(data) && OutputOf(data).Some?
    then OutputOf(data)
    else None
  }

  /** The one request: a POST of `{"message": userMessage}` as JSON. */
  function RequestFor(userMessage: string, webhookUrl: string): (r: Request)
    ensures r.httpMethod == "POST" && r.url == webhookUrl
    ensures r.headers.Keys == {"Content-Type"} && r.headers["Content-Type"] == "application/json"
    ensures r.body.JObj? && r.body.fields.Keys == {"message"} && r.body.fields["message"] == JStr(userMessage)
  {
    Request("POST", webhookUrl, map["Content-Type" := "application/json"],
            JObj(map["message" := JStr(userMessage)]))
  }

  /** The exchange succeeded and its decoded body carries reply text `s`. */
  ghost predicate RepliedWith(e: Exchange, s: string) {
    e.Response? && IsOk(e.status) && e.body.Decoded? && Carries(e.body.data, s)
  }

  /** `sendMessageToN8n`: never fails. An unconfigured URL issues no request
      and gives the simulated reply; otherwise exactly one request, the JSON
      POST of the message, is issued and the reply is read from its answer.
      The reply is one of the three fixed strings or the reply text of that
      exchange. */
  function SendMessageToN8n(userMessage: string, webhookUrl: string, network: Request -> Exchange): (o: Outcome)
    ensures IsUnconfigured(webhookUrl) ==> o.sent == [] && o.reply == SimulatedResponse
    ensures !IsUnconfigured(webhookUrl) ==>
      && o.sent == [RequestFor(userMessage, webhookUrl)]
      && var e := network(o.sent[0]);
      && (e.TransportFailure? ==> o.reply == BotErrorMessage)
      && (e.Response? && !IsOk(e.status) ==> o.reply == BotErrorMessage)
      && (e.Response? && IsOk(e.status) && e.body.Malformed? ==> o.reply == BotErrorMessage)
      && (forall s :: RepliedWith(e, s) ==> o.reply == s)
      && ((e.Response? && IsOk(e.status) && e.body.Decoded? && (forall s :: !Carries(e.body.data, s)))
            ==> o.reply == UnexpectedFormatMessage)
    ensures || o.reply in {SimulatedResponse, BotErrorMessage, UnexpectedFormatMessage}
            || (o.sent != [] && RepliedWith(network(o.sent[0]), o.reply))
  {
    if IsUnconfigured(webhookUrl) then Outcome(SimulatedResponse, [])
    else
      var request := RequestFor(userMessage, webhookUrl);
      var reply :=
        match network(request)
        case TransportFailure => BotErrorMessage
        case Response(status, body) =>
          if !IsOk(status) then BotErrorMessage
          else match body
            case Malformed => BotErrorMessage
            case Decoded(data) =>
              match Normalize(data)
              case Some(text) => text
              case None => UnexpectedFormatMessage;
      Outcome(reply, [request])
  }

  /** An unconfigured URL issues no request, and the simulated reply does not
      depend on what the network would have answered. */
  lemma UnconfiguredIssuesNoRequest(userMessage: string, webhookUrl: string, n1: Request -> Exchange, n2: Request -> Exchange)
    requires IsUnconfigured(webhookUrl)
    ensures SendMessageToN8n(userMessage, webhookUrl, n1).sent == []
    ensures SendMessageToN8n(userMessage, webhookUrl, n1) == SendMessageToN8n(userMessage, webhookUrl, n2)
  {
  }

  /** A configured URL issues exactly the one JSON POST of the message, and
      the outcome depends only on the network's answer to it. */
  lemma ConfiguredIssuesOneRequest(userMessage: string, webhookUrl: string, n1: Request -> Exchange, n2: Request -> Exchange)
    requires !IsUnconfigured(webhookUrl)
    requires n1(RequestFor(userMessage, webhookUrl)) == n2(RequestFor(userMessage, webhookUrl))
    ensures SendMessageToN8n(userMessage, webhookUrl, n1).sent == [RequestFor(userMessage, webhookUrl)]
    ensures SendMessageToN8n(userMessage, webhookUrl, n1) == SendMessageToN8n(userMessage, webhookUrl, n2)
  {
  }

  /** Only the first element of an array reply is consulted. */
  lemma LaterElementsIgnored(first: Json, rest1: seq<Json>, rest2: seq<Json>)
    ensures Normalize(JArr([first] + rest1)) == Normalize(JArr([first] + rest2))
  {
  }

  /** The bodies that match neither shape: the empty array, an array whose
      first element has no string `output`, a scalar, and an object whose
      `output` is missing or not a string. */
  lemma UnexpectedShapes(first: Json, rest: seq<Json>, scalar: Json, fields: map<string, Json>)
    requires !first.JObj? || "output" !in first.fields || !first.fields["output"].JStr?
    requires scalar.JNull? || scalar.JBool? || scalar.JNum? || scalar.JStr?
    requires "output" in fields ==> !fields["output"].JStr?
    ensures Normalize(JArr([])) == None
    ensures Normalize(JArr([first] + rest)) == None
    ensures Normalize(scalar) == None
    ensures Normalize(JObj(fields)) == None
  {
  }

  /** The three failure outcomes are three different strings, so a reader of
      the conversation can tell them apart. */
  lemma FailureMessagesDistinct()
    ensures BotErrorMessage != SimulatedResponse
    ensures BotErrorMessage != UnexpectedFormatMessage
    ensures SimulatedResponse != UnexpectedFormatMessage
  {
  }

  /** The documented example exchanges of a configured webhook. */
  lemma DocumentedExamples(userMessage: string, webhookUrl: string, network: Request -> Exchange, body: Json)
    requires !IsUnconfigured(webhookUrl)
    requires network(RequestFor(userMessage, webhookUrl)) == Response(200, Decoded(body))
    ensures body == JObj(map["output" := JStr("hi")]) ==> SendMessageToN8n(userMessage, webhookUrl, network).reply == "hi"
    ensures body == JObj(map["output" := JStr("")]) ==> SendMessageToN8n(userMessage, webhookUrl, network).reply == ""
    ensures (body == JArr([JObj(map["output" := JStr("hi")]), JObj(map["output" := JStr("ignored")])]))
              ==> SendMessageToN8n(userMessage, webhookUrl, network).reply == "hi"
    ensures (body == JObj(map["foo" := JStr("bar")]))
              ==> SendMessageToN8n(userMessage, webhookUrl, network).reply == UnexpectedFormatMessage
  {
  }
}
