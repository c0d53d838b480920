/**
 * The exchange with the chat backend: one POST carrying the transcript, and
 * the checks the reply must pass before its content is used.
 */
module Chat {
  import opened Options

  /** A parsed JSON value. */
  datatype Json =
    | JNull
    | JBool(b: bool)
    | JNumber(n: real)
    | JString(s: string)
    | JArray(items: seq<Json>)
    | JObject(fields: map<string, Json>)

  /** The body of a response, as `response.json()` reads it. */
  datatype ResponseBody = Unparsable | Parsed(value: Json)

  /** What `fetch` yields: a rejection, or a response with a status and a body. */
  datatype HttpExchange = NetworkFailure | Response(status: int, body: ResponseBody)

  /** The errors the exchange raises into the handler's `catch`. */
  datatype ChatError =
    | Unreachable             // fetch rejected
    | ServerError(status: int) // response.ok was false
    | MalformedReply          // the body is not JSON, or has no string message.content

  /** `response.ok`: a status in the range 200 to 299. */
  predicate OkStatus(status: int)
  {
    200 <= status <= 299
  }

  /** JavaScript truthiness of a JSON value. */
  predicate Truthy(v: Json)
  {
    match v
    case JNull => false
    case JBool(b) => b
    case JNumber(n) => n != 0.0
    case JString(s) => s != ""
    case JArray(_) => true
    case JObject(_) => true
  }

  /** `obj.key` on a non-null value; `None` is `undefined`. */
  function Property(v: Json, key: string): Option<Json>
  {
    if v.JObject? && key in v.fields then Some(v.fields[key]) else None
  }

  /**
   * The reply content as the handler checks it: reading `data.message` of a
   * null body throws, `!data.message` or a `message.content` that is not a
   * string raises the format error.
   */
  function CheckedContent(data: Json): (r: Result<string, ChatError>)
    ensures r.Success? <==> WellFormedReply(data)
    ensures r.Success? ==> r.value == ReplyText(data)
    ensures r.Failure? ==> r.error == MalformedReply
  {
    if data.JNull? then Failure(MalformedReply)
    else match Property(data, "message")
      case None => Failure(MalformedReply)
      case Some(message) =>
        if !Truthy(message) then Failure(MalformedReply)
        else match Property(message, "content")
          case Some(JString(content)) => Success(content)
          case _ => Failure(MalformedReply)
  }

  /** A body of the documented shape `{ message: { content: <string>, ... }, ... }`. */
  predicate WellFormedReply(data: Json)
  {
    data.JObject? && "message" in data.fields &&
    data.fields["message"].JObject? && "content" in data.fields["message"].fields &&
    data.fields["message"].fields["content"].JString?
  }

  /** The assistant's text the reply carries; meaningful only for a well-formed body. */
  function ReplyText(data: Json): string
    requires WellFormedReply(data)
  {
    data.fields["message"].fields["content"].s
  }

  /** What the whole exchange yields to the handler: the assistant's text, or the error it raises. */
  function ChatReply(x: HttpExchange): (r: Result<string, ChatError>)
    ensures r.Success? <==> x.Response? && OkStatus(x.status) && x.body.Parsed? && WellFormedReply(x.body.value)
    ensures r.Success? ==> r.value == ReplyText(x.body.value)
    ensures x.NetworkFailure? ==> r == Failure(Unreachable)
    ensures x.Response? && !OkStatus(x.status) ==> r == Failure(ServerError(x.status))
    ensures x.Response? && OkStatus(x.status) && !(x.body.Parsed? && WellFormedReply(x.body.value)) ==>
              r == Failure(MalformedReply)
  {
    match x
    case NetworkFailure => Failure(Unreachable)
    case Response(status, body) =>
      if !OkStatus(status) then Failure(ServerError(status))
      else match body
        case Unparsable => Failure(MalformedReply)
        case Parsed(data) => CheckedContent(data)
  }
}
