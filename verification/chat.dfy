/** The entities of the ask-chatgpt handler: the incoming request state, chat
    messages, the completion parameters, the upstream reply, the failures it
    can raise and the shapes of the final response. */
module Chat {
  import opened Wrappers

  /** A JSON value, as produced by `JSON.parse` and carried by `state.schema`. */
  datatype Json =
    | JNull
    | JBool(b: bool)
    | JNumber(n: real)
    | JString(s: string)
    | JArray(items: seq<Json>)
    | JObject(fields: seq<(string, Json)>)

  /** JavaScript truthiness of a JSON value (objects and arrays are truthy). */
  predicate Truthy(j: Json) {
    match j
    case JNull => false
    case JBool(b) => b
    case JNumber(n) => n != 0.0
    case JString(s) => s != ""
    case JArray(_) => true
    case JObject(_) => true
  }

  /** JavaScript truthiness of an optional string: present and non-empty. */
  predicate Given(s: Option<string>) {
    s.Some? && s.value != ""
  }

  datatype Role = System | User | Assistant

  /** The `function_call` part of an assistant reply to a schema request. */
  datatype FunctionCall = FunctionCall(name: string, arguments: string)

  /** A chat message. `content` is null (None) in an assistant reply that
      carries a function call instead of text. */
  datatype Message = Message(role: Role, content: Option<string>, functionCall: Option<FunctionCall>)

  /** A message with text content and no function call. */
  function TextMessage(role: Role, text: string): Message {
    Message(role, Some(text), None)
  }

  /** The handler's input. Optional fields are None when the caller left them
      out; the flags stand for their JavaScript truthiness. */
  datatype State = State(
    query: string,
    model: Option<string>,
    systemContext: Option<string>,
    conversationKey: Option<string>,
    schema: Option<Json>,
    outputFormat: Option<string>,
    streamResponse: bool,
    rememberResponse: bool,
    trim: bool,
    trimFront: bool)

  /** One entry of the `functions` parameter. */
  datatype FunctionSpec = FunctionSpec(name: string, parameters: Json)

  /** The `response_format` parameter; its `type` field. */
  datatype ResponseFormat = ResponseFormat(kind: string)

  /** The parameters sent to the chat completion service. A None field is a
      key the params object does not have. */
  datatype Params = Params(
    model: string,
    temperature: real,
    messages: seq<Message>,
    functions: Option<seq<FunctionSpec>>,
    responseFormat: Option<ResponseFormat>,
    stream: bool)

  /** The HTTP response an upstream failure may carry (`err.response`). */
  datatype HttpResponse = HttpResponse(status: int, data: string)

  /** A thrown JavaScript error: its name, its message and, for failures
      reported by the completion service, the HTTP response. */
  datatype Error = Error(name: string, message: string, response: Option<HttpResponse>)

  /** What the completion service does with one request: the content deltas
      of the stream chunks, in arrival order (None for a chunk without
      content), and then either the final message or a failure. In buffered
      mode only `final` is used. */
  datatype Reply = Reply(deltas: seq<Option<string>>, final: Result<Message, Error>)

  /** The `response` field of the handler's result. `Numeric(arg)` stands for
      `Number(arg)` (with None for `Number(null)`), which the model keeps
      uninterpreted. */
  datatype Output = Text(text: string) | Numeric(arg: Option<string>) | Parsed(value: Json)

  /** One `publish` call on the topic client: the topic name (the
      conversation key as given, possibly absent) and the text. */
  datatype Publication = Publication(topic: Option<string>, text: string)

  /** The store of conversations: the cache's list entries under the
      'chatgpt' namespace, one message list per conversation key. */
  type Store = map<string, seq<Message>>

  const JsonModeModels: seq<string> := ["gpt-4-1106-preview", "gpt-4-vision-preview"]
  const DefaultModel: string := "gpt-4-0613"
  const JsonInstruction: string := " Structure your answer in JSON format."
  const Temperature: real := 0.7
  const SchemaFunctionName: string := "user-schema"
  const JsonObjectFormat: string := "json_object"
  const Paragraph: string := "\n\n"
  const RateLimitName: string := "RateLimitExceeded"
}
