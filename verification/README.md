# ask-chatgpt handler — a Dafny model

This project models the request/response pipeline of the `ask-chatgpt`
function of serverless-toolbox (`functions/ask-chatgpt/index.js`). The
pipeline turns one request into a turn of a stored conversation with a chat
completion service. Each stage is a pure function over an immutable `State`:

1. fetch the stored history for the conversation key (`ConversationStore`);
2. build the message list, augment the query for JSON-mode models, and
   assemble the completion parameters (`RequestBuilder`);
3. call the completion service, buffered or streamed; in streamed mode every
   non-empty delta is published on the conversation's topic (`Streaming`);
4. append the user turn and the reply to the store when asked (`ConversationStore`);
5. shape the reply: the schema bypass, the `trim`/`trimFront` paragraph
   heuristics over `split('\n\n')`/`join('\n\n')`, and the output-format
   switch (`PostProcess`, with the string primitives in `Text`);
6. classify failures: a 429 becomes a `RateLimitExceeded` error and any other
   failure is rethrown unchanged (`Errors`).

`Handler.Handle` chains the stages. The completion service is a parameter
`service: Params -> Reply`: a reply is the sequence of stream deltas and
then either the final message or an error. `JSON.parse` is a parameter
`parse: string -> Option<Json>` (None when parsing throws). The result is a
`Run`: the params sent, the publications, the new store and the outcome.

Behaviours of the code that the model keeps as written:
- The JSON `response_format` is attached whenever JSON output is asked of a
  JSON-mode model, even when a schema is also given (index.js:48-49).
  `RequestBuilder.SchemaAndJsonModeTogether` proves this for every such request, and
  `RequestBuilder.SchemaAndJsonModeWitness` exhibits one.
- The catch block has three logging branches, but it changes the thrown
  error only for a 429. Upstream and transport failures are rethrown as they
  were (index.js:104-121).
- The stream topic is the conversation key as given. It may be absent or
  empty (index.js:56).
- `trim` keeps `pieces.slice(1, n - 2)`. With exactly three paragraphs this
  keeps nothing, so the fallback returns the text unchanged (index.js:75-80).

## Model

| member | source | states |
|---|---|---|
| `Text.Lower` | functions/ask-chatgpt/index.js:28-29 | lowercasing keeps the length, turns each ASCII capital into its lowercase letter (code point + 32), leaves every other character as it is, and leaves no ASCII capital behind |
| `Text.LowerIdempotent` | functions/ask-chatgpt/index.js:29 | lowercasing an already lowercased text changes nothing |
| `Text.IndexOf` | functions/ask-chatgpt/index.js:73 | the first position where the separator occurs; no earlier position matches; None exactly when it occurs nowhere |
| `Text.Split` | functions/ask-chatgpt/index.js:73 | `split` on a non-empty separator always yields at least one piece |
| `Text.JoinSplit` | functions/ask-chatgpt/index.js:79 | joining the pieces of a split with the same separator gives back the original text, which is what the `trim` fallback returns |
| `Text.SplitPiecesFree` | functions/ask-chatgpt/index.js:73 | no piece of a split contains the separator |
| `Text.JoinConcat` | functions/ask-chatgpt/index.js:77 | joining two non-empty lists of pieces puts exactly one separator between their joins |
| `Text.FirstPieceLeftmost` | functions/ask-chatgpt/index.js:73 | the first piece ends at the first occurrence of the separator: the piece followed by all but the last separator character contains no separator |
| `Text.SplitCutsLeftmost` | functions/ask-chatgpt/index.js:73 | every cut is at the leftmost non-overlapping occurrence: no piece but the last, extended by all but the last separator character, contains the separator |
| `Text.SplitExample` | functions/ask-chatgpt/index.js:73 | "a\n\n\nb" splits on "\n\n" into "a" and "\nb", the cut falling at the first break |
| `ConversationStore.History` | functions/ask-chatgpt/index.js:16-21 | the starting history is the stored list when a non-empty key is given and the cache has it; otherwise it is empty |
| `ConversationStore.Append` | functions/ask-chatgpt/index.js:62-64 | the store changes only when both the key and `rememberResponse` are set; that entry becomes old ++ [user turn, reply]; every other entry and every earlier element is unchanged |
| `ConversationStore.FetchAfterAppend` | functions/ask-chatgpt/index.js:62-64 | a later request under the same key reads the earlier history followed by the user turn and the reply, in that order |
| `RequestBuilder.ModelOf` | functions/ask-chatgpt/index.js:28 | an absent model defaults to gpt-4-0613; a given model is lowercased character by character, keeping its length |
| `RequestBuilder.ModelIgnoresCase` | functions/ask-chatgpt/index.js:28-29 | two model names that lowercase alike select the same model and the same JSON-mode decision |
| `RequestBuilder.Query` | functions/ask-chatgpt/index.js:27-31 | the instruction " Structure your answer in JSON format." is appended iff the model is JSON-mode and the lowercased original query lacks "json"; otherwise the query is unchanged |
| `RequestBuilder.InstructionMentionsJson` | functions/ask-chatgpt/index.js:30 | the appended instruction, lowercased, contains "json" |
| `RequestBuilder.QueryMentionsJson` | functions/ask-chatgpt/index.js:29-30 | for a JSON-mode model, the query as sent always mentions json once lowercased |
| `RequestBuilder.QueryIdempotent` | functions/ask-chatgpt/index.js:29-31 | augmenting an already-sent query again leaves it unchanged |
| `RequestBuilder.UserTurn` | functions/ask-chatgpt/index.js:30-33 | the new message is a user message with no function call; its content is the caller's query, followed by exactly " Structure your answer in JSON format." when the JSON instruction is needed, and otherwise the query unchanged |
| `RequestBuilder.BuildMessages` | functions/ask-chatgpt/index.js:13-34 | the list is the history in stored order, then the system message if a context is given, then the user turn with the sent query; the system message follows the history; with no history the list starts with the system message or else the user turn |
| `RequestBuilder.BuildParams` | functions/ask-chatgpt/index.js:38-52 | temperature is 0.7 and the messages are the built list; `functions` is [user-schema with the schema] iff a schema is given; `response_format` json_object iff the lowercased output format is json and the model is JSON-mode |
| `RequestBuilder.SchemaAndJsonModeTogether` | functions/ask-chatgpt/index.js:42-51 | every schema request for JSON output from a JSON-mode model carries both `functions` and a json_object `response_format` |
| `RequestBuilder.SchemaAndJsonModeWitness` | functions/ask-chatgpt/index.js:42-51 | such a request exists: a mixed-case JSON-mode model name, an empty object schema and the format "JSON" |
| `Streaming.Chunks` | functions/ask-chatgpt/index.js:135-140 | the published texts are non-empty and at most one per chunk |
| `Streaming.ChunksConcat` | functions/ask-chatgpt/index.js:135-140 | the chunks of a concatenated stream are the chunks of each part, in order |
| `Streaming.ChunksMembership` | functions/ask-chatgpt/index.js:136-139 | a text is published iff it is non-empty and some chunk's delta carries it |
| `Streaming.Announce` | functions/ask-chatgpt/index.js:138 | one publication per text, in order, each on the given topic |
| `Streaming.PublishStream` | functions/ask-chatgpt/index.js:135-141 | the publish loop's log equals the in-order non-empty deltas, each on the conversation-key topic |
| `Errors.KindOf` | functions/ask-chatgpt/index.js:105-119 | the rate-limit branch is taken iff the error carries a response with status 429; the transport branch iff it carries no response |
| `Errors.Rethrow` | functions/ask-chatgpt/index.js:104-121 | the thrown error keeps the original message; a 429 becomes a RateLimitExceeded error; any other failure is thrown unchanged |
| `Errors.RethrowIdempotent` | functions/ask-chatgpt/index.js:107-115 | classifying a rethrown error again changes nothing |
| `Errors.Catch` | functions/ask-chatgpt/index.js:104-121 | a success passes through; a failure stays a failure, rethrown; no failure is swallowed and no success is made up |
| `PostProcess.Trim` | functions/ask-chatgpt/index.js:72-81 | with at most three paragraphs the text is unchanged; with more, it is unchanged if the kept middle joins to "", else the text is the first paragraph, a break, the result, a break and the last two paragraphs |
| `PostProcess.TrimDecomposition` | functions/ask-chatgpt/index.js:76-77 | a join of four or more pieces splits into the first piece, the middle join and the join of the last two |
| `PostProcess.TrimFront` | functions/ask-chatgpt/index.js:82-88 | with at most two paragraphs the text is unchanged; with more, the result is the text after the first paragraph break, a suffix whose paragraphs are the original ones minus the first |
| `PostProcess.TrimExample` | functions/ask-chatgpt/index.js:72-81 | trim of "A\n\nB\n\nC\n\nD" is "B" |
| `PostProcess.TrimFrontExample` | functions/ask-chatgpt/index.js:82-88 | trimFront of "A\n\nB\n\nC" is "B\n\nC" |
| `PostProcess.FirstBreakAfterOneChar` | functions/ask-chatgpt/index.js:73 | a one-character paragraph followed by a break splits off as the first piece |
| `PostProcess.Shape` | functions/ask-chatgpt/index.js:72-88 | `trim` takes precedence over `trimFront`; with neither the content is unchanged; trimming a null content fails |
| `PostProcess.Coerce` | functions/ask-chatgpt/index.js:90-100 | json parses the text and fails exactly when parsing fails; number never fails; otherwise the text is returned and only a null content fails |
| `PostProcess.Respond` | functions/ask-chatgpt/index.js:66-100 | with a schema the result is the parsed function-call arguments, and it fails iff there is no function call or the arguments do not parse; without one, trimming runs first, and a trimming failure is the result while a trimmed text goes through the format switch |
| `PostProcess.SchemaBypass` | functions/ask-chatgpt/index.js:67-70 | with a schema, the trimming flags and the output format have no effect on the result |
| `PostProcess.TrimTakesPrecedence` | functions/ask-chatgpt/index.js:72-82 | once `trim` is set, `trimFront` has no effect |
| `PostProcess.PlainTextPassesThrough` | functions/ask-chatgpt/index.js:90-99 | with no schema, no trimming and no recognised format, a text reply is returned as it is |
| `Handler.Sent` | functions/ask-chatgpt/index.js:132 | the params sent are the built params, with `stream` set exactly in streamed mode |
| `Handler.Handle` | functions/ask-chatgpt/index.js:12-123 | publications only in streamed mode, on the key's topic; a failed completion leaves the store alone and is rethrown; a successful one is appended when remembered and then shaped, with any shaping error rethrown |
| `Handler.StoreChangesOnlyOnRemember` | functions/ask-chatgpt/index.js:62-64 | the store changes only after a successful completion of a remembering request; the stored user turn carries the sent query; no other key changes, even if shaping later fails |
| `Handler.ConversationContinues` | functions/ask-chatgpt/index.js:16-34 | a request after a remembered one under the same key sends the old history, the stored user turn and the reply before its own messages |
| `Handler.FailuresAreRethrown` | functions/ask-chatgpt/index.js:104-121 | a completion failure always ends in a thrown error with the same message: RateLimitExceeded for a 429, the original error otherwise |
| `Handler.StreamedMatchesBuffered` | functions/ask-chatgpt/index.js:54-59 | with the same final message, streamed and buffered mode leave the same store and the same outcome; buffered mode publishes nothing |
| `Handler.ParamsIgnoreStreaming` | functions/ask-chatgpt/index.js:38-52 | the built params and the user turn do not depend on the delivery mode |
| `Handler.RespondIgnoresStreaming` | functions/ask-chatgpt/index.js:66-100 | shaping the reply does not depend on the delivery mode |

## Left out

- Client setup (index.js:146-173) is not modelled: secret retrieval, the OpenAI client, the Momento cache and topic clients, and their lazy initialisation are external I/O.
- The live SDK calls (index.js:17, 63, 126, 133, 138, 142) are abstracted. The completion service is the `service` parameter. The cache is a `map` from key to message list. The topic client is the publication log.
- Error responses that the Momento SDK returns as values are not modelled. A failed `listFetch` behaves as a miss; failed `listConcatenateBack` and `publish` calls are ignored by the handler. The model treats those calls as always succeeding.
- Cache TTL and expiry are not modelled. An expired entry is simply absent from the map.
- `JSON.stringify`/`JSON.parse` of stored turns (index.js:19, 63) are assumed to round-trip. The store therefore holds messages, and the deserialisation failure of a malformed stored entry (thrown outside the try block) is not modelled.
- `JSON.parse` of replies is the uninterpreted `parse` parameter.
- `Number()` is kept symbolic as `Output.Numeric(arg)` because its floating-point and NaN semantics are out of scope.
- `RequestBuilder.ModelOf`: lowercasing is ASCII-only, whereas `toLowerCase` is full Unicode. The same `Text.Lower` serves the query and output-format checks.
- `Errors.KindOf`: statuses are integers. The loose `== 429` also matching the string "429" is not modelled.
- The query is always a string. A missing query is not modelled. With a JSON-mode model, reading its lowercase form would throw outside the try block. With any other model, the undefined query would go out as the user turn's content and nothing would throw.
- Flags (`streamResponse`, `rememberResponse`, `trim`, `trimFront`) are booleans standing for their truthiness. `conversationKey`, `systemContext`, `model` and `outputFormat` are optional strings. `schema` is an optional JSON value with JavaScript truthiness.
- A stream delta is an optional string. Non-string delta contents are not modelled.
- Console logging (index.js:106, 114, 118) has no effect on results and is left out.
- Races between concurrent requests on the same key are left out. The model is one request at a time.
- `functions/set-log-retention/index.js` is not part of this model. It is paging over CloudWatch with concurrent puts, and its one filter keeps every log group.
- `functions/marshall-unmarshall-data/index.js` is not part of this model. It is a thin wrapper over a marshalling library whose code is not shown.
