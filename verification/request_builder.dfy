/** Assembly of the completion request: the model name, the possibly
    augmented query, the outgoing message list and the parameter object. */
module RequestBuilder {
  import opened Wrappers
  import opened Text
  import opened Chat
  import opened ConversationStore

  /** The lowercased model name. Only an absent model falls back to the
      default one; an empty name stays empty. */
  function ModelOf(state: State): (m: string)
    ensures state.model.None? ==> m == DefaultModel
    ensures state.model.Some? ==> |m| == |state.model.value|
    ensures state.model.Some? ==> forall i :: 0 <= i < |m| ==> m[i] == LowerChar(state.model.value[i])
  {
    match state.model
    case None => DefaultModel
    case Some(name) => Lower(name)
  }

  /** The model name is matched without regard to case: two spellings that
      lowercase alike select the same model, and so the same JSON-mode
      decision. */
  lemma ModelIgnoresCase(state: State, a: string, b: string)
    requires Lower(a) == Lower(b)
    ensures ModelOf(state.(model := Some(a))) == ModelOf(state.(model := Some(b)))
    ensures JsonMode(ModelOf(state.(model := Some(a)))) == JsonMode(ModelOf(state.(model := Some(b))))
  {
  }

  /** The model is one of those declared to support JSON mode. */
  predicate JsonMode(model: string) {
    model in JsonModeModels
  }

  /** The query needs the JSON instruction: JSON-mode model, and the
      lowercased query does not already mention json. */
  predicate NeedsJsonInstruction(state: State) {
    JsonMode(ModelOf(state)) && !Contains(Lower(state.query), "json")
  }

  /** The query actually sent: the caller's query, with the JSON instruction
      appended when the model is JSON-mode and the query does not mention
      json. Nothing else is ever done to it. */
  function Query(state: State): (q: string)
    ensures NeedsJsonInstruction(state) ==> q == state.query + JsonInstruction
    ensures !NeedsJsonInstruction(state) ==> q == state.query
    ensures q != state.query <==> NeedsJsonInstruction(state)
    ensures state.query <= q
  {
    if NeedsJsonInstruction(state) then state.query + JsonInstruction else state.query
  }

  /** The lowercased JSON instruction mentions json. */
  lemma InstructionMentionsJson()
    ensures Contains(Lower(JsonInstruction), "json")
  {
    var l := Lower(JsonInstruction);
    assert JsonInstruction[26..30] == "JSON";
    assert l[26] == 'j' && l[27] == 's' && l[28] == 'o' && l[29] == 'n';
    assert l[26..30] == "json";
    assert OccursAt(l, "json", 26);
  }

  /** Once the query has been sent to a JSON-mode model, its lowercased form
      mentions json, whether or not it was augmented. */
  lemma QueryMentionsJson(state: State)
    requires JsonMode(ModelOf(state))
    ensures Contains(Lower(Query(state)), "json")
  {
    if NeedsJsonInstruction(state) {
      LowerConcat(state.query, JsonInstruction);
      InstructionMentionsJson();
      ContainsSuffix(Lower(state.query), Lower(JsonInstruction), "json");
    }
  }

  /** Augmenting is idempotent: feeding the sent query back in as the
      caller's query sends it unchanged. */
  lemma QueryIdempotent(state: State)
    ensures Query(state.(query := Query(state))) == Query(state)
  {
    var again := state.(query := Query(state));
    assert ModelOf(again) == ModelOf(state);
    if JsonMode(ModelOf(state)) {
      QueryMentionsJson(state);
      assert !NeedsJsonInstruction(again);
    }
  }

  /** The user turn of this request, carrying the sent query. */
  function UserTurn(state: State): (m: Message)
    ensures m.role == User && m.functionCall.None?
    ensures m.content.Some? && state.query <= m.content.value
    ensures m.content.value != state.query <==> NeedsJsonInstruction(state)
    ensures NeedsJsonInstruction(state) ==> m.content == Some(state.query + JsonInstruction)
  {
    TextMessage(User, Query(state))
  }

  /** The outgoing message list: the stored history in stored order, then the
      system message when a system context is given, then the user turn. The
      system message therefore follows the history rather than leading. */
  function BuildMessages(state: State, store: Store): (ms: seq<Message>)
    ensures var h := History(state, store);
      && |ms| == |h| + (if Given(state.systemContext) then 2 else 1)
      && ms[..|h|] == h
      && ms[|ms| - 1] == TextMessage(User, Query(state))
      && (Given(state.systemContext) ==> ms[|h|] == TextMessage(System, state.systemContext.value))
    ensures History(state, store) == [] ==> ms[0].role == (if Given(state.systemContext) then System else User)
  {
    var system := if Given(state.systemContext) then [TextMessage(System, state.systemContext.value)] else [];
    History(state, store) + system + [UserTurn(state)]
  }

  /** The caller supplied a (truthy) schema. */
  predicate SchemaGiven(state: State) {
    state.schema.Some? && Truthy(state.schema.value)
  }

  /** The output format is given and, lowercased, is exactly `tag`. */
  predicate FormatIs(state: State, tag: string) {
    state.outputFormat.Some? && Lower(state.outputFormat.value) == tag
  }

  /** The parameter object: fixed temperature, the built messages, a
      `functions` entry exactly when a schema is given, and a JSON
      `response_format` exactly when JSON output is asked of a JSON-mode model
      (whether or not a schema is also given). */
  function BuildParams(state: State, store: Store): (p: Params)
    ensures p.model == ModelOf(state)
    ensures p.temperature == 0.7
    ensures p.messages == BuildMessages(state, store)
    ensures p.functions.Some? <==> SchemaGiven(state)
    ensures SchemaGiven(state) ==> p.functions == Some([FunctionSpec("user-schema", state.schema.value)])
    ensures p.responseFormat.Some? <==> FormatIs(state, "json") && JsonMode(ModelOf(state))
    ensures p.responseFormat.Some? ==> p.responseFormat.value.kind == "json_object"
    ensures !p.stream
  {
    var model := ModelOf(state);
    Params(
      model,
      Temperature,
      BuildMessages(state, store),
      if SchemaGiven(state) then Some([FunctionSpec(SchemaFunctionName, state.schema.value)]) else None,
      if FormatIs(state, "json") && JsonMode(model) then Some(ResponseFormat(JsonObjectFormat)) else None,
      false)
  }

  /** Every schema request for JSON output from a JSON-mode model carries
      both a `functions` entry and a JSON `response_format`: the format
      condition does not look at the schema. */
  lemma SchemaAndJsonModeTogether(state: State, store: Store)
    requires SchemaGiven(state) && FormatIs(state, "json") && JsonMode(ModelOf(state))
    ensures BuildParams(state, store).functions.Some?
    ensures BuildParams(state, store).responseFormat == Some(ResponseFormat("json_object"))
  {
  }

  /** Such requests exist: a mixed-case JSON-mode model, an empty object
      schema and the format "JSON". */
  lemma SchemaAndJsonModeWitness()
    ensures var state := State("q", Some("GPT-4-1106-preview"), None, None, Some(JObject([])),
                               Some("JSON"), false, false, false, false);
      SchemaGiven(state) && FormatIs(state, "json") && JsonMode(ModelOf(state))
  {
    assert Lower("GPT-4-1106-preview") == "gpt-4-1106-preview";
    assert Lower("JSON") == "json";
  }
}
