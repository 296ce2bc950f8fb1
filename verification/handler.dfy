/** The ask-chatgpt handler end to end: build the request, call the
    completion service (buffered or streamed), remember the exchange, shape
    the reply, and classify any failure. The completion service is a
    parameter, and so is `JSON.parse`. */
module Handler {
  import opened Wrappers
  import opened Chat
  import opened ConversationStore
  import opened RequestBuilder
  import opened Streaming
  import opened Errors
  import opened PostProcess

  /** Everything one invocation does: the params it sent, what it published
      on the topic, the store it leaves behind and its outcome (the
      `{response}` value or the error it throws). */
  datatype Run = Run(sent: Params, published: seq<Publication>, store: Store, outcome: Result<Output, Error>)

  /** The parameters actually sent: streamed mode sets `stream` on them. */
  function Sent(state: State, store: Store): (p: Params)
    ensures p.stream == state.streamResponse
    ensures p.(stream := false) == BuildParams(state, store)
  {
    BuildParams(state, store).(stream := state.streamResponse)
  }

  /** One invocation of the handler on a request and the current store. */
  function Handle(state: State, store: Store, service: Params -> Reply, parse: string -> Option<Json>): (run: Run)
    ensures run.sent == Sent(state, store)
    ensures state.streamResponse ==>
      run.published == Announce(state.conversationKey, Chunks(service(run.sent).deltas))
    ensures !state.streamResponse ==> run.published == []
    ensures service(run.sent).final.Failure? ==>
      run.store == store && run.outcome == Failure(Rethrow(service(run.sent).final.error))
    ensures service(run.sent).final.Success? ==>
      run.store == Append(state, store, UserTurn(state), service(run.sent).final.value)
    ensures service(run.sent).final.Success? ==>
      run.outcome == Catch(Respond(state, service(run.sent).final.value, parse))
  {
    var sent := Sent(state, store);
    var reply := service(sent);
    var published := if state.streamResponse then Announce(state.conversationKey, Chunks(reply.deltas)) else [];
    match reply.final
    case Failure(e) => Run(sent, published, store, Failure(Rethrow(e)))
    case Success(message) =>
      var remembered := Append(state, store, UserTurn(state), message);
      Run(sent, published, remembered, Catch(Respond(state, message, parse)))
  }

  /** The store changes only after a successful completion of a request that
      asks to be remembered, and then only the entry for its key, which grows
      by the user turn carrying the sent query and the reply. This holds even
      when shaping the reply afterwards fails. */
  lemma StoreChangesOnlyOnRemember(state: State, store: Store, service: Params -> Reply, parse: string -> Option<Json>)
    ensures var run := Handle(state, store, service, parse);
      var final := service(run.sent).final;
      && (run.store != store ==> Remembers(state) && final.Success?)
      && (Remembers(state) && final.Success? ==>
            run.store[state.conversationKey.value]
            == Lookup(store, state.conversationKey.value) + [TextMessage(User, Query(state)), final.value])
      && (forall k :: k in store && k != state.conversationKey.GetOr("") ==> k in run.store && run.store[k] == store[k])
  {
  }

  /** A request that remembers, followed by another request under the same
      key: the second one sends the first one's history, then its user turn
      (with the query as sent) and the reply, before anything of its own. */
  lemma ConversationContinues(first: State, later: State, store: Store,
                              service: Params -> Reply, parse: string -> Option<Json>)
    requires Remembers(first)
    requires later.conversationKey == first.conversationKey
    requires service(Sent(first, store)).final.Success?
    ensures var run := Handle(first, store, service, parse);
      var h := History(first, store) + [UserTurn(first), service(run.sent).final.value];
      var ms := BuildMessages(later, run.store);
      |h| < |ms| && ms[..|h|] == h
  {
    var run := Handle(first, store, service, parse);
    FetchAfterAppend(first, later, store, UserTurn(first), service(run.sent).final.value);
  }

  /** Every failure of the completion service is thrown, never turned into a
      response; a 429 is thrown as a `RateLimitExceeded` error with the
      original message, and any other failure as it was. */
  lemma FailuresAreRethrown(state: State, store: Store, service: Params -> Reply, parse: string -> Option<Json>)
    requires service(Sent(state, store)).final.Failure?
    ensures var e := service(Sent(state, store)).final.error;
      var run := Handle(state, store, service, parse);
      && run.outcome.Failure?
      && run.outcome.error.message == e.message
      && (e.response.Some? && e.response.value.status == 429 ==> run.outcome.error.name == RateLimitName)
      && (e.response.None? || e.response.value.status != 429 ==> run.outcome.error == e)
  {
  }

  /** Streaming changes only the publications: when the service ends a
      streamed call with the same final message as a buffered one, both
      modes leave the same store and produce the same outcome. */
  lemma StreamedMatchesBuffered(state: State, store: Store, service: Params -> Reply, parse: string -> Option<Json>)
    requires service(Sent(state.(streamResponse := true), store)).final
             == service(Sent(state.(streamResponse := false), store)).final
    ensures var streamed := Handle(state.(streamResponse := true), store, service, parse);
      var buffered := Handle(state.(streamResponse := false), store, service, parse);
      && streamed.store == buffered.store
      && streamed.outcome == buffered.outcome
      && buffered.published == []
  {
    var s1 := state.(streamResponse := true);
    var s2 := state.(streamResponse := false);
    var streamed := Handle(s1, store, service, parse);
    var buffered := Handle(s2, store, service, parse);
    var final := service(Sent(s2, store)).final;
    assert service(streamed.sent).final == final;
    assert service(buffered.sent).final == final;
    if final.Success? {
      var m := final.value;
      ParamsIgnoreStreaming(s1, store);
      ParamsIgnoreStreaming(s2, store);
      assert Append(s1, store, UserTurn(s1), m) == Append(s2, store, UserTurn(s2), m);
      RespondIgnoresStreaming(state, m, parse, true);
      RespondIgnoresStreaming(state, m, parse, false);
      assert streamed.outcome == Catch(Respond(s1, m, parse));
      assert buffered.outcome == Catch(Respond(s2, m, parse));
    }
  }

  /** Building the request does not depend on the delivery mode. */
  lemma ParamsIgnoreStreaming(state: State, store: Store)
    ensures BuildParams(state, store) == BuildParams(state.(streamResponse := false), store)
    ensures UserTurn(state) == UserTurn(state.(streamResponse := false))
  {
    var other := state.(streamResponse := false);
    assert ModelOf(other) == ModelOf(state);
    assert Query(other) == Query(state);
    assert History(other, store) == History(state, store);
  }

  /** Shaping the reply does not depend on how it was delivered. */
  lemma RespondIgnoresStreaming(state: State, reply: Message, parse: string -> Option<Json>, streamResponse: bool)
    ensures Respond(state.(streamResponse := streamResponse), reply, parse) == Respond(state, reply, parse)
  {
    var other := state.(streamResponse := streamResponse);
    assert SchemaGiven(other) == SchemaGiven(state);
    assert Shape(other, reply.content) == Shape(state, reply.content);
    assert forall t :: Coerce(other, t, parse) == Coerce(state, t, parse);
  }
}
