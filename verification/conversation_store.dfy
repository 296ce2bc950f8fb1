/** The conversation history kept in the cache: read once when a request
    starts, and extended by the new user turn and the assistant's reply when
    the caller asks for it to be remembered. */
module ConversationStore {
  import opened Wrappers
  import opened Chat

  /** The stored list under `key`, or the empty list on a cache miss. */
  function Lookup(store: Store, key: string): (h: seq<Message>)
    ensures key in store ==> h == store[key]
    ensures key !in store ==> h == []
  {
    if key in store then store[key] else []
  }

  /** The history the handler starts from: the stored list when a
      conversation key is given and the cache has it, otherwise nothing. */
  function History(state: State, store: Store): (h: seq<Message>)
    ensures Given(state.conversationKey) && state.conversationKey.value in store ==>
              h == store[state.conversationKey.value]
    ensures !Given(state.conversationKey) || state.conversationKey.value !in store ==> h == []
  {
    if Given(state.conversationKey) then Lookup(store, state.conversationKey.value) else []
  }

  /** The request asks for its exchange to be stored. */
  predicate Remembers(state: State) {
    Given(state.conversationKey) && state.rememberResponse
  }

  /** `listConcatenateBack` of the user turn and the reply, done only when the
      request remembers. The entry for the key grows by exactly those two
      messages, in that order; no other entry changes. */
  function Append(state: State, store: Store, userTurn: Message, reply: Message): (r: Store)
    ensures !Remembers(state) ==> r == store
    ensures Remembers(state) ==>
      var k := state.conversationKey.value;
      && r.Keys == store.Keys + {k}
      && r[k] == Lookup(store, k) + [userTurn, reply]
    ensures forall k :: k in store && k != state.conversationKey.GetOr("") ==> k in r && r[k] == store[k]
    ensures forall k :: k in store ==> k in r && store[k] <= r[k]
  {
    if Remembers(state) then
      var k := state.conversationKey.value;
      store[k := Lookup(store, k) + [userTurn, reply]]
    else store
  }

  /** A later request under the same key starts from the earlier history
      followed by the appended user turn and reply. */
  lemma FetchAfterAppend(first: State, later: State, store: Store, userTurn: Message, reply: Message)
    requires Remembers(first)
    requires later.conversationKey == first.conversationKey
    ensures History(later, Append(first, store, userTurn, reply))
            == History(first, store) + [userTurn, reply]
  {
  }
}
