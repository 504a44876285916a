/**
 * api/chat.ts: the `/api/create-chat` and `/api/load-chat` routes over that
 * file's own module-level store. The only value this file ever writes into
 * its store is the empty list, so every entry stays empty and `/load-chat`
 * can only answer with the empty list.
 */
module ChatRoutes {

  import opened Wrappers
  import opened Messages
  import opened ChatStore

  /** What a route hands back to the framework. */
  datatype RouteResponse =
    | ChatCreated(id: string)                  // `{ id }`
    | ChatMessages(messages: seq<Message>)     // `{ messages }`
    | TextResponse(status: int, text: string)  // `new Response(text, { status })`

  const ChatIdRequired := "Chat ID is required"

  /**
   * `Math.random().toString(36).substring(2, 15)`, where `rendered` is the
   * base-36 text of the random number (normally "0." followed by digits).
   * JavaScript's `substring` clamps both ends to the string's length.
   */
  function RandomId(rendered: string): (id: string)
    ensures |id| <= 13
    ensures |rendered| > 2 ==> |id| == (if |rendered| < 15 then |rendered| else 15) - 2
    ensures |rendered| <= 2 ==> id == ""
    ensures forall i :: 0 <= i < |id| ==> i + 2 < |rendered| && id[i] == rendered[i + 2]
  {
    if |rendered| <= 2 then "" else rendered[2..if |rendered| < 15 then |rendered| else 15]
  }

  /** Every stored list is empty. */
  predicate AllEmpty(entries: Entries)
  {
    forall id :: id in entries ==> entries[id] == []
  }

  /**
   * Any sequence of calls whose writes all write the empty list (the only
   * write this file has) keeps every stored list empty.
   */
  lemma {:induction false} EmptyWritesKeepAllEmpty(entries: Entries, ops: seq<Op>)
    requires AllEmpty(entries)
    requires forall i :: 0 <= i < |ops| && ops[i].SaveOp? ==> ops[i].messages == []
    ensures AllEmpty(Replay(entries, ops))
    decreases |ops|
  {
    if ops != [] {
      EmptyWritesKeepAllEmpty(entries, ops[..|ops| - 1]);
    }
  }

  class ChatRoutesModule {
    const chatStore: Store

    /** The file's invariant: the store holds only empty lists. */
    ghost predicate Valid()
      reads chatStore
    {
      AllEmpty(chatStore.entries)
    }

    constructor()
      ensures fresh(chatStore) && chatStore.entries == map[] && Valid()
    {
      chatStore := new Store();
    }

    /** `loadChat`: the stored list, or `[]` for an unknown id. */
    method LoadChat(id: string) returns (messages: seq<Message>)
      ensures id in chatStore.entries ==> messages == chatStore.entries[id]
      ensures id !in chatStore.entries ==> messages == []
    {
      messages := chatStore.Read(id);
    }

    /**
     * POST `/create-chat`: answers `{ id }` with a fresh random id and resets
     * the entry under it to the empty list, whether or not it existed.
     */
    method CreateChatRoute(rendered: string) returns (response: RouteResponse)
      requires Valid()
      modifies chatStore
      ensures Valid()
      ensures response == ChatCreated(RandomId(rendered))
      ensures chatStore.entries == Assign(old(chatStore.entries), RandomId(rendered), [])
    {
      var id := RandomId(rendered);
      chatStore.Write(id, []);
      response := ChatCreated(id);
    }

    /**
     * GET `/load-chat`: a missing or empty `id` query parameter gets status
     * 400 and the store is not read; otherwise `{ messages }` with the stored
     * list or `[]`, which under the file's invariant is always `[]`.
     */
    method LoadChatRoute(queryId: Option<string>) returns (response: RouteResponse)
      ensures (queryId == None || queryId == Some("")) <==> response == TextResponse(400, ChatIdRequired)
      ensures queryId.Some? && queryId.value != "" ==> response == ChatMessages(Lookup(chatStore.entries, queryId.value))
      ensures Valid() && response.ChatMessages? ==> response.messages == []
    {
      if queryId == None || queryId.value == "" {
        return TextResponse(400, ChatIdRequired);
      }
      var messages := LoadChat(queryId.value);
      response := ChatMessages(messages);
    }
  }
}
