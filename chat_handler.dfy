/**
 * lib/chat/handler.ts: `saveChat`, `loadChat` and `handleChatRequest`, whose
 * only effect on the store is the `onFinish` callback it hands to the model
 * call. Starting the model call and draining its stream are library
 * behaviour; the callback's later run is the method `OnFinish`.
 */
module ChatHandler {

  import opened Wrappers
  import opened Messages
  import opened ChatStore

  /**
   * The `onFinish` callback registered by one request: it closes over the
   * request's `id` and `messages`, which nothing reassigns.
   */
  datatype PendingSave = PendingSave(id: string, messages: seq<Message>)

  /** `appendResponseMessages({messages, responseMessages})`, supplied by the AI SDK. */
  type AppendResponse = (seq<Message>, seq<Message>) -> seq<Message>

  class ChatHandlerModule {
    const chatStore: Store

    constructor()
      ensures fresh(chatStore) && chatStore.entries == map[]
    {
      chatStore := new Store();
    }

    /** `saveChat`: wholesale replacement of the list for `id`. */
    method SaveChat(id: string, messages: seq<Message>)
      modifies chatStore
      ensures chatStore.entries == Assign(old(chatStore.entries), id, messages)
      ensures Lookup(chatStore.entries, id) == messages
      ensures forall k :: k != id ==> Lookup(chatStore.entries, k) == Lookup(old(chatStore.entries), k)
    {
      chatStore.Write(id, messages);
    }

    /** `loadChat`: the stored list, or `[]` for an id never saved. */
    method LoadChat(id: string) returns (messages: seq<Message>)
      ensures id in chatStore.entries ==> messages == chatStore.entries[id]
      ensures id !in chatStore.entries ==> messages == []
    {
      messages := chatStore.Read(id);
    }

    /**
     * `handleChatRequest`: writes nothing itself (the method may not modify
     * the store). `streamTextReturned` says whether `streamText` returned; when
     * it throws instead, the request rejects and no callback is registered.
     * Otherwise the registered callback will save under this request's id.
     */
    method HandleChatRequest(messages: seq<Message>, id: string, streamTextReturned: bool)
      returns (onFinish: Option<PendingSave>)
      ensures onFinish.Some? <==> streamTextReturned
      ensures onFinish.Some? ==> onFinish.value.id == id && onFinish.value.messages == messages
    {
      if streamTextReturned {
        onFinish := Some(PendingSave(id, messages));
      } else {
        onFinish := None;
      }
    }

    /**
     * The registered callback running with the response messages of the
     * finished model call: the entry for the request's id becomes the request's
     * messages followed by the response, as `append` assembles them.
     */
    method OnFinish(pending: PendingSave, responseMessages: seq<Message>, append: AppendResponse)
      modifies chatStore
      ensures chatStore.entries == Assign(old(chatStore.entries), pending.id, append(pending.messages, responseMessages))
      ensures Lookup(chatStore.entries, pending.id) == append(pending.messages, responseMessages)
      ensures forall k :: k != pending.id ==> Lookup(chatStore.entries, k) == Lookup(old(chatStore.entries), k)
    {
      SaveChat(pending.id, append(pending.messages, responseMessages));
    }
  }
}
