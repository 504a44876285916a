/**
 * api/chat-store.ts: the exported `createChat`, `loadChat` and `saveChat`
 * over that file's own module-level store.
 */
module ChatStoreApi {

  import opened Messages
  import opened ChatStore

  class ChatStoreModule {
    const chatStore: Store

    constructor()
      ensures fresh(chatStore) && chatStore.entries == map[]
    {
      chatStore := new Store();
    }

    /**
     * `createChat`: `generated` is the value `generateId()` returned. The id is
     * not checked against the store, so an existing entry under it is reset to
     * the empty list.
     */
    method CreateChat(generated: string) returns (id: string)
      modifies chatStore
      ensures id == generated
      ensures chatStore.entries == Assign(old(chatStore.entries), id, [])
      ensures id in chatStore.entries && chatStore.entries[id] == []
      ensures forall k :: k != id ==> Lookup(chatStore.entries, k) == Lookup(old(chatStore.entries), k)
    {
      id := generated;
      chatStore.Write(id, []);
    }

    /** `loadChat`: the stored list, or `[]` for an unknown id; the store is not modified. */
    method LoadChat(id: string) returns (messages: seq<Message>)
      ensures id in chatStore.entries ==> messages == chatStore.entries[id]
      ensures id !in chatStore.entries ==> messages == []
    {
      messages := chatStore.Read(id);
    }

    /** `saveChat`: the list for `id` becomes `messages`; no other entry changes. */
    method SaveChat(id: string, messages: seq<Message>)
      modifies chatStore
      ensures chatStore.entries == Assign(old(chatStore.entries), id, messages)
      ensures Lookup(chatStore.entries, id) == messages
      ensures forall k :: k != id ==> Lookup(chatStore.entries, k) == Lookup(old(chatStore.entries), k)
    {
      chatStore.Write(id, messages);
    }
  }
}
