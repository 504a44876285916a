/**
 * The four source files each allocate their own `chatStore`; none imports
 * another's. A conversation saved by either chat handler is therefore never
 * seen by the `/load-chat` route of api/chat.ts or by `loadChat` of
 * api/chat-store.ts, although api/chat.ts describes its store as shared with
 * the main handler.
 */
module Deployment {

  import opened Wrappers
  import opened Messages
  import ChatStoreApi
  import ChatHandler
  import ChatRoutes
  import ServerlessChat
  import Json

  /**
   * Both chat handlers finish a run for chat `id`; afterwards `/load-chat?id=…`
   * and `loadChat(id)` of api/chat-store.ts still answer with the empty list.
   */
  method SavesAreNotShared(id: string, messages: seq<Message>, responseMessages: seq<Message>,
                           append: ChatHandler.AppendResponse, appendJson: ServerlessChat.AppendResponse)
    returns (routeAnswer: ChatRoutes.RouteResponse, storeAnswer: seq<Message>)
    requires id != ""
    ensures routeAnswer == ChatRoutes.ChatMessages([])
    ensures storeAnswer == []
  {
    var storeApi := new ChatStoreApi.ChatStoreModule();
    var handler := new ChatHandler.ChatHandlerModule();
    var serverless := new ServerlessChat.ServerlessChatModule();
    var routes := new ChatRoutes.ChatRoutesModule();

    var pending := handler.HandleChatRequest(messages, id, true);
    handler.OnFinish(pending.value, responseMessages, append);
    serverless.OnFinish(ServerlessChat.PendingSave(Json.JString(id), Json.JArray([])), responseMessages, appendJson);

    routeAnswer := routes.LoadChatRoute(Some(id));
    storeAnswer := storeApi.LoadChat(id);
  }
}
