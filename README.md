# Chat store and chat handlers of a chat-completion relay

This project models, in Dafny, the part of the relay that keeps conversations
and decides what a chat request does to them:

- the in-memory conversation store, a record from chat id to the ordered list
  of messages last saved under it, with `createChat`, `loadChat` and
  `saveChat`. Each of the four core files keeps its own module-level copy;
  here that is one `ChatStore.Store` class, and each file is a class
  (`ChatStoreApi.ChatStoreModule`, `ChatHandler.ChatHandlerModule`,
  `ChatRoutes.ChatRoutesModule`, `ServerlessChat.ServerlessChatModule`) that
  allocates its own `Store`;
- the routes `/api/create-chat` and `/api/load-chat` of `api/chat.ts`;
- the serverless chat handler of `api/chat/index.ts`: the method check (405),
  destructuring of the JSON body, the falsiness check on `messages` and `id`
  (400), the `catch` block (500), and the `onFinish` callback that saves the
  finished conversation;
- `handleChatRequest` of `lib/chat/handler.ts`, which writes nothing itself
  and registers the `onFinish` save.

What is proved:

- a load returns exactly the saved list, or `[]` for an id never written; a
  save replaces one entry wholesale, is idempotent and leaves every other
  id untouched; over any sequence of calls the last write to an id wins
  (`ChatStore.LastWriteWins`);
- `api/chat.ts` only ever writes `[]` into its store, so its store holds only
  empty lists and `/load-chat` can only answer `[]`;
  `Deployment.SavesAreNotShared` shows that a conversation saved by either
  chat handler stays invisible to that route, although `api/chat.ts:4`
  calls its store "shared with the main handler";
- the serverless handler refuses every method but POST with 405 before it
  looks at the body. It answers 400 exactly when a destructured field is
  falsy, so an empty-string id is refused and an empty messages array is
  accepted. It registers a save only for an accepted request, and that save
  goes under the request's own id with the request's own messages. A refused
  request never changes the store. A request whose library call fails after
  `streamText` has returned gets a 500, but its save stays registered;
- what a plain JavaScript object `{}` does with inherited property names and
  with the key `__proto__` (module `JsRecord`). As long as nothing is saved
  under `__proto__`, the object holds exactly the own-entry store above
  (`JsRecord.ReplayAgreesWithoutProtoSave`), but loads of inherited names
  still differ (see Findings).

The library calls are parameters, not models. `generateId()` and
`Math.random()` are string parameters: no freshness is claimed, because the
code never checks for a collision. `appendResponseMessages` is a
function-typed parameter `append`. What `streamText`, `consumeStream` and
`toDataStreamResponse` do, as far as the handler can see it, is the
`LibraryOutcome` parameter of `ServerlessChat.Handle`.

Some consequences of the code worth stating plainly: ids are never checked
for collisions; the serverless handler answers 400 to a request without an
id; it accepts an empty messages array; a 500 can leave a save registered;
an id that JavaScript cannot turn into a property key makes the save throw,
so nothing is stored.

## Model

| member | source | states |
|---|---|---|
| `ChatStore.Store.constructor` | api/chat-store.ts:6 | a store starts with no entries |
| `ChatStore.Store.Read` | api/chat-store.ts:14-16 | returns the stored list when the id is present and `[]` when it is absent; never fails, changes nothing |
| `ChatStore.Store.Write` | api/chat-store.ts:25 | the entry for the id becomes the given list; every other id reads as before |
| `ChatStore.LoadAfterSave` | api/chat-store.ts:14-25 | after a save, a load of that id returns exactly the saved list |
| `ChatStore.LoadUnknownIsEmpty` | lib/chat/handler.ts:24-26 | an id never saved loads as `[]` |
| `ChatStore.SaveFrame` | api/chat-store.ts:25 | a save leaves the presence and the list of every other id unchanged |
| `ChatStore.SaveIdempotent` | lib/chat/handler.ts:17 | saving the same list twice gives the same store as saving it once |
| `ChatStore.SaveReplacesWholesale` | lib/chat/handler.ts:17 | a second save replaces the first list entirely; nothing is merged or appended |
| `ChatStore.LastWriteWins` | api/chat-store.ts:14-26 | after any sequence of saves and loads, an id loads the list of its last save, or what it held before if none |
| `ChatStore.OnlyWritesMatter` | api/chat-store.ts:14-26 | dropping every load from a sequence of calls leaves the same store: loads interleaved anywhere change nothing |
| `JsRecord.Get` | api/chat-store.ts:15 | an own entry hides everything inherited; with the prototype untouched, a missing key finds a function exactly for Object.prototype's method names and `undefined` exactly for ordinary ids |
| `JsRecord.LoadAsWritten` | api/chat-store.ts:15 | the result is truthy or the empty list; a saved id loads its list; anything else truthy that the property read finds is returned as is |
| `JsRecord.SaveAsWritten` | api/chat-store.ts:25 | any id but `__proto__` gets an own entry holding the list; `__proto__` adds no entry and makes the list the prototype |
| `JsRecord.InheritedNameLoadsFunction` | api/chat-store.ts:15 | as written, loading an inherited method name that was never saved returns that function, not `[]` |
| `JsRecord.ProtoSaveLeaksIntoOtherIds` | api/chat-store.ts:25 | as written, saving under `__proto__` makes ids `"0"`, `"1"`, … and `"length"` load the saved list's elements and length |
| `JsRecord.AgreesOnOrdinaryId` | lib/chat/handler.ts:25 | on an ordinary id, with the prototype untouched, the object loads as the own-entry store |
| `JsRecord.ReplayAgreesWithoutProtoSave` | lib/chat/handler.ts:5-26 | any sequence of saves and loads with no save under `__proto__` leaves the object equal to the own-entry store, prototype untouched |
| `ChatStoreApi.ChatStoreModule.constructor` | api/chat-store.ts:6 | the file allocates its own empty store |
| `ChatStoreApi.ChatStoreModule.CreateChat` | api/chat-store.ts:8-12 | returns the generated id and maps it to `[]`, overwriting any existing entry; other ids unchanged |
| `ChatStoreApi.ChatStoreModule.LoadChat` | api/chat-store.ts:14-16 | the stored list, or `[]` for an unknown id; no change to the store |
| `ChatStoreApi.ChatStoreModule.SaveChat` | api/chat-store.ts:18-27 | the id's entry becomes the list, and a load returns it; other ids unchanged |
| `ChatHandler.ChatHandlerModule.constructor` | lib/chat/handler.ts:5 | the file allocates its own empty store |
| `ChatHandler.ChatHandlerModule.SaveChat` | lib/chat/handler.ts:10-19 | wholesale replacement of the id's entry; other ids unchanged |
| `ChatHandler.ChatHandlerModule.LoadChat` | lib/chat/handler.ts:24-26 | the stored list, or `[]` for an id never saved |
| `ChatHandler.ChatHandlerModule.HandleChatRequest` | lib/chat/handler.ts:31-56 | writes nothing; registers a callback exactly when `streamText` returns, and that callback saves under the request's own id, from the request's unchanged messages |
| `ChatHandler.ChatHandlerModule.OnFinish` | lib/chat/handler.ts:41-49 | stores `append(messages, responseMessages)` under the request's id and changes no other id |
| `ChatRoutes.RandomId` | api/chat.ts:17 | the id is the base-36 text of the random number from position 2 up to position 15 or its end, whichever comes first: at most 13 characters, and empty when the text has 2 or fewer |
| `ChatRoutes.EmptyWritesKeepAllEmpty` | api/chat.ts:5-29 | any sequence of calls whose writes are all `[]` keeps every stored list empty |
| `ChatRoutes.ChatRoutesModule.constructor` | api/chat.ts:5 | the file allocates its own empty store, which holds only empty lists |
| `ChatRoutes.ChatRoutesModule.LoadChat` | api/chat.ts:10-12 | the stored list, or `[]` for an unknown id |
| `ChatRoutes.ChatRoutesModule.CreateChatRoute` | api/chat.ts:15-21 | answers `{id}` with the random id and sets its entry to `[]`, overwriting; keeps the all-empty invariant |
| `ChatRoutes.ChatRoutesModule.LoadChatRoute` | api/chat.ts:22-30 | 400 "Chat ID is required" exactly when the id is missing or empty; otherwise `{messages}` with the stored list or `[]`, which is always `[]` in this file's store |
| `Json.Truthy` | api/chat/index.ts:57 | absent, `null`, `false`, `0` and `""` are falsy; an array or object is truthy even when empty |
| `Json.PropertyKey` | api/chat/index.ts:13 | the key conversion succeeds exactly for values without an object carrying its own `toString` (at any depth of arrays); a string id is its own key |
| `Json.NumberAndStringKeysCollide` | api/chat/index.ts:13 | every nonzero number id passes the truthiness check and lands on the same key as the distinct string id of its digits |
| `ServerlessChat.Destructure` | api/chat/index.ts:52-55 | throws exactly for an absent, unreadable or `null` body (passing on an unreadable body's exception); each field is defined exactly when the body is an object carrying it, and is then that value |
| `ServerlessChat.Accepted` | api/chat/index.ts:57 | acceptance needs both fields present; an empty-string id is refused; with an empty messages array acceptance depends on the id alone |
| `ServerlessChat.InternalError` | api/chat/index.ts:101-106 | status 500 with the fixed error text, and `message` set to the thrown Error's message or "Unknown error" |
| `ServerlessChat.Handle` | api/chat/index.ts:43-107 | 405 exactly for a method other than POST, and then no save. A body that cannot be destructured gives a 500 with the thrown message. 400 exactly when `messages` or `id` is falsy. A save is registered exactly for an accepted request once `streamText` has returned, under the request's id with its messages. An exception from or after `streamText` gives `InternalError` of what was thrown; otherwise the library's status is passed through as a stream, or as an ended response when there is no body |
| `ServerlessChat.EmptyIdRejected` | api/chat/index.ts:57-59 | an empty-string id gets 400 and registers no save |
| `ServerlessChat.EmptyMessagesAccepted` | api/chat/index.ts:57 | an empty messages array with a non-empty id is accepted and streamed |
| `ServerlessChat.FailureAfterStartStillSaves` | api/chat/index.ts:62-106 | an exception after `streamText` returned gives a 500, yet the save stays registered |
| `ServerlessChat.ServerlessChatModule.constructor` | api/chat/index.ts:7 | the file allocates its own empty store |
| `ServerlessChat.ServerlessChatModule.SaveChat` | api/chat/index.ts:12-15 | replaces the entry for the id; other ids unchanged |
| `ServerlessChat.ServerlessChatModule.OnFinish` | api/chat/index.ts:65-74 | stores, under the key the request's id becomes, the list built from the request's messages and the response; stores nothing when the id cannot become a key; no other key changes |
| `ServerlessChat.ServerlessChatModule.Serve` | api/chat/index.ts:43-107 | a refused request, or a run that never finishes, leaves the store unchanged; otherwise exactly the registered save happens |
| `Deployment.SavesAreNotShared` | api/chat.ts:4-5 | after both chat handlers save a conversation, `/load-chat` and `loadChat` of api/chat-store.ts still answer `[]` |

## Findings

| source | as written | input that shows it | evidently intended | confidence | as-written member | corrected member |
|---|---|---|---|---|---|---|
| api/chat-store.ts:15 (also lib/chat/handler.ts:25, api/chat.ts:11) | `chatStore[id] \|\| []` on a `{}` literal reads inherited properties | `loadChat("toString")` on a fresh store, or `GET /api/load-chat?id=toString`, yields `Object.prototype.toString` | an id never saved loads as `[]` | high; not executed | `JsRecord.InheritedNameLoadsFunction` | `ChatStore.Store.Read` (with `ChatStore.LoadUnknownIsEmpty`) |
| api/chat-store.ts:25 (also lib/chat/handler.ts:17, api/chat/index.ts:13) | `chatStore[id] = messages` with `id` = `"__proto__"` replaces the object's prototype | `saveChat({id: "__proto__", messages: [m]})` then `loadChat("0")` yields `m` and `loadChat("length")` yields `1` | a save changes the entry of its own id only | medium; not executed | `JsRecord.ProtoSaveLeaksIntoOtherIds` | `ChatStore.Store.Write` (with `ChatStore.SaveFrame`) |

The corrected store reads and writes own entries only, as a `Map` or an
object created with `Object.create(null)` would. All the file-level classes
use it.

## Left out

- Stream bridging is not modelled: `webStreamToNodeStream` (api/chat/index.ts:18-40) and the reader pump of api/root.ts. It is promise-chained I/O whose backpressure and disconnect behaviour belong to the Node.js and Web stream runtimes.
- `result.consumeStream()` (lib/chat/handler.ts:53, api/chat/index.ts:78) is not modelled. Nothing is claimed about `onFinish` running exactly once or surviving a client disconnect, because that is AI SDK behaviour the source does not show. `ServerlessChat.ServerlessChatModule.Serve` takes whether the run finished as a parameter.
- `streamText`, `openai(...)` and `toDataStreamResponse` are opaque. Only what the handler can see of them (an exception, or a status and a possibly absent body) enters the model, as `ServerlessChat.LibraryOutcome`.
- `appendResponseMessages` is the uninterpreted parameter `append`, so nothing is claimed about the list it builds.
- `generateId()` and `Math.random()` are parameters, and `ChatRoutes.RandomId` takes the base-36 text of the random number as given.
- `console.log` and the SSE headers (api/chat/index.ts:84-89) are left out because they do not touch the modelled state.
- The `/health` route (api/chat.ts:33-39) reports a constant and a timestamp.
- api/root.ts, api/chat-api.ts and api/index.ts are framework plumbing and are left out. src/lib/handler.js, which api/index.ts imports, is not part of this model.
- api/debug.ts, api/test.ts, api/vercel.ts and everything under src/ are environment reports and UI.
- Aliasing is not modelled: the source stores a reference to the caller's array, while the model stores the list as a value. A later in-place change to a saved array by a caller is not captured.
- Every operation is `async` in the source. Each store access completes without an intervening `await`, so the model runs calls one at a time.
- Messages are reduced to id, role and content, because the store never looks inside them.
- Json.PropertyKey: numbers in a request id are integers in the model. Fractional numbers, the exponent form JavaScript uses for very large numbers, and integers above 2^53, which JSON parsing rounds, are not modelled. A key conversion that throws is modelled as storing nothing; what the library then does with the rejected `onFinish` is not.
- JsRecord.Get: after a save under `__proto__`, the method names of `Array.prototype` (`map`, `push`, …) read as they would through `Object.prototype`. The model therefore under-reports how many ids that save exposes.
- ServerlessChat.Destructure: the TypeError texts are those of the Node.js runtime. A body whose reading throws (a malformed body under a runtime that parses lazily) is the `Unreadable` case, carrying whatever the runtime throws; that runtime's own parsing and error text are not modelled.
