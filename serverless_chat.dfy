/**
 * api/chat/index.ts: the serverless chat handler. It refuses every method but
 * POST, destructures `messages` and `id` from the parsed body, refuses a falsy
 * field, starts the model call with an `onFinish` callback that saves under the
 * request's id, and turns any exception inside its `try` block into a 500
 * answer. Its store is the file's own `chatStore`, written only by `saveChat`.
 *
 * The library calls (`streamText`, `consumeStream`, `toDataStreamResponse`)
 * are not modelled; what they do that the handler can observe (an exception,
 * or a response with a status and a body that may be absent) is the
 * parameter `library` of `Handle`.
 */
module ServerlessChat {

  import opened Wrappers
  import opened Messages
  import opened ChatStore
  import opened Json

  /** A value thrown inside the `try` block. */
  datatype Thrown = ErrorInstance(message: string) | NonErrorValue

  /**
   * `req.body`: absent, a value whose reading throws (the runtime parses the
   * body when it is first read, and a malformed body throws there), or the
   * parsed JSON value.
   */
  datatype Body = NoBody | Unreadable(thrown: Thrown) | Parsed(json: JsonValue)

  /** `const { messages, id } = req.body`; `None` is `undefined`. */
  datatype Fields = Fields(messages: Option<JsonValue>, id: Option<JsonValue>)

  /** What the library calls after validation do, as far as the handler can see. */
  datatype LibraryOutcome =
    | StreamTextThrows(thrown: Thrown)          // `streamText` throws: no callback registered
    | ThrowsAfterStart(thrown: Thrown)          // a later call throws: the callback stays registered
    | Responded(status: int, hasBody: bool)     // `toDataStreamResponse()` resolved

  /** What the handler writes to `res`. */
  datatype HttpResponse =
    | ErrorJson(status: int, error: string)                    // `{ error }`
    | FailureJson(status: int, error: string, message: string) // `{ error, message }`
    | EventStream(status: int)                                 // SSE headers, body piped
    | Ended(status: int)                                       // no body: `res.end()`

  /** The `onFinish` callback of one request, closing over its `id` and `messages`. */
  datatype PendingSave = PendingSave(id: JsonValue, messages: JsonValue)

  /** The answer, and the callback the request left registered, if any. */
  datatype Outcome = Outcome(response: HttpResponse, onFinish: Option<PendingSave>)

  /** `appendResponseMessages({messages, responseMessages})`, supplied by the AI SDK. */
  type AppendResponse = (JsonValue, seq<Message>) -> seq<Message>

  const MethodNotAllowed := ErrorJson(405, "Method not allowed")
  const MissingFields := ErrorJson(400, "Messages and ID are required")
  const ProcessingError := "An error occurred while processing your request"

  /**
   * Destructuring reads two properties of the body. An absent or `null` body
   * throws a TypeError (the text is the Node.js runtime's); any other value
   * that is not an object has neither property.
   */
  function Destructure(body: Body): (r: Result<Fields, Thrown>)
    // it throws exactly for a body that cannot be read or has no properties at all
    ensures r.Failure? <==> body.NoBody? || body.Unreadable? || body == Parsed(JNull)
    ensures body.Unreadable? ==> r == Failure(body.thrown)
    // a field is defined exactly when the body is an object carrying it
    ensures r.Success? ==> (r.value.messages.Some? <==> body.json.JObject? && "messages" in body.json.fields)
    ensures r.Success? ==> (r.value.id.Some? <==> body.json.JObject? && "id" in body.json.fields)
    ensures r.Success? && r.value.messages.Some? ==> r.value.messages.value == body.json.fields["messages"]
    ensures r.Success? && r.value.id.Some? ==> r.value.id.value == body.json.fields["id"]
  {
    match body
    case Unreadable(thrown) => Failure(thrown)
    case NoBody => Failure(ErrorInstance("Cannot destructure property 'messages' of 'req.body' as it is undefined."))
    case Parsed(JNull) => Failure(ErrorInstance("Cannot destructure property 'messages' of 'req.body' as it is null."))
    case Parsed(JObject(fields)) =>
      Success(Fields(if "messages" in fields then Some(fields["messages"]) else None,
                     if "id" in fields then Some(fields["id"]) else None))
    case Parsed(_) => Success(Fields(None, None))
  }

  /** The 500 answer of the `catch` block. */
  function InternalError(thrown: Thrown): (r: HttpResponse)
    ensures r.FailureJson? && r.status == 500 && r.error == ProcessingError
    ensures thrown.ErrorInstance? ==> r.message == thrown.message
    ensures thrown.NonErrorValue? ==> r.message == "Unknown error"
  {
    FailureJson(500, ProcessingError, match thrown
      case ErrorInstance(message) => message
      case NonErrorValue => "Unknown error")
  }

  /** Both destructured fields are truthy: the request passes validation. */
  predicate Accepted(fields: Fields)
    ensures Accepted(fields) ==> fields.messages.Some? && fields.id.Some?
    ensures fields.id == Some(JString("")) ==> !Accepted(fields)
    ensures fields.messages == Some(JArray([])) ==> (Accepted(fields) <==> Truthy(fields.id))
  {
    Truthy(fields.messages) && Truthy(fields.id)
  }

  /** The handler, from the request to its answer and the callback it leaves registered. */
  function Handle(verb: Option<string>, body: Body, library: LibraryOutcome): (r: Outcome)
    // 405 for every method but POST, before the body is looked at
    ensures r.response == MethodNotAllowed <==> verb != Some("POST")
    ensures verb != Some("POST") ==> r.onFinish == None
    // 400 exactly when a destructured field is falsy
    ensures r.response == MissingFields <==>
              verb == Some("POST") && Destructure(body).Success? && !Accepted(Destructure(body).value)
    // a callback is registered only for an accepted request, and only once `streamText` returned
    ensures r.onFinish.Some? <==>
              verb == Some("POST") && Destructure(body).Success? && Accepted(Destructure(body).value)
              && !library.StreamTextThrows?
    // it saves under the request's own id, from the request's own messages
    ensures r.onFinish.Some? ==>
              r.onFinish.value == PendingSave(Destructure(body).value.id.value, Destructure(body).value.messages.value)
    // an unreadable body is a 500 carrying the TypeError's message
    ensures verb == Some("POST") && Destructure(body).Failure? ==> r.response == InternalError(Destructure(body).error)
    // an exception from or after `streamText` is a 500 carrying what was thrown
    ensures (verb == Some("POST") && Destructure(body).Success? && Accepted(Destructure(body).value)
             && !library.Responded?) ==> r.response == InternalError(library.thrown)
    // otherwise the library's status is passed through, streamed or ended
    ensures (verb == Some("POST") && Destructure(body).Success? && Accepted(Destructure(body).value)
             && library.Responded?) ==>
              r.response == if library.hasBody then EventStream(library.status) else Ended(library.status)
    // a stream answer only for an accepted request whose library calls succeeded
    ensures r.response.EventStream? || r.response.Ended? <==>
              verb == Some("POST") && Destructure(body).Success? && Accepted(Destructure(body).value)
              && library.Responded?
  {
    if verb != Some("POST") then Outcome(MethodNotAllowed, None)
    else
      match Destructure(body)
      case Failure(thrown) => Outcome(InternalError(thrown), None)
      case Success(fields) =>
        if !Accepted(fields) then Outcome(MissingFields, None)
        else
          var pending := PendingSave(fields.id.value, fields.messages.value);
          match library
          case StreamTextThrows(thrown) => Outcome(InternalError(thrown), None)
          case ThrowsAfterStart(thrown) => Outcome(InternalError(thrown), Some(pending))
          case Responded(status, hasBody) =>
            Outcome(if hasBody then EventStream(status) else Ended(status), Some(pending))
  }

  /** An empty-string id is refused: the check is on falsiness. */
  lemma EmptyIdRejected(messages: JsonValue, library: LibraryOutcome)
    ensures Handle(Some("POST"), Parsed(JObject(map["messages" := messages, "id" := JString("")])), library)
            == Outcome(MissingFields, None)
  {
  }

  /** An empty messages array is accepted: an array is truthy however short. */
  lemma EmptyMessagesAccepted(id: string, status: int)
    requires id != ""
    ensures Handle(Some("POST"), Parsed(JObject(map["messages" := JArray([]), "id" := JString(id)])), Responded(status, true))
            == Outcome(EventStream(status), Some(PendingSave(JString(id), JArray([]))))
  {
  }

  /** A 500 after `streamText` returned still leaves the save registered. */
  lemma FailureAfterStartStillSaves(id: string, messages: seq<JsonValue>, thrown: Thrown)
    requires id != ""
    ensures Handle(Some("POST"), Parsed(JObject(map["messages" := JArray(messages), "id" := JString(id)])), ThrowsAfterStart(thrown))
            == Outcome(InternalError(thrown), Some(PendingSave(JString(id), JArray(messages))))
  {
  }

  class ServerlessChatModule {
    const chatStore: Store

    constructor()
      ensures fresh(chatStore) && chatStore.entries == map[]
    {
      chatStore := new Store();
    }

    /** `saveChat(id, messages)`: wholesale replacement of the list for `id`. */
    method SaveChat(id: string, messages: seq<Message>)
      modifies chatStore
      ensures chatStore.entries == Assign(old(chatStore.entries), id, messages)
      ensures Lookup(chatStore.entries, id) == messages
      ensures forall k :: k != id ==> Lookup(chatStore.entries, k) == Lookup(old(chatStore.entries), k)
    {
      chatStore.Write(id, messages);
    }

    /**
     * One request from arrival to the end of its model run: the handler
     * answers, and the registered callback runs if the run finishes with
     * response messages (`None`: the run failed and the callback never ran).
     * A refused request, and a run that does not finish, leave the store as it was.
     */
    method Serve(verb: Option<string>, body: Body, library: LibraryOutcome,
                 finished: Option<seq<Message>>, append: AppendResponse)
      returns (response: HttpResponse)
      modifies chatStore
      ensures response == Handle(verb, body, library).response
      ensures Handle(verb, body, library).onFinish.None? || finished.None? ==>
                chatStore.entries == old(chatStore.entries)
      ensures Handle(verb, body, library).onFinish.Some? && finished.Some? ==>
                var pending := Handle(verb, body, library).onFinish.value;
                chatStore.entries ==
                  if PropertyKey(pending.id).Some?
                  then Assign(old(chatStore.entries), PropertyKey(pending.id).value, append(pending.messages, finished.value))
                  else old(chatStore.entries)
    {
      var outcome := Handle(verb, body, library);
      response := outcome.response;
      if outcome.onFinish.Some? && finished.Some? {
        OnFinish(outcome.onFinish.value, finished.value, append);
      }
    }

    /**
     * The registered callback running with the response messages: it saves,
     * under the key the request's id becomes, the list built from the
     * request's messages and the response. When the id cannot become a key,
     * the assignment in `saveChat` throws and nothing is stored.
     */
    method OnFinish(pending: PendingSave, responseMessages: seq<Message>, append: AppendResponse)
      modifies chatStore
      ensures PropertyKey(pending.id).Some? ==>
                chatStore.entries ==
                  Assign(old(chatStore.entries), PropertyKey(pending.id).value, append(pending.messages, responseMessages))
      ensures PropertyKey(pending.id).None? ==> chatStore.entries == old(chatStore.entries)
      ensures pending.id.JString? ==>
                Lookup(chatStore.entries, pending.id.s) == append(pending.messages, responseMessages)
      ensures forall k :: Some(k) != PropertyKey(pending.id) ==> Lookup(chatStore.entries, k) == Lookup(old(chatStore.entries), k)
    {
      var key := PropertyKey(pending.id);
      if key.Some? {
        SaveChat(key.value, append(pending.messages, responseMessages));
      }
    }
  }
}
