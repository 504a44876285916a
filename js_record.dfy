/**
 * The store as JavaScript evaluates it: `chatStore` is a plain object literal
 * `{}`, so a property read that finds no own entry continues into the object's
 * prototype, and an assignment to the key "__proto__" replaces that prototype
 * instead of adding an entry. This module models those reads and writes as
 * written, shows the two ways they break the store's contract, and proves that
 * on every other id they agree with the own-entry model of module ChatStore,
 * which the rest of the project uses.
 */
module JsRecord {

  import opened Wrappers
  import opened Messages
  import opened Decimal
  import ChatStore

  /** What reading one property of the store object can give. */
  datatype JsValue =
    | Undefined
    | MessageList(list: seq<Message>)   // an array of messages
    | MessageObject(message: Message)   // one element of an array used as prototype
    | Number(n: nat)                    // the `length` of an array used as prototype
    | ObjectPrototypeValue              // Object.prototype itself, read through `__proto__`
    | Function(name: string)            // a method inherited from Object.prototype

  datatype Prototype = ObjectPrototype | ArrayPrototype(elements: seq<Message>)

  /** A plain object: its own entries and its prototype. */
  datatype Record = Record(own: map<string, seq<Message>>, proto: Prototype)

  /** `{}` */
  const Empty := Record(map[], ObjectPrototype)

  /** Methods every plain object inherits from Object.prototype. */
  const ObjectPrototypeMethods: set<string> :=
    {"constructor", "hasOwnProperty", "isPrototypeOf", "propertyIsEnumerable",
     "toLocaleString", "toString", "valueOf", "__defineGetter__",
     "__defineSetter__", "__lookupGetter__", "__lookupSetter__"}

  /** Ids on which the object's inherited behaviour can show through. */
  predicate Ordinary(id: string)
  {
    id !in ObjectPrototypeMethods && id != "__proto__"
  }

  function FromObjectPrototype(key: string): JsValue
  {
    if key in ObjectPrototypeMethods then Function(key) else Undefined
  }

  /** `chatStore[key]`: own entry first, then the prototype chain. */
  function Get(r: Record, key: string): (v: JsValue)
    // an own entry hides everything inherited
    ensures key in r.own ==> v == MessageList(r.own[key])
    // with the prototype untouched, only Object.prototype's names are found beyond the own entries
    ensures r.proto == ObjectPrototype && key !in r.own ==>
              (v.Function? <==> key in ObjectPrototypeMethods) && (v == Undefined <==> Ordinary(key))
  {
    if key in r.own then MessageList(r.own[key])
    else if key == "__proto__" then
      (match r.proto
       case ObjectPrototype => ObjectPrototypeValue
       case ArrayPrototype(elements) => MessageList(elements))
    else
      match r.proto
      case ObjectPrototype => FromObjectPrototype(key)
      case ArrayPrototype(elements) =>
        var index := ArrayIndex(key);
        if index.Some? && index.value < |elements| then MessageObject(elements[index.value])
        else if key == "length" then Number(|elements|)
        else FromObjectPrototype(key)
  }

  /** JavaScript truthiness of a value read from the store. */
  predicate Truthy(v: JsValue)
  {
    match v
    case Undefined => false
    case Number(n) => n != 0
    case _ => true
  }

  /** `chatStore[id] || []` as JavaScript evaluates it. */
  function LoadAsWritten(r: Record, id: string): (v: JsValue)
    ensures Truthy(v) || v == MessageList([])
    ensures id in r.own ==> v == MessageList(r.own[id])
    ensures v != MessageList([]) ==> v == Get(r, id)
  {
    var v := Get(r, id);
    if Truthy(v) then v else MessageList([])
  }

  /** `chatStore[id] = messages` as JavaScript evaluates it. */
  function SaveAsWritten(r: Record, id: string, messages: seq<Message>): (r': Record)
    // any id but "__proto__" gets an own entry holding the list
    ensures id != "__proto__" ==> r'.own == r.own[id := messages] && r'.proto == r.proto
    // "__proto__" adds no own entry: the list becomes the prototype
    ensures id == "__proto__" ==> r'.own == r.own && r'.proto == ArrayPrototype(messages)
  {
    if id == "__proto__" then r.(proto := ArrayPrototype(messages))
    else r.(own := r.own[id := messages])
  }

  function ReplayAsWritten(r: Record, ops: seq<ChatStore.Op>): Record
    decreases |ops|
  {
    if ops == [] then r
    else
      var before := ReplayAsWritten(r, ops[..|ops| - 1]);
      match ops[|ops| - 1]
      case SaveOp(id, messages) => SaveAsWritten(before, id, messages)
      case LoadOp(_) => before
  }

  /**
   * Loading an inherited method name that was never saved returns the
   * inherited function, not the empty list: `loadChat("toString")` on a fresh
   * store yields `Object.prototype.toString`.
   */
  lemma InheritedNameLoadsFunction(r: Record, name: string)
    requires r.proto == ObjectPrototype && name in ObjectPrototypeMethods && name !in r.own
    ensures LoadAsWritten(r, name) == Function(name)
    ensures LoadAsWritten(r, name) != MessageList(ChatStore.Lookup(r.own, name))
  {
  }

  /**
   * Saving under "__proto__" changes what other ids load: afterwards the id
   * "i" loads the i-th saved message and "length" loads the list's length,
   * although neither was ever saved. The own-entry model keeps them unchanged.
   */
  lemma ProtoSaveLeaksIntoOtherIds(r: Record, messages: seq<Message>, i: nat)
    requires i < |messages| && i < 0xFFFF_FFFF
    requires NatToDecimal(i) !in r.own && "length" !in r.own
    ensures LoadAsWritten(SaveAsWritten(r, "__proto__", messages), NatToDecimal(i)) == MessageObject(messages[i])
    ensures LoadAsWritten(SaveAsWritten(r, "__proto__", messages), "length") == Number(|messages|)
    ensures ChatStore.Lookup(ChatStore.Assign(r.own, "__proto__", messages), NatToDecimal(i)) == ChatStore.Lookup(r.own, NatToDecimal(i))
  {
    ArrayIndexOfDecimal(i);
    assert ArrayIndex("length") == None by {
      assert !IsDigit('l');
    }
  }

  /**
   * On an ordinary id, and while no save has gone to "__proto__", the object
   * behaves as the own-entry store: load returns the saved list or `[]`.
   */
  lemma AgreesOnOrdinaryId(r: Record, id: string)
    requires r.proto == ObjectPrototype && Ordinary(id)
    ensures LoadAsWritten(r, id) == MessageList(ChatStore.Lookup(r.own, id))
  {
  }

  /**
   * Any sequence of saves and loads with no save under "__proto__" leaves the
   * object exactly as the own-entry store: the same entries, the prototype
   * untouched. Only a save under "__proto__" makes the two differ.
   */
  lemma {:induction false} ReplayAgreesWithoutProtoSave(entries: ChatStore.Entries, ops: seq<ChatStore.Op>)
    requires forall i :: 0 <= i < |ops| && ops[i].SaveOp? ==> ops[i].id != "__proto__"
    ensures ReplayAsWritten(Record(entries, ObjectPrototype), ops) == Record(ChatStore.Replay(entries, ops), ObjectPrototype)
    decreases |ops|
  {
    if ops != [] {
      ReplayAgreesWithoutProtoSave(entries, ops[..|ops| - 1]);
    }
  }
}
