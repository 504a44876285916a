/**
 * The in-memory conversation store: a record from chat id to the ordered
 * message list last saved under it. Every core source file keeps its own
 * module-level copy; each copy is one `Store` object here.
 *
 * A read is lenient (an id never written reads as the empty list) and a write
 * replaces the whole list of one id. Keys are compared as own entries of the
 * record; what a plain JavaScript object does with inherited property names is
 * in module JsRecord.
 */
module ChatStore {

  import opened Wrappers
  import opened Messages

  type Entries = map<string, seq<Message>>

  /** `chatStore[id] || []`: the list stored under `id`, or `[]` if there is none. */
  function Lookup(entries: Entries, id: string): seq<Message>
  {
    if id in entries then entries[id] else []
  }

  /** `chatStore[id] = messages`: the entry for `id` becomes `messages`. */
  function Assign(entries: Entries, id: string, messages: seq<Message>): Entries
  {
    entries[id := messages]
  }

  /** A load right after a save returns exactly the saved list. */
  lemma LoadAfterSave(entries: Entries, id: string, messages: seq<Message>)
    ensures Lookup(Assign(entries, id, messages), id) == messages
  {
  }

  /** An id that was never written reads as the empty list, not as an error. */
  lemma LoadUnknownIsEmpty(entries: Entries, id: string)
    requires id !in entries
    ensures Lookup(entries, id) == []
  {
  }

  /** A save touches its own id only: every other key keeps its presence and its list. */
  lemma SaveFrame(entries: Entries, id: string, messages: seq<Message>, other: string)
    requires other != id
    ensures other in Assign(entries, id, messages) <==> other in entries
    ensures Lookup(Assign(entries, id, messages), other) == Lookup(entries, other)
  {
  }

  /** Saving the same list twice leaves the same store as saving it once. */
  lemma SaveIdempotent(entries: Entries, id: string, messages: seq<Message>)
    ensures Assign(Assign(entries, id, messages), id, messages) == Assign(entries, id, messages)
  {
  }

  /** A save replaces the previous list wholesale: nothing of the earlier list survives. */
  lemma SaveReplacesWholesale(entries: Entries, id: string, earlier: seq<Message>, later: seq<Message>)
    ensures Assign(Assign(entries, id, earlier), id, later) == Assign(entries, id, later)
    ensures Lookup(Assign(Assign(entries, id, earlier), id, later), id) == later
  {
  }

  /** One store object: the module-level `chatStore` record of one source file. */
  class Store {
    var entries: Entries

    /** `const chatStore = {}` */
    constructor()
      ensures entries == map[]
    {
      entries := map[];
    }

    /** Lenient read; never fails and changes nothing. */
    method Read(id: string) returns (messages: seq<Message>)
      ensures id in entries ==> messages == entries[id]
      ensures id !in entries ==> messages == []
      ensures messages == Lookup(entries, id)
    {
      if id in entries {
        messages := entries[id];
      } else {
        messages := [];
      }
    }

    /** Wholesale replacement of the entry for `id`. */
    method Write(id: string, messages: seq<Message>)
      modifies this
      ensures entries == Assign(old(entries), id, messages)
      ensures id in entries && entries[id] == messages
      ensures forall k :: k != id ==> Lookup(entries, k) == Lookup(old(entries), k)
    {
      entries := entries[id := messages];
    }
  }

  /** One call on a store: a write (save, or create with `[]`) or a read. */
  datatype Op = SaveOp(id: string, messages: seq<Message>) | LoadOp(id: string)

  function Apply(entries: Entries, op: Op): Entries
  {
    match op
    case SaveOp(id, messages) => Assign(entries, id, messages)
    case LoadOp(_) => entries
  }

  /** The store after running `ops` in order, starting from `entries`. */
  function Replay(entries: Entries, ops: seq<Op>): Entries
    decreases |ops|
  {
    if ops == [] then entries else Apply(Replay(entries, ops[..|ops| - 1]), ops[|ops| - 1])
  }

  /** The list of the last write to `id` in `ops`, if any. */
  function LastWrite(ops: seq<Op>, id: string): Option<seq<Message>>
    decreases |ops|
  {
    if ops == [] then None
    else if ops[|ops| - 1].SaveOp? && ops[|ops| - 1].id == id then Some(ops[|ops| - 1].messages)
    else LastWrite(ops[..|ops| - 1], id)
  }

  /**
   * Last write wins: after any sequence of calls, a load of `id` returns the
   * list of the last write to `id`; with no write to `id`, what was there before.
   * Reads and writes to other ids in between make no difference.
   */
  lemma {:induction false} LastWriteWins(entries: Entries, ops: seq<Op>, id: string)
    ensures Lookup(Replay(entries, ops), id) ==
            match LastWrite(ops, id)
            case Some(messages) => messages
            case None => Lookup(entries, id)
    decreases |ops|
  {
    if ops != [] {
      LastWriteWins(entries, ops[..|ops| - 1], id);
    }
  }

  /** The writes of `ops`, in their order. */
  function Writes(ops: seq<Op>): (w: seq<Op>)
    ensures forall i :: 0 <= i < |w| ==> w[i].SaveOp?
    decreases |ops|
  {
    if ops == [] then []
    else Writes(ops[..|ops| - 1]) + (if ops[|ops| - 1].SaveOp? then [ops[|ops| - 1]] else [])
  }

  /**
   * Loads interleaved anywhere in a sequence of calls make no difference:
   * dropping them all leaves the same store.
   */
  lemma {:induction false} OnlyWritesMatter(entries: Entries, ops: seq<Op>)
    ensures Replay(entries, ops) == Replay(entries, Writes(ops))
    decreases |ops|
  {
    if ops != [] {
      var prefix, last := ops[..|ops| - 1], ops[|ops| - 1];
      OnlyWritesMatter(entries, prefix);
      if last.SaveOp? {
        var w := Writes(prefix) + [last];
        assert Writes(ops) == w && w[..|w| - 1] == Writes(prefix);
      } else {
        assert Writes(ops) == Writes(prefix) + [] == Writes(prefix);
      }
    }
  }
}
