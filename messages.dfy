/**
 * The chat message record of the AI SDK (`Message` from 'ai'), reduced to the
 * fields the store and the handlers pass around. The store never looks inside a
 * message: it keeps lists of them in order.
 */
module Messages {

  datatype Role = System | User | Assistant | Data

  datatype Message = Message(id: string, role: Role, content: string)
}
