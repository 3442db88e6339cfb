/** Values shared by the server and the two client pages: the mind-map node and
    connection records, the chat message record, an abstract clock reading and
    JavaScript truthiness of an optional string. */
module MindMapTypes {

  datatype Option<+T> = None | Some(value: T)

  /** A reading of the abstract clock that replaces `new Date()` and `Date.now()`. */
  type Time = nat

  type NodeId = string

  /** A node of the canvas. Coordinates are JavaScript numbers; they are only
      stored and relayed, never computed with. */
  datatype Node = Node(id: NodeId, x: real, y: real, text: string, color: string)

  /** A line between two nodes. `from` and `to` are weak references: nothing
      checks that a node with that id exists. */
  datatype Connection = Connection(id: string, from: NodeId, to: NodeId)

  datatype ChatMessage = ChatMessage(id: string, user: string, message: string, timestamp: Time)

  /** JavaScript truthiness of a value that is a string or absent
      (`undefined` / `null`): the empty string is falsy too. */
  predicate Truthy(v: Option<string>) {
    v.Some? && v.value != ""
  }

  /** `v || fallback` for an optional string. */
  function StringOr(v: Option<string>, fallback: string): string {
    if Truthy(v) then v.value else fallback
  }

  /** `v || fallback` for an optional array: every array, even `[]`, is truthy. */
  function SeqOr<T>(v: Option<seq<T>>, fallback: seq<T>): seq<T> {
    if v.Some? then v.value else fallback
  }
}
