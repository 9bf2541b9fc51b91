/** The board element in its three representations: what a client sends,
    what the store keeps, and what a client's element list holds. All three
    share the same geometry, style and content fields. */
module Elements {
  import opened Wrappers

  /** `type, x, y, width, height, fill, content`: the fields the store copies. */
  datatype Shape = Shape(
    kind: string,
    x: real,
    y: real,
    width: Option<real>,
    height: Option<real>,
    fill: Option<string>,
    content: Option<string>)

  /** The `element` object of an `add-element` message; `id` is whatever the
      sender put there, usually nothing. */
  datatype Payload = Payload(id: Option<string>, shape: Shape)

  /** An `add-element` message: `{ boardId, element }`. */
  datatype Envelope = Envelope(boardId: Option<string>, element: Payload)

  /** A row of the element store; `id` comes from the store. */
  datatype StoredElement = StoredElement(id: string, boardId: string, shape: Shape)

  /** An entry of a client's element list: a stored element as received, or
      the client's own element under a temporary id (and no board id). */
  datatype LocalElement = LocalElement(id: string, boardId: Option<string>, shape: Shape)

  /** A stored element as it lands in a client's list. */
  function Received(e: StoredElement): LocalElement
  {
    LocalElement(e.id, Some(e.boardId), e.shape)
  }
}
