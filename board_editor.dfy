/** The board editor page: the client's list of elements, how it is loaded,
    how local additions and relayed additions extend it, what the page sends
    to the server, and how each element is drawn. Random coordinates and
    temporary ids (`Math.random()`) are parameters; a random coordinate
    parameter lies in [0, 1) as `Math.random()` does. */
module BoardEditor {
  import opened Wrappers
  import opened Elements

  const RectFill: string := "#ef4444"
  const CircleFill: string := "#3b82f6"

  /** The rectangle the toolbar adds: 100 by 100, red. */
  function RectShape(x: real, y: real): Shape
  {
    Shape("RECT", x, y, Some(100.0), Some(100.0), Some(RectFill), None)
  }

  /** The circle the toolbar adds: 100 by 100, blue. */
  function CircleShape(x: real, y: real): Shape
  {
    Shape("CIRCLE", x, y, Some(100.0), Some(100.0), Some(CircleFill), None)
  }

  /** A local element under a temporary id, added at the end of the list. */
  function OptimisticAdd(list: seq<LocalElement>, shape: Shape, tempId: string): (r: seq<LocalElement>)
    ensures |r| == |list| + 1 && r[..|list|] == list
    ensures r[|list|].id == tempId && r[|list|].boardId == None && r[|list|].shape == shape
  {
    list + [LocalElement(tempId, None, shape)]
  }

  /** An element relayed by the server, added at the end of the list. */
  function ElementAdded(list: seq<LocalElement>, e: StoredElement): (r: seq<LocalElement>)
    ensures |r| == |list| + 1 && r[..|list|] == list
    ensures r[|list|].id == e.id && r[|list|].boardId == Some(e.boardId) && r[|list|].shape == e.shape
  {
    list + [Received(e)]
  }

  /** The list a successful load installs: the board's elements, in the order received. */
  function Loaded(fetched: seq<StoredElement>): (r: seq<LocalElement>)
    ensures |r| == |fetched|
    ensures forall i :: 0 <= i < |r| ==> r[i] == Received(fetched[i])
  {
    seq(|fetched|, i requires 0 <= i < |fetched| => Received(fetched[i]))
  }

  /** What the toolbar sends: the board id as the page has it and the element without any id. */
  function Submission(boardId: Option<string>, shape: Shape): (env: Envelope)
    ensures env.element.id.None? && env.element.shape == shape && env.boardId == boardId
  {
    Envelope(boardId, Payload(None, shape))
  }

  /** The page state. `connected` says whether the page has its socket yet
      (`socketRef.current` is set); without it nothing is sent. */
  class Editor {
    const boardId: Option<string>
    var elements: seq<LocalElement>
    var connected: bool

    constructor (boardId: Option<string>)
      ensures this.boardId == boardId && elements == [] && !connected
    {
      this.boardId := boardId;
      elements := [];
      connected := false;
    }

    /** Opening the socket and announcing the board: the `join-board` message carries the page's board id. */
    method Connect() returns (join: Option<string>)
      modifies this
      ensures connected && elements == old(elements)
      ensures join == boardId
    {
      connected := true;
      join := boardId;
    }

    /** `fetchBoard`: a successful load replaces the whole list; a failed one leaves it as it was. */
    method FetchBoard(response: Option<seq<StoredElement>>)
      modifies this
      ensures connected == old(connected)
      ensures response.Some? ==> elements == Loaded(response.value)
      ensures response.None? ==> elements == old(elements)
    {
      if response.Some? {
        elements := Loaded(response.value);
      }
    }

    /** An `element-added` event. */
    method OnElementAdded(e: StoredElement)
      modifies this
      ensures connected == old(connected)
      ensures elements == ElementAdded(old(elements), e)
    {
      elements := elements + [Received(e)];
    }

    /** `handleAddRect`: a rectangle at a random spot in [0, 500) squared, added
        locally under `tempId` and, when connected, sent without an id. The board
        id is not checked. */
    method HandleAddRect(rx: real, ry: real, tempId: string) returns (sent: Option<Envelope>)
      requires 0.0 <= rx < 1.0 && 0.0 <= ry < 1.0
      modifies this
      ensures connected == old(connected)
      ensures elements == OptimisticAdd(old(elements), RectShape(rx * 500.0, ry * 500.0), tempId)
      ensures sent == if connected then Some(Submission(boardId, RectShape(rx * 500.0, ry * 500.0))) else None
    {
      var element := RectShape(rx * 500.0, ry * 500.0);
      elements := elements + [LocalElement(tempId, None, element)];
      sent := if connected then Some(Envelope(boardId, Payload(None, element))) else None;
    }

    /** `handleAddCircle`: as `HandleAddRect`, with a blue circle. */
    method HandleAddCircle(rx: real, ry: real, tempId: string) returns (sent: Option<Envelope>)
      requires 0.0 <= rx < 1.0 && 0.0 <= ry < 1.0
      modifies this
      ensures connected == old(connected)
      ensures elements == OptimisticAdd(old(elements), CircleShape(rx * 500.0, ry * 500.0), tempId)
      ensures sent == if connected then Some(Submission(boardId, CircleShape(rx * 500.0, ry * 500.0))) else None
    {
      var element := CircleShape(rx * 500.0, ry * 500.0);
      elements := elements + [LocalElement(tempId, None, element)];
      sent := if connected then Some(Envelope(boardId, Payload(None, element))) else None;
    }

    /** `addShape`: nothing without a (non-empty) board id; otherwise a 100 by 100
        element at a random spot in [100, 300) squared, red for `RECT` and blue
        for anything else, is sent. The list is never changed. */
    method AddShape(kind: string, rx: real, ry: real) returns (sent: Option<Envelope>)
      requires 0.0 <= rx < 1.0 && 0.0 <= ry < 1.0
      ensures boardId.None? || boardId == Some("") || !connected ==> sent == None
      ensures boardId.Some? && boardId != Some("") && connected ==>
        sent == Some(Submission(boardId, ShapeFor(kind, 100.0 + rx * 200.0, 100.0 + ry * 200.0)))
    {
      if boardId.None? || boardId == Some("") {
        return None;
      }
      var newElement := ShapeFor(kind, 100.0 + rx * 200.0, 100.0 + ry * 200.0);
      sent := if connected then Some(Envelope(boardId, Payload(None, newElement))) else None;
    }
  }

  /** The element `addShape` builds. */
  function ShapeFor(kind: string, x: real, y: real): (s: Shape)
    ensures s.kind == kind && s.width == Some(100.0) && s.height == Some(100.0)
    ensures s.fill == Some(if kind == "RECT" then "red" else "blue")
  {
    Shape(kind, x, y, Some(100.0), Some(100.0), Some(if kind == "RECT" then "red" else "blue"), None)
  }

  /** A drawn canvas node. */
  datatype Node =
    | RectNode(x: real, y: real, width: Option<real>, height: Option<real>, fill: Option<string>)
    | CircleNode(x: real, y: real, radius: real, fill: Option<string>)

  /** How one element is drawn: `RECT` as a rectangle with its own box,
      `CIRCLE` as a circle whose radius is half its width (half of 100 when the
      width is missing or zero), any other type not at all. */
  function Draw(e: LocalElement): (r: Option<Node>)
    ensures e.shape.kind == "RECT" ==> r == Some(RectNode(e.shape.x, e.shape.y, e.shape.width, e.shape.height, e.shape.fill))
    ensures e.shape.kind == "CIRCLE" ==> r.Some? && r.value.CircleNode? && r.value.x == e.shape.x && r.value.y == e.shape.y
    ensures e.shape.kind != "RECT" && e.shape.kind != "CIRCLE" ==> r.None?
  {
    var s := e.shape;
    if s.kind == "RECT" then Some(RectNode(s.x, s.y, s.width, s.height, s.fill))
    else if s.kind == "CIRCLE" then
      var w := if s.width.None? || s.width == Some(0.0) then 100.0 else s.width.value;
      Some(CircleNode(s.x, s.y, w / 2.0, s.fill))
    else None
  }

  /** A circle's radius is half its width, or 50 when the width is missing or zero. */
  lemma CircleRadius(e: LocalElement)
    requires e.shape.kind == "CIRCLE"
    ensures Draw(e).value.radius == if e.shape.width.None? || e.shape.width == Some(0.0) then 50.0 else e.shape.width.value / 2.0
  {
  }

  /** The layer's children: one slot per element, in list order. */
  function Render(list: seq<LocalElement>): (r: seq<Option<Node>>)
    ensures |r| == |list|
    ensures forall i :: 0 <= i < |list| ==> r[i] == Draw(list[i])
    decreases |list|
  {
    if list == [] then []
    else [Draw(list[0])] + Render(list[1..])
  }

  /** Every element the toolbar adds is drawn, as the shape it was added as. */
  lemma {:induction false} ToolbarShapesAreDrawn(list: seq<LocalElement>, x: real, y: real, tempId: string)
    ensures Render(OptimisticAdd(list, RectShape(x, y), tempId))[|list|] == Some(RectNode(x, y, Some(100.0), Some(100.0), Some(RectFill)))
    ensures Render(OptimisticAdd(list, CircleShape(x, y), tempId))[|list|] == Some(CircleNode(x, y, 50.0, Some(CircleFill)))
  {
  }
}
