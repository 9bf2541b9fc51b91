/** The paper canvas of the board page: a pan-and-zoom viewport (the `scale`
    and `position` state of the stage) and the placement of the paper sheet.
    Numbers are modelled as `real`, so no floating-point rounding is modelled. */
module CanvasStage {
  import opened Constants

  datatype Point = Point(x: real, y: real)

  /** The stage transform: screen = world * scale + position. */
  datatype Viewport = Viewport(scale: real, position: Point)

  const ScaleBy: real := 1.1
  const MinScale: real := 0.1
  const MaxScale: real := 5.0

  predicate InRange(s: real)
  {
    MinScale <= s <= MaxScale
  }

  /** The scale a wheel event proposes: scrolling up (negative `deltaY`) zooms in,
      anything else, a zero delta included, zooms out. */
  function ProposedScale(oldScale: real, deltaY: real): (s: real)
    ensures oldScale > 0.0 ==> (deltaY < 0.0 <==> s > oldScale)
    ensures s == 0.0 <==> oldScale == 0.0
  {
    if deltaY < 0.0 then oldScale * ScaleBy else oldScale / ScaleBy
  }

  /** The world point shown at screen point `p`. */
  function WorldPoint(v: Viewport, p: Point): Point
    requires v.scale != 0.0
  {
    Point((p.x - v.position.x) / v.scale, (p.y - v.position.y) / v.scale)
  }

  /** The viewport after a wheel event at `pointer`: a proposed scale outside
      [0.1, 5] leaves everything as it was; otherwise the scale is the proposed
      one and the world point under the pointer does not move. */
  function Wheel(v: Viewport, deltaY: real, pointer: Point): (r: Viewport)
    ensures !InRange(ProposedScale(v.scale, deltaY)) ==> r == v
    ensures InRange(ProposedScale(v.scale, deltaY)) ==>
      && r.scale == ProposedScale(v.scale, deltaY)
      && v.scale != 0.0
      && WorldPoint(r, pointer) == WorldPoint(v, pointer)
  {
    var newScale := ProposedScale(v.scale, deltaY);
    if newScale < MinScale || newScale > MaxScale then v
    else
      var m := WorldPoint(v, pointer);
      var r := Viewport(newScale, Point(pointer.x - m.x * newScale, pointer.y - m.y * newScale));
      AnchorKept(pointer.x, m.x, newScale);
      AnchorKept(pointer.y, m.y, newScale);
      r
  }

  /** One axis of the anchoring: placing world coordinate `w` under screen
      coordinate `p` at scale `s` maps `p` back to `w`. */
  lemma AnchorKept(p: real, w: real, s: real)
    requires s != 0.0
    ensures (p - (p - w * s)) / s == w
  {
    assert p - (p - w * s) == w * s;
  }

  /** Zooming in once at (100, 100) from the identity transform gives scale 1.1
      and position (-10, -10). */
  lemma ZoomInExample()
    ensures Wheel(Viewport(1.0, Point(0.0, 0.0)), -1.0, Point(100.0, 100.0))
         == Viewport(1.1, Point(-10.0, -10.0))
  {
  }

  /** Events that change the viewport: the wheel and the end of a drag. */
  datatype ViewEvent =
    | WheelEvent(deltaY: real, pointer: Point)
    | DragEnd(stageX: real, stageY: real)

  function Apply(v: Viewport, e: ViewEvent): Viewport
  {
    match e
    case WheelEvent(d, p) => Wheel(v, d, p)
    case DragEnd(x, y) => Viewport(v.scale, Point(x, y))
  }

  function Replay(v: Viewport, events: seq<ViewEvent>): Viewport
    decreases |events|
  {
    if events == [] then v else Replay(Apply(v, events[0]), events[1..])
  }

  /** Starting from a scale in [0.1, 5] (the initial scale 1 is), no sequence of
      events takes the scale out of that range. */
  lemma {:induction false} ScaleStaysInRange(v: Viewport, events: seq<ViewEvent>)
    requires InRange(v.scale)
    ensures InRange(Replay(v, events).scale)
    decreases |events|
  {
    if events != [] {
      ScaleStaysInRange(Apply(v, events[0]), events[1..]);
    }
  }

  /** The stage's viewport state, as the component holds it. */
  class Stage {
    var scale: real
    var position: Point

    ghost predicate Valid()
      reads this
    {
      InRange(scale)
    }

    function View(): Viewport
      reads this
    {
      Viewport(scale, position)
    }

    /** Initial state: scale 1 at the origin. */
    constructor ()
      ensures Valid()
      ensures scale == 1.0 && position == Point(0.0, 0.0)
    {
      scale := 1.0;
      position := Point(0.0, 0.0);
    }

    /** `handleWheel`: the stage's reported scale and position are the stored ones. */
    method HandleWheel(deltaY: real, pointer: Point)
      requires Valid()
      modifies this
      ensures Valid()
      ensures View() == Wheel(old(View()), deltaY, pointer)
    {
      var oldScale := scale;
      var newScale := if deltaY < 0.0 then oldScale * ScaleBy else oldScale / ScaleBy;
      if newScale < MinScale || newScale > MaxScale {
        return;
      }
      var mousePointTo := Point((pointer.x - position.x) / oldScale, (pointer.y - position.y) / oldScale);
      var newPos := Point(pointer.x - mousePointTo.x * newScale, pointer.y - mousePointTo.y * newScale);
      scale := newScale;
      position := newPos;
    }

    /** `onDragEnd`: the position becomes where the stage was dropped; the scale stays. */
    method HandleDragEnd(stageX: real, stageY: real)
      requires Valid()
      modifies this
      ensures Valid()
      ensures View() == Apply(old(View()), DragEnd(stageX, stageY))
      ensures position == Point(stageX, stageY) && scale == old(scale)
    {
      position := Point(stageX, stageY);
    }
  }

  datatype SheetRect = SheetRect(x: real, y: real, width: real, height: real)

  /** The white paper sheet: the default format's size, centred horizontally in
      a window `innerWidth` wide, 100 pixels from the top. */
  function PaperSheet(innerWidth: real): (r: SheetRect)
    ensures r.width == PaperSizes(DefaultPaperSize).width as real
    ensures r.height == PaperSizes(DefaultPaperSize).height as real
    ensures r.x + r.width / 2.0 == innerWidth / 2.0
    ensures r.y == 100.0
  {
    var paper := PaperSizes(DefaultPaperSize);
    SheetRect((innerWidth - paper.width as real) / 2.0, 100.0, paper.width as real, paper.height as real)
  }
}
