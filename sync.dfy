/** The server and its connected board pages taken together, as the
    functions that specify the server's socket handlers and the page's list
    updates compose. It shows what the relay does and does not do: each
    stored element reaches the other members of its room, and a page's own
    additions keep the temporary ids it gave them, since the page never
    receives its own element back and nothing else rewrites its list. */
module Sync {
  import opened Wrappers
  import opened Elements
  import opened BoardServer
  import opened BoardEditor

  /** A connected board page: the board it shows and its element list. */
  datatype Page = Page(boardId: string, elements: seq<LocalElement>)

  datatype Net = Net(
    rooms: map<string, set<SocketId>>,
    store: map<string, StoredElement>,
    pages: map<SocketId, Page>)

  datatype Event =
    /** The page on `socket` joins its board's room. */
    | Join(socket: SocketId)
    /** The page on `socket` adds a toolbar rectangle (or circle) at (x, y) under
        `tempId`; the store writes it under `newId` if `storeOk` and the id is unused. */
    | Add(socket: SocketId, rect: bool, x: real, y: real, tempId: string, newId: string, storeOk: bool)

  function ToolbarShape(rect: bool, x: real, y: real): Shape
  {
    if rect then RectShape(x, y) else CircleShape(x, y)
  }

  /** Relay an element to the pages in `audience`. */
  function Deliver(pages: map<SocketId, Page>, audience: set<SocketId>, e: StoredElement): (r: map<SocketId, Page>)
    ensures r.Keys == pages.Keys
    ensures forall t :: t in pages ==>
      r[t] == if t in audience then pages[t].(elements := ElementAdded(pages[t].elements, e)) else pages[t]
  {
    map t | t in pages :: if t in audience then pages[t].(elements := ElementAdded(pages[t].elements, e)) else pages[t]
  }

  function Step(net: Net, ev: Event): Net
  {
    match ev
    case Join(s) =>
      if s in net.pages then net.(rooms := JoinRoom(net.rooms, s, net.pages[s].boardId)) else net
    case Add(s, rect, x, y, tempId, newId, storeOk) =>
      if s !in net.pages then net
      else
        var page := net.pages[s];
        var shape := ToolbarShape(rect, x, y);
        var pages := net.pages[s := page.(elements := OptimisticAdd(page.elements, shape, tempId))];
        match StoreWrite(Submission(Some(page.boardId), shape), newId, storeOk && newId !in net.store)
        case None => net.(pages := pages)
        case Some(saved) =>
          Net(net.rooms, net.store[newId := saved], Deliver(pages, Audience(net.rooms, page.boardId, s), saved))
  }

  function Run(net: Net, events: seq<Event>): Net
    decreases |events|
  {
    if events == [] then net else Run(Step(net, events[0]), events[1..])
  }

  /** One addition: the sender's list grows by exactly its own element under its
      temporary id; when the write succeeds every other page in the board's room
      gets the stored element, carrying the store's id, and every page outside the
      room is untouched; when it fails no other page changes. */
  lemma AddReachesOthersOnly(net: Net, ev: Event)
    requires ev.Add? && ev.socket in net.pages
    ensures var after := Step(net, ev);
      var page := net.pages[ev.socket];
      && after.pages.Keys == net.pages.Keys
      && after.pages[ev.socket].elements == OptimisticAdd(page.elements, ToolbarShape(ev.rect, ev.x, ev.y), ev.tempId)
      && forall t :: t in net.pages && t != ev.socket ==>
        if ev.storeOk && ev.newId !in net.store && page.boardId in net.rooms && t in net.rooms[page.boardId]
        then after.pages[t].elements == ElementAdded(net.pages[t].elements, StoredElement(ev.newId, page.boardId, ToolbarShape(ev.rect, ev.x, ev.y)))
        else after.pages[t] == net.pages[t]
  {
  }

  /** No event removes a page or rewrites what a page's list already holds. */
  lemma StepExtendsLists(net: Net, ev: Event)
    ensures Step(net, ev).pages.Keys == net.pages.Keys
    ensures forall t :: t in net.pages ==>
      && Step(net, ev).pages[t].boardId == net.pages[t].boardId
      && |net.pages[t].elements| <= |Step(net, ev).pages[t].elements|
      && Step(net, ev).pages[t].elements[..|net.pages[t].elements|] == net.pages[t].elements
  {
  }

  lemma {:induction false} RunExtendsLists(net: Net, events: seq<Event>, t: SocketId)
    requires t in net.pages
    ensures t in Run(net, events).pages
    ensures |net.pages[t].elements| <= |Run(net, events).pages[t].elements|
    ensures Run(net, events).pages[t].elements[..|net.pages[t].elements|] == net.pages[t].elements
    decreases |events|
  {
    if events != [] {
      var next := Step(net, events[0]);
      StepExtendsLists(net, events[0]);
      RunExtendsLists(next, events[1..], t);
      var a := net.pages[t].elements;
      var b := next.pages[t].elements;
      var c := Run(net, events).pages[t].elements;
      assert c[..|b|] == b;
      assert c[..|a|] == c[..|b|][..|a|];
    }
  }

  /** The sender's own element keeps its temporary id for good: after the
      addition and any events that follow, the slot it was added in still holds
      it, with the temporary id and the shape as added. */
  lemma TempIdIsNeverReplaced(net: Net, ev: Event, later: seq<Event>)
    requires ev.Add? && ev.socket in net.pages
    ensures var k := |net.pages[ev.socket].elements|;
      var final := Run(Step(net, ev), later);
      && ev.socket in final.pages
      && k < |final.pages[ev.socket].elements|
      && final.pages[ev.socket].elements[k] == LocalElement(ev.tempId, None, ToolbarShape(ev.rect, ev.x, ev.y))
  {
    var s := ev.socket;
    var k := |net.pages[s].elements|;
    var next := Step(net, ev);
    AddReachesOthersOnly(net, ev);
    RunExtendsLists(next, later, s);
    var mid := next.pages[s].elements;
    var fin := Run(next, later).pages[s].elements;
    assert fin[..|mid|] == mid;
    assert fin[k] == fin[..|mid|][k];
  }
}
