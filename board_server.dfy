/** The board server: bearer-token authentication of the HTTP routes, the
    board routes, and the socket handlers that keep rooms of connections per
    board and store and relay new elements. The token verifier (`verify`),
    the store's fresh ids and whether a store write succeeds are parameters. */
module BoardServer {
  import opened Wrappers
  import opened JsString
  import opened Elements

  type SocketId = nat

  /** The payload of a valid token. */
  datatype Claims = Claims(userId: string, email: string)

  /** What `authenticateToken` does: answer 401, answer 403, or call `next`
      once with the token's claims set as the request's user. */
  datatype AuthOutcome = Unauthorized | Forbidden | Next(user: Claims)

  /** `authHeader && authHeader.split(' ')[1]`: no header gives no token; an
      empty header short-circuits to the empty string; otherwise the second
      space-separated piece, if there is one. */
  function BearerToken(header: Option<string>): (token: Option<string>)
    ensures header.None? ==> token.None?
    ensures header == Some("") ==> token == Some("")
    ensures token.Some? ==> ' ' !in token.value
  {
    match header
    case None => None
    case Some(h) =>
      if h == "" then Some("")
      else
        var parts := Split(h, ' ');
        if |parts| > 1 then Some(parts[1]) else None
  }

  /** The token is the word after the first space, up to the next space or the end. */
  lemma TokenAfterFirstSpace(scheme: string, token: string, rest: string)
    requires ' ' !in scheme && ' ' !in token
    requires rest == [] || rest[0] == ' '
    ensures BearerToken(Some(scheme + " " + token + rest)) == Some(token)
  {
    var h := scheme + " " + token + rest;
    var tail := [' '] + (token + rest);
    assert h == scheme + tail;
    SplitAfterWord(scheme, tail, ' ');
    assert tail[0] == ' ' && tail[1..] == token + rest;
    assert Split(tail, ' ') == [[]] + Split(token + rest, ' ');
    SplitAfterWord(token, rest, ' ');
    assert Split(rest, ' ')[0] == [] by {
      if rest != [] {
        assert Split(rest, ' ') == [[]] + Split(rest[1..], ' ');
      }
    }
    var parts := Split(h, ' ');
    assert parts == [scheme + []] + Split(token + rest, ' ');
    assert |parts| > 1 && parts[1] == token + [];
    assert token + [] == token;
    assert h != [];
    assert BearerToken(Some(h)) == Some(parts[1]);
  }

  /** A non-empty header without a space has no second word: no token. */
  lemma NoSpaceNoToken(h: string)
    requires h != [] && ' ' !in h
    ensures BearerToken(Some(h)) == None
  {
    SplitAfterWord(h, [], ' ');
    assert h + [] == h;
  }

  /** `authenticateToken`, with `jwt.verify` as `verify`. */
  function Authenticate(header: Option<string>, verify: string -> Option<Claims>): (r: AuthOutcome)
    ensures r == Unauthorized <==> BearerToken(header).None?
    ensures r == Forbidden <==> BearerToken(header).Some? && verify(BearerToken(header).value).None?
    ensures r.Next? ==> r.user == verify(BearerToken(header).value).value
  {
    match BearerToken(header)
    case None => Unauthorized
    case Some(token) =>
      match verify(token)
      case None => Forbidden
      case Some(user) => Next(user)
  }

  /** A request without an Authorization header is answered 401 and never reaches the route. */
  lemma MissingHeaderIs401(verify: string -> Option<Claims>)
    ensures Authenticate(None, verify) == Unauthorized
  {
  }

  /** An empty Authorization header is not refused with 401: the empty string
      is handed to the verifier, whose answer decides between 403 and `next`. */
  lemma EmptyHeaderReachesVerify(verify: string -> Option<Claims>)
    ensures Authenticate(Some(""), verify) != Unauthorized
    ensures Authenticate(Some(""), verify) == Forbidden <==> verify("").None?
  {
  }

  datatype Board = Board(id: string, name: string, ownerId: string)

  datatype BoardWithElements = BoardWithElements(board: Board, elements: set<StoredElement>)

  /** An HTTP answer: a bare status code, a JSON body, or none from the route
      itself because its store call threw and the handler's promise rejected. */
  datatype Response<T> = Status(code: int) | Json(body: T) | Rejected

  /** The answer a route gives when authentication stops the request. */
  function Refusal<T>(auth: AuthOutcome): Response<T>
    requires !auth.Next?
  {
    if auth == Unauthorized then Status(401) else Status(403)
  }

  /** Room membership after `socket` joins the room of `boardId`: the room is
      created if needed, and no room loses a member. */
  function JoinRoom(rooms: map<string, set<SocketId>>, socket: SocketId, boardId: string): (r: map<string, set<SocketId>>)
    ensures r.Keys == rooms.Keys + {boardId}
    ensures socket in r[boardId]
    ensures forall b :: b in rooms ==> rooms[b] <= r[b]
    ensures forall b :: b in r && b != boardId ==> r[b] == rooms[b]
    ensures forall t :: t in r[boardId] ==> t == socket || (boardId in rooms && t in rooms[boardId])
  {
    rooms[boardId := (if boardId in rooms then rooms[boardId] else {}) + {socket}]
  }

  /** `socket.to(boardId)`: every member of the room except the sender. */
  function Audience(rooms: map<string, set<SocketId>>, boardId: string, sender: SocketId): (r: set<SocketId>)
    ensures sender !in r
    ensures forall t :: t in r <==> boardId in rooms && t in rooms[boardId] && t != sender
  {
    if boardId in rooms then rooms[boardId] - {sender} else {}
  }

  /** The row `add-element` writes: the envelope's board id, the store's id,
      and the element's seven shape fields. */
  function ToRecord(boardId: string, element: Payload, id: string): (r: StoredElement)
    ensures r.id == id && r.boardId == boardId && r.shape == element.shape
  {
    StoredElement(id, boardId, element.shape)
  }

  /** Whatever id a client sends, the row is the same. */
  lemma RecordIgnoresClientId(boardId: string, p: Payload, q: Payload, id: string)
    requires p.shape == q.shape
    ensures ToRecord(boardId, p, id) == ToRecord(boardId, q, id)
  {
  }

  /** The row a store write produces, if it succeeds. A message without a
      board id cannot be stored. */
  function StoreWrite(data: Envelope, newId: string, storeOk: bool): (r: Option<StoredElement>)
    ensures r.Some? <==> storeOk && data.boardId.Some?
    ensures r.Some? ==> r.value == ToRecord(data.boardId.value, data.element, newId)
  {
    if storeOk && data.boardId.Some? then Some(ToRecord(data.boardId.value, data.element, newId)) else None
  }

  /** An `element-added` event and the connections it goes to. */
  datatype Broadcast = Broadcast(audience: set<SocketId>, element: StoredElement)

  predicate KeyedById(elements: map<string, StoredElement>, boards: map<string, Board>)
  {
    && (forall id :: id in elements ==> elements[id].id == id)
    && (forall id :: id in boards ==> boards[id].id == id)
  }

  /** The server process: socket rooms by board id, and the element and board stores. */
  class Server {
    var rooms: map<string, set<SocketId>>
    var elements: map<string, StoredElement>
    var boards: map<string, Board>

    ghost predicate Valid()
      reads this
    {
      KeyedById(elements, boards)
    }

    constructor (boards: map<string, Board>, elements: map<string, StoredElement>)
      requires KeyedById(elements, boards)
      ensures Valid()
      ensures this.rooms == map[] && this.elements == elements && this.boards == boards
    {
      this.rooms := map[];
      this.elements := elements;
      this.boards := boards;
    }

    /** `join-board`: the socket joins the board's room and leaves no other. */
    method JoinBoard(socket: SocketId, boardId: string)
      requires Valid()
      modifies this
      ensures Valid()
      ensures rooms == JoinRoom(old(rooms), socket, boardId)
      ensures elements == old(elements) && boards == old(boards)
    {
      var members := if boardId in rooms then rooms[boardId] else {};
      rooms := rooms[boardId := members + {socket}];
    }

    /** `add-element`: store the row; if that succeeds, relay the stored row to
        the rest of the room; if it fails, store and relay nothing. */
    method AddElement(socket: SocketId, data: Envelope, newId: string, storeOk: bool) returns (broadcast: Option<Broadcast>)
      requires Valid()
      requires newId !in elements
      modifies this
      ensures Valid()
      ensures rooms == old(rooms) && boards == old(boards)
      ensures StoreWrite(data, newId, storeOk).None? ==> elements == old(elements) && broadcast == None
      ensures StoreWrite(data, newId, storeOk).Some? ==>
        var saved := StoreWrite(data, newId, storeOk).value;
        && elements == old(elements)[newId := saved]
        && broadcast == Some(Broadcast(Audience(rooms, data.boardId.value, socket), saved))
    {
      if !storeOk || data.boardId.None? {
        return None;
      }
      var boardId := data.boardId.value;
      var savedElement := StoredElement(newId, boardId, data.element.shape);
      elements := elements[newId := savedElement];
      var audience := if boardId in rooms then rooms[boardId] - {socket} else {};
      broadcast := Some(Broadcast(audience, savedElement));
    }

    /** GET /api/boards: exactly the caller's own boards. */
    method ListBoards(header: Option<string>, verify: string -> Option<Claims>) returns (res: Response<set<Board>>)
      ensures res == Status(401) <==> BearerToken(header).None?
      ensures res == Status(403) <==> BearerToken(header).Some? && verify(BearerToken(header).value).None?
      ensures Authenticate(header, verify).Next? ==>
        && res.Json?
        && forall b :: b in res.body <==> b in boards.Values && b.ownerId == Authenticate(header, verify).user.userId
    {
      var auth := Authenticate(header, verify);
      if !auth.Next? {
        return Refusal(auth);
      }
      res := Json(set b | b in boards.Values && b.ownerId == auth.user.userId);
    }

    /** POST /api/boards: one new board, owned by the caller. If the store's
        insert throws (`storeOk` false), nothing is stored and no board is returned. */
    method CreateBoard(header: Option<string>, verify: string -> Option<Claims>, name: string, newId: string, storeOk: bool)
      returns (res: Response<Board>)
      requires Valid()
      requires newId !in boards
      modifies this
      ensures Valid()
      ensures rooms == old(rooms) && elements == old(elements)
      ensures res == Status(401) <==> BearerToken(header).None?
      ensures res == Status(403) <==> BearerToken(header).Some? && verify(BearerToken(header).value).None?
      ensures !Authenticate(header, verify).Next? || !storeOk ==> boards == old(boards)
      ensures Authenticate(header, verify).Next? && !storeOk ==> res == Rejected
      ensures Authenticate(header, verify).Next? && storeOk ==>
        var board := Board(newId, name, Authenticate(header, verify).user.userId);
        res == Json(board) && boards == old(boards)[newId := board]
    {
      var auth := Authenticate(header, verify);
      if !auth.Next? {
        return Refusal(auth);
      }
      if !storeOk {
        return Rejected;
      }
      var board := Board(newId, name, auth.user.userId);
      boards := boards[newId := board];
      res := Json(board);
    }

    /** GET /api/boards/:id: 404 for an unknown id, otherwise the board with
        its elements. No ownership check is made. */
    method GetBoard(header: Option<string>, verify: string -> Option<Claims>, id: string)
      returns (res: Response<BoardWithElements>)
      requires Valid()
      ensures res == Status(401) <==> BearerToken(header).None?
      ensures res == Status(403) <==> BearerToken(header).Some? && verify(BearerToken(header).value).None?
      ensures Authenticate(header, verify).Next? && id !in boards ==> res == Status(404)
      ensures Authenticate(header, verify).Next? && id in boards ==>
        && res.Json?
        && res.body.board == boards[id]
        && res.body.board.id == id
        && forall e :: e in res.body.elements <==> e in elements.Values && e.boardId == id
    {
      var auth := Authenticate(header, verify);
      if !auth.Next? {
        return Refusal(auth);
      }
      if id !in boards {
        return Status(404);
      }
      res := Json(BoardWithElements(boards[id], set e | e in elements.Values && e.boardId == id));
    }
  }
}
