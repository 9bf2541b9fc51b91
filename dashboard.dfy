/** The board list page: the initial load of the caller's boards and the
    create-board form (name field, busy flag, list of boards). The request's
    outcome is a parameter; the two halves of `createBoard` around its
    `await` are two methods. */
module Dashboard {
  import opened Wrappers
  import opened JsString

  /** A board as the page lists it. */
  datatype BoardItem = BoardItem(id: string, name: string)

  /** The body the form posts, if it posts at all: the name as typed,
      untrimmed; nothing when the name is blank. */
  function CreateRequest(name: string): (r: Option<string>)
    ensures r.None? <==> Blank(name)
    ensures r.Some? ==> r.value == name
  {
    TrimEmptyIffBlank(name);
    if Trim(name) == [] then None else Some(name)
  }

  class DashboardPage {
    var boards: seq<BoardItem>
    var newBoardName: string
    var isCreating: bool

    constructor ()
      ensures boards == [] && newBoardName == "" && !isCreating
    {
      boards := [];
      newBoardName := "";
      isCreating := false;
    }

    /** `fetchBoards`: success replaces the list, failure leaves it as it was
        (empty, on a fresh page). */
    method FetchBoards(response: Option<seq<BoardItem>>)
      modifies this
      ensures response.Some? ==> boards == response.value
      ensures response.None? ==> boards == old(boards)
      ensures newBoardName == old(newBoardName) && isCreating == old(isCreating)
    {
      if response.Some? {
        boards := response.value;
      }
    }

    /** Typing in the name field. */
    method SetNewBoardName(text: string)
      modifies this
      ensures newBoardName == text && boards == old(boards) && isCreating == old(isCreating)
    {
      newBoardName := text;
    }

    /** `createBoard` up to its request: a blank name stops here and changes
        nothing; otherwise the page is marked busy and the untrimmed name is posted. */
    method SubmitCreate() returns (request: Option<string>)
      modifies this
      ensures request == CreateRequest(old(newBoardName))
      ensures boards == old(boards) && newBoardName == old(newBoardName)
      ensures isCreating == if request.Some? then true else old(isCreating)
    {
      if Trim(newBoardName) == [] {
        TrimEmptyIffBlank(newBoardName);
        return None;
      }
      TrimEmptyIffBlank(newBoardName);
      isCreating := true;
      request := Some(newBoardName);
    }

    /** `createBoard` after its request: on success the new board goes to the
        end of the list and the field is cleared; on failure both stay; either
        way the busy flag is cleared. */
    method CompleteCreate(response: Option<BoardItem>)
      modifies this
      ensures !isCreating
      ensures response.Some? ==> boards == old(boards) + [response.value] && newBoardName == ""
      ensures response.None? ==> boards == old(boards) && newBoardName == old(newBoardName)
    {
      if response.Some? {
        boards := boards + [response.value];
        newBoardName := "";
      }
      isCreating := false;
    }
  }
}
