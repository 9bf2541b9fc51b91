# myBoard core, modelled in Dafny

myBoard is a collaborative whiteboard: users sign in, keep boards, and draw
rectangles and circles on a board that other open pages of the same board see
appear. This project models the logic inside the application's glue code and
proves what it does:

- **Board relay** (`board_server.dfy`, `board_editor.dfy`, `sync.dfy`): the
  server's bearer-token check, its board routes, its socket rooms keyed by board
  id, the element row it stores for an `add-element` message and the audience
  it relays the stored row to (the rest of the room, never the sender); the
  board page's element list (initial load, relayed additions, optimistic
  additions under a temporary id), what the page sends, and how each element is
  drawn. `Sync` composes the two: every stored element reaches the other room
  members, and the sender's own element keeps its temporary id, because the
  sender never gets its element back and no join, relay or toolbar addition
  rewrites a list (the initial load can; see "Left out").
- **Viewport** (`canvas_stage.dfy`): zoom at the pointer by a factor of 1.1,
  rejecting a proposed scale outside [0.1, 5], with the world point under the
  pointer kept fixed; drag-end panning; placement of the paper sheet.
- **Paper sizes** (`constants.dfy`): the A4 to A0 table and the default format.
- **Input schemas** (`validations.dfy`) and **project actions**
  (`project_actions.dfy`): create validates and inserts one project; update
  changes one project's description and nothing else.
- **Routing** (`middleware.dfy`, `sidebar.dfy`): the sign-in redirect for
  dashboard paths and the active-link rule of the sidebar.
- **Board list page** (`dashboard.dfy`): the create-board form (blank-name
  guard, append on success, busy flag cleared either way).

`js_string.dfy` writes out the JavaScript string operations the code relies on
(`startsWith`, `split(' ')`, `trim`) and proves their properties.

The model follows the code: there are no sequence numbers, acknowledgements, duplicate detection, element updates or
deletions, room leaving, or clamping of the zoom scale (an out-of-range zoom
is ignored, not clamped), because the code has none of them.

Numbers are `real` (no floating-point rounding). Strings are `seq<char>` and
lengths are counted in characters, where JavaScript counts UTF-16 code units.
Collaborators become parameters: the token verifier (`verify`), the session
lookup (`signedIn`, `isLoggedIn`), `Math.random()` results (a number in [0, 1))
and temporary ids, ids the stores assign (required unused), and whether a store
insert succeeds (`storeOk` of `Server.AddElement`, `Server.CreateBoard` and
`ProjectDb.CreateProject`), or a response that is `None` for a failed request.

## Model

| member | source | states |
|---|---|---|
| `JsString.TrimStart` | client/src/pages/Dashboard.tsx:32 | the result is a suffix of the input not starting with whitespace, and what was cut off is all whitespace |
| `JsString.TrimEnd` | client/src/pages/Dashboard.tsx:32 | the result is a prefix of the input not ending with whitespace, and what was cut off is all whitespace |
| `JsString.TrimEmptyIffBlank` | client/src/pages/Dashboard.tsx:32 | `trim()` yields the empty string exactly when every character is whitespace |
| `JsString.Split` | server/src/index.ts:25 | `split(' ')` yields at least one piece and no piece contains the separator |
| `JsString.JoinSplit` | server/src/index.ts:25 | joining the pieces of a split with the separator restores the string |
| `JsString.SplitAfterWord` | server/src/index.ts:25 | a separator-free word at the front of a string becomes the front of the first piece |
| `BoardServer.BearerToken` | server/src/index.ts:24-25 | no header gives no token; the empty header gives the empty token; any token found contains no space |
| `BoardServer.TokenAfterFirstSpace` | server/src/index.ts:25 | the token is the word after the first space, up to the next space or the end |
| `BoardServer.NoSpaceNoToken` | server/src/index.ts:25-27 | a non-empty header without a space yields no token |
| `BoardServer.Authenticate` | server/src/index.ts:23-34 | 401 exactly when there is no token; 403 exactly when a token fails verification; otherwise `next` with the verified claims as the user |
| `BoardServer.MissingHeaderIs401` | server/src/index.ts:24-27 | a request without an Authorization header gets 401 and never reaches the route |
| `BoardServer.EmptyHeaderReachesVerify` | server/src/index.ts:24-30 | an empty Authorization header is not answered 401: the empty token goes to the verifier, and the answer is 403 exactly when it rejects it |
| `BoardServer.JoinRoom` | server/src/index.ts:103-106 | the socket is in the board's room afterwards, the room exists, and no room loses a member or changes apart from that one |
| `BoardServer.Audience` | server/src/index.ts:128 | the relay goes to exactly the room's members other than the sender |
| `BoardServer.ToRecord` | server/src/index.ts:114-125 | the stored row has the store's id, the envelope's board id and the element's seven shape fields |
| `BoardServer.RecordIgnoresClientId` | server/src/index.ts:115-124 | whatever id the client sends, the stored row is the same |
| `BoardServer.StoreWrite` | server/src/index.ts:113-125 | a row is written exactly when the write succeeds and the message names a board, and it is the record built from the message |
| `BoardServer.Server.constructor` | server/src/index.ts:9-15 | a fresh server has no rooms and the given stores |
| `BoardServer.Server.JoinBoard` | server/src/index.ts:103-106 | rooms become `JoinRoom` of the old rooms; the stores do not change |
| `BoardServer.Server.AddElement` | server/src/index.ts:108-132 | on a successful write exactly one row is added and relayed to the room minus the sender; on a failed one nothing is stored or relayed |
| `BoardServer.Server.ListBoards` | server/src/index.ts:69-76 | 401 exactly when there is no token, 403 exactly when the token fails verification; otherwise exactly the boards owned by the caller |
| `BoardServer.Server.CreateBoard` | server/src/index.ts:78-87 | 401 and 403 as for ListBoards, storing nothing; after authentication, exactly one new board with the given name, owned by the caller, is stored and returned, unless the insert throws, in which case nothing is stored and no board is returned |
| `BoardServer.Server.GetBoard` | server/src/index.ts:89-96 | 401 and 403 as for ListBoards; after authentication, 404 for an unknown id, otherwise the board stored under that id and exactly the elements of that board |
| `BoardEditor.OptimisticAdd` | client/src/pages/BoardEditor.tsx:114-116 | the list grows by one element at the end, under the temporary id and without a board id; earlier elements are untouched |
| `BoardEditor.ElementAdded` | client/src/pages/BoardEditor.tsx:42-44 | the received element is appended at the end with its stored id and board id; earlier elements are untouched |
| `BoardEditor.Loaded` | client/src/pages/BoardEditor.tsx:28-31 | a load installs exactly the fetched elements, in order |
| `BoardEditor.Submission` | client/src/pages/BoardEditor.tsx:114-118 | the emitted element carries no id, only the shape, with the page's board id beside it |
| `BoardEditor.Editor.constructor` | client/src/pages/BoardEditor.tsx:21-24 | a new page has an empty list and no socket |
| `BoardEditor.Editor.Connect` | client/src/pages/BoardEditor.tsx:39-40 | after connecting, the page sends `join-board` with its board id; the list is unchanged |
| `BoardEditor.Editor.FetchBoard` | client/src/pages/BoardEditor.tsx:28-35 | a successful load replaces the whole list; a failed one leaves it unchanged |
| `BoardEditor.Editor.OnElementAdded` | client/src/pages/BoardEditor.tsx:42-44 | an `element-added` event appends the received element |
| `BoardEditor.Editor.HandleAddRect` | client/src/pages/BoardEditor.tsx:95-119 | the list grows by one 100 by 100 `RECT` filled `#ef4444` under the temporary id; the same shape is sent without an id when a socket exists |
| `BoardEditor.Editor.HandleAddCircle` | client/src/pages/BoardEditor.tsx:121-136 | the list grows by one 100 by 100 `CIRCLE` filled `#3b82f6` under the temporary id; the same shape is sent without an id when a socket exists |
| `BoardEditor.Editor.AddShape` | client/src/pages/BoardEditor.tsx:51-69 | nothing is sent without a board id; otherwise the built element is sent; the list is never changed |
| `BoardEditor.ShapeFor` | client/src/pages/BoardEditor.tsx:54-61 | the element is 100 by 100, of the requested type, red for `RECT` and blue for anything else |
| `BoardEditor.Draw` | client/src/pages/BoardEditor.tsx:163-190 | `RECT` draws a rectangle with the element's box, `CIRCLE` a circle at the element's position, any other type nothing |
| `BoardEditor.CircleRadius` | client/src/pages/BoardEditor.tsx:183 | the radius is half the width, or 50 when the width is missing or zero |
| `BoardEditor.Render` | client/src/pages/BoardEditor.tsx:163-191 | one slot per element, in list order, each drawn by `Draw` |
| `BoardEditor.ToolbarShapesAreDrawn` | client/src/pages/BoardEditor.tsx:95-190 | the toolbar's rectangle is drawn 100 by 100 at its spot and its circle with radius 50 |
| `Sync.Deliver` | server/src/index.ts:128 | every page in the audience gets the element appended; every other page is untouched; no page appears or disappears |
| `Sync.AddReachesOthersOnly` | server/src/index.ts:108-131 | after an addition the sender's list grows by its own temporary element only; on a successful write every other page in the room gets the stored element, pages outside the room nothing; on a failed write no other page changes |
| `Sync.StepExtendsLists` | client/src/pages/BoardEditor.tsx:42-133 | no join or addition removes a page or rewrites what a page's list already holds |
| `Sync.RunExtendsLists` | client/src/pages/BoardEditor.tsx:42-133 | over any series of joins and additions, each page's list only grows at the end |
| `Sync.TempIdIsNeverReplaced` | client/src/pages/BoardEditor.tsx:84-118 | after an addition and any later events, the sender's slot still holds its element with the temporary id |
| `CanvasStage.ProposedScale` | components/Board/CanvasStage.tsx:25-26 | a negative `deltaY` proposes a larger scale and any other `deltaY`, zero included, a smaller one |
| `CanvasStage.Wheel` | components/Board/CanvasStage.tsx:22-39 | a proposed scale outside [0.1, 5] leaves scale and position unchanged; otherwise the scale is the proposed one and the world point under the pointer stays fixed on both axes |
| `CanvasStage.ZoomInExample` | components/Board/CanvasStage.tsx:31-39 | zooming in at (100, 100) from scale 1 at the origin gives scale 1.1 and position (-10, -10) |
| `CanvasStage.ScaleStaysInRange` | components/Board/CanvasStage.tsx:11-42 | from a scale in [0.1, 5] (the initial 1 is), no series of wheel and drag events leaves that range |
| `CanvasStage.Stage.constructor` | components/Board/CanvasStage.tsx:11-12 | the viewport starts at scale 1 and position (0, 0) |
| `CanvasStage.Stage.HandleWheel` | components/Board/CanvasStage.tsx:19-43 | the new viewport is `Wheel` of the old one, and the scale stays in [0.1, 5] |
| `CanvasStage.Stage.HandleDragEnd` | components/Board/CanvasStage.tsx:56-58 | the position becomes the dropped stage position; the scale is unchanged |
| `CanvasStage.PaperSheet` | components/Board/CanvasStage.tsx:63-68 | the sheet has the default format's size, is centred horizontally in the window and sits 100 pixels from the top |
| `Constants.PaperSizes` | lib/constants.ts:5-11 | every format is portrait and labelled with its own key |
| `Constants.SizesChain` | lib/constants.ts:6-10 | each format's width is the next smaller format's height |
| `Constants.SizesIncrease` | lib/constants.ts:6-10 | width and height grow strictly from A4 to A0 |
| `Constants.DefaultIsA3` | lib/constants.ts:7-15 | the default format is A3, 1123 by 1587 |
| `Constants.SmallSizesAreRoundedIso` | lib/constants.ts:1-8 | A4, A3 and A2 are the ISO 216 millimetre sizes at 96 pixels per inch, rounded; A4 is 794 by 1123 as the derivation beside the table says |
| `Constants.LargeSizesAreNotRoundedIso` | lib/constants.ts:9-10 | A1's height and A0's width and height are not the rounded ISO 216 sizes |
| `Validations.ParseCreateProject` | lib/validations.ts:5-9 | accepted exactly when the name has 3 to 50 characters, the team id is a string and the description is absent or a string; the result carries those values |
| `Validations.ParseUpdateProject` | lib/validations.ts:13-16 | accepted exactly when the project id is a string and the description is absent or a string of at most 500 characters; the result has no name |
| `Validations.UpdateIgnoresName` | lib/validations.ts:12-16 | adding, changing or removing a `name` key does not change the update's parse |
| `Validations.ParseCreateBoard` | lib/validations.ts:19-23 | accepted exactly when the title has at least one character, the project id is a string and the format is one of the enum's values |
| `Validations.ProjectNameBounds` | lib/validations.ts:6 | a project name is accepted exactly when its length is between 3 and 50 |
| `Validations.TeamIdAndDescriptionEdges` | lib/validations.ts:7-8 | an empty team id is accepted and a `null` description is rejected |
| `Validations.BoardTitleUnbounded` | lib/validations.ts:20 | any non-empty title is accepted, however long |
| `ProjectActions.FormGet` | actions/project.ts:13-17 | a missing form field reads as `null`, and only a missing one does |
| `ProjectActions.CreateOutcome` | actions/project.ts:8-34 | without a session the action throws; with one it answers "Champs invalides" exactly when the schema rejects the form; a valid form returns normally when the store accepts the insert and throws when it refuses it |
| `ProjectActions.FormWithoutDescriptionIsInvalid` | actions/project.ts:13-23 | a form lacking `description` is rejected as invalid |
| `ProjectActions.WithDescription` | actions/project.ts:45-50 | only the target project's description changes, to the given string; its id, name and team and every other project stay |
| `ProjectActions.ProjectDb.CreateProject` | actions/project.ts:8-37 | the result is CreateOutcome; on a valid request that the store accepts exactly one project with the validated name, description and team id is inserted; otherwise the store is unchanged |
| `ProjectActions.ProjectDb.UpdateProject` | actions/project.ts:39-53 | without a session, or for an unknown id, it throws and the store is unchanged; otherwise only that project's description changes, and the project updated is the one with that id |
| `ProjectActions.UpdatesKeepNames` | actions/project.ts:43-50 | after any series of updates the same projects exist with the same names and teams |
| `ProjectActions.UpdateSkipsLengthCheck` | actions/project.ts:39-50 | a description over 500 characters, which the update schema rejects, is stored as given |
| `Middleware.Redirect` | middleware.ts:6-13 | a request is redirected, to `/api/auth/signin`, exactly when there is no session and the path starts with `/dashboard` |
| `Middleware.OnlyAnonymousDashboardRedirects` | middleware.ts:7-12 | a signed-in request, or one for a path outside `/dashboard`, is never redirected |
| `Middleware.PrefixHasNoSegmentBoundary` | middleware.ts:8 | `/dashboards` counts as a dashboard path |
| `Sidebar.ActiveFlags` | components/Dashboard/Sidebar.tsx:30-39 | one flag per item, set exactly when the path equals the item's link or lies below it |
| `Sidebar.ItemsAreFixed` | components/Dashboard/Sidebar.tsx:9-14 | exactly four items, in order: `/dashboard`, `/dashboard/teams`, `/dashboard/projects`, `/dashboard/settings` |
| `Sidebar.SiblingPathNotActive` | components/Dashboard/Sidebar.tsx:36 | a path that extends a link with anything but `/` does not activate that link |
| `Sidebar.TeamsXNotActive` | components/Dashboard/Sidebar.tsx:36 | `/dashboard/teamsX` does not activate the Teams item |
| `Sidebar.OverviewActiveBelowDashboard` | components/Dashboard/Sidebar.tsx:10-36 | Overview is active on every path below `/dashboard/` |
| `Sidebar.TeamsPageHighlightsTwo` | components/Dashboard/Sidebar.tsx:10-36 | on `/dashboard/teams` both Overview and Teams are active, the others not |
| `Sidebar.NoPathNoActiveItem` | components/Dashboard/Sidebar.tsx:17-36 | without a current path no item is active |
| `Dashboard.CreateRequest` | client/src/pages/Dashboard.tsx:32-35 | no request for a blank name; otherwise the name is posted as typed, untrimmed |
| `Dashboard.DashboardPage.constructor` | client/src/pages/Dashboard.tsx:13-15 | the page starts with no boards, an empty name and not busy |
| `Dashboard.DashboardPage.FetchBoards` | client/src/pages/Dashboard.tsx:18-28 | a successful load replaces the list; a failed one leaves it (empty on a fresh page) |
| `Dashboard.DashboardPage.SetNewBoardName` | client/src/pages/Dashboard.tsx:93 | typing sets the name field and nothing else |
| `Dashboard.DashboardPage.SubmitCreate` | client/src/pages/Dashboard.tsx:30-35 | a blank name changes nothing and sends nothing; otherwise the page becomes busy and posts the name; list and field are unchanged |
| `Dashboard.DashboardPage.CompleteCreate` | client/src/pages/Dashboard.tsx:35-42 | on success the board is appended and the field cleared; on failure both stay; the busy flag is cleared either way |

## Left out

- Transport and storage: sockets, HTTP and the database are replaced by maps,
  returned audiences and returned responses. The failure of an insert is the
  parameter `storeOk` of `Server.AddElement`, `Server.CreateBoard` and
  `ProjectDb.CreateProject`; a failed `POST /api/boards` is the response
  `Rejected` (what the client then sees is up to the web framework's error
  handling, which is not modelled). The store's reads (`findMany`,
  `findUnique`) and the description update are taken to succeed apart from the
  unknown-id case. The ids the stores assign are parameters required to
  be unused. The database schema is not part of this model, so an `add-element`
  message without a board id is treated as a failed write (the row needs its
  board), and the values of the `BoardFormat` enum are the parameter `formats`.
- The token verifier and signer and password hashing are not modelled; `verify`
  is a parameter. The register and login routes are not modelled (library calls
  only). The session lookup of the actions and the middleware is a boolean.
- `revalidatePath` (cache invalidation), the middleware's `matcher` pattern
  (applied by the framework), all logging, and all markup and styling, including
  the React `key` of each drawn node, are left out.
- Socket disconnection: the `disconnect` handler only logs; the transport's own
  removal of a closed socket from its rooms, and a page's disconnect on unmount,
  are not modelled.
- Asynchronous interleavings are not modelled: each handler runs to completion.
- `Sync.TempIdIsNeverReplaced`: holds over joins and additions; a page's initial
  load (`BoardEditor.Editor.FetchBoard`) that completes after a local addition
  replaces the whole list, including the temporary element, and is not one of
  the composed events.
- `Dashboard.DashboardPage.CompleteCreate`: appends to the list as it is when the
  request completes; the source appends to the list as it was when the form was
  submitted, which differs only if the initial load completes in between.
- `BoardEditor.Editor.HandleAddRect`: temporary ids are random strings taken as
  given; their uniqueness is not assumed or proved.
- Floating-point rounding in the zoom arithmetic, and the stage's own reported
  scale and position, which are taken to equal the stored state.
