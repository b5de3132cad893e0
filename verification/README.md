# Whiteboard synchronisation core, modelled in Dafny

This project models the core of a collaborative whiteboard server and its browser client:

- the gateway's live-session registry (`activeBoards`, board id to the connections watching it), with its join, leave and disconnect handlers and the relay of element events to the other members of a board;
- the access guard that decides whether a user may act on a board;
- the browser's session state machine (`currentBoardId`) and its stroke-capture canvas;
- the pure data shaping in the board service: the `getBoard` not-found rule, the partial-update patch, and which elements an image or PDF export draws;
- the catch-all HTTP exception filter;
- the mappers from store rows to service records.

Each handler is a pure function from state and input to the new state plus whatever it sends, returns or throws. Thrown exceptions are values of the `Thrown` datatype, and JavaScript truthiness is written out: a string is truthy when non-empty, a number when non-zero, and an object always. Numbers are unbounded integers.

Files, one module each:

- `wrappers.dfy`: `Option` and `Result`.
- `elements.dfy`: element kinds and their string tags, positions, styles, contents, users and the service's `Board`.
- `prisma_types.dfy`: store rows and the two mappers.
- `http_exception_filter.dfy`: the exception filter and the framework's `NotFoundException` and `ForbiddenException`.
- `board_service.dfy`: `getBoard`, the update patch, and the image and PDF exports.
- `board_access_guard.dfy`: `canActivate`.
- `websocket_types.dfy`: the real-time messages.
- `whiteboard_gateway.dfy`: the registry and the five handlers.
- `whiteboard_socket_service.dfy`: the browser session.
- `drawing_canvas.dfy`: stroke capture and the rendering of remote strokes.
- `end_to_end.dfy`: the client and the gateway composed.

Two transport facts are stated as assumptions in the gateway module rather than proved:

- the transport's room for a board has exactly the members that the registry records, because the handlers update both together;
- a broadcast from a connection to a room reaches every member except that connection.

Behaviours of the code worth knowing, all of which the model keeps:

- The gateway does no authorisation on join and no membership check on draw, update or delete. A mutation from a connection outside the room is not rejected: it is relayed to that board's room all the same (`WhiteboardGateway.MutationsRelayedWithoutMembership`).
- The guard lets through any request whose board id is falsy, not only board creation.
- Each handler also returns a value to its sender (`elementDrawn` with the element, and so on). The model keeps that return value separate from the relay, which excludes the sender.
- **Empty board id on the client.** The client treats an empty `currentBoardId` as "no board". A join of board `""` is acknowledged, yet mutations then throw and leave sends nothing (`WhiteboardSocketService.EmptyBoardIdIsNoBoard`).
- **Throwing `stopDrawing`.** `stopDrawing` sends through the session. If the session has no board, the send throws after `isDrawing` is cleared but before the path is emptied, so the path is kept until the next stroke starts (`DrawingCanvas.StopDrawing`).
- **PDF font size.** The PDF export sets the font size for every element, including kinds it does not draw. Only TEXT and STICKY_NOTE elements put ink on the page.

## Model

| member | source | states |
|---|---|---|
| `WhiteboardGateway.Join` | src/websocket/whiteboard.gateway.ts:57-63 | after a join the connection is in the board's room, the room is created when absent, every other board is unchanged, and no room is left empty |
| `WhiteboardGateway.Leave` | src/websocket/whiteboard.gateway.ts:73-80 | the connection is no longer in the room; an unknown board leaves the registry unchanged; the board is dropped exactly when its room becomes empty; other boards are unchanged |
| `WhiteboardGateway.Purge` | src/websocket/whiteboard.gateway.ts:41-48 | reference result of a disconnect: the connection is in no room; boards without it are untouched; a board with it is dropped exactly when it was the only member |
| `WhiteboardGateway.HandleDisconnect` | src/websocket/whiteboard.gateway.ts:39-49 | the board-by-board visit of `forEach`, removing the connection and dropping rooms it empties, yields exactly the reference result |
| `WhiteboardGateway.JoinIdempotent` | src/websocket/whiteboard.gateway.ts:60-63 | joining the same board twice gives the same registry as joining once |
| `WhiteboardGateway.LeaveUndoesJoin` | src/websocket/whiteboard.gateway.ts:57-80 | when the connection was not in the room and no room was empty, leaving after joining restores the registry exactly |
| `WhiteboardGateway.PurgeIdempotent` | src/websocket/whiteboard.gateway.ts:41-48 | a second disconnect of the same connection changes nothing |
| `WhiteboardGateway.PurgePreservesNoEmptyRooms` | src/websocket/whiteboard.gateway.ts:44-46 | disconnect never leaves an empty room behind |
| `WhiteboardGateway.PurgeIsLeaveOfItsBoard` | src/websocket/whiteboard.gateway.ts:41-48 | for a connection in one board only, disconnect equals leaving that board |
| `WhiteboardGateway.PurgeForgetsJoin` | src/websocket/whiteboard.gateway.ts:41-63 | disconnecting after a join gives the same registry as disconnecting without it |
| `WhiteboardGateway.Relay` | src/websocket/whiteboard.gateway.ts:91 | a broadcast reaches exactly the room's members other than the sender, carrying the given event |
| `WhiteboardGateway.Handle` | src/websocket/whiteboard.gateway.ts:51-113 | join and leave update the registry, echo the requested board id whatever the prior membership, and relay nothing; draw relays the element verbatim, update relays only `{elementId, updates}`, delete only `{elementId}`; mutations leave the registry unchanged |
| `WhiteboardGateway.HandlePreservesNoEmptyRooms` | src/websocket/whiteboard.gateway.ts:57-80 | no handler leaves an empty room |
| `WhiteboardGateway.MutationsRelayedWithoutMembership` | src/websocket/whiteboard.gateway.ts:85-113 | a sender outside the room still has its event relayed to the whole room |
| `WhiteboardGateway.JoinThenLeaveRoundTrip` | src/websocket/whiteboard.gateway.ts:51-83 | a join then a leave from a new member restores the registry, with acks `joinedBoard` and `leftBoard` naming the board |
| `WhiteboardGateway.TwoUserSession` | src/websocket/whiteboard.gateway.ts:39-92 | two connections join B1; C1's draw is relayed only to C2, while C1 gets the handler's own `elementDrawn` response; after C2 disconnects B1 holds C1 alone; after C1 leaves B1 is gone |
| `BoardAccessGuard.SomeCollaboratorIsMembership` | src/boards/guards/board-access.guard.ts:27 | the `some` scan succeeds exactly when some collaborator, at any position, has the user's id |
| `BoardAccessGuard.CanActivate` | src/boards/guards/board-access.guard.ts:13-33 | a falsy board id is allowed without lookup; a missing board is NotFound("Board not found"); the owner is allowed; anyone else is allowed or Forbidden, never anything else |
| `BoardAccessGuard.CanActivateMatchesAuthorized` | src/boards/guards/board-access.guard.ts:24-32 | for an existing board the guard allows exactly the owner and the collaborators, and denies everyone else with Forbidden |
| `BoardAccessGuard.CollaboratorAllowed` | src/boards/guards/board-access.guard.ts:27 | every listed collaborator is allowed, whatever its position |
| `BoardAccessGuard.DecisionDependsOnlyOnIds` | src/boards/guards/board-access.guard.ts:24-29 | two boards with the same owner id and the same set of collaborator ids get the same decision for every user |
| `BoardAccessGuard.DenialReplies` | src/boards/guards/board-access.guard.ts:22-32 | a denial reaches the client as 404 "Board not found" for a missing board and 403 with the guard's message otherwise |
| `WhiteboardSocketService.JoinBoard` | src/client/services/whiteboard-socket.service.ts:44-59 | sends one join; an error ack rejects with its message and keeps the session; otherwise the current board becomes the joined one, replacing any previous one |
| `WhiteboardSocketService.LeaveBoard` | src/client/services/whiteboard-socket.service.ts:61-80 | without a current board it sends nothing and resolves; otherwise it sends a leave for the current board; an ok ack clears the board, an error ack keeps it and rejects |
| `WhiteboardSocketService.DrawElement` | src/client/services/whiteboard-socket.service.ts:82-91 | throws "Not connected to any board" and sends nothing exactly when no board is set; otherwise it sends one draw tagged with the current board, with the element unchanged |
| `WhiteboardSocketService.UpdateElement` | src/client/services/whiteboard-socket.service.ts:93-103 | the same rule for updates, which carry the element id and updates unchanged |
| `WhiteboardSocketService.DeleteElement` | src/client/services/whiteboard-socket.service.ts:105-114 | the same rule for deletes, which carry the element id unchanged |
| `WhiteboardSocketService.JoinThenLeave` | src/client/services/whiteboard-socket.service.ts:44-80 | an acknowledged join then an acknowledged leave returns to the initial session, and the leave names the joined board |
| `WhiteboardSocketService.EmptyBoardIdIsNoBoard` | src/client/services/whiteboard-socket.service.ts:53-85 | an acknowledged join of board `""` leaves a session where drawing throws and leaving sends nothing |
| `WhiteboardSocketService.RunOnlyTargetsJoinedBoards` | src/client/services/whiteboard-socket.service.ts:44-114 | invariant: starting from a session whose board is in a known set, the final board and every leave or mutation sent name a board of that set or one whose join the calls acknowledge |
| `WhiteboardSocketService.RunAppend` | src/client/services/whiteboard-socket.service.ts:44-114 | running two batches of calls in turn sends the first batch's messages followed by the second's |
| `WhiteboardSocketService.FreshSessionTargetsOnlyEarlierJoins` | src/client/services/whiteboard-socket.service.ts:23-114 | from the initial session, what the first n calls send begins the whole run's log, and each leave or mutation in it targets a board whose join was acknowledged among those first n calls, never a later one |
| `WhiteboardSocketService.NoSendBeforeJoin` | src/client/services/whiteboard-socket.service.ts:82-91 | from the initial session, a draw before any join sends nothing; only the later join is sent |
| `DrawingCanvas.StartDrawing` | src/client/components/DrawingCanvas.ts:82-89 | starts drawing with the path exactly `[pos]`, discarding any earlier path |
| `DrawingCanvas.Draw` | src/client/components/DrawingCanvas.ts:91-99 | between strokes nothing changes; while drawing exactly one point is appended at the end |
| `DrawingCanvas.SetColor` | src/client/components/DrawingCanvas.ts:153-156 | changes only the stroke colour |
| `DrawingCanvas.SetLineWidth` | src/client/components/DrawingCanvas.ts:158-161 | changes only the line width |
| `DrawingCanvas.StrokeElement` | src/client/components/DrawingCanvas.ts:107-118 | the sent element has the fresh id, is DRAWING, its content is only the captured path, its position is (0,0), and its style is the current colour and width |
| `DrawingCanvas.StopDrawing` | src/client/components/DrawingCanvas.ts:101-125 | a no-op when not drawing; otherwise drawing stops, a DRAWING element is sent iff the path has at least 2 points and the session has a board, the path is emptied unless that send threw; with a board the send never throws, so the path is always emptied; without one it throws and keeps the path |
| `DrawingCanvas.DrawAllAppends` | src/client/components/DrawingCanvas.ts:91-99 | successive moves while drawing append to the path in order |
| `DrawingCanvas.GestureSendsItsPoints` | src/client/components/DrawingCanvas.ts:82-125 | press, moves and release on a joined session send one element whose points are exactly the points visited |
| `DrawingCanvas.DrawPathAsWritten` | src/client/components/DrawingCanvas.ts:127-143 | with points, the path is stroked in the given style and the context is restored; without points the call throws, draws nothing, and leaves the remote style in place |
| `DrawingCanvas.DrawPathAsWrittenLeaksStyle` | src/client/components/DrawingCanvas.ts:131-134 | a DRAWING element with no points changes the local pen for later strokes |
| `DrawingCanvas.DrawPath` | src/client/components/DrawingCanvas.ts:127-143 | corrected: the context is always left as found, and a stroke is drawn iff there are points |
| `DrawingCanvas.DrawPathAgreesOnNonEmptyPaths` | src/client/components/DrawingCanvas.ts:127-143 | the corrected and the written rendering agree on every path with a point |
| `DrawingCanvas.RemoteStyle` | src/client/components/DrawingCanvas.ts:75-76 | a remote element is drawn in its colour, or '#000' when falsy, and its stroke width, or 2 when falsy |
| `DrawingCanvas.OnElementDrawn` | src/client/components/DrawingCanvas.ts:68-79 | as written: a non-DRAWING element changes nothing; a DRAWING element with points is stroked in its style and the canvas is unchanged; a DRAWING element without points throws and leaves its style on the canvas |
| `DrawingCanvas.OnElementDrawnCorrected` | src/client/components/DrawingCanvas.ts:68-79 | corrected: the canvas is never changed and nothing throws; a stroke is drawn iff the element is a DRAWING with points |
| `DrawingCanvas.ListenersAgreeExceptOnEmptyDrawings` | src/client/components/DrawingCanvas.ts:68-79 | the written and the corrected listener give the same result exactly when the element is not a DRAWING without points |
| `DrawingCanvas.StrokeRoundTrip` | src/client/components/DrawingCanvas.ts:70-121 | a stroke sent by one canvas is drawn by a receiving canvas with the same points, colour and width, leaving that canvas unchanged |
| `BoardService.GetBoard` | src/boards/board.service.ts:37-48 | fails with NotFound("Board not found") exactly when no board has that id, else returns the mapped row |
| `BoardService.BuildPatch` | src/boards/board.service.ts:123-129 | the patch holds a field iff that update field is truthy, with the value unchanged; it has no other fields |
| `BoardService.EmptyUpdatesGiveEmptyPatch` | src/boards/board.service.ts:123-129 | updates without truthy fields give the empty patch, and applying it changes nothing |
| `BoardService.PatchKeepsIdentity` | src/boards/board.service.ts:123-135 | the patch names none of the id, boardId or timestamp columns, and under the stand-in update a field without a truthy update keeps its value |
| `BoardService.CompositeOf` | src/boards/board.service.ts:209-224 | a composite sits at top = position.y and left = position.x, with an empty buffer for text and the url for an image |
| `BoardService.Composites` | src/boards/board.service.ts:208-228 | every TEXT element and every IMAGE with a truthy url yields its composite, and there are never more composites than elements |
| `BoardService.CompositesAppend` | src/boards/board.service.ts:208-228 | composites follow board order: those of a concatenation are the concatenated composites |
| `BoardService.CompositesExact` | src/boards/board.service.ts:208-228 | there is exactly one composite per selected element, and each composite comes from a selected element |
| `BoardService.ExportAsImage` | src/boards/board.service.ts:193-231 | NotFound exactly when the board is missing; otherwise a 1920x1080 canvas with the composites of the board's elements |
| `BoardService.HeaderCommands` | src/boards/board.service.ts:155-160 | the title is always written centred at size 24; the description is written at size 12 iff truthy; then a line feed |
| `BoardService.ElementCommands` | src/boards/board.service.ts:163-181 | each element sets font size 10, and any kind other than TEXT or STICKY_NOTE issues nothing else; an element inks the page iff it is TEXT or STICKY_NOTE; TEXT writes its text or '' at its position; a sticky note is a 150x150 rectangle at its position filled with backgroundColor or '#fff9c4' and then stroked, with its text inset by (10,10) |
| `BoardService.ElementsCommandsAppend` | src/boards/board.service.ts:163-182 | element commands follow board order |
| `BoardService.OnlyTextAndStickyNotesInk` | src/boards/board.service.ts:163-182 | a board with no TEXT or STICKY_NOTE element puts no element ink on the page |
| `BoardService.OneTextPerLaidOutElement` | src/boards/board.service.ts:163-182 | exactly one text is written per TEXT or STICKY_NOTE element |
| `BoardService.ExportAsPdf` | src/boards/board.service.ts:147-191 | NotFound exactly when the board is missing; otherwise the header then the element commands in board order |
| `HttpExceptionFilter.Catch` | src/shared/filters/http-exception.filter.ts:12-47 | status is getStatus() for an HttpException and 500 otherwise; the body's statusCode equals the status; an object response supplies message and error when truthy, else the defaults; a string response is the message verbatim; a plain Error supplies only the message; any other value gets all defaults |
| `HttpExceptionFilter.EmptyTextResponseIsKept` | src/shared/filters/http-exception.filter.ts:23-28 | an empty string response stays empty, while an empty object message falls back to the default |
| `HttpExceptionFilter.FrameworkExceptionsReply` | src/shared/filters/http-exception.filter.ts:20-25 | NotFound and Forbidden reach the client with 404/403, their message and "Not Found"/"Forbidden" |
| `HttpExceptionFilter.NotFoundException` | src/boards/board.service.ts:44 | a NotFound exception carries status 404 |
| `HttpExceptionFilter.ForbiddenException` | src/boards/guards/board-access.guard.ts:32 | a Forbidden exception carries status 403 |
| `PrismaTypes.UserSummary` | src/prisma/prisma.types.ts:36-40 | a user summary carries exactly the row's id, email and name |
| `PrismaTypes.MapUsers` | src/prisma/prisma.types.ts:41-45 | collaborators keep their length and order, each mapped to its summary |
| `PrismaTypes.MapElement` | src/prisma/prisma.types.ts:52-69 | every element column is carried over unchanged |
| `PrismaTypes.MapElements` | src/prisma/prisma.types.ts:46 | elements are mapped one to one, keeping length and order |
| `PrismaTypes.NormalizeDescription` | src/prisma/prisma.types.ts:34 | a null or empty description becomes absent; any other is kept |
| `PrismaTypes.MapBoard` | src/prisma/prisma.types.ts:28-50 | id, name, ownerId and timestamps are copied; description is normalised; owner, collaborators and elements are mapped element-wise in order; the result never has an empty description |
| `PrismaTypes.ElementMappingIsBijective` | src/prisma/prisma.types.ts:52-69 | the element mapper has a two-sided inverse |
| `PrismaTypes.BoardMappingRoundTrip` | src/prisma/prisma.types.ts:28-50 | every board without an empty description is the mapped image of a row |
| `PrismaTypes.MapBoardKeepsCollaboratorIds` | src/prisma/prisma.types.ts:41-45 | the set of collaborator ids is the same before and after mapping |
| `Elements.ParseTag` | src/boards/dto/create-element.dto.ts:4-10 | each of the six tags reads back as its kind, and any string that reads as a kind is that kind's tag |
| `EndToEnd.ClientDrawReachesOtherMembers` | src/client/services/whiteboard-socket.service.ts:87-90 | the single draw a joined client sends is relayed by the gateway, unchanged, to the other members of its current board |
| `EndToEnd.ClientJoinRegisters` | src/client/services/whiteboard-socket.service.ts:44-59 | the join a client sends puts its connection in the board's room, and the gateway's returned value names that board (the client's ack is a separate input, not this value) |

## Left out

- Store calls (`createBoard`, `getUserBoards`, `addCollaborator`, `removeCollaborator`, `deleteBoard`, `addElement`, `deleteElement`, and the write made by `updateElement`): these are calls into a foreign database client. `getBoard` is modelled as a lookup in an abstract map. `BoardService.ApplyPatch` stands in for the store's column update only so that the patch has something to be checked against.
- The PDF and PNG bytes produced by pdfkit and sharp: only the commands and composites issued are modelled.
- socket.io delivery, rooms, ack callbacks and disconnect detection: acknowledgements and disconnects are inputs. The framework's socket adapter emits a handler's returned `{event, data}` value as an event rather than passing it to the client's ack callback, so the client's ack input is not the gateway's returned value, and `EndToEnd.ClientJoinRegisters` is not an acknowledged round trip.
- Pending acknowledgements: a join or leave is one atomic step that takes its acknowledgement as input. Calls that interleave while a promise is pending are not modelled.
- Concurrency: handlers run one at a time on a single thread, so the sequential model is exact.
- Routing, controllers, modules and the request-validation decorators: these are declarative framework wiring. Only the element-kind union is reused, and element types on the wire are plain strings.
- Browser side effects: canvas setup, pixel drawing, `clear`, and the wiring of mouse and touch events to the three stroke functions. The floating-point arithmetic of `getPosition` is also left out, since positions are taken as integer inputs.
- Canvas normalisation of colour strings and its refusal of invalid line widths: the context stores what it is given.
- `crypto.randomUUID` and `new Date()`: both become parameters (`freshId`, `now`). Logging is dropped.
- `onElementUpdated`, `onElementDeleted` and `disconnect` of the browser session: they only register callbacks with, or close, the transport.
- Number semantics: numbers are integers. NaN, fractional coordinates and floating-point rounding are not modelled.
- Style and content fields other than colour, stroke width, background colour, text, url and points: they are carried along opaquely by the source and are not modelled.
- User row columns other than id, email and name: they are abstracted as `otherColumns`, because the user schema is not part of this model.
- The JSON copy `JSON.parse(JSON.stringify(...))`: it is the identity on plain data and is modelled as such.
- Exception responses that are `null`, or whose `message` is neither a string nor a list of strings: these responses are not modelled.

## Findings

| source | as written | input that shows it | evidently intended | confidence | as-written member | corrected member |
|---|---|---|---|---|---|---|
| src/client/components/DrawingCanvas.ts:127-143 | `drawPath` sets the stroke colour and line width, then reads `points[0]`. With missing or empty points this throws before the saved style is restored. | an `elementDrawn` event with `{type: 'DRAWING', content: {points: []}, style: {color: 'red', strokeWidth: 9}}` leaves the local pen red and 9 wide for every later local stroke | the context is restored in every case, and a path without points draws nothing | medium, not executed | `DrawingCanvas.DrawPathAsWritten`, shown by `DrawingCanvas.DrawPathAsWrittenLeaksStyle` | `DrawingCanvas.DrawPath`, used by `DrawingCanvas.OnElementDrawnCorrected` |
