/** The real-time messages exchanged between a browser and the gateway
    (src/websocket/websocket.types.ts). */
module WebSocketTypes {
  import opened Elements

  /** Client-to-server events. */
  datatype ClientRequest =
    | JoinBoard(boardId: string)
    | LeaveBoard(boardId: string)
    | DrawElement(boardId: string, element: WhiteboardElement)
    | UpdateElement(boardId: string, elementId: string, updates: WhiteboardPatch)
    | DeleteElement(boardId: string, elementId: string)

  predicate IsMutation(r: ClientRequest) {
    r.DrawElement? || r.UpdateElement? || r.DeleteElement?
  }

  /** Server-to-client events relayed to the other members of a board; the
      update and delete events do not name the board. */
  datatype ServerEvent =
    | ElementDrawn(element: WhiteboardElement)
    | ElementUpdated(elementId: string, updates: WhiteboardPatch)
    | ElementDeleted(elementId: string)

  /** The value a handler returns to the connection that sent the request. */
  datatype HandlerResponse =
    | JoinedBoard(boardId: string)
    | LeftBoard(boardId: string)
    | DrawResponse(element: WhiteboardElement)
    | UpdateResponse(boardId: string, elementId: string, updates: WhiteboardPatch)
    | DeleteResponse(boardId: string, elementId: string)
}
