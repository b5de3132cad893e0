/** The browser session and the gateway composed: what the client sends is
    what the gateway handles. */
module EndToEnd {
  import opened Elements
  import opened Wrappers
  import Wire = WebSocketTypes
  import Client = WhiteboardSocketService
  import Gateway = WhiteboardGateway

  /** A stroke drawn by a client that is in a board reaches every other
      connection in that board's room, and only those, unchanged. */
  lemma ClientDrawReachesOtherMembers(
    s: Client.Session, r: Gateway.Registry, connection: string, element: WhiteboardElement)
    requires Client.InBoard(s)
    ensures var sent := Client.DrawElement(s, element).sent;
      && |sent| == 1
      && Gateway.Handle(r, connection, sent[0]).broadcast
         == Some(Gateway.Broadcast(Gateway.Members(r, s.currentBoardId.value) - {connection},
                                   Wire.ElementDrawn(element)))
      && Gateway.Handle(r, connection, sent[0]).registry == r
  {
  }

  /** The join a client sends puts its connection in the board's room, and the
      gateway's returned value names the same board. This is not an
      acknowledged round trip: the returned value has an `event` field, and
      the framework's socket adapter (not part of this model) emits such a
      value as an event instead of passing it to the client's ack callback,
      so the client's `Ack` input is not this response. */
  lemma ClientJoinRegisters(
    s: Client.Session, r: Gateway.Registry, connection: string, boardId: string, ack: Client.Ack)
    ensures var sent := Client.JoinBoard(s, boardId, ack).sent;
      && |sent| == 1
      && var h := Gateway.Handle(r, connection, sent[0]);
         connection in Gateway.Members(h.registry, boardId) && h.response == Wire.JoinedBoard(boardId)
  {
  }
}
