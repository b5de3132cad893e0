/** The live-session gateway (src/websocket/whiteboard.gateway.ts): the
    registry of which connections watch which board, and the handlers that
    update it and relay element events.

    Two facts about the transport are taken as assumptions: the transport's
    room for a board has exactly the members the registry records for it
    (the handlers update both together), and a broadcast from a connection to
    a room reaches every member of the room except that connection. */
module WhiteboardGateway {
  import opened Wrappers
  import opened Elements
  import opened WebSocketTypes

  /** `activeBoards`: board id to the ids of the connections in its room. */
  type Registry = map<string, set<string>>

  /** No board is kept with an empty room. */
  predicate NoEmptyRooms(r: Registry) {
    forall b :: b in r ==> r[b] != {}
  }

  /** The connections the registry records for a board. */
  function Members(r: Registry, boardId: string): set<string> {
    if boardId in r then r[boardId] else {}
  }

  /** The boards a connection is in (the inverse relation, never stored). */
  function BoardsOf(r: Registry, client: string): set<string> {
    set b | b in r && client in r[b]
  }

  /** Boards other than `boardId` are the same in both registries. */
  predicate SameElsewhere(r: Registry, r': Registry, boardId: string) {
    && r.Keys - {boardId} == r'.Keys - {boardId}
    && (forall b :: b in r && b != boardId ==> b in r' && r'[b] == r[b])
  }

  /** The registry update of `handleJoinBoard`: the room is created when absent. */
  function Join(r: Registry, boardId: string, client: string): (r': Registry)
    ensures boardId in r' && client in r'[boardId]
    ensures r'[boardId] == Members(r, boardId) + {client}
    ensures SameElsewhere(r, r', boardId)
    ensures NoEmptyRooms(r) ==> NoEmptyRooms(r')
  {
    r[boardId := Members(r, boardId) + {client}]
  }

  /** The registry update of `handleLeaveBoard`: an unknown board is left
      alone, and a room that becomes empty is dropped. */
  function Leave(r: Registry, boardId: string, client: string): (r': Registry)
    ensures client !in Members(r', boardId)
    ensures Members(r', boardId) == Members(r, boardId) - {client}
    ensures boardId !in r ==> r' == r
    ensures boardId in r ==> (boardId in r' <==> r[boardId] - {client} != {})
    ensures SameElsewhere(r, r', boardId)
    ensures NoEmptyRooms(r) ==> NoEmptyRooms(r')
  {
    if boardId in r then
      var rest := r[boardId] - {client};
      if rest == {} then r - {boardId} else r[boardId := rest]
    else r
  }

  /** The reference result of `handleDisconnect`: the connection is removed
      from every room it is in, and exactly the rooms it leaves empty go. */
  function Purge(r: Registry, client: string): (r': Registry)
    ensures forall b :: b in r' ==> client !in r'[b]
    ensures forall b :: b in r && client !in r[b] ==> b in r' && r'[b] == r[b]
    ensures forall b :: b in r && client in r[b] ==>
      (b in r' <==> r[b] != {client}) && (b in r' ==> r'[b] == r[b] - {client})
    ensures r'.Keys <= r.Keys
    ensures BoardsOf(r', client) == {}
  {
    map b | b in r && r[b] != {client} :: r[b] - {client}
  }

  /** `handleDisconnect`: visits every board once, as `forEach` does, removing
      the connection where present and dropping a room it leaves empty. The
      order of the visit does not matter: each board is handled on its own. */
  method HandleDisconnect(activeBoards: Registry, client: string) returns (r: Registry)
    ensures r == Purge(activeBoards, client)
  {
    r := activeBoards;
    var remaining := activeBoards.Keys;
    while remaining != {}
      invariant remaining <= activeBoards.Keys
      invariant r.Keys <= activeBoards.Keys
      invariant forall b :: b in remaining ==> b in r && r[b] == activeBoards[b]
      invariant forall b :: b in activeBoards && b !in remaining ==>
        (b in r <==> b in Purge(activeBoards, client)) &&
        (b in r ==> r[b] == Purge(activeBoards, client)[b])
      decreases remaining
    {
      var b :| b in remaining;
      if client in r[b] {
        r := Leave(r, b, client);
      }
      remaining := remaining - {b};
    }
  }

  /** Joining twice is joining once. */
  lemma JoinIdempotent(r: Registry, boardId: string, client: string)
    ensures Join(Join(r, boardId, client), boardId, client) == Join(r, boardId, client)
  {
  }

  /** Leaving undoes joining for a connection that was not yet in the room. */
  lemma LeaveUndoesJoin(r: Registry, boardId: string, client: string)
    requires NoEmptyRooms(r)
    requires client !in Members(r, boardId)
    ensures Leave(Join(r, boardId, client), boardId, client) == r
  {
  }

  /** A second disconnect of the same connection changes nothing. */
  lemma PurgeIdempotent(r: Registry, client: string)
    ensures Purge(Purge(r, client), client) == Purge(r, client)
  {
  }

  /** Disconnect keeps the no-empty-room invariant. */
  lemma PurgePreservesNoEmptyRooms(r: Registry, client: string)
    requires NoEmptyRooms(r)
    ensures NoEmptyRooms(Purge(r, client))
  {
  }

  /** Disconnect is leaving every board the connection is in: for a connection
      in one board only, it is exactly that leave. */
  lemma PurgeIsLeaveOfItsBoard(r: Registry, client: string, boardId: string)
    requires NoEmptyRooms(r)
    requires BoardsOf(r, client) == {boardId}
    ensures Purge(r, client) == Leave(r, boardId, client)
  {
    assert boardId in BoardsOf(r, client);
    var p, l := Purge(r, client), Leave(r, boardId, client);
    forall b | b in r && b != boardId ensures client !in r[b] {
      assert b !in BoardsOf(r, client);
    }
    assert p.Keys == l.Keys;
  }

  /** Disconnect after a join forgets the join. */
  lemma PurgeForgetsJoin(r: Registry, boardId: string, client: string)
    requires NoEmptyRooms(r)
    ensures Purge(Join(r, boardId, client), client) == Purge(r, client)
  {
    var j := Join(r, boardId, client);
    var p, q := Purge(j, client), Purge(r, client);
    forall b ensures b in p <==> b in q {
      if b == boardId && boardId in r {
        assert j[b] - {client} == r[b] - {client};
      }
    }
    assert p.Keys == q.Keys;
    forall b | b in p ensures p[b] == q[b] {
      if b == boardId {
        assert j[b] - {client} == r[b] - {client};
      }
    }
  }

  // ----- the handlers

  /** A relayed event and the connections it reaches. */
  datatype Broadcast = Broadcast(recipients: set<string>, event: ServerEvent)

  /** `client.to(boardId).emit(event)`: every member of the room but the sender. */
  function Relay(r: Registry, boardId: string, sender: string, event: ServerEvent): (b: Broadcast)
    ensures sender !in b.recipients
    ensures forall c :: c in b.recipients <==> c in Members(r, boardId) && c != sender
    ensures b.event == event
  {
    Broadcast(Members(r, boardId) - {sender}, event)
  }

  /** What one handler call does: the new registry, the value returned to the
      sender, and the broadcast, if any. */
  datatype Handled = Handled(registry: Registry, response: HandlerResponse, broadcast: Option<Broadcast>)

  /** The five message handlers. None of them checks who the sender is or
      whether it is in the board's room. */
  function Handle(r: Registry, client: string, request: ClientRequest): (h: Handled)
    // join and leave echo the requested board whatever the prior membership, and relay nothing
    ensures request.JoinBoard? ==>
      h == Handled(Join(r, request.boardId, client), JoinedBoard(request.boardId), None)
    ensures request.LeaveBoard? ==>
      h == Handled(Leave(r, request.boardId, client), LeftBoard(request.boardId), None)
    // the mutations leave the registry alone and relay a fixed payload to the room
    ensures IsMutation(request) ==>
      && h.registry == r
      && h.broadcast.Some?
      && h.broadcast.value.recipients == Members(r, request.boardId) - {client}
    ensures request.DrawElement? ==>
      h.broadcast.value.event == ElementDrawn(request.element)
      && h.response == DrawResponse(request.element)
    ensures request.UpdateElement? ==>
      h.broadcast.value.event == ElementUpdated(request.elementId, request.updates)
      && h.response == UpdateResponse(request.boardId, request.elementId, request.updates)
    ensures request.DeleteElement? ==>
      h.broadcast.value.event == ElementDeleted(request.elementId)
      && h.response == DeleteResponse(request.boardId, request.elementId)
  {
    match request
    case JoinBoard(boardId) => Handled(Join(r, boardId, client), JoinedBoard(boardId), None)
    case LeaveBoard(boardId) => Handled(Leave(r, boardId, client), LeftBoard(boardId), None)
    case DrawElement(boardId, element) =>
      Handled(r, DrawResponse(element), Some(Relay(r, boardId, client, ElementDrawn(element))))
    case UpdateElement(boardId, elementId, updates) =>
      Handled(r, UpdateResponse(boardId, elementId, updates),
              Some(Relay(r, boardId, client, ElementUpdated(elementId, updates))))
    case DeleteElement(boardId, elementId) =>
      Handled(r, DeleteResponse(boardId, elementId),
              Some(Relay(r, boardId, client, ElementDeleted(elementId))))
  }

  /** Every handler keeps the no-empty-room invariant. */
  lemma HandlePreservesNoEmptyRooms(r: Registry, client: string, request: ClientRequest)
    requires NoEmptyRooms(r)
    ensures NoEmptyRooms(Handle(r, client, request).registry)
  {
  }

  /** A sender that never joined the board still has its event relayed to the
      whole room: the handlers do no membership check. */
  lemma MutationsRelayedWithoutMembership(r: Registry, client: string, request: ClientRequest)
    requires IsMutation(request)
    requires client !in Members(r, request.boardId)
    ensures Handle(r, client, request).broadcast.value.recipients == Members(r, request.boardId)
  {
  }

  /** A join followed by a leave from the same connection restores the
      registry, and both acknowledgements echo the board id. */
  lemma JoinThenLeaveRoundTrip(r: Registry, client: string, boardId: string)
    requires NoEmptyRooms(r)
    requires client !in Members(r, boardId)
    ensures var h1 := Handle(r, client, JoinBoard(boardId));
      var h2 := Handle(h1.registry, client, LeaveBoard(boardId));
      h2.registry == r && h1.response == JoinedBoard(boardId) && h2.response == LeftBoard(boardId)
  {
  }

  /** The two-user walk-through: connections C1 and C2 join B1; C1 draws and
      the relay reaches only C2, while C1 gets the handler's own response; C2 disconnects and B1 holds C1 alone; C1 leaves and
      B1 is gone. */
  lemma TwoUserSession(element: WhiteboardElement)
    ensures var r1 := Handle(map[], "C1", JoinBoard("B1")).registry;
      var r2 := Handle(r1, "C2", JoinBoard("B1")).registry;
      var d := Handle(r2, "C1", DrawElement("B1", element));
      var r3 := Purge(r2, "C2");
      var r4 := Handle(r3, "C1", LeaveBoard("B1")).registry;
      && d.broadcast == Some(Broadcast({"C2"}, ElementDrawn(element)))
      && d.response == DrawResponse(element)
      && r3 == map["B1" := {"C1"}]
      && r4 == map[]
  {
    var r1 := Handle(map[], "C1", JoinBoard("B1")).registry;
    var r2 := Handle(r1, "C2", JoinBoard("B1")).registry;
    assert Members(map[], "B1") == {};
    assert r1 == Join(map[], "B1", "C1");
    assert r1.Keys == {"B1"} && r1["B1"] == {"C1"};
    assert r1 == map["B1" := {"C1"}];
    assert r2.Keys == {"B1"} && r2["B1"] == {"C1", "C2"};
    assert r2 == map["B1" := {"C1", "C2"}];
    assert {"C1", "C2"} - {"C1"} == {"C2"};
    var r3 := Purge(r2, "C2");
    assert r3.Keys == {"B1"};
    assert r3["B1"] == {"C1", "C2"} - {"C2"} == {"C1"};
  }
}
