/** The browser's session with the gateway
    (src/client/services/whiteboard-socket.service.ts). Its only state is the
    board it last joined. A join or leave is modelled as one step that takes
    the server's acknowledgement as input. */
module WhiteboardSocketService {
  import opened Wrappers
  import opened Elements
  import Wire = WebSocketTypes

  /** `currentBoardId: string | null`. */
  datatype Session = Session(currentBoardId: Option<string>)

  const InitialSession: Session := Session(None)

  const NotConnected: string := "Not connected to any board"

  /** `this.currentBoardId` is truthy: a board is set and its id is not empty. */
  predicate InBoard(s: Session) {
    Truthy(s.currentBoardId)
  }

  /** The acknowledgement `{ error?: string }` the server sends back. */
  datatype Ack = Ack(error: Option<string>)

  const OkAck: Ack := Ack(None)

  /** `response.error` is truthy. */
  predicate AckFailed(a: Ack) {
    Truthy(a.error)
  }

  /** How the returned promise settles. */
  datatype Settled = Resolved | Rejected(message: string)

  /** The result of a join or leave: the new session, what was emitted, and the promise. */
  datatype Step = Step(session: Session, sent: seq<Wire.ClientRequest>, settled: Settled)

  /** `joinBoard(boardId)`. */
  function JoinBoard(s: Session, boardId: string, ack: Ack): (st: Step)
    ensures st.sent == [Wire.JoinBoard(boardId)]
    ensures AckFailed(ack) ==> st.session == s && st.settled == Rejected(ack.error.value)
    ensures !AckFailed(ack) ==> st.session.currentBoardId == Some(boardId) && st.settled == Resolved
  {
    if AckFailed(ack) then Step(s, [Wire.JoinBoard(boardId)], Rejected(ack.error.value))
    else Step(Session(Some(boardId)), [Wire.JoinBoard(boardId)], Resolved)
  }

  /** `leaveBoard()`: nothing is sent when no board is set. */
  function LeaveBoard(s: Session, ack: Ack): (st: Step)
    ensures !InBoard(s) ==> st == Step(s, [], Resolved)
    ensures InBoard(s) ==> st.sent == [Wire.LeaveBoard(s.currentBoardId.value)]
    ensures InBoard(s) && AckFailed(ack) ==> st.session == s && st.settled == Rejected(ack.error.value)
    ensures InBoard(s) && !AckFailed(ack) ==> st.session == InitialSession && st.settled == Resolved
  {
    if !InBoard(s) then Step(s, [], Resolved)
    else if AckFailed(ack) then Step(s, [Wire.LeaveBoard(s.currentBoardId.value)], Rejected(ack.error.value))
    else Step(InitialSession, [Wire.LeaveBoard(s.currentBoardId.value)], Resolved)
  }

  /** The result of a mutation: what was emitted, and the error thrown, if any.
      The session is never changed by a mutation. */
  datatype Emitted = Emitted(sent: seq<Wire.ClientRequest>, thrown: Option<string>)

  /** The shared shape of the three mutations: throw without a board, else
      emit one message tagged with the current board. */
  function Emit(s: Session, request: string -> Wire.ClientRequest): (e: Emitted)
    ensures e.thrown.None? <==> InBoard(s)
    ensures e.thrown.Some? ==> e.thrown.value == NotConnected && e.sent == []
    ensures e.thrown.None? ==> e.sent == [request(s.currentBoardId.value)]
  {
    if !InBoard(s) then Emitted([], Some(NotConnected))
    else Emitted([request(s.currentBoardId.value)], None)
  }

  /** `drawElement(element)`. */
  function DrawElement(s: Session, element: WhiteboardElement): (e: Emitted)
    ensures e.thrown.None? <==> InBoard(s)
    ensures e.thrown.Some? ==> e.thrown.value == NotConnected && e.sent == []
    ensures e.thrown.None? ==> e.sent == [Wire.DrawElement(s.currentBoardId.value, element)]
  {
    Emit(s, boardId => Wire.DrawElement(boardId, element))
  }

  /** `updateElement(elementId, updates)`. */
  function UpdateElement(s: Session, elementId: string, updates: WhiteboardPatch): (e: Emitted)
    ensures e.thrown.None? <==> InBoard(s)
    ensures e.thrown.Some? ==> e.thrown.value == NotConnected && e.sent == []
    ensures e.thrown.None? ==> e.sent == [Wire.UpdateElement(s.currentBoardId.value, elementId, updates)]
  {
    Emit(s, boardId => Wire.UpdateElement(boardId, elementId, updates))
  }

  /** `deleteElement(elementId)`. */
  function DeleteElement(s: Session, elementId: string): (e: Emitted)
    ensures e.thrown.None? <==> InBoard(s)
    ensures e.thrown.Some? ==> e.thrown.value == NotConnected && e.sent == []
    ensures e.thrown.None? ==> e.sent == [Wire.DeleteElement(s.currentBoardId.value, elementId)]
  {
    Emit(s, boardId => Wire.DeleteElement(boardId, elementId))
  }

  /** Joining a board and then leaving it, both acknowledged, returns to the
      initial session, and the leave names the joined board. */
  lemma JoinThenLeave(s: Session, boardId: string)
    requires boardId != ""
    ensures var j := JoinBoard(s, boardId, OkAck);
      var l := LeaveBoard(j.session, OkAck);
      l.session == InitialSession && l.sent == [Wire.LeaveBoard(boardId)]
  {
  }

  /** Joining the board with the empty id is acknowledged, yet leaves a session
      in which every mutation throws and leaving sends nothing. */
  lemma EmptyBoardIdIsNoBoard(s: Session, element: WhiteboardElement)
    ensures var j := JoinBoard(s, "", OkAck).session;
      && DrawElement(j, element).thrown == Some(NotConnected)
      && LeaveBoard(j, OkAck).sent == []
  {
  }

  // ----- whole sessions: a sequence of calls from the initial state

  datatype Call =
    | CallJoin(boardId: string, ack: Ack)
    | CallLeave(ack: Ack)
    | CallDraw(element: WhiteboardElement)
    | CallUpdate(elementId: string, updates: WhiteboardPatch)
    | CallDelete(elementId: string)

  /** One call: the next session and what it sent. */
  function Perform(s: Session, c: Call): (Session, seq<Wire.ClientRequest>) {
    match c
    case CallJoin(b, ack) => var st := JoinBoard(s, b, ack); (st.session, st.sent)
    case CallLeave(ack) => var st := LeaveBoard(s, ack); (st.session, st.sent)
    case CallDraw(e) => (s, DrawElement(s, e).sent)
    case CallUpdate(id, u) => (s, UpdateElement(s, id, u).sent)
    case CallDelete(id) => (s, DeleteElement(s, id).sent)
  }

  /** Runs the calls in order, collecting everything sent. */
  function Run(s: Session, calls: seq<Call>): (Session, seq<Wire.ClientRequest>)
    decreases |calls|
  {
    if calls == [] then (s, [])
    else
      var (s1, sent1) := Perform(s, calls[0]);
      var (s2, sent2) := Run(s1, calls[1..]);
      (s2, sent1 + sent2)
  }

  /** The boards an acknowledged join in `calls` asked for. */
  function AcceptedJoins(calls: seq<Call>): set<string> {
    set i | 0 <= i < |calls| && calls[i].CallJoin? && !AckFailed(calls[i].ack) :: calls[i].boardId
  }

  /** Where a request other than a join is aimed. */
  predicate TargetsAcceptedJoin(r: Wire.ClientRequest, joined: set<string>) {
    r.JoinBoard? || r.boardId in joined
  }

  /** The inductive invariant behind the next lemma: starting from a session
      whose board is in `joined`, the final board and every leave or mutation
      sent name a board in `joined` or one whose join `calls` acknowledges. */
  lemma {:induction false} RunOnlyTargetsJoinedBoards(s: Session, calls: seq<Call>, joined: set<string>)
    requires s.currentBoardId.Some? ==> s.currentBoardId.value in joined
    ensures var (s', sent) := Run(s, calls);
      && (s'.currentBoardId.Some? ==> s'.currentBoardId.value in joined + AcceptedJoins(calls))
      && forall k :: 0 <= k < |sent| ==> TargetsAcceptedJoin(sent[k], joined + AcceptedJoins(calls))
    decreases |calls|
  {
    if calls != [] {
      var (s1, sent1) := Perform(s, calls[0]);
      var joined1 := joined + AcceptedJoins(calls[..1]);
      assert s1.currentBoardId.Some? ==> s1.currentBoardId.value in joined1;
      assert forall k :: 0 <= k < |sent1| ==> TargetsAcceptedJoin(sent1[k], joined1);
      RunOnlyTargetsJoinedBoards(s1, calls[1..], joined1);
      assert joined1 + AcceptedJoins(calls[1..]) == joined + AcceptedJoins(calls) by {
        forall i | 0 <= i < |calls[1..]| ensures calls[1..][i] == calls[i + 1] { }
      }
      var (s2, sent2) := Run(s1, calls[1..]);
      forall k | 0 <= k < |sent1 + sent2|
        ensures TargetsAcceptedJoin((sent1 + sent2)[k], joined + AcceptedJoins(calls))
      {
        if k >= |sent1| {
          assert (sent1 + sent2)[k] == sent2[k - |sent1|];
        }
      }
    }
  }

  /** Running a concatenation of calls is running the parts in turn. */
  lemma {:induction false} RunAppend(s: Session, a: seq<Call>, b: seq<Call>)
    ensures Run(s, a + b) == (Run(Run(s, a).0, b).0, Run(s, a).1 + Run(Run(s, a).0, b).1)
    decreases |a|
  {
    if a == [] {
      assert a + b == b;
      assert Run(s, a) == (s, []);
      assert [] + Run(s, b).1 == Run(s, b).1;
    } else {
      assert (a + b)[0] == a[0];
      assert (a + b)[1..] == a[1..] + b;
      var (s1, sent1) := Perform(s, a[0]);
      assert Run(s, a + b) == (Run(s1, a[1..] + b).0, sent1 + Run(s1, a[1..] + b).1);
      assert Run(s, a) == (Run(s1, a[1..]).0, sent1 + Run(s1, a[1..]).1);
      RunAppend(s1, a[1..], b);
      var (s2, sent2) := Run(s1, a[1..]);
      assert sent1 + (sent2 + Run(s2, b).1) == (sent1 + sent2) + Run(s2, b).1;
    }
  }

  /** From a fresh session, what the first `n` calls send is the beginning of
      what the whole run sends, and every leave or mutation in it targets a
      board whose join was acknowledged among those same first `n` calls, so
      no send relies on a join that comes after it. */
  lemma FreshSessionTargetsOnlyEarlierJoins(calls: seq<Call>, n: nat)
    requires n <= |calls|
    ensures var sentBefore := Run(InitialSession, calls[..n]).1;
      && sentBefore <= Run(InitialSession, calls).1
      && forall k :: 0 <= k < |sentBefore| ==> TargetsAcceptedJoin(sentBefore[k], AcceptedJoins(calls[..n]))
  {
    RunOnlyTargetsJoinedBoards(InitialSession, calls[..n], {});
    assert {} + AcceptedJoins(calls[..n]) == AcceptedJoins(calls[..n]);
    RunAppend(InitialSession, calls[..n], calls[n..]);
    assert calls[..n] + calls[n..] == calls;
  }

  /** A draw sent before any join is acknowledged never happens: from a fresh
      session, a draw followed by a join sends only the join. */
  lemma NoSendBeforeJoin(element: WhiteboardElement, boardId: string)
    ensures Run(InitialSession, [CallDraw(element), CallJoin(boardId, OkAck)]).1 == [Wire.JoinBoard(boardId)]
  {
    var calls := [CallDraw(element), CallJoin(boardId, OkAck)];
    assert calls[1..] == [CallJoin(boardId, OkAck)];
    assert Perform(InitialSession, calls[0]) == (InitialSession, []);
    assert Run(InitialSession, calls[1..]).1 == [Wire.JoinBoard(boardId)] + [] by {
      assert calls[1..][1..] == [];
    }
  }
}
