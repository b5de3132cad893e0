/** The access guard in front of every board route
    (src/boards/guards/board-access.guard.ts): a request without a board id
    passes; otherwise the board is looked up, and only its owner or one of its
    collaborators passes. */
module BoardAccessGuard {
  import opened Wrappers
  import opened Elements
  import opened PrismaTypes
  import opened HttpExceptionFilter
  import opened BoardService

  const AccessDenied: string := "You do not have access to this board"

  /** What the guard reads from a request: the authenticated user's id and
      the `:id` route parameter, if any. */
  datatype AccessRequest = AccessRequest(userId: string, boardIdParam: Option<string>)

  /** The guard's outcome: let the request through, or throw. */
  datatype Decision = Allow | Deny(exception: Thrown)

  /** `board.collaborators.some((collab) => collab.id === user.id)`. */
  function SomeCollaboratorIs(cs: seq<User>, userId: string): bool {
    if cs == [] then false else cs[0].id == userId || SomeCollaboratorIs(cs[1..], userId)
  }

  /** The `some` scan finds the user exactly when the user's id is among the
      collaborators' ids, wherever it sits in the list. */
  lemma {:induction false} SomeCollaboratorIsMembership(cs: seq<User>, userId: string)
    ensures SomeCollaboratorIs(cs, userId) <==> exists i :: 0 <= i < |cs| && cs[i].id == userId
  {
    if cs != [] {
      SomeCollaboratorIsMembership(cs[1..], userId);
      if exists i :: 0 <= i < |cs| && cs[i].id == userId {
        var i :| 0 <= i < |cs| && cs[i].id == userId;
        if i > 0 {
          assert cs[1..][i - 1].id == userId;
        }
      }
      if exists i :: 0 <= i < |cs[1..]| && cs[1..][i].id == userId {
        var i :| 0 <= i < |cs[1..]| && cs[1..][i].id == userId;
        assert cs[i + 1].id == userId;
      }
    }
  }

  /** The reference rule: the owner and the collaborators form the authorised users. */
  predicate Authorized(b: Board, userId: string) {
    userId == b.ownerId || userId in CollaboratorIds(b)
  }

  /** `canActivate`. */
  function CanActivate(store: Store, request: AccessRequest): (d: Decision)
    // a missing or empty id passes without any lookup
    ensures !Truthy(request.boardIdParam) ==> d == Allow
    // a board that does not exist is NotFound, never Forbidden
    ensures Truthy(request.boardIdParam) && request.boardIdParam.value !in store ==>
      d == Deny(NotFoundException(BoardNotFound))
    // otherwise the owner passes, and anyone else without a matching collaborator is Forbidden
    ensures Truthy(request.boardIdParam) && request.boardIdParam.value in store ==>
      var b := MapBoard(store[request.boardIdParam.value]);
      && (request.userId == b.ownerId ==> d == Allow)
      && (d == Allow || d == Deny(ForbiddenException(AccessDenied)))
  {
    if !Truthy(request.boardIdParam) then Allow
    else
      match GetBoard(store, request.boardIdParam.value)
      case Failure(e) => Deny(e)
      case Success(board) =>
        if board.ownerId == request.userId || SomeCollaboratorIs(board.collaborators, request.userId)
        then Allow
        else Deny(ForbiddenException(AccessDenied))
  }

  /** For an existing board the guard agrees with the reference rule, in both directions. */
  lemma CanActivateMatchesAuthorized(store: Store, userId: string, boardId: string)
    requires boardId != "" && boardId in store
    ensures CanActivate(store, AccessRequest(userId, Some(boardId))) == Allow
            <==> Authorized(MapBoard(store[boardId]), userId)
    ensures !Authorized(MapBoard(store[boardId]), userId) ==>
            CanActivate(store, AccessRequest(userId, Some(boardId))) == Deny(ForbiddenException(AccessDenied))
  {
    var b := MapBoard(store[boardId]);
    SomeCollaboratorIsMembership(b.collaborators, userId);
  }

  /** Every listed collaborator passes, whatever its position in the list. */
  lemma CollaboratorAllowed(store: Store, boardId: string, i: int)
    requires boardId != "" && boardId in store
    requires 0 <= i < |store[boardId].collaborators|
    ensures CanActivate(store, AccessRequest(store[boardId].collaborators[i].id, Some(boardId))) == Allow
  {
    var userId := store[boardId].collaborators[i].id;
    var b := MapBoard(store[boardId]);
    assert b.collaborators[i].id == userId;
    CanActivateMatchesAuthorized(store, userId, boardId);
  }

  /** The decision depends only on the user id, the owner id and the set of
      collaborator ids: reordering or repeating collaborators, or changing
      anything else about the board, cannot change it. */
  lemma DecisionDependsOnlyOnIds(store: Store, store': Store, userId: string, boardId: string)
    requires boardId != "" && boardId in store && boardId in store'
    requires store[boardId].ownerId == store'[boardId].ownerId
    requires CollaboratorIds(MapBoard(store[boardId])) == CollaboratorIds(MapBoard(store'[boardId]))
    ensures CanActivate(store, AccessRequest(userId, Some(boardId)))
            == CanActivate(store', AccessRequest(userId, Some(boardId)))
  {
    CanActivateMatchesAuthorized(store, userId, boardId);
    CanActivateMatchesAuthorized(store', userId, boardId);
  }

  /** A denial reaches the client as 403 with the guard's message, a missing
      board as 404 "Board not found". */
  lemma DenialReplies(store: Store, request: AccessRequest, now: string)
    requires CanActivate(store, request).Deny?
    ensures var reply := Catch(CanActivate(store, request).exception, now);
      (request.boardIdParam.value !in store ==>
         reply.status == 404 && reply.body.message == TextMessage(BoardNotFound))
      && (request.boardIdParam.value in store ==>
         reply.status == 403 && reply.body.message == TextMessage(AccessDenied))
  {
  }
}
