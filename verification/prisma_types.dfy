/** The rows the persistence client returns and the two mappers that turn them
    into the service's `Board` and `BoardElement` records
    (src/prisma/prisma.types.ts). */
module PrismaTypes {
  import opened Wrappers
  import opened Elements

  /** A user row; `otherColumns` stands for every column besides id, email and
      name (the user schema is not part of this model). */
  datatype PrismaUser = PrismaUser(
    id: string,
    email: string,
    name: string,
    otherColumns: map<string, string>)

  /** An element row; its JSON columns are already typed by the cast the mapper makes. */
  datatype PrismaElement = PrismaElement(
    id: string,
    kind: ElementType,
    content: Content,
    position: Position,
    style: Option<Style>,
    boardId: string,
    createdAt: int,
    updatedAt: int)

  /** A board row with its owner, collaborators and elements included;
      `description` is nullable in the store. */
  datatype PrismaBoard = PrismaBoard(
    id: string,
    name: string,
    description: Option<string>,
    ownerId: string,
    owner: PrismaUser,
    collaborators: seq<PrismaUser>,
    elements: seq<PrismaElement>,
    createdAt: int,
    updatedAt: int)

  function UserSummary(u: PrismaUser): (r: User)
    ensures r.id == u.id && r.email == u.email && r.name == u.name
  {
    User(u.id, u.email, u.name)
  }

  /** `collaborators.map(...)`: one summary per row, in order. */
  function MapUsers(us: seq<PrismaUser>): (r: seq<User>)
    ensures |r| == |us|
    ensures forall i :: 0 <= i < |us| ==> r[i] == UserSummary(us[i])
  {
    if us == [] then [] else [UserSummary(us[0])] + MapUsers(us[1..])
  }

  /** The element mapper: every column is carried over unchanged. */
  function MapElement(p: PrismaElement): (e: BoardElement)
    ensures e.id == p.id && e.kind == p.kind && e.boardId == p.boardId
    ensures e.createdAt == p.createdAt && e.updatedAt == p.updatedAt
    ensures e.content == p.content && e.position == p.position && e.style == p.style
  {
    BoardElement(p.id, p.kind, p.content, p.position, p.style, p.boardId, p.createdAt, p.updatedAt)
  }

  /** `elements.map(mapPrismaBoardElementToBoardElement)`. */
  function MapElements(ps: seq<PrismaElement>): (r: seq<BoardElement>)
    ensures |r| == |ps|
    ensures forall i :: 0 <= i < |ps| ==> r[i] == MapElement(ps[i])
  {
    if ps == [] then [] else [MapElement(ps[0])] + MapElements(ps[1..])
  }

  /** `description || undefined`: the empty string and null both become absent. */
  function NormalizeDescription(d: Option<string>): (r: Option<string>)
    ensures Truthy(d) ==> r == d
    ensures !Truthy(d) ==> r == None
  {
    if Truthy(d) then d else None
  }

  /** A mapped board never carries an empty description. */
  predicate NormalizedDescription(b: Board) {
    b.description != Some("")
  }

  /** The board mapper. */
  function MapBoard(p: PrismaBoard): (b: Board)
    ensures b.id == p.id && b.name == p.name && b.ownerId == p.ownerId
    ensures b.createdAt == p.createdAt && b.updatedAt == p.updatedAt
    ensures b.description == NormalizeDescription(p.description)
    ensures b.owner == UserSummary(p.owner)
    ensures |b.collaborators| == |p.collaborators|
    ensures forall i :: 0 <= i < |p.collaborators| ==> b.collaborators[i] == UserSummary(p.collaborators[i])
    ensures |b.elements| == |p.elements|
    ensures forall i :: 0 <= i < |p.elements| ==> b.elements[i] == MapElement(p.elements[i])
    ensures NormalizedDescription(b)
  {
    Board(
      p.id, p.name, NormalizeDescription(p.description), p.ownerId,
      UserSummary(p.owner), MapUsers(p.collaborators), MapElements(p.elements),
      p.createdAt, p.updatedAt)
  }

  // ----- inverses: the mappers lose nothing but the normalised description
  //       and the extra user columns

  function ElementToRow(e: BoardElement): PrismaElement {
    PrismaElement(e.id, e.kind, e.content, e.position, e.style, e.boardId, e.createdAt, e.updatedAt)
  }

  function UserToRow(u: User): PrismaUser {
    PrismaUser(u.id, u.email, u.name, map[])
  }

  function BoardToRow(b: Board): PrismaBoard {
    PrismaBoard(
      b.id, b.name, b.description, b.ownerId, UserToRow(b.owner),
      seq(|b.collaborators|, i requires 0 <= i < |b.collaborators| => UserToRow(b.collaborators[i])),
      seq(|b.elements|, i requires 0 <= i < |b.elements| => ElementToRow(b.elements[i])),
      b.createdAt, b.updatedAt)
  }

  /** The element mapper is a bijection between rows and service elements. */
  lemma ElementMappingIsBijective(p: PrismaElement, e: BoardElement)
    ensures ElementToRow(MapElement(p)) == p
    ensures MapElement(ElementToRow(e)) == e
  {
  }

  /** Every board with a normalised description is the image of a row, so the
      board mapper loses nothing except what `NormalizeDescription` and the
      user summary drop. */
  lemma BoardMappingRoundTrip(b: Board)
    requires NormalizedDescription(b)
    ensures MapBoard(BoardToRow(b)) == b
  {
  }

  /** The collaborator ids the access guard compares against survive the mapping. */
  lemma MapBoardKeepsCollaboratorIds(p: PrismaBoard)
    ensures CollaboratorIds(MapBoard(p)) == set i | 0 <= i < |p.collaborators| :: p.collaborators[i].id
  {
  }
}
