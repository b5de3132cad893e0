/** Records shared by the server and the browser client: element types,
    positions, styles, element contents, users, and the mapped board the
    service hands out. Numbers are abstracted to `int`. */
module Elements {
  import opened Wrappers

  /** The closed set of element kinds of src/boards/dto/create-element.dto.ts. */
  datatype ElementType = Drawing | Shape | Text | StickyNote | Image | Link

  /** The string tag that stands for each kind on the wire and in the store. */
  function Tag(t: ElementType): string {
    match t
    case Drawing => "DRAWING"
    case Shape => "SHAPE"
    case Text => "TEXT"
    case StickyNote => "STICKY_NOTE"
    case Image => "IMAGE"
    case Link => "LINK"
  }

  /** Reads a string tag back into a kind; `None` for any other string, which
      the request validation lets through because it only checks for a string. */
  function ParseTag(s: string): (r: Option<ElementType>)
    ensures forall t :: Tag(t) == s ==> r == Some(t)
    ensures r.Some? ==> Tag(r.value) == s
  {
    if s == "DRAWING" then Some(Drawing)
    else if s == "SHAPE" then Some(Shape)
    else if s == "TEXT" then Some(Text)
    else if s == "STICKY_NOTE" then Some(StickyNote)
    else if s == "IMAGE" then Some(Image)
    else if s == "LINK" then Some(Link)
    else None
  }

  /** JavaScript truthiness of an optional string: present and non-empty. */
  predicate Truthy(s: Option<string>) {
    s.Some? && s.value != ""
  }

  /** JavaScript `s || fallback` on an optional string. */
  function OrElse(s: Option<string>, fallback: string): (r: string)
    ensures Truthy(s) ==> r == s.value
    ensures !Truthy(s) ==> r == fallback
  {
    if Truthy(s) then s.value else fallback
  }

  /** JavaScript `n || fallback` on an optional number (0 is falsy). */
  function NumOrElse(n: Option<int>, fallback: int): (r: int)
    ensures n.Some? && n.value != 0 ==> r == n.value
    ensures n.None? || n.value == 0 ==> r == fallback
  {
    if n.Some? && n.value != 0 then n.value else fallback
  }

  datatype Position = Position(x: int, y: int)

  /** The style fields the core reads; any other style keys are carried
      along opaquely and are not modelled. */
  datatype Style = Style(
    color: Option<string>,
    strokeWidth: Option<int>,
    backgroundColor: Option<string>)

  /** The type-dependent payload of an element. */
  datatype Content = Content(
    text: Option<string>,
    url: Option<string>,
    points: Option<seq<Position>>)

  /** An element as the browser client builds and relays it (`type` is any string). */
  datatype WhiteboardElement = WhiteboardElement(
    id: string,
    kind: string,
    content: Content,
    position: Position,
    style: Option<Style>)

  /** `Partial<WhiteboardElement>`: the updates carried by an update event. */
  datatype WhiteboardPatch = WhiteboardPatch(
    id: Option<string>,
    kind: Option<string>,
    content: Option<Content>,
    position: Option<Position>,
    style: Option<Style>)

  /** An element as the board service returns it; timestamps are opaque ints. */
  datatype BoardElement = BoardElement(
    id: string,
    kind: ElementType,
    content: Content,
    position: Position,
    style: Option<Style>,
    boardId: string,
    createdAt: int,
    updatedAt: int)

  /** The public summary of a user. */
  datatype User = User(id: string, email: string, name: string)

  /** A board as the board service returns it. */
  datatype Board = Board(
    id: string,
    name: string,
    description: Option<string>,
    ownerId: string,
    owner: User,
    collaborators: seq<User>,
    elements: seq<BoardElement>,
    createdAt: int,
    updatedAt: int)

  /** The ids of a board's collaborators, ignoring their order. */
  function CollaboratorIds(b: Board): set<string> {
    set i | 0 <= i < |b.collaborators| :: b.collaborators[i].id
  }
}
