/** The pure parts of the board service (src/boards/board.service.ts): the
    not-found rule of `getBoard`, the partial-update patch, and which elements
    become image composites or PDF drawing commands on export. The store is an
    abstract map from board id to board row. */
module BoardService {
  import opened Wrappers
  import opened Elements
  import opened PrismaTypes
  import opened HttpExceptionFilter

  /** The board table, keyed by board id. */
  type Store = map<string, PrismaBoard>

  const BoardNotFound: string := "Board not found"

  /** `getBoard`: the mapped board, or NotFound when no row has that id. */
  function GetBoard(store: Store, boardId: string): (r: Result<Board, Thrown>)
    ensures r.Failure? <==> boardId !in store
    ensures r.Failure? ==> r.error == NotFoundException(BoardNotFound)
    ensures r.Success? ==> r.value == MapBoard(store[boardId])
  {
    if boardId in store then Success(MapBoard(store[boardId]))
    else Failure(NotFoundException(BoardNotFound))
  }

  // ----- updateElement: the patch handed to the store

  /** `Partial<CreateElementDto>` as it arrives in a request body; `id` and
      `boardId` stand for fields a body may carry that the patch must ignore. */
  datatype ElementUpdates = ElementUpdates(
    kind: Option<string>,
    content: Option<Content>,
    position: Option<Position>,
    style: Option<Style>,
    id: Option<string>,
    boardId: Option<string>)

  /** The update data sent to the store: only these four columns can appear. */
  datatype ElementPatch = ElementPatch(
    kind: Option<string>,
    content: Option<Content>,
    position: Option<Position>,
    style: Option<Style>)

  const EmptyPatch: ElementPatch := ElementPatch(None, None, None, None)

  /** Copies each field whose value is truthy; objects are always truthy, the
      type string only when non-empty. The JSON round trip is the identity on
      plain data. */
  function BuildPatch(updates: ElementUpdates): (p: ElementPatch)
    ensures p.kind.Some? <==> Truthy(updates.kind)
    ensures p.content.Some? <==> updates.content.Some?
    ensures p.position.Some? <==> updates.position.Some?
    ensures p.style.Some? <==> updates.style.Some?
    ensures p.kind.Some? ==> p.kind == updates.kind
    ensures p.content.Some? ==> p.content == updates.content
    ensures p.position.Some? ==> p.position == updates.position
    ensures p.style.Some? ==> p.style == updates.style
  {
    ElementPatch(
      if Truthy(updates.kind) then updates.kind else None,
      updates.content,
      updates.position,
      updates.style)
  }

  /** A stand-in for the store's update of an element row by a patch: `None`
      when the type string names no element kind (the store's enum rejects
      it). Columns the store may maintain itself, such as `updatedAt`, are
      not modelled. */
  function ApplyPatch(e: PrismaElement, p: ElementPatch): Option<PrismaElement> {
    if p.kind.Some? && ParseTag(p.kind.value).None? then None
    else
      Some(e.(
        kind := if p.kind.Some? then ParseTag(p.kind.value).value else e.kind,
        content := p.content.GetOr(e.content),
        position := p.position.GetOr(e.position),
        style := if p.style.Some? then p.style else e.style))
  }

  /** Updates without truthy fields give the empty patch, which changes nothing. */
  lemma EmptyUpdatesGiveEmptyPatch(updates: ElementUpdates, e: PrismaElement)
    requires !Truthy(updates.kind)
    requires updates.content.None? && updates.position.None? && updates.style.None?
    ensures BuildPatch(updates) == EmptyPatch
    ensures ApplyPatch(e, BuildPatch(updates)) == Some(e)
  {
  }

  /** Whatever the body carries, the patch names none of the id, boardId or
      timestamp columns, and a field without a truthy update keeps its value. */
  lemma PatchKeepsIdentity(updates: ElementUpdates, e: PrismaElement)
    requires ApplyPatch(e, BuildPatch(updates)).Some?
    ensures var e' := ApplyPatch(e, BuildPatch(updates)).value;
      && e'.id == e.id && e'.boardId == e.boardId
      && e'.createdAt == e.createdAt && e'.updatedAt == e.updatedAt
      && (!Truthy(updates.kind) ==> e'.kind == e.kind)
      && (updates.content.None? ==> e'.content == e.content)
      && (updates.position.None? ==> e'.position == e.position)
      && (updates.style.None? ==> e'.style == e.style)
      && (updates.content.Some? ==> e'.content == updates.content.value)
  {
  }

  // ----- exportAsImage: which elements are composited, and where

  const ImageWidth: int := 1920
  const ImageHeight: int := 1080

  /** What is composited: an empty buffer for text, the url for an image. */
  datatype CompositeInput = EmptyBuffer | UrlInput(url: string)

  datatype Composite = Composite(input: CompositeInput, top: int, left: int)

  /** TEXT elements, and IMAGE elements with a truthy url. */
  predicate Composited(e: BoardElement) {
    e.kind == Text || (e.kind == Image && Truthy(e.content.url))
  }

  function CompositeOf(e: BoardElement): (c: Composite)
    requires Composited(e)
    ensures c.top == e.position.y && c.left == e.position.x
    ensures e.kind == Text ==> c.input == EmptyBuffer
    ensures e.kind == Image ==> c.input == UrlInput(e.content.url.value)
  {
    Composite(if e.kind == Text then EmptyBuffer else UrlInput(e.content.url.value),
              e.position.y, e.position.x)
  }

  /** `elements.map(...).filter(non-null)`. */
  function Composites(es: seq<BoardElement>): (r: seq<Composite>)
    ensures |r| <= |es|
    ensures forall i :: 0 <= i < |es| && Composited(es[i]) ==> CompositeOf(es[i]) in r
  {
    if es == [] then []
    else (if Composited(es[0]) then [CompositeOf(es[0])] else []) + Composites(es[1..])
  }

  /** How many elements of `es` are composited. */
  function CountComposited(es: seq<BoardElement>): nat {
    if es == [] then 0 else (if Composited(es[0]) then 1 else 0) + CountComposited(es[1..])
  }

  /** Composites keep board order: the composites of a concatenation are the
      concatenation of the composites. */
  lemma {:induction false} CompositesAppend(a: seq<BoardElement>, b: seq<BoardElement>)
    ensures Composites(a + b) == Composites(a) + Composites(b)
  {
    if a == [] {
      assert a + b == b;
    } else {
      assert (a + b)[1..] == a[1..] + b;
      CompositesAppend(a[1..], b);
    }
  }

  /** One composite per selected element, and every composite comes from one. */
  lemma {:induction false} CompositesExact(es: seq<BoardElement>)
    ensures |Composites(es)| == CountComposited(es)
    ensures forall c :: c in Composites(es) ==>
      exists i :: 0 <= i < |es| && Composited(es[i]) && c == CompositeOf(es[i])
  {
    if es != [] {
      CompositesExact(es[1..]);
      forall c | c in Composites(es)
        ensures exists i :: 0 <= i < |es| && Composited(es[i]) && c == CompositeOf(es[i])
      {
        if Composited(es[0]) && c == CompositeOf(es[0]) {
        } else {
          assert c in Composites(es[1..]);
          var j :| 0 <= j < |es[1..]| && Composited(es[1..][j]) && c == CompositeOf(es[1..][j]);
          assert es[j + 1] == es[1..][j];
        }
      }
    }
  }

  /** The image export of a board: a white 1920x1080 canvas and its composites. */
  datatype ImageExport = ImageExport(width: int, height: int, composites: seq<Composite>)

  function ExportAsImage(store: Store, boardId: string): (r: Result<ImageExport, Thrown>)
    ensures r.Failure? <==> boardId !in store
    ensures r.Failure? ==> r.error == NotFoundException(BoardNotFound)
    ensures r.Success? ==> r.value.width == ImageWidth && r.value.height == ImageHeight
    ensures r.Success? ==> r.value.composites == Composites(MapBoard(store[boardId]).elements)
  {
    match GetBoard(store, boardId)
    case Failure(e) => Failure(e)
    case Success(board) => Success(ImageExport(ImageWidth, ImageHeight, Composites(board.elements)))
  }

  // ----- exportAsPDF: the drawing commands issued for a board

  /** The pdfkit calls the export makes, in order. */
  datatype PdfCommand =
    | FontSize(size: int)
    | CenteredText(text: string)
    | TextAt(text: string, x: int, y: int)
    | Rect(x: int, y: int, width: int, height: int)
    | Fill(color: string)
    | StrokePath
    | MoveDown

  const TitleFontSize: int := 24
  const DescriptionFontSize: int := 12
  const ElementFontSize: int := 10
  const StickySize: int := 150
  const StickyTextInset: int := 10
  const StickyDefaultColor: string := "#fff9c4"

  /** Commands that put ink on the page (font size and line feed do not). */
  predicate Inks(c: PdfCommand) {
    !c.FontSize? && !c.MoveDown?
  }

  /** The title, the description when truthy, then a line feed. */
  function HeaderCommands(b: Board): (r: seq<PdfCommand>)
    ensures |r| == 5 <==> Truthy(b.description)
    ensures |r| == 3 <==> !Truthy(b.description)
    ensures r[..2] == [FontSize(TitleFontSize), CenteredText(b.name)]
    ensures r[|r| - 1] == MoveDown
    ensures |r| == 5 ==> r[2] == FontSize(DescriptionFontSize)
    ensures |r| == 5 ==> r[3] == CenteredText(b.description.value)
  {
    [FontSize(TitleFontSize), CenteredText(b.name)]
    + (if Truthy(b.description) then [FontSize(DescriptionFontSize), CenteredText(b.description.value)] else [])
    + [MoveDown]
  }

  /** The commands for one element: a font size for every element, then
      text for TEXT, a filled square with inset text for STICKY_NOTE, and
      nothing more for any other kind. */
  function ElementCommands(e: BoardElement): (r: seq<PdfCommand>)
    ensures |r| >= 1 && r[0] == FontSize(ElementFontSize)
    ensures (exists k :: 0 <= k < |r| && Inks(r[k])) <==> e.kind == Text || e.kind == StickyNote
    ensures e.kind != Text && e.kind != StickyNote ==> r == [FontSize(ElementFontSize)]
    ensures e.kind == Text ==> r[1..] == [TextAt(OrElse(e.content.text, ""), e.position.x, e.position.y)]
    ensures e.kind == StickyNote ==>
      && |r| == 5
      && r[1] == Rect(e.position.x, e.position.y, StickySize, StickySize)
      && r[2] == Fill(if e.style.Some? then OrElse(e.style.value.backgroundColor, StickyDefaultColor)
                      else StickyDefaultColor)
      && r[3] == StrokePath
      && r[4] == TextAt(OrElse(e.content.text, ""), r[1].x + StickyTextInset, r[1].y + StickyTextInset)
  {
    var text := OrElse(e.content.text, "");
    var x, y := e.position.x, e.position.y;
    [FontSize(ElementFontSize)] +
    (match e.kind
     case Text => [TextAt(text, x, y)]
     case StickyNote =>
       var background := if e.style.Some? then OrElse(e.style.value.backgroundColor, StickyDefaultColor)
                         else StickyDefaultColor;
       [Rect(x, y, StickySize, StickySize), Fill(background), StrokePath,
        TextAt(text, x + StickyTextInset, y + StickyTextInset)]
     case _ => [])
  }

  function ElementsCommands(es: seq<BoardElement>): seq<PdfCommand> {
    if es == [] then [] else ElementCommands(es[0]) + ElementsCommands(es[1..])
  }

  /** The element commands of a concatenation are the concatenated commands. */
  lemma {:induction false} ElementsCommandsAppend(a: seq<BoardElement>, b: seq<BoardElement>)
    ensures ElementsCommands(a + b) == ElementsCommands(a) + ElementsCommands(b)
  {
    if a == [] {
      assert a + b == b;
    } else {
      assert (a + b)[1..] == a[1..] + b;
      ElementsCommandsAppend(a[1..], b);
    }
  }

  /** A board with neither TEXT nor STICKY_NOTE elements draws no element at all. */
  lemma {:induction false} OnlyTextAndStickyNotesInk(es: seq<BoardElement>)
    requires forall i :: 0 <= i < |es| ==> es[i].kind != Text && es[i].kind != StickyNote
    ensures forall k :: 0 <= k < |ElementsCommands(es)| ==> !Inks(ElementsCommands(es)[k])
  {
    if es != [] {
      OnlyTextAndStickyNotesInk(es[1..]);
      var head, tail := ElementCommands(es[0]), ElementsCommands(es[1..]);
      assert ElementsCommands(es) == head + tail;
      forall k | 0 <= k < |head + tail| ensures !Inks((head + tail)[k]) {
        if k >= |head| {
          assert (head + tail)[k] == tail[k - |head|];
        }
      }
    }
  }

  /** How many text commands the elements produce. */
  function CountTexts(cs: seq<PdfCommand>): nat {
    if cs == [] then 0 else (if cs[0].TextAt? then 1 else 0) + CountTexts(cs[1..])
  }

  function CountLaidOut(es: seq<BoardElement>): nat {
    if es == [] then 0 else (if es[0].kind == Text || es[0].kind == StickyNote then 1 else 0) + CountLaidOut(es[1..])
  }

  lemma {:induction false} CountTextsAppend(a: seq<PdfCommand>, b: seq<PdfCommand>)
    ensures CountTexts(a + b) == CountTexts(a) + CountTexts(b)
  {
    if a == [] {
      assert a + b == b;
    } else {
      assert (a + b)[1..] == a[1..] + b;
      CountTextsAppend(a[1..], b);
    }
  }

  /** Exactly one text is written per TEXT or STICKY_NOTE element. */
  lemma {:induction false} OneTextPerLaidOutElement(es: seq<BoardElement>)
    ensures CountTexts(ElementsCommands(es)) == CountLaidOut(es)
  {
    if es != [] {
      var head := ElementCommands(es[0]);
      CountTextsAppend(head, ElementsCommands(es[1..]));
      OneTextPerLaidOutElement(es[1..]);
      var e := es[0];
      match e.kind {
        case Text =>
          assert CountTexts(head[1..][1..]) == 0;
          assert CountTexts(head) == 1;
        case StickyNote =>
          assert CountTexts(head[4..][1..]) == 0;
          assert CountTexts(head[4..]) == 1;
          assert CountTexts(head[3..]) == 1;
          assert CountTexts(head[2..]) == 1;
          assert CountTexts(head[1..]) == 1;
          assert CountTexts(head) == 1;
        case _ =>
          assert head == [FontSize(ElementFontSize)];
          assert CountTexts(head[1..]) == 0;
      }
    }
  }

  /** `exportAsPDF`: the header followed by the element commands in board order. */
  function ExportAsPdf(store: Store, boardId: string): (r: Result<seq<PdfCommand>, Thrown>)
    ensures r.Failure? <==> boardId !in store
    ensures r.Failure? ==> r.error == NotFoundException(BoardNotFound)
    ensures r.Success? ==>
      var b := MapBoard(store[boardId]);
      r.value == HeaderCommands(b) + ElementsCommands(b.elements)
  {
    match GetBoard(store, boardId)
    case Failure(e) => Failure(e)
    case Success(board) => Success(HeaderCommands(board) + ElementsCommands(board.elements))
  }
}
