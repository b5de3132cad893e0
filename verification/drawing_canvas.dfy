/** The browser's drawing surface (src/client/components/DrawingCanvas.ts):
    the stroke being captured, the element sent when a stroke ends, and the
    rendering of strokes drawn by others. Pixels are abstracted away: the
    canvas context is reduced to its current stroke colour and line width, and
    positions are integers. */
module DrawingCanvas {
  import opened Wrappers
  import opened Elements
  import Wire = WebSocketTypes
  import Session = WhiteboardSocketService

  /** The two context properties the component reads and writes. */
  datatype Context = Context(strokeStyle: string, lineWidth: int)

  const DefaultColor: string := "#000"
  const DefaultWidth: int := 2

  /** The context as `initializeCanvas` leaves it. */
  const InitialContext: Context := Context(DefaultColor, DefaultWidth)

  /** The capture state. */
  datatype Canvas = Canvas(isDrawing: bool, currentPath: seq<Position>, ctx: Context)

  const InitialCanvas: Canvas := Canvas(false, [], InitialContext)

  /** `startDrawing`: begins a new stroke at `pos`, dropping any earlier path. */
  function StartDrawing(c: Canvas, pos: Position): (c': Canvas)
    ensures c'.isDrawing && c'.currentPath == [pos] && c'.ctx == c.ctx
  {
    c.(isDrawing := true, currentPath := [pos])
  }

  /** `draw`: extends the stroke by one point, or does nothing between strokes. */
  function Draw(c: Canvas, pos: Position): (c': Canvas)
    ensures !c.isDrawing ==> c' == c
    ensures c.isDrawing ==> |c'.currentPath| == |c.currentPath| + 1
    ensures c.isDrawing ==> c'.currentPath[..|c.currentPath|] == c.currentPath
    ensures c.isDrawing ==> c'.currentPath[|c.currentPath|] == pos
    ensures c'.isDrawing == c.isDrawing && c'.ctx == c.ctx
  {
    if !c.isDrawing then c else c.(currentPath := c.currentPath + [pos])
  }

  /** `setColor` and `setLineWidth`. */
  function SetColor(c: Canvas, color: string): (c': Canvas)
    ensures c'.ctx.strokeStyle == color && c'.ctx.lineWidth == c.ctx.lineWidth
    ensures c'.isDrawing == c.isDrawing && c'.currentPath == c.currentPath
  {
    c.(ctx := c.ctx.(strokeStyle := color))
  }

  function SetLineWidth(c: Canvas, width: int): (c': Canvas)
    ensures c'.ctx.lineWidth == width && c'.ctx.strokeStyle == c.ctx.strokeStyle
    ensures c'.isDrawing == c.isDrawing && c'.currentPath == c.currentPath
  {
    c.(ctx := c.ctx.(lineWidth := width))
  }

  /** The element built for a finished stroke; `id` is the fresh UUID. */
  function StrokeElement(path: seq<Position>, ctx: Context, id: string): (e: WhiteboardElement)
    ensures e.id == id && e.kind == Tag(Drawing)
    ensures e.content == Content(None, None, Some(path))
    ensures e.position == Position(0, 0)
    ensures e.style == Some(Style(Some(ctx.strokeStyle), Some(ctx.lineWidth), None))
  {
    WhiteboardElement(id, Tag(Drawing), Content(None, None, Some(path)), Position(0, 0),
                      Some(Style(Some(ctx.strokeStyle), Some(ctx.lineWidth), None)))
  }

  /** What `stopDrawing` leaves behind: the canvas, what the session emitted,
      and the error the session threw, if any. */
  datatype Stopped = Stopped(canvas: Canvas, sent: seq<Wire.ClientRequest>, thrown: Option<string>)

  /** `stopDrawing`: a stroke of two or more points is sent through the
      session as a DRAWING element. If the session has no board the send
      throws, which happens after `isDrawing` is cleared but before the path
      is, so that path is kept until the next stroke starts. */
  function StopDrawing(c: Canvas, s: Session.Session, freshId: string): (r: Stopped)
    ensures !c.isDrawing ==> r == Stopped(c, [], None)
    ensures c.isDrawing ==> !r.canvas.isDrawing && r.canvas.ctx == c.ctx
    ensures |c.currentPath| < 2 ==> r.sent == [] && r.thrown.None?
    ensures c.isDrawing && |c.currentPath| >= 2 && Session.InBoard(s) ==>
      r.sent == [Wire.DrawElement(s.currentBoardId.value, StrokeElement(c.currentPath, c.ctx, freshId))]
    ensures c.isDrawing && |c.currentPath| >= 2 && !Session.InBoard(s) ==>
      r.sent == [] && r.thrown == Some(Session.NotConnected) && r.canvas.currentPath == c.currentPath
    ensures c.isDrawing && r.thrown.None? ==> r.canvas.currentPath == []
    ensures c.isDrawing && Session.InBoard(s) ==> r.thrown.None? && r.canvas.currentPath == []
  {
    if !c.isDrawing then Stopped(c, [], None)
    else
      var stopped := c.(isDrawing := false);
      if |c.currentPath| > 1 then
        var emitted := Session.DrawElement(s, StrokeElement(c.currentPath, c.ctx, freshId));
        if emitted.thrown.Some? then Stopped(stopped, [], emitted.thrown)
        else Stopped(stopped.(currentPath := []), emitted.sent, None)
      else Stopped(stopped.(currentPath := []), [], None)
  }

  /** A full stroke gesture (press, moves, release) on a board the session is
      in sends exactly the points visited, in order, as one DRAWING element. */
  lemma {:induction false} GestureSendsItsPoints(
    c: Canvas, start: Position, moves: seq<Position>, s: Session.Session, freshId: string)
    requires Session.InBoard(s)
    requires |moves| >= 1
    ensures var drawn := DrawAll(StartDrawing(c, start), moves);
      StopDrawing(drawn, s, freshId).sent ==
        [Wire.DrawElement(s.currentBoardId.value, StrokeElement([start] + moves, c.ctx, freshId))]
  {
    DrawAllAppends(StartDrawing(c, start), moves);
  }

  /** Successive `draw` events. */
  function DrawAll(c: Canvas, moves: seq<Position>): Canvas
    decreases |moves|
  {
    if moves == [] then c else DrawAll(Draw(c, moves[0]), moves[1..])
  }

  /** While drawing, the moves are appended to the path in order. */
  lemma {:induction false} DrawAllAppends(c: Canvas, moves: seq<Position>)
    requires c.isDrawing
    ensures DrawAll(c, moves) == c.(currentPath := c.currentPath + moves)
    decreases |moves|
  {
    if moves != [] {
      DrawAllAppends(Draw(c, moves[0]), moves[1..]);
      assert c.currentPath + [moves[0]] + moves[1..] == c.currentPath + moves;
    }
  }

  // ----- strokes drawn by others

  /** A polyline put on the canvas, with the style it was drawn in. */
  datatype Stroke = Stroke(points: seq<Position>, color: string, width: int)

  /** What rendering a remote path leaves: the context, the stroke drawn, and
      whether the call threw. */
  datatype Rendered = Rendered(ctx: Context, stroke: Option<Stroke>, threw: bool)

  /** `drawPath` as written: it sets the style, then reads `points[0]`, which
      throws when the points are missing or empty; the saved style is then
      never put back. */
  function DrawPathAsWritten(ctx: Context, points: Option<seq<Position>>, color: string, width: int): (r: Rendered)
    ensures points.Some? && points.value != [] ==> r == Rendered(ctx, Some(Stroke(points.value, color, width)), false)
    ensures points.None? || points.value == [] ==> r.threw && r.stroke.None? && r.ctx == Context(color, width)
  {
    var styled := Context(color, width);
    if points.None? || points.value == [] then Rendered(styled, None, true)
    else Rendered(ctx, Some(Stroke(points.value, color, width)), false)
  }

  /** A DRAWING element whose content has no points turns the local pen into
      the sender's colour and width for every later local stroke. */
  lemma DrawPathAsWrittenLeaksStyle()
    ensures var r := DrawPathAsWritten(InitialContext, Some([]), "red", 9);
      r.threw && r.ctx != InitialContext
  {
  }

  /** `drawPath` as intended: a path without points draws nothing, and the
      context is left as it was found in every case. */
  function DrawPath(ctx: Context, points: Option<seq<Position>>, color: string, width: int): (r: Rendered)
    ensures r.ctx == ctx && !r.threw
    ensures r.stroke.Some? <==> points.Some? && points.value != []
    ensures r.stroke.Some? ==> r.stroke.value == Stroke(points.value, color, width)
  {
    if points.None? || points.value == [] then Rendered(ctx, None, false)
    else Rendered(ctx, Some(Stroke(points.value, color, width)), false)
  }

  /** The two agree whenever the path has a point. */
  lemma DrawPathAgreesOnNonEmptyPaths(ctx: Context, points: seq<Position>, color: string, width: int)
    requires points != []
    ensures DrawPath(ctx, Some(points), color, width) == DrawPathAsWritten(ctx, Some(points), color, width)
  {
  }

  /** The colour and width a remote element asks for: the element's own when
      truthy, '#000' and 2 otherwise. */
  function RemoteStyle(element: WhiteboardElement): (ctx: Context)
    ensures element.style.None? || !Truthy(element.style.value.color) ==> ctx.strokeStyle == DefaultColor
    ensures element.style.Some? && Truthy(element.style.value.color) ==>
      ctx.strokeStyle == element.style.value.color.value
    ensures element.style.None? || element.style.value.strokeWidth in {None, Some(0)} ==>
      ctx.lineWidth == DefaultWidth
    ensures element.style.Some? && element.style.value.strokeWidth.Some?
            && element.style.value.strokeWidth.value != 0 ==>
      ctx.lineWidth == element.style.value.strokeWidth.value
  {
    if element.style.None? then InitialContext
    else Context(OrElse(element.style.value.color, DefaultColor),
                 NumOrElse(element.style.value.strokeWidth, DefaultWidth))
  }

  /** What receiving an element leaves: the canvas, the stroke drawn, and
      whether the listener threw. */
  datatype Received = Received(canvas: Canvas, stroke: Option<Stroke>, threw: bool)

  /** The `elementDrawn` listener as written: only DRAWING elements are
      rendered, through `drawPath` as written, so a DRAWING element without
      points throws and leaves its style on the local pen. */
  function OnElementDrawn(c: Canvas, element: WhiteboardElement): (r: Received)
    ensures element.kind != Tag(Drawing) ==> r == Received(c, None, false)
    ensures element.kind == Tag(Drawing) && element.content.points.Some? && element.content.points.value != [] ==>
      r == Received(c, Some(Stroke(element.content.points.value,
                                   RemoteStyle(element).strokeStyle, RemoteStyle(element).lineWidth)), false)
    ensures element.kind == Tag(Drawing) && (element.content.points.None? || element.content.points.value == []) ==>
      r == Received(c.(ctx := RemoteStyle(element)), None, true)
  {
    if element.kind != Tag(Drawing) then Received(c, None, false)
    else
      var style := RemoteStyle(element);
      var rendered := DrawPathAsWritten(c.ctx, element.content.points, style.strokeStyle, style.lineWidth);
      Received(c.(ctx := rendered.ctx), rendered.stroke, rendered.threw)
  }

  /** The listener with the corrected `drawPath`: the canvas is never changed
      and nothing throws; a stroke is drawn iff the element is a DRAWING with points. */
  function OnElementDrawnCorrected(c: Canvas, element: WhiteboardElement): (r: Received)
    ensures r.canvas == c && !r.threw
    ensures r.stroke.Some? <==>
      element.kind == Tag(Drawing) && element.content.points.Some? && element.content.points.value != []
    ensures r.stroke.Some? ==>
      r.stroke.value == Stroke(element.content.points.value,
                               RemoteStyle(element).strokeStyle, RemoteStyle(element).lineWidth)
  {
    if element.kind != Tag(Drawing) then Received(c, None, false)
    else
      var style := RemoteStyle(element);
      var rendered := DrawPath(c.ctx, element.content.points, style.strokeStyle, style.lineWidth);
      Received(c.(ctx := rendered.ctx), rendered.stroke, rendered.threw)
  }

  /** The written and the corrected listener differ only on DRAWING elements
      without points. */
  lemma ListenersAgreeExceptOnEmptyDrawings(c: Canvas, element: WhiteboardElement)
    ensures OnElementDrawn(c, element) == OnElementDrawnCorrected(c, element)
            <==> !(element.kind == Tag(Drawing)
                   && (element.content.points.None? || element.content.points.value == []))
  {
  }

  /** A stroke sent by one canvas and received by another is drawn there with
      the same points, colour and width it was captured with. */
  lemma {:induction false} StrokeRoundTrip(sender: Canvas, receiver: Canvas, freshId: string)
    requires |sender.currentPath| >= 2
    requires sender.ctx.strokeStyle != "" && sender.ctx.lineWidth != 0
    ensures OnElementDrawn(receiver, StrokeElement(sender.currentPath, sender.ctx, freshId))
            == Received(receiver, Some(Stroke(sender.currentPath, sender.ctx.strokeStyle, sender.ctx.lineWidth)), false)
  {
  }
}
