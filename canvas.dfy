/** The image canvas: a draggable, zoomable viewport (`ImageCanvas`) and the
    per-thread layout that pins each comment thread over the image
    (`StaticThread`). */
module Canvas {
  import opened Geometry

  // ---------------------------------------------------------------------
  // Zoom

  const MinZoom: real := 0.1
  const MaxZoom: real := 4.0
  /** The change of one click on the "+" or "-" button. */
  const ZoomStep: real := 0.2
  /** Zoom change per unit of wheel `deltaY` while ctrl is held. */
  const WheelFactor: real := 0.002

  predicate InZoomRange(z: real)
  {
    MinZoom <= z <= MaxZoom
  }

  /** JavaScript's `Math.min` on two numbers. */
  function Min(a: real, b: real): real
  {
    if a <= b then a else b
  }

  /** JavaScript's `Math.max` on two numbers. */
  function Max(a: real, b: real): real
  {
    if a >= b then a else b
  }

  /** The "+" button: one step up, capped at the maximum zoom only. */
  function ZoomedIn(z: real): (r: real)
    ensures r <= MaxZoom
    ensures r <= z + ZoomStep
    ensures z <= MaxZoom ==> z <= r
    ensures InZoomRange(z) ==> InZoomRange(r)
    ensures z + ZoomStep <= MaxZoom ==> r == z + ZoomStep
    ensures MaxZoom <= z + ZoomStep ==> r == MaxZoom
  {
    Min(z + ZoomStep, MaxZoom)
  }

  /** The "-" button: one step down, floored at the minimum zoom only. */
  function ZoomedOut(z: real): (r: real)
    ensures r >= MinZoom
    ensures r >= z - ZoomStep
    ensures z >= MinZoom ==> r <= z
    ensures InZoomRange(z) ==> InZoomRange(r)
    ensures MinZoom <= z - ZoomStep ==> r == z - ZoomStep
    ensures z - ZoomStep <= MinZoom ==> r == MinZoom
  {
    Max(z - ZoomStep, MinZoom)
  }

  /** Ctrl + wheel: scroll down (positive `deltaY`) zooms out, scroll up
      zooms in, and the result is clamped to the zoom range whatever the
      current zoom and the wheel delta are. */
  function WheelZoomed(z: real, deltaY: real): (r: real)
    ensures InZoomRange(r)
    ensures InZoomRange(z) && deltaY >= 0.0 ==> r <= z
    ensures InZoomRange(z) && deltaY <= 0.0 ==> z <= r
    ensures InZoomRange(z - deltaY * WheelFactor) ==> r == z - deltaY * WheelFactor
    ensures z - deltaY * WheelFactor <= MinZoom ==> r == MinZoom
    ensures MaxZoom <= z - deltaY * WheelFactor ==> r == MaxZoom
  {
    Min(MaxZoom, Max(MinZoom, z - deltaY * WheelFactor))
  }

  /** One "-" click undoes one "+" click that was not capped. */
  lemma ZoomOutUndoesZoomIn(z: real)
    requires InZoomRange(z) && z + ZoomStep <= MaxZoom
    ensures ZoomedOut(ZoomedIn(z)) == z
  {
  }

  /** One "+" click undoes one "-" click that was not floored. */
  lemma ZoomInUndoesZoomOut(z: real)
    requires InZoomRange(z) && z - ZoomStep >= MinZoom
    ensures ZoomedIn(ZoomedOut(z)) == z
  {
  }

  // ---------------------------------------------------------------------
  // Dragging

  /** The grab offset recorded when a drag starts: pointer minus image position. */
  function GrabOffset(client: Point, position: Point): Point
  {
    Sub(client, position)
  }

  /** The image position while dragging: pointer minus the grab offset. */
  function DraggedPosition(client: Point, offset: Point): Point
  {
    Sub(client, offset)
  }

  /** A drag moves the image by exactly the pointer's movement since the
      drag started: no smoothing, no inertia. */
  lemma DragFollowsPointer(start: Point, position: Point, client: Point)
    ensures Sub(DraggedPosition(client, GrabOffset(start, position)), position) == Sub(client, start)
  {
  }

  /** The viewport state of the `ImageCanvas` component. */
  class ImageCanvas {
    var position: Point
    var dragging: bool
    var offset: Point
    var zoom: real

    /** Where the pointer and the image were when the current (or the last)
        drag started. */
    ghost var grabClient: Point
    ghost var grabPosition: Point

    ghost predicate Valid()
      reads this
    {
      InZoomRange(zoom) && offset == GrabOffset(grabClient, grabPosition)
    }

    constructor ()
      ensures Valid()
      ensures position == Point(400.0, 0.0) && zoom == 1.0
      ensures !dragging && offset == Point(0.0, 0.0)
    {
      position := Point(400.0, 0.0);
      dragging := false;
      offset := Point(0.0, 0.0);
      zoom := 1.0;
      grabClient := Point(0.0, 0.0);
      grabPosition := Point(0.0, 0.0);
    }

    /** Mouse down on the image: start dragging and remember the grab offset. */
    method StartDrag(client: Point)
      requires Valid()
      modifies this
      ensures Valid()
      ensures dragging && offset == GrabOffset(client, old(position))
      ensures grabClient == client && grabPosition == old(position)
      ensures position == old(position) && zoom == old(zoom)
    {
      dragging := true;
      offset := GrabOffset(client, position);
      grabClient, grabPosition := client, position;
    }

    /** Mouse move over the image: while dragging, the image follows the
        pointer, displaced from where the drag started by exactly the
        pointer's movement; otherwise nothing changes. */
    method OnDrag(client: Point)
      requires Valid()
      modifies this`position
      ensures Valid()
      ensures dragging ==> position == DraggedPosition(client, offset)
      ensures dragging ==> Sub(position, grabPosition) == Sub(client, grabClient)
      ensures !dragging ==> position == old(position)
    {
      if !dragging {
        return;
      }
      position := DraggedPosition(client, offset);
      DragFollowsPointer(grabClient, grabPosition, client);
    }

    /** Mouse up or mouse leave: stop dragging; position and zoom stay. */
    method StopDrag()
      requires Valid()
      modifies this`dragging
      ensures Valid() && !dragging
    {
      dragging := false;
    }

    method ZoomIn()
      requires Valid()
      modifies this`zoom
      ensures Valid() && zoom == ZoomedIn(old(zoom))
    {
      zoom := ZoomedIn(zoom);
    }

    method ZoomOut()
      requires Valid()
      modifies this`zoom
      ensures Valid() && zoom == ZoomedOut(old(zoom))
    {
      zoom := ZoomedOut(zoom);
    }

    /** The window's wheel listener: only a ctrl + wheel zooms. */
    method HandleWheel(ctrlKey: bool, deltaY: real)
      requires Valid()
      modifies this`zoom
      ensures Valid()
      ensures zoom == if ctrlKey then WheelZoomed(old(zoom), deltaY) else old(zoom)
    {
      if ctrlKey {
        zoom := WheelZoomed(zoom, deltaY);
      }
    }
  }

  // ---------------------------------------------------------------------
  // Thread layout

  /** The fixed footprint of an open comment box. */
  const CommentWidth: real := 348.0
  const CommentHeight: real := 150.0

  /** A comment thread as read from the collaboration service: its id and
      the metadata this component reads (`x`, `y` in image coordinates and
      an optional `zIndex`). */
  datatype Thread = Thread(id: string, x: real, y: real, zIndex: Option<int>)

  datatype WindowSize = WindowSize(innerWidth: real, innerHeight: real)

  /** What one `StaticThread` renders with. */
  datatype ThreadView = ThreadView(anchor: Point, nearRightEdge: bool, nearBottomEdge: bool, zIndex: int)

  /** The update-metadata request sent on pointer-down. */
  datatype MetadataEdit = MetadataEdit(threadId: string, zIndex: int)

  function StoredPoint(t: Thread): Point
  {
    Point(t.x, t.y)
  }

  /** The stacking order a thread is drawn with, `metadata?.zIndex || 0`:
      an absent z-index draws at 0; among integers the only other falsy
      value is 0 itself, so a stored z-index is used as it is. */
  function RenderedZIndex(t: Thread): int
  {
    match t.zIndex
    case Some(z) => z
    case None => 0
  }

  predicate NearRightEdge(anchor: Point, window: WindowSize)
  {
    anchor.x + CommentWidth > window.innerWidth
  }

  predicate NearBottomEdge(anchor: Point, window: WindowSize)
  {
    anchor.y + CommentHeight > window.innerHeight
  }

  /** The screen columns and rows an unflipped comment box opened at
      `anchor` covers. */
  predicate BoxColumn(anchor: Point, px: real)
  {
    anchor.x <= px <= anchor.x + CommentWidth
  }

  predicate BoxRow(anchor: Point, py: real)
  {
    anchor.y <= py <= anchor.y + CommentHeight
  }

  /** Every column of the unflipped box lies inside the window. */
  ghost predicate FitsHorizontally(anchor: Point, window: WindowSize)
  {
    forall px :: BoxColumn(anchor, px) ==> px <= window.innerWidth
  }

  ghost predicate FitsVertically(anchor: Point, window: WindowSize)
  {
    forall py :: BoxRow(anchor, py) ==> py <= window.innerHeight
  }

  /** The box flips to the left exactly when, opened to the right, some
      column of it would fall past the window's right edge. A box whose
      right edge touches the window edge still fits (the test is strict). */
  lemma NearRightEdgeIffOverflow(anchor: Point, window: WindowSize)
    ensures NearRightEdge(anchor, window) <==> !FitsHorizontally(anchor, window)
  {
    if NearRightEdge(anchor, window) {
      assert BoxColumn(anchor, anchor.x + CommentWidth);
    }
  }

  /** The box flips upwards exactly when, opened downwards, some row of it
      would fall below the window's bottom edge. */
  lemma NearBottomEdgeIffOverflow(anchor: Point, window: WindowSize)
    ensures NearBottomEdge(anchor, window) <==> !FitsVertically(anchor, window)
  {
    if NearBottomEdge(anchor, window) {
      assert BoxRow(anchor, anchor.y + CommentHeight);
    }
  }

  /** One `StaticThread`: the anchor is the stored image point put on screen
      against the image's rectangle (left = top = 0 when it is missing). */
  function RenderThread(t: Thread, image: Option<Rect>, zoom: real, window: WindowSize): ThreadView
  {
    var anchor := ImageToScreen(Origin(image), StoredPoint(t), zoom);
    ThreadView(anchor, NearRightEdge(anchor, window), NearBottomEdge(anchor, window), RenderedZIndex(t))
  }

  /** `threads.map(StaticThread)`: one view per thread, in the same order. */
  function Layout(threads: seq<Thread>, image: Option<Rect>, zoom: real, window: WindowSize): (views: seq<ThreadView>)
    ensures |views| == |threads|
  {
    if threads == [] then []
    else [RenderThread(threads[0], image, zoom, window)] + Layout(threads[1..], image, zoom, window)
  }

  lemma {:induction false} LayoutAt(threads: seq<Thread>, image: Option<Rect>, zoom: real, window: WindowSize, i: nat)
    requires i < |threads|
    ensures Layout(threads, image, zoom, window)[i] == RenderThread(threads[i], image, zoom, window)
  {
    if i > 0 {
      LayoutAt(threads[1..], image, zoom, window, i - 1);
    }
  }

  /** Every laid-out thread sits where its stored image coordinates say:
      converting its screen anchor back gives exactly the stored point, its
      flip flags say whether its box would overflow the window, and it is
      drawn at its stored z-index. */
  lemma LayoutPlacesThread(threads: seq<Thread>, image: Option<Rect>, zoom: real, window: WindowSize, i: nat)
    requires i < |threads| && zoom != 0.0
    ensures var v := Layout(threads, image, zoom, window)[i];
      && ScreenToImage(Origin(image), v.anchor, zoom) == StoredPoint(threads[i])
      && (v.nearRightEdge <==> !FitsHorizontally(v.anchor, window))
      && (v.nearBottomEdge <==> !FitsVertically(v.anchor, window))
      && v.zIndex == RenderedZIndex(threads[i])
  {
    LayoutAt(threads, image, zoom, window, i);
    var v := Layout(threads, image, zoom, window)[i];
    ImageScreenRoundTrip(Origin(image), StoredPoint(threads[i]), zoom);
    NearRightEdgeIffOverflow(v.anchor, window);
    NearBottomEdgeIffOverflow(v.anchor, window);
  }

  /** Pointer-down on a thread asks for a z-index one above the current
      maximum. */
  function BringToFront(t: Thread, maxZIndex: int): (e: MetadataEdit)
    ensures e.threadId == t.id
    ensures e.zIndex > maxZIndex
  {
    MetadataEdit(t.id, maxZIndex + 1)
  }

  /** The collaboration service's effect of a metadata edit: the z-index of
      the thread with that id is overwritten, nothing else changes. */
  function ApplyEdit(threads: seq<Thread>, e: MetadataEdit): (after: seq<Thread>)
    ensures |after| == |threads|
    ensures forall i :: 0 <= i < |threads| ==>
      after[i] == if threads[i].id == e.threadId then threads[i].(zIndex := Some(e.zIndex)) else threads[i]
  {
    if threads == [] then []
    else
      var head := if threads[0].id == e.threadId then threads[0].(zIndex := Some(e.zIndex)) else threads[0];
      [head] + ApplyEdit(threads[1..], e)
  }

  /** Bringing a thread to front with `maxZIndex` at least every drawn
      z-index puts it strictly above every other thread, and leaves every
      other thread as it was. */
  lemma BringToFrontIsTopmost(threads: seq<Thread>, i: nat, maxZIndex: int)
    requires i < |threads|
    requires forall j :: 0 <= j < |threads| ==> RenderedZIndex(threads[j]) <= maxZIndex
    ensures var after := ApplyEdit(threads, BringToFront(threads[i], maxZIndex));
      forall j :: 0 <= j < |threads| && threads[j].id != threads[i].id ==>
        after[j] == threads[j] && RenderedZIndex(after[j]) < RenderedZIndex(after[i])
  {
  }
}
