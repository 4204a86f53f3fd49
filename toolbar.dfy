/** The comment toolbar: the "Add a comment" placement workflow and the
    composer that creates a new thread at the placed point. */
module CommentToolbar {
  import opened Geometry

  /** `initial`: nothing pending; `placing`: the crosshair follows the
      pointer and the next click on the image places the comment;
      `placed`: the composer is open at `coords`. */
  datatype PlacementState = Initial | Placing | Placed

  /** The create-thread request sent to the collaboration service; the
      body is opaque to this component. */
  datatype CreateRequest = CreateRequest(body: string, x: real, y: real, zIndex: int)

  /** The state of the `Toolbar` component and of the composer it opens. */
  class Toolbar {
    var state: PlacementState
    /** The pending comment position, in unzoomed image coordinates. */
    var coords: Point
    /** Every create-thread request sent so far, oldest first. */
    var created: seq<CreateRequest>

    constructor ()
      ensures state == Initial && coords == Point(0.0, 0.0) && created == []
    {
      state := Initial;
      coords := Point(0.0, 0.0);
      created := [];
    }

    /** Cancel (a click or a right click on the cancel overlay, or a right
        click on the placement target): back to `initial` with the pending
        position cleared, from any state. */
    method Reset()
      modifies this`state, this`coords
      ensures state == Initial && coords == Point(0.0, 0.0)
    {
      state := Initial;
      coords := Point(0.0, 0.0);
    }

    /** The "Add a comment" button, from any state. */
    method AddComment()
      modifies this`state
      ensures state == Placing
    {
      state := Placing;
    }

    /** A click on the placement target, which is rendered only while
        placing. With the image mounted and the click inside its rectangle,
        the click is stored in image coordinates and the composer opens;
        otherwise nothing changes. */
    method PlaceComment(image: Option<Rect>, click: Point, zoom: real)
      requires state == Placing
      requires zoom != 0.0
      modifies this`state, this`coords
      ensures image.Some? && Contains(image.value, click) ==>
        state == Placed && coords == ScreenToImage(TopLeft(image.value), click, zoom)
      ensures image.Some? && Contains(image.value, click) ==> ComposerPosition(image, zoom) == click
      ensures !(image.Some? && Contains(image.value, click)) ==> state == Placing && coords == old(coords)
    {
      if image.None? {
        return;
      }
      var rect := image.value;
      if Contains(rect, click) {
        coords := ScreenToImage(TopLeft(rect), click, zoom);
        state := Placed;
        ScreenImageRoundTrip(TopLeft(rect), click, zoom);
      }
    }

    /** Where the composer is drawn: the pending position put back on
        screen against the image's rectangle (left = top = 0 when the image
        is not mounted). */
    function ComposerPosition(image: Option<Rect>, zoom: real): Point
      reads this
    {
      ImageToScreen(Origin(image), coords, zoom)
    }

    /** Submitting the composer, which is rendered only once placed: one
        create-thread request carrying the pending position and a z-index
        above every existing thread, then back to `initial`. The pending
        position is not cleared. */
    method Submit(body: string, maxZIndex: int)
      requires state == Placed
      modifies this`state, this`created
      ensures created == old(created) + [CreateRequest(body, coords.x, coords.y, maxZIndex + 1)]
      ensures state == Initial
    {
      created := created + [CreateRequest(body, coords.x, coords.y, maxZIndex + 1)];
      state := Initial;
    }
  }

  /** One full placement cycle on a fresh toolbar: "Add a comment", a click
      inside the image, then submit. Exactly one request is sent; it stores
      the click in image coordinates, so drawn against the same rectangle
      and zoom it lands back on the click, and its z-index is above the
      current maximum. The toolbar ends in `initial`. */
  method PlacementCycle(image: Rect, click: Point, zoom: real, body: string, maxZIndex: int)
    returns (final: PlacementState, requests: seq<CreateRequest>)
    requires Contains(image, click) && zoom > 0.0
    ensures final == Initial && |requests| == 1
    ensures requests[0].body == body && requests[0].zIndex > maxZIndex
    ensures ImageToScreen(TopLeft(image), Point(requests[0].x, requests[0].y), zoom) == click
    ensures 0.0 <= requests[0].x <= (image.right - image.left) / zoom
    ensures 0.0 <= requests[0].y <= (image.bottom - image.top) / zoom
  {
    var toolbar := new Toolbar();
    toolbar.AddComment();
    toolbar.PlaceComment(Some(image), click, zoom);
    ContainsIffImageInBounds(image, click, zoom);
    toolbar.Submit(body, maxZIndex);
    final, requests := toolbar.state, toolbar.created;
  }
}
