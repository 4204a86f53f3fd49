/** Screen and image geometry shared by the toolbar and the canvas.

    Screen points are client (viewport) coordinates in CSS pixels. Image
    points are offsets from the top-left corner of the image, measured in
    unzoomed image pixels. Coordinates are reals, so the conversions below
    are exact inverses of each other. */
module Geometry {

  datatype Option<T> = None | Some(value: T)

  datatype Point = Point(x: real, y: real)

  /** The part of a bounding client rectangle the components read. */
  datatype Rect = Rect(left: real, top: real, right: real, bottom: real)

  function Sub(a: Point, b: Point): Point
  {
    Point(a.x - b.x, a.y - b.y)
  }

  function TopLeft(r: Rect): Point
  {
    Point(r.left, r.top)
  }

  /** The top-left corner used to place things over the image; when the
      image element is not mounted its rectangle defaults to left = top = 0. */
  function Origin(image: Option<Rect>): Point
  {
    match image
    case Some(r) => TopLeft(r)
    case None => Point(0.0, 0.0)
  }

  /** The click test: all four edges of the rectangle count as inside. */
  predicate Contains(r: Rect, p: Point)
  {
    r.left <= p.x <= r.right && r.top <= p.y <= r.bottom
  }

  /** A screen point as an unzoomed offset from `origin`. */
  function ScreenToImage(origin: Point, p: Point, zoom: real): Point
    requires zoom != 0.0
  {
    Point((p.x - origin.x) / zoom, (p.y - origin.y) / zoom)
  }

  /** An image point put back on screen: `origin + q * zoom`. */
  function ImageToScreen(origin: Point, q: Point, zoom: real): Point
  {
    Point(origin.x + q.x * zoom, origin.y + q.y * zoom)
  }

  /** Converting a screen point to image coordinates and back gives the
      screen point again, for any origin and any non-zero zoom. */
  lemma ScreenImageRoundTrip(origin: Point, p: Point, zoom: real)
    requires zoom != 0.0
    ensures ImageToScreen(origin, ScreenToImage(origin, p, zoom), zoom) == p
  {
  }

  /** Putting an image point on screen and converting back gives the image
      point again. */
  lemma ImageScreenRoundTrip(origin: Point, q: Point, zoom: real)
    requires zoom != 0.0
    ensures ScreenToImage(origin, ImageToScreen(origin, q, zoom), zoom) == q
  {
  }

  /** With a positive zoom, a click lies in the rectangle exactly when its
      image coordinates lie in [0, width / zoom] x [0, height / zoom]. */
  lemma ContainsIffImageInBounds(r: Rect, p: Point, zoom: real)
    requires zoom > 0.0
    ensures Contains(r, p) <==>
      var q := ScreenToImage(TopLeft(r), p, zoom);
      0.0 <= q.x <= (r.right - r.left) / zoom && 0.0 <= q.y <= (r.bottom - r.top) / zoom
  {
  }
}
