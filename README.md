# Image canvas with pinned comment threads — verified model

This project models the logic inside the two React components of an image
viewer whose comments are threads pinned to points of the image:

- `Toolbar` (`src/components/Toolbar.tsx`) runs the placement workflow
  `initial → placing → placed → initial`. The "Add a comment" button starts
  placing. A click inside the image's rectangle is converted from screen
  coordinates to unzoomed image coordinates and stored. The composer is
  drawn back at that point, and submitting it sends one create-thread
  request with metadata `{x, y, zIndex: maxZIndex + 1}`. Cancel returns to
  `initial`.
- `ImageCanvas` (`src/components/ImageCanvas.tsx`) holds the viewport:
  position, drag state, grab offset and zoom. Dragging moves the image by
  exactly the pointer's movement. The zoom buttons step by 0.2, and ctrl +
  wheel zooms continuously. `StaticThread` places each thread on screen at
  `left + x·zoom`, `top + y·zoom`. It flips the comment box when a
  348×150 box would overflow the window, and pointer-down brings the thread
  to front with `maxZIndex + 1`.

Files:

- `geometry.dfy` (module `Geometry`): points, rectangles, the inclusive
  click test, the screen/image conversions and their round trips.
- `toolbar.dfy` (module `CommentToolbar`): the `Toolbar` class. Its
  fields mirror the component's `state` and `coords`, plus the log of sent
  create requests.
- `canvas.dfy` (module `Canvas`): the zoom functions, the `ImageCanvas`
  class, and the `StaticThread` layout, edge flags and z-order.

Coordinates are `real`, so the conversions are exact and the round trips
hold with equality. The stateful parts are classes whose fields are the
components' `useState` variables. Each event handler is a method that says
what the new state is. `ImageCanvas.Valid()` keeps the zoom in [0.1, 4].
It also keeps the grab offset equal to the pointer position minus the image
position at the start of the drag, so every `OnDrag` is proved to move
the image by the pointer's displacement since `StartDrag`.

Inputs from outside the components are parameters. These are the
image's bounding rectangle (`Option<Rect>`, `None` when the element is not
mounted), the window size, the click or pointer position, the wheel event,
and `maxZIndex`. The Liveblocks calls are output values. A create request
is appended to `Toolbar.created`, and an update-metadata request is the
value of `BringToFront`. `ApplyEdit` states what the collaboration service
does with such an update: it overwrites that thread's `zIndex`.

The zoom buttons clamp on one side only: `zoomIn` caps at 4 and `zoomOut`
floors at 0.1, so they keep the zoom in range only because it starts in
range; the wheel handler clamps on both sides for any input. When the image
rectangle is missing, anchors fall back to left = top = 0 and the edge flags
are still computed from them.

## Model

| member | source | states |
|---|---|---|
| Geometry.ScreenImageRoundTrip | src/components/Toolbar.tsx:116-119 | Converting a click to image coordinates (`(client - left)/zoom`) and drawing it back (`left + coords·zoom`) returns exactly the click, for any rectangle and any non-zero zoom |
| Geometry.ImageScreenRoundTrip | src/components/ImageCanvas.tsx:107-108 | A thread's screen anchor converts back to exactly its stored image coordinates, for any non-zero zoom |
| Geometry.ContainsIffImageInBounds | src/components/Toolbar.tsx:28-37 | With zoom > 0, a click is inside the rectangle (all four edges inclusive) if and only if its image coordinates lie in [0, width/zoom] × [0, height/zoom] |
| Canvas.ZoomedIn | src/components/ImageCanvas.tsx:32 | The "+" result is exactly one 0.2 step up when that stays at or below 4, and exactly 4 otherwise. It never exceeds 4, does not zoom out from a zoom ≤ 4, and keeps a zoom in [0.1, 4] in that range |
| Canvas.ZoomedOut | src/components/ImageCanvas.tsx:33 | The "-" result is exactly one 0.2 step down when that stays at or above 0.1, and exactly 0.1 otherwise. It is never below 0.1, does not zoom in from a zoom ≥ 0.1, and keeps a zoom in [0.1, 4] in that range |
| Canvas.WheelZoomed | src/components/ImageCanvas.tsx:39 | For any zoom and any deltaY the result is in [0.1, 4]. From an in-range zoom, scrolling down never zooms in and scrolling up never zooms out. Inside the range the change is exactly `-deltaY·0.002`; a scroll that would overshoot stops exactly at 0.1 or 4 |
| Canvas.ZoomOutUndoesZoomIn | src/components/ImageCanvas.tsx:32-33 | A "-" click after an uncapped "+" click restores the zoom exactly |
| Canvas.ZoomInUndoesZoomOut | src/components/ImageCanvas.tsx:32-33 | A "+" click after an unfloored "-" click restores the zoom exactly |
| Canvas.DragFollowsPointer | src/components/ImageCanvas.tsx:20-28 | Position after a drag move, minus the position at drag start, equals the pointer's displacement since drag start |
| Canvas.ImageCanvas.constructor | src/components/ImageCanvas.tsx:11-14 | The initial viewport is at (400, 0) with zoom 1, not dragging and a zero offset |
| Canvas.ImageCanvas.StartDrag | src/components/ImageCanvas.tsx:20-23 | Mouse down starts dragging and records offset = pointer − position. Position and zoom are unchanged |
| Canvas.ImageCanvas.OnDrag | src/components/ImageCanvas.tsx:25-28 | While dragging, the position is pointer − offset, so the image has moved by exactly the pointer's displacement since `StartDrag`. When not dragging, nothing changes |
| Canvas.ImageCanvas.StopDrag | src/components/ImageCanvas.tsx:30 | Dragging stops. Position, offset and zoom are untouched (frame) |
| Canvas.ImageCanvas.ZoomIn | src/components/ImageCanvas.tsx:32 | The zoom becomes the "+" step of the old zoom and stays in [0.1, 4] |
| Canvas.ImageCanvas.ZoomOut | src/components/ImageCanvas.tsx:33 | The zoom becomes the "-" step of the old zoom and stays in [0.1, 4] |
| Canvas.ImageCanvas.HandleWheel | src/components/ImageCanvas.tsx:36-41 | A ctrl + wheel sets the clamped wheel zoom. Without ctrl the zoom is unchanged. The zoom stays in [0.1, 4] |
| Canvas.NearRightEdgeIffOverflow | src/components/ImageCanvas.tsx:111 | The box flips horizontally exactly when a 348-wide box opened rightwards would have a column past `innerWidth`. A box whose right edge touches the window edge does not flip |
| Canvas.NearBottomEdgeIffOverflow | src/components/ImageCanvas.tsx:112 | The box flips vertically exactly when a 150-high box opened downwards would have a row below `innerHeight`. Touching the edge does not flip |
| Canvas.Layout | src/components/ImageCanvas.tsx:73-75 | `threads.map(StaticThread)` yields one view per thread |
| Canvas.LayoutAt | src/components/ImageCanvas.tsx:73-75 | The i-th view is the `StaticThread` rendering of the i-th thread, in the same order |
| Canvas.LayoutPlacesThread | src/components/ImageCanvas.tsx:99-112 | Each thread's anchor converts back to its stored coordinates, using left = top = 0 when the rectangle is missing. Its flip flags say whether its box would overflow the window, and it is drawn at its stored z-index or at 0 |
| Canvas.BringToFront | src/components/ImageCanvas.tsx:117-122 | Pointer-down requests an update for this thread's id with a z-index strictly above `maxZIndex` |
| Canvas.ApplyEdit | src/components/ImageCanvas.tsx:117-122 | The update overwrites the z-index of the thread with that id. Every other thread and the order are unchanged |
| Canvas.BringToFrontIsTopmost | src/components/ImageCanvas.tsx:117-127 | If `maxZIndex` is at least every drawn z-index (absent counts as 0), the brought-forward thread is drawn strictly above every thread with a different id, and those threads are unchanged |
| CommentToolbar.Toolbar.constructor | src/components/Toolbar.tsx:10-11 | The toolbar starts in `initial` with coords (0, 0) and no requests sent |
| CommentToolbar.Toolbar.Reset | src/components/Toolbar.tsx:13-16 | Cancel returns to `initial` with coords (0, 0) from any state. The request log is untouched |
| CommentToolbar.Toolbar.AddComment | src/components/Toolbar.tsx:50 | The button sets `placing` from any state and leaves coords untouched |
| CommentToolbar.Toolbar.PlaceComment | src/components/Toolbar.tsx:22-42 | Handled only while `placing`. A click inside the mounted image moves to `placed` and stores the click in image coordinates, and the composer is then drawn exactly at the click. A click outside, or with no image, changes nothing |
| CommentToolbar.Toolbar.Submit | src/components/Toolbar.tsx:144-155 | Handled only once `placed`. Sends exactly one create request with the pending coords and z-index `maxZIndex + 1`, then returns to `initial` without clearing coords |
| CommentToolbar.PlacementCycle | src/components/Toolbar.tsx:48-93 | Add → inside click → submit on a fresh toolbar ends in `initial` with exactly one request. Its coordinates lie within the image's unzoomed bounds and draw back onto the click, and its z-index exceeds `maxZIndex` |

## Left out

- Rendering, JSX, CSS classes, the zoom transition and `NewThreadCursor`. The cursor only copies the mouse position through DOM listeners and stores nothing the workflow reads.
- Liveblocks (`useThreads`, `useCreateThread`, `useEditThreadMetadata`, `useUser`, `useSelf`, `Composer`, `Thread`). Create and update-metadata are recorded as request values. Persistence, sync and the asynchronous replies belong to the service. `ApplyEdit` states only the metadata overwrite the update asks for.
- `useMaxZIndex` and `useNearEdge` from `src/hooks`, which are not part of this model. `maxZIndex` is a parameter. The composer's flip flags come from `useNearEdge` and are not modelled.
- DOM measurement (`getBoundingClientRect`, `window.innerWidth/innerHeight`) and listener registration. Rectangles, window size and events are parameters.
- IEEE floating point. Repeated 0.2 steps and the wheel product are exact reals here. JavaScript division by a zero zoom (Infinity/NaN) is not modelled: `PlaceComment` requires a non-zero zoom, which the canvas guarantees by keeping it in [0.1, 4].
- React's batched, asynchronous state updates. Each handler is modelled as taking effect before the next event is handled.
- Avatar and identity rendering, and each thread's open/closed popup toggle. These are presentation.
- Canvas.BringToFront: its contract states `zIndex > maxZIndex`, the property the stacking relies on, and not the exact value `maxZIndex + 1`, which is its body.
