# AR Pinboard: tap hit test and frame controller

A Dafny model of the interactive core of the AR Pinboard app's
`HelloArActivity`. The app shows a pinboard with two tiles (a news tile and a
funny tile) anchored in the world. A tap on the screen opens the tile it lands on.
The model has two parts.

- **Screen-space hit test** (`Geometry`, `HitTest`). The hit test, over exact reals:
  - it normalises the pixel touch point (`convertToFrame`);
  - it projects each model-space triangle vertex through the tile's
    model-view-projection matrix, lifted as a homogeneous vector with w = 0
    and with no perspective divide (`Matrix.multiplyMV`, column-major);
  - it classifies the point with the 2-D cross product `sign`, counting a hit
    when the three edge signs agree on "< 0";
  - it scans the triangles in order and stops at the first hit
    (`isMVPMatrixHitMotionEvent2`, `checkIfHit`).

  The two triangle-area helpers are modelled too, and so are their relations to `sign`.
- **Frame controller** (`FrameLoop`). `Controller` is a class with the
  activity's fields:
  - the bounded single-tap queue (capacity 16, a tap offered to a full queue is dropped);
  - the `isInitialPositionReceived` flag;
  - the pinboard anchor;
  - the anchor list;
  - the anchor matrix.

  `OnDrawFrame` is `onDrawFrame`:
  - it polls at most one tap per frame;
  - it hit-tests that tap only while the camera is TRACKING, the news tile before the funny tile;
  - it returns early on a PAUSED camera;
  - it creates the pinboard anchor behind the gate `!isInitialPositionReceived && initialPinboardAnchor == null`;
  - it copies the pose of every TRACKING anchor into the anchor matrix.

  `OnPause` and `OnResume` clear the flag.

ARCore is not modelled. It appears only as the values of a `FrameInput`:
- whether a session exists;
- whether `Session.update` threw;
- the camera's tracking state;
- the anchor `createAnchor` returns, or that it threw;
- each anchor's tracking state and pose matrix.

The triangle lists and the MVP matrices of the two tiles are inputs too, because
`ObjectRenderer` is not part of this model.

Three behaviours of the code differ from what one might expect, and the model follows the code:

- A triangle whose three edge signs are all zero is a HIT, not a miss. The
  code counts a point as inside when all three signs are `>= 0`. So a triangle whose vertices coincide
  contains every point, and a collinear triangle contains the points of its
  line (`DegenerateTriangle`, `CoincidentVerticesHit`).
- The pinboard anchor is not created once per resume cycle.
  `onPause` and `onResume` clear only `isInitialPositionReceived`,
  and `initialPinboardAnchor` is never cleared. So the gate opens at most once
  in the activity's lifetime (`CreationGateIsFirstAnchorOnly`,
  `PauseResumeCreatesNoSecondAnchor`).
- The projection keeps w = 0 and does no perspective divide. So the
  translation column of the MVP matrix never affects the hit test
  (`ProjectIgnoresTranslationAndDepth`).

## Model

| member | source | states |
|---|---|---|
| `Geometry.Project` | app/src/main/java/com/google/ar/core/examples/java/helloar/HelloArActivity.java:437-470 | a vertex lifted with w = 0 through column-major multiplyMV projects to (m0·x + m4·y + m8·z, m1·x + m5·y + m9·z); the z and w results are discarded |
| `Geometry.ProjectIgnoresTranslationAndDepth` | app/src/main/java/com/google/ar/core/examples/java/helloar/HelloArActivity.java:444-470 | two matrices that agree on entries 0, 1, 4, 5, 8, 9 project every vertex identically: the translation column m[12..15] and the z/w rows never matter |
| `Geometry.ProjectIsLinear` | app/src/main/java/com/google/ar/core/examples/java/helloar/HelloArActivity.java:441-466 | with w = 0 the projection maps the origin to (0, 0) and is additive and homogeneous |
| `Geometry.SignSymmetries` | app/src/main/java/com/google/ar/core/examples/java/helloar/HelloArActivity.java:505-507 | sign is invariant under cyclic rotation of its arguments and negated by any swap of two |
| `Geometry.SignSum` | app/src/main/java/com/google/ar/core/examples/java/helloar/HelloArActivity.java:505-507 | the three edge signs of any point sum to the sign of the triangle |
| `Geometry.AreasAgreeWithSign` | app/src/main/java/com/google/ar/core/examples/java/helloar/HelloArActivity.java:591-600 | the +5 offsets of calcTriangleArea cancel, so it equals calcTriangleAreaGeneral, and twice that is sign |
| `Geometry.ConvertToFrameClosedForm` | app/src/main/java/com/google/ar/core/examples/java/helloar/HelloArActivity.java:602-609 | for width, height > 0, convertToFrame gives (2px/width − 1, 1 − 2py/height) |
| `Geometry.PixelRoundTrip` | app/src/main/java/com/google/ar/core/examples/java/helloar/HelloArActivity.java:602-609 | mapping pixel → frame → pixel gives the pixel back, using px = (nx+1)·width/2 and py = (1−ny)·height/2 |
| `Geometry.FrameRoundTrip` | app/src/main/java/com/google/ar/core/examples/java/helloar/HelloArActivity.java:602-609 | mapping frame → pixel → frame gives the frame point back |
| `Geometry.ConvertToFrameCorners` | app/src/main/java/com/google/ar/core/examples/java/helloar/HelloArActivity.java:602-609 | the view's four corners map to (±1, ±1) with y flipped, and its centre maps to (0, 0) |
| `Geometry.ConvertToFrameInRange` | app/src/main/java/com/google/ar/core/examples/java/helloar/HelloArActivity.java:602-609 | a pixel is inside the view iff its normalised point is in [−1, 1]² |
| `Geometry.ConvertToFrameExample` | app/src/main/java/com/google/ar/core/examples/java/helloar/HelloArActivity.java:602-609 | in a 1000×2000 view, pixel (750, 500) maps to (0.5, 0.5) |
| `HitTest.SignTestRule` | app/src/main/java/com/google/ar/core/examples/java/helloar/HelloArActivity.java:482-494 | b1 == b2 == b3 holds iff all three edge signs are < 0, or all three are ≥ 0 |
| `HitTest.SignTestRotation` | app/src/main/java/com/google/ar/core/examples/java/helloar/HelloArActivity.java:484-494 | the per-triangle result is unchanged under (p1, p2, p3) → (p2, p3, p1) |
| `HitTest.SignTestReversed` | app/src/main/java/com/google/ar/core/examples/java/helloar/HelloArActivity.java:484-494 | with the winding reversed, a point is a hit iff all original signs are > 0 or all are ≤ 0; the two orders agree wherever no sign is zero |
| `HitTest.WindingPositive` | app/src/main/java/com/google/ar/core/examples/java/helloar/HelloArActivity.java:484-494 | a triangle with positive sign contains exactly the points with no negative edge sign, which is the closed triangle |
| `HitTest.WindingNegative` | app/src/main/java/com/google/ar/core/examples/java/helloar/HelloArActivity.java:484-494 | a triangle with negative sign contains exactly the points with three negative edge signs, which is the open triangle |
| `HitTest.DegenerateTriangle` | app/src/main/java/com/google/ar/core/examples/java/helloar/HelloArActivity.java:484-494 | a zero-sign triangle contains exactly the points whose three edge signs are all zero |
| `HitTest.CoincidentVerticesHit` | app/src/main/java/com/google/ar/core/examples/java/helloar/HelloArActivity.java:484-494 | three coincident projected vertices make every point a hit |
| `HitTest.CentroidEdgeSigns` | app/src/main/java/com/google/ar/core/examples/java/helloar/HelloArActivity.java:484-486 | each edge sign of the centroid is a third of the triangle's sign |
| `HitTest.CentroidIsHit` | app/src/main/java/com/google/ar/core/examples/java/helloar/HelloArActivity.java:484-494 | the centroid of every projected triangle is a hit, whatever the winding |
| `HitTest.EdgePointDependsOnWinding` | app/src/main/java/com/google/ar/core/examples/java/helloar/HelloArActivity.java:484-494 | on triangle (0,0),(1,0),(0,1), the hypotenuse point (0.5, 0.5) is a hit counter-clockwise and a miss clockwise |
| `HitTest.InnerPointHitInBothWindings` | app/src/main/java/com/google/ar/core/examples/java/helloar/HelloArActivity.java:484-494 | the inner point (0.25, 0.25) of that triangle is a hit in both windings |
| `HitTest.FarPointMissInBothWindings` | app/src/main/java/com/google/ar/core/examples/java/helloar/HelloArActivity.java:484-494 | the far point (5, 5) is a miss in both windings |
| `HitTest.EmptyObjectMisses` | app/src/main/java/com/google/ar/core/examples/java/helloar/HelloArActivity.java:433-502 | an object with no triangles is never hit |
| `HitTest.IsMvpHit` | app/src/main/java/com/google/ar/core/examples/java/helloar/HelloArActivity.java:426-503 | returns true iff some triangle contains the converted touch point; the scan stops at the first containing triangle, and every earlier one misses |
| `FrameLoop.TrackedAnchors` | app/src/main/java/com/google/ar/core/examples/java/helloar/HelloArActivity.java:356-359 | picks exactly the anchors in the list whose state is TRACKING, and no more than the list holds |
| `FrameLoop.CheckIfHit` | app/src/main/java/com/google/ar/core/examples/java/helloar/HelloArActivity.java:406-425 | true iff the tile contains the normalised tap |
| `FrameLoop.DispatchTap` | app/src/main/java/com/google/ar/core/examples/java/helloar/HelloArActivity.java:304-319 | no test without a tap or without TRACKING; otherwise tile 1 first, tile 2 only on a miss, at most one fragment opened |
| `FrameLoop.Controller.constructor` | app/src/main/java/com/google/ar/core/examples/java/helloar/HelloArActivity.java:82-90 | empty queue and anchor list, flag false, no pinboard anchor, zero anchor matrix |
| `FrameLoop.Controller.OnSingleTap` | app/src/main/java/com/google/ar/core/examples/java/helloar/HelloArActivity.java:234-237 | appends the tap below capacity 16, else leaves the queue unchanged; no other field changes |
| `FrameLoop.Controller.OnResume` | app/src/main/java/com/google/ar/core/examples/java/helloar/HelloArActivity.java:172-189 | with camera permission clears only the flag; otherwise nothing changes |
| `FrameLoop.Controller.OnPause` | app/src/main/java/com/google/ar/core/examples/java/helloar/HelloArActivity.java:192-203 | clears only the flag; the anchors are kept |
| `FrameLoop.Controller.PollTap` | app/src/main/java/com/google/ar/core/examples/java/helloar/HelloArActivity.java:301 | removes and returns the oldest tap, or None on an empty queue |
| `FrameLoop.Controller.DrawTrackedAnchors` | app/src/main/java/com/google/ar/core/examples/java/helloar/HelloArActivity.java:355-372 | draws exactly the TRACKING anchors in order; the anchor matrix ends as the last drawn anchor's pose, and is unchanged if none was drawn |
| `FrameLoop.Controller.OnDrawFrame` | app/src/main/java/com/google/ar/core/examples/java/helloar/HelloArActivity.java:280-378 | keeps `Valid()` and only grows the anchor list; without a session or when `Session.update` fails nothing changes; otherwise polls exactly the oldest tap and dispatches it as `DispatchTap` does; on a PAUSED camera creates no anchor and draws nothing; appends `createAnchor`'s anchor exactly when the gate is open and creation succeeds; then draws the TRACKING anchors |
| `FrameLoop.AtMostOneAnchor` | app/src/main/java/com/google/ar/core/examples/java/helloar/HelloArActivity.java:345-353 | under the invariant, the anchor list is empty or holds exactly the pinboard anchor |
| `FrameLoop.CreationGateIsFirstAnchorOnly` | app/src/main/java/com/google/ar/core/examples/java/helloar/HelloArActivity.java:345-353 | the creation gate is open iff no anchor exists yet, so the flag resets never reopen it |
| `FrameLoop.PauseResumeCreatesNoSecondAnchor` | app/src/main/java/com/google/ar/core/examples/java/helloar/HelloArActivity.java:345-353 | run resume, a frame, pause, resume and a frame in that order: only the first frame's anchor is ever in the list |

## Left out

- Rendering and GL are left out because they are foreign graphics calls.
  This covers the background, point cloud and plane renderers,
  `ObjectRenderer.draw`, `updateModelMatrix`, `glClear`, `glViewport` and
  surface setup. So the tiles' MVP matrices are inputs of each frame, and the
  model does not capture that drawing an anchor updates them.
- ARCore internals are abstract inputs of `FrameInput`. This covers
  `Session.update`, the camera and its matrices, `Pose.compose`, `makeTranslation`,
  `extractTranslation`, `Pose.toMatrix` and anchor refinement.
  The pinboard pose (1.5 units in front of the camera) is not computed.
- Android and UI plumbing is left out because it has no logic to verify. This
  covers fragment transactions, Toast, Snackbar, `runOnUiThread`, `Log`,
  permission prompts, the session-creation messages of `onCreate`,
  `onSurfaceCreated`, `onSurfaceChanged` and `onWindowFocusChanged`. A hit is reported as a `TileAction`.
- Concurrency between the input thread and the GL thread is left out. The
  `ArrayBlockingQueue` is modelled as a sequential bounded FIFO.
- The long-press queue (`mQueuedLongPress`) is left out: it is only offered to
  and never read.
- `isMVPMatrixHitMotionEvent` (the area-based test) is left out: nothing calls it.
  Its helper `calcTriangleArea` is modelled.
- Float rounding is left out: floats are exact reals.
  The NaN and Infinity that `convertToFrame` produces for a zero width or
  height are excluded by the `width > 0` and `height > 0` preconditions of
  `ConvertToFrame`, `IsMvpHit`, `CheckIfHit`, `DispatchTap` and `OnDrawFrame`.
- `OnDrawFrame`'s `catch (Throwable)` is modelled only for `Session.update`
  (nothing changes) and for `createAnchor` (the step stops after the tap was
  handled). An exception anywhere else is not modelled.
- The model classes `Pinboard`, `PinboardTiles`, `PinboardLocation` and
  `GeneratePinboardObject` are left out: they hold only getters, setters and
  fixed data.
