# Orbit-camera cube viewer, modelled in Dafny

The viewer draws one coloured cube and lets the user turn it by dragging
the mouse and zoom with the wheel. This model covers its two cores:

- **the orbit controls** (`controls.js`): a state object holding two rotation
  angles in degrees and a camera distance, together with the drag state
  (whether a drag is under way, and the last mouse position). Five handlers
  update it: mouse-down, mouse-move, mouse-up, mouse-leave and wheel. The
  model is `controls.dfy`. `Controls.Step` and `Controls.Run` are the pure
  transition function and its fold over an event sequence.
  `Controls.OrbitControls` is the object whose handlers update its fields in
  place, and each handler is proved to perform exactly one `Step`. The
  distance stays in [2, 20] after any event sequence.
- **the transform pipeline and static geometry** (`main.js`):
  - `matrices.dfy` holds the column-major 4x4 matrices. It has the
    nested-loop `multiply` as a method over an array, proved equal to the
    column-wise product `Product`. It also has `translate`, `rotateX`,
    `rotateY` and `perspective`, and lemmas on what each does to points.
  - `geometry.dfy` holds the interleaved vertex buffer and the index buffer,
    with their layout and shape properties.
  - `render.dfy` holds the per-frame model-view-projection matrix,
    projection times view times model, built in the render loop's order.

Cosine and sine are not computed. A rotation takes an `Angle(cos, sin)`, and
the frame takes a function `trig` from degrees to such a pair. The
perspective's focal term `f` (the cotangent of half the field of view) is a
parameter. Numbers are exact reals.

The source never enables face culling, only depth testing. The
outward-winding lemmas in `geometry.dfy` are therefore properties of the
data, not something the renderer relies on.

## Model

| member | source | states |
|---|---|---|
| Controls.Initial | controls.js:5-14 | the initial state has distance 5 (inside [2, 20]) and no drag under way |
| Controls.ClampDistance | controls.js:55 | the result is in [2, 20]; it equals the input when the input is in range, and 2 or 20 when the input is below or above the range |
| Controls.Step | controls.js:19-56 | only the wheel changes the distance, and it lands in range; only a move while dragging changes the angles, each by half the pointer's motion since the last position (vertical motion about x, horizontal about y); a move while not dragging changes nothing; down starts a drag at the event position; up and leave end it; a dragging move records the new position; the wheel leaves the drag state alone |
| Controls.RunKeepsDistanceInRange | controls.js:48-56 | from any state whose distance is in [2, 20], every event sequence keeps it there |
| Controls.DistanceAlwaysInRange | controls.js:5-56 | after setup and any sequence of events, the distance is in [2, 20] |
| Controls.WheelZooms | controls.js:48-56 | the wheel adds deltaY * 0.005 to the distance, saturating at 2 and 20, and leaves the angles and the drag state unchanged |
| Controls.DragMovesTelescope | controls.js:26-39 | during a drag, a run of moves has the same effect as a single move to the last position |
| Controls.TwoMovesAsOne | controls.js:19-39 | down, move to p1, move to p2 ends in the same state as down and one move to p2 |
| Controls.DragExample | controls.js:29-38 | down at (100, 100) then a move to (110, 130) turns by 15 degrees about x and 5 about y, and records (110, 130) |
| Controls.ReleaseIdempotent | controls.js:42-45 | mouse-leave has the same effect as mouse-up, and repeating either changes nothing further |
| Controls.MovesAfterReleaseChangeNothing | controls.js:27-45 | when no drag is under way, any number of moves leaves the state unchanged |
| Controls.OrbitControls.constructor | controls.js:5-14 | the new object's state is the initial state, and the distance invariant holds |
| Controls.OrbitControls.MouseDown | controls.js:19-23 | sets dragging and stores the event position, leaving the orbit unchanged: exactly one mouse-down Step; keeps the distance invariant |
| Controls.OrbitControls.MouseMove | controls.js:26-39 | does nothing when not dragging; otherwise adds half of each mouse delta to the matching angle and stores the position: exactly one mouse-move Step |
| Controls.OrbitControls.MouseUp | controls.js:42 | clears the dragging flag and nothing else: exactly one mouse-up Step |
| Controls.OrbitControls.MouseLeave | controls.js:45 | clears the dragging flag and nothing else: exactly one mouse-leave Step |
| Controls.OrbitControls.Wheel | controls.js:48-56 | sets the distance to the clamped, scaled sum and leaves everything else unchanged: exactly one wheel Step; establishes the distance invariant from any state |
| Matrices.Product | main.js:104-110 | column i of the product is the left factor applied to column i of the right factor |
| Matrices.Multiply | main.js:104-110 | the nested loop's 16 entries form Product(a, b) |
| Matrices.ApplyProduct | main.js:104-110 | applying a product to a vector applies the right factor first, then the left |
| Matrices.ProductIdentityLeft | main.js:104-110 | the identity times m is m |
| Matrices.ProductIdentityRight | main.js:104-110 | m times the identity is m |
| Matrices.ProductAssociative | main.js:104-110 | (a b) c equals a (b c), so the render loop's grouping does not matter |
| Matrices.Translate | main.js:113-115 | the column-major layout of translate(x, y, z), as its action: each of x, y, z gains its offset times w, and w is kept |
| Matrices.TranslateZeroIsIdentity | main.js:113-115 | translate(0, 0, 0) is the identity |
| Matrices.TranslateMovesPoints | main.js:113-115 | a translation adds its offset to a point (w = 1) and leaves a direction (w = 0) unchanged |
| Matrices.TranslateCompose | main.js:113-115 | two translations compose to the translation by the summed offsets |
| Matrices.RotateX | main.js:118-122 | the layout of rotateX with c, s = cos, sin of the angle: it keeps x and w, and is the identity at angle zero |
| Matrices.RotateY | main.js:124-128 | the layout of rotateY with c, s = cos, sin of the angle: it keeps y and w, and is the identity at angle zero |
| Matrices.RotationsAtZeroAreIdentity | main.js:118-128 | rotateX and rotateY at angle zero are the identity |
| Matrices.RotateXTurnsYZ | main.js:118-122 | rotation about x fixes x and w and turns (y, z) by the angle |
| Matrices.RotateYTurnsZX | main.js:124-128 | rotation about y fixes y and w and turns (z, x) by the angle |
| Matrices.RotationsKeepLength | main.js:118-128 | for a genuine angle (cos² + sin² = 1), each rotation keeps a vector's distance from its axis |
| Matrices.RotateXCompose | main.js:118-122 | two rotations about x compose to the rotation by the sum of the angles |
| Matrices.RotateYCompose | main.js:124-128 | two rotations about y compose to the rotation by the sum of the angles |
| Matrices.RotateRoundTrip | main.js:118-128 | rotating by a genuine angle and then by its negation gives the identity, about either axis |
| Matrices.Perspective | main.js:92-101 | the layout of perspective with f = cot(fov / 2) given: x is scaled by f / aspect, y by f, and the clip w is the depth -z in front of the camera |
| Matrices.PerspectiveMapsDepthRange | main.js:92-101 | points on the near plane and the far plane map to clip depth -w and +w, with w equal to their distance from the camera |
| Geometry.RecordsAreCorners | main.js:16-23 | the vertex literal has 24 records, and every position is a corner of the cube [-1, 1]^3 |
| Geometry.Interleave | main.js:16-23 | float 6v + k of the buffer is field k of vertex record v (position, then colour), and the buffer holds 6 floats per record |
| Geometry.StrideReadsRecord | main.js:75-83 | reading three floats at stride 6, offset 0 or offset 3 gives back a record's position or colour |
| Geometry.AttributesReadRecords | main.js:75-83 | the buffer holds 144 floats; the stride is 24 bytes and the colour offset is 12 bytes; vertex v's position and colour attributes are record v's |
| Geometry.IndicesFollowFacePattern | main.js:26-33 | index i is 4 (i / 6) plus the face pattern 0, 1, 2, 0, 2, 3 at i mod 6 |
| Geometry.IndicesWellFormed | main.js:26-33 | there are 36 indices (12 triangles); every index names one of the 24 vertices, fits 16 bits, and lies within the face of its six-index group |
| Geometry.PatternCorners | main.js:26-33 | under the face pattern, triangle t has corners 4f, 4f+1, 4f+2 (even t) or 4f, 4f+2, 4f+3 (odd t), with f = t / 2 |
| Geometry.TriangleCorners | main.js:26-33 | the index buffer's triangle t has exactly those corners |
| Geometry.TrianglesStayInTheirFace | main.js:26-33 | every triangle's three corners are distinct vertices of face t / 2 |
| Geometry.RecordColorsUniform | main.js:16-23 | the four records of each face share a colour |
| Geometry.FacesAreUniformlyColored | main.js:16-23 | the colour read from the buffer for any vertex is the colour of its face's first vertex |
| Geometry.FaceTrianglesOutward | main.js:16-33 | on every face, both triangles of the face pattern wind counter-clockwise seen from outside the cube |
| Geometry.TrianglesFaceOutward | main.js:16-33 | each of the 12 indexed triangles, read through the position attribute, winds counter-clockwise seen from outside |
| Render.ProjectionMatrix | main.js:144 | the frame's projection (near 0.1, far 100) written out: f / aspect, f, depth entries -1001/999 and -200/999, and -1 in the w row |
| Render.ViewMatrix | main.js:147 | translate(0, 0, -distance) puts the cube's centre on the viewing axis, distance units in front of the camera |
| Render.ModelMatrix | main.js:150 | rotateX times rotateY turns the cube about its own centre, which it leaves in place |
| Render.FrameMatrix | main.js:153-154 | (projection times view) times model, as the render loop groups it, equals projection times (view times model) |
| Render.Render | main.js:139-154 | for controls keeping their invariant, the matrix built from their current state equals projection times view, times model, and it puts the cube's centre in the middle of the screen, in front of the camera and within the depth range |
| Render.FrameTransformsInOrder | main.js:143-154 | the frame matrix turns a vertex about y, then about x, then moves it away by the distance, then projects it |
| Render.InitialModelIsIdentity | main.js:149-150 | with the angles at zero, as after setup, the model matrix is the identity |
| Render.InitialFrame | main.js:143-154 | the first frame is, entry by entry, the perspective matrix with last column (0, 0, 4805/999, 5) |
| Render.InitialViewProjection | main.js:144-153 | the projection times translate(0, 0, -5) is, entry by entry, the perspective matrix with last column (0, 0, 4805/999, 5) |
| Render.ProjectOnAxis | main.js:144 | a point at depth d on the viewing axis projects to the screen centre with w = d and depth 999 z = 1001 d - 200 |
| Render.CentreInClipVolume | main.js:143-154 | for any distance in [2, 20] and any angles, the cube's centre projects to the screen centre with w = distance, strictly between the near and far planes |
| Render.CentreAlwaysVisible | main.js:143-154 | after setup and any sequence of mouse and wheel events, the cube's centre is in front of the camera, at the screen centre, and within the depth range |

## Left out

- WebGL calls are not part of this model (main.js:3-11, 37-87, 135-136, 141, 157-160): context creation, shader compilation and linking, buffer upload, attribute and uniform setup, clearing, depth testing, drawing. The numbers they are given (stride, offsets, index count) are modelled.
- The DOM is not part of this model: the canvas lookup, `addEventListener`, `preventDefault` on the wheel event, and `alert`. Event positions and wheel deltas are parameters of the handlers, and the canvas aspect ratio is a parameter of the frame.
- `requestAnimationFrame` and the render loop's repetition (main.js:163-167) are left out. `Render.Render` models one frame.
- `Math.tan`, `Math.sin` and `Math.cos` and the degree-to-radian conversion (main.js:93, 119-120, 125-126) are left out. Rotations take the cosine and sine as an `Angle`, the frame takes a `trig` function, and the perspective takes the focal term `f`. For this reason the field of view π/4 of main.js:144 does not appear.
- Float32 rounding of `Float32Array` entries and floating-point rounding in general are left out. Arithmetic is exact on reals.
- Matrices.Perspective: requires aspect != 0 and near != far, because Dafny's reals have no Infinity or NaN. The source divides by both without a guard. The render loop always passes near 0.1 and far 100, and the aspect ratio canvas.width / canvas.height (main.js:144). So the requires excludes a canvas of zero width and non-zero height, where the ratio is 0. A canvas of zero height is outside the model altogether: its ratio is Infinity, or NaN when the width is 0 too, and no real number holds either. The code does not reject near <= 0 or far <= near, and the model follows the code.
- Render.Render: requires aspect != 0, which excludes a zero-width canvas; a zero-height canvas has no real aspect ratio at all (see Matrices.Perspective above). It also requires the controls' `Valid()`, which the constructor establishes and every handler keeps.
- Render.ProjectionMatrix: requires aspect != 0, for the same reason as Render.Render. So does Render.FrameMatrix.
- Controls.OrbitControls.MouseDown: requires the distance invariant (the object's `Valid()`), which the constructor establishes and every handler keeps. The same holds for MouseMove, MouseUp and MouseLeave. Wheel needs no precondition, because it clamps. The handlers in the source have no precondition.
- The vertex literal of main.js:16-23 is written as 24 position/colour records (the constant `Geometry.CubeVertices`), flattened by `Geometry.Interleave` into the 144-float buffer `Geometry.Vertices`. The index literal of main.js:26-33 is the constant `Geometry.Indices`. Being constants, they have no rows of their own; `Geometry.RecordsAreCorners`, `Geometry.AttributesReadRecords` and the index lemmas state what they hold.
- The rotation angles grow without bound, as in the source. No wrap-around is modelled because none happens.
