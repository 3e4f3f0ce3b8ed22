# Free-flight camera and ground mesh of the gl2 ripple demo

This project models, in Dafny, the parts of the demo program `code.py` that
have behaviour worth stating: the free-flight `Camera` with its mutators, the
way the window turns key presses, mouse drags and scrolls into calls of those
mutators, and the two generators `grid` and `indexes` that build the vertex
and index buffers of the ground mesh.

- `vectors.dfy` (`Vectors`): 3-vectors over `real` with addition, subtraction
  and scaling.
- `camera.dfy` (`CameraModel`): the camera record: field of view, clip planes,
  aspect ratio, position, front, up, look-at target and the two matrices. It
  holds the twelve mutators and the round-trip lemmas. The look-at and
  perspective matrices are symbolic records of the arguments they are built
  from. `Consistent(c)` says both records agree with the current fields. It
  holds after construction and every mutator keeps it.
- `controls.dfy` (`Controls`): the held-key table and `key_event`, and the
  per-frame poll `move_camera` as a list of calls in check order. It also has
  the mouse drag and scroll handlers. Each drag handler is shown to equal one
  closed-form heading or offset.
- `mesh.dfy` (`Mesh`): `grid` and `indexes` as nested-loop methods. They fill
  a zero buffer by index, as the source does. Their layout is stated per
  vertex and per cell. A cross lemma shows that each cell's six indices land
  on the four corners of that cell's unit square in the vertex grid.

Parameters instead of library code. Rotating a vector about the y or x axis
(a quaternion built from an angle) and the strafe axis `normalize(front × up)`
need trigonometry and square roots. They are fields of a `Geometry` value
passed to every operation, so every result holds for every choice of them.
Angles are in degrees: `rotate_left(x)` rotates by `2 * x * pi / 180` radians,
which is `2 * x` degrees. The round trips for rotations assume only that a
rotation by an angle followed by the opposite angle gives back the vector
(`YawReversible`, `PitchReversible`).

How the input handlers behave in code.py:
- A drag passes signed, sometimes negated values to the camera, such as
  `rotate_right(-dx / 10)` for `dx > 0`. The net effect is a yaw of `dx / 5`
  degrees and a pitch of `-dy / 5` degrees, whatever the sign.
- Scrolling moves the camera forward or back. It does not zoom.
- The camera starts at (50, 50, -70) looking along +z, with field of view 60,
  near plane 0.1 and far plane 100.
- Translations commute with each other, and a zoom commutes with any call
  (`TranslationsCommute`, `ZoomCommutes`). A rotation changes the axes a later
  strafe or move uses, so the model keeps the code's check order.

Edge cases kept as the code has them. For `size <= 0`, `grid` returns an
all-zero buffer of `2 * size * size` entries. For `size <= 1`, `indexes`
returns an all-zero buffer of `6 * (size - 1)^2` entries; for `size == 0` that
is six zeros.

## Model

| member | source | states |
|---|---|---|
| `CameraModel.Init` | code.py:10-21 | The new camera has fov 60, near 0.1, far 100, position (50, 50, -70), front (0, 0, 1), up (0, 1, 0) and the viewport's aspect ratio, and is ready to render (target = position + front, both matrices built from its fields) |
| `CameraModel.BuildLookAt` | code.py:75-80 | Rebuilding the view sets target = position + front and the view matrix from eye, target and up; nothing else changes |
| `CameraModel.BuildProjection` | code.py:82-87 | Rebuilding the projection makes it match fov, ratio, near and far; the view is untouched |
| `CameraModel.ZoomIn` | code.py:23-25 | Field of view drops by `z`; position, front, up and view are unchanged; readiness is kept |
| `CameraModel.ZoomOut` | code.py:27-29 | Field of view grows by `z`; nothing else about the view changes; readiness is kept |
| `CameraModel.MoveForward` | code.py:31-33 | Position moves by front × step; front, up and lens are unchanged; the view is rebuilt |
| `CameraModel.MoveBackwards` | code.py:35-37 | Position moves by front × (−step), i.e. moving back is moving forward by the negated step; only position changes |
| `CameraModel.StrafeLeft` | code.py:39-41 | Position moves by −x along the strafe axis `right(front, up)`; only position changes |
| `CameraModel.StrafeRight` | code.py:43-45 | Position moves by +x along the strafe axis; only position changes |
| `CameraModel.StrafeUp` | code.py:47-49 | Position moves by up × y; only position changes |
| `CameraModel.StrafeDown` | code.py:51-53 | Position moves by up × (−y); only position changes |
| `CameraModel.RotateLeft` | code.py:55-58 | Front becomes the y-rotation of front by 2x degrees; position, up and lens unchanged; view rebuilt |
| `CameraModel.RotateRight` | code.py:60-63 | Front becomes the y-rotation by −2x degrees; only front changes |
| `CameraModel.RotateUp` | code.py:65-68 | Front becomes the x-rotation by 2y degrees; only front changes |
| `CameraModel.RotateDown` | code.py:70-73 | Front becomes the x-rotation by −2y degrees; only front changes |
| `CameraModel.ZoomRoundTrip` | code.py:23-29 | Zoom in then out (or out then in) by the same amount restores fov exactly, and a ready camera entirely |
| `CameraModel.MoveRoundTrip` | code.py:31-37 | Forward then back (either order) by the same step restores position, and a ready camera entirely |
| `CameraModel.StrafeVerticalRoundTrip` | code.py:47-53 | Strafe up then down (either order) restores position, and a ready camera entirely |
| `CameraModel.StrafeSidewaysRoundTrip` | code.py:39-45 | Strafe left then right (either order) restores position, because the strafe axis is recomputed from the unchanged front and up |
| `CameraModel.RotateSidewaysRoundTrip` | code.py:55-63 | With a reversible y-rotation, turning left then right (either order) restores a ready camera |
| `CameraModel.RotateVerticalRoundTrip` | code.py:65-73 | With a reversible x-rotation, turning up then down (either order) restores a ready camera |
| `CameraModel.FirstStepForward` | code.py:17-33 | From the initial camera, one default step forward puts the eye at (50, 50, −69.9) and the look-at target at (50, 50, −68.9) |
| `Controls.KeyEvent` | code.py:240-244 | The event's key is recorded as held exactly on a press; every other entry of the table is unchanged |
| `Controls.KeyEventHeld` | code.py:240-244 | After an event a key reads as held iff it is the event's key and the event was a press, or it is another key that was held before |
| `Controls.KeysDistinct` | code.py:155-170 | Every polled operation has its own key, registered in the initial table, and no operation is bound to a mouse button |
| `Controls.Perform` | code.py:23-73 | A single call changes only what its operation touches (lens for zooms, position for moves and strafes, front for rotations) and keeps readiness |
| `Controls.Run` | code.py:202-237 | A sequence of calls never changes up, aspect ratio or clip planes and keeps a ready camera ready |
| `Controls.DispatchFrom` | code.py:202-237 | The calls from a given check on are all default-step calls for held keys, in strictly increasing check order |
| `Controls.DispatchFromComplete` | code.py:202-237 | No held key from a given check on is skipped: its operation's default-step call is issued |
| `Controls.Dispatch` | code.py:202-237 | One poll issues a 0.1-step call of an operation iff its key is held, never the same operation twice, in the code's check order |
| `Controls.MoveCamera` | code.py:202-237 | The per-frame update keeps a ready camera ready and never changes up, aspect ratio or clip planes |
| `Controls.DispatchFromNone` | code.py:202-237 | When no key from a given check on is held, those checks issue no call |
| `Controls.IdleFrame` | code.py:202-237 | A frame with no bound key held leaves the camera unchanged |
| `Controls.OppositeKeysCancel` | code.py:202-207 | Holding exactly W and S issues forward then back by 0.1, which returns a ready camera to where it was |
| `Controls.TranslationsCommute` | code.py:31-53 | Any two move/strafe calls give the same camera in either order |
| `Controls.ZoomCommutes` | code.py:23-29 | A zoom call gives the same camera before or after any other call |
| `Controls.PitchDrag` | code.py:180-181 | A vertical left-drag pitches front by −dy/5 degrees for either sign of dy, and does nothing for dy = 0 |
| `Controls.YawDrag` | code.py:182-183 | A horizontal left-drag yaws front by dx/5 degrees for either sign of dx, and does nothing for dx = 0 |
| `Controls.LeftDrag` | code.py:179-183 | A left-button drag turns front to the closed-form `DragHeading`: pitch by −dy/5 then yaw by dx/5; position, up and lens unchanged |
| `Controls.VerticalDrag` | code.py:185-186 | A vertical right-drag moves position by up × dy/10 for every dy, zero included |
| `Controls.SidewaysDrag` | code.py:187-188 | A horizontal right-drag moves position by −right(front, up) × dx/10 for every dx |
| `Controls.RightDrag` | code.py:184-188 | A right-button drag moves position by the closed-form `DragOffset`, up × dy/10 − right × dx/10; front, up and lens unchanged |
| `Controls.MouseDrag` | code.py:178-188 | With the left button the front becomes `DragHeading`; with the right button position then moves by `DragOffset` taken along the turned front |
| `Controls.RightDragRoundTrip` | code.py:184-188 | A right-button drag followed by the opposite drag returns a ready camera to where it was |
| `Controls.MouseScroll` | code.py:190-194 | A scroll moves position by front × y_offset whatever its sign; a zero offset changes nothing; readiness is kept |
| `Controls.ScrollRoundTrip` | code.py:190-194 | Scrolling by y then by −y returns a ready camera to where it was |
| `Mesh.VertexIndex` | code.py:94 | The row-major number of grid position (i, j) names a vertex of the size × size grid |
| `Mesh.CellSlot` | code.py:103 | The start of cell (i, j)'s six entries lies inside the index buffer of 6 × (size − 1)² entries |
| `Mesh.PlaceVertex` | code.py:92-96 | Writing x = j, z = i at 2 × (i × size + j) keeps all earlier vertices and places vertex (i, j) |
| `Mesh.Grid` | code.py:90-97 | The buffer has 2 × size² entries; vertex i × size + j holds x = j and z = i; every coordinate is in [0, size); for size ≤ 0 all entries are zero |
| `Mesh.PlaceCell` | code.py:101-111 | The six writes for cell (i, j) keep all earlier cells and place this cell's two triangles |
| `Mesh.Indexes` | code.py:99-112 | The buffer has 6 × (size − 1)² entries; cell (i, j)'s six entries at 6 × (i × (size − 1) + j) are its two triangles; for size ≥ 1 every entry names a vertex of `grid(size)`; for size ≤ 1 all entries are zero |
| `Mesh.IndexRow` | code.py:102-111 | Writing row i's cells keeps every earlier row, places the two triangles of each cell (i, j), and keeps every entry a vertex of `grid(size)` |
| `Mesh.CellLayout` | code.py:104-111 | Cell (i, j)'s entries are [c, c+1, n+1, n+1, n, c] with c = i × size + j and n = c + size |
| `Mesh.CellTrianglesProper` | code.py:106-111 | Each of the cell's two triangles has three distinct vertices, and the two share the diagonal c to n+1 |
| `Mesh.CellsCoverSquares` | code.py:90-112 | Read through the vertex grid, cell (i, j)'s six indices are the corners (j,i), (j+1,i), (j+1,i+1), (j+1,i+1), (j,i+1), (j,i) of its unit square |

## Left out

- Float rounding: all camera arithmetic is over `real`. The round trips are exact here; with float64 they hold only up to rounding.
- Drift of `front`: repeated rotation never renormalises `front` in the code either. With real arithmetic and abstract rotations there is no drift to model.
- Quaternion rotation, `vector.normalize` and the cross product are the `Geometry` parameters `yaw`, `pitch` and `right` (code.py:40-71). They need trigonometry and square roots.
- Rotation preserving the length of `front` and turning it by exactly the requested angle are properties of the quaternion library. They are not stated, because `yaw` and `pitch` are parameters.
- `CameraModel.RotateSidewaysRoundTrip` and `CameraModel.RotateVerticalRoundTrip` assume that a rotation by an angle and by its opposite cancel. The quaternion library guarantees this; it is not derived here.
- `Matrix44.look_at` and `Matrix44.perspective_projection` (code.py:77-87): their results are symbolic records of their arguments. The matrix entries, row/column layout and the product `projection × view` are not modelled.
- The inverse-transpose normal matrix `Mn` and the uniform uploads in `render` (code.py:246-253) are GPU I/O. Only the `move_camera` call at the start of `render` is modelled.
- Shader source, buffer upload (`astype('f4').tobytes()`), the vertex array object and window start-up (code.py:114-153, 257-258) are GPU and window plumbing.
- The `action == self.wnd.mouse` alternative in `key_event` (code.py:241) compares an action with the mouse object. Events are modelled as press or release only.
- The drag handler reads the window's mouse-button state, not the key table. The mouse-button entries registered in the table (code.py:168-169) are kept but nothing reads them. The buttons are parameters of `Controls.MouseDrag`.
- Collisions between key codes and mouse-button codes in the window library are not modelled. Keys are a closed enumeration plus `OtherKey`.
- `grid(N)` and `indexes(N)` for N = 100 are covered by the general statements. No specific instance is evaluated.
