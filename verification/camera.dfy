/**
  The free-flight camera of the ripple-surface demo: a record of field of view,
  clip planes, aspect ratio, position, front and up, plus the two matrices the
  renderer reads.

  The matrices are kept symbolic. `LookAt(eye, target, up)` stands for the
  look-at matrix built from those three points, and
  `Perspective(fov, aspect, near, far)` for the perspective matrix; both are
  pure functions of their arguments, so a camera whose records were built from
  its current fields has the matrices the renderer expects.

  Rotation about the y and x axes and the normalised strafe axis
  `normalize(front × up)` need trigonometry and square roots, so they enter as
  the parameters collected in `Geometry` and every statement below holds for
  every choice of them.
 */
module CameraModel {
  import opened Vectors

  /**
    The numeric library the camera calls into:
    - `yaw(deg, v)`: v rotated by `deg` degrees about the y axis;
    - `pitch(deg, v)`: v rotated by `deg` degrees about the x axis;
    - `right(front, up)`: the unit vector along `front × up`.
   */
  datatype Geometry = Geometry(
    yaw: (real, Vec3) -> Vec3,
    pitch: (real, Vec3) -> Vec3,
    right: (Vec3, Vec3) -> Vec3)

  datatype ViewMatrix = LookAt(eye: Vec3, target: Vec3, up: Vec3)

  datatype ProjectionMatrix = Perspective(fovDegrees: real, aspect: real, near: real, far: real)

  datatype Camera = Camera(
    fov: real,
    zNear: real,
    zFar: real,
    ratio: real,
    position: Vec3,
    front: Vec3,
    up: Vec3,
    target: Vec3,
    lookAt: ViewMatrix,
    projection: ProjectionMatrix)

  /** The default magnitude every mutator uses when called without an argument. */
  const DefaultStep: real := 0.1

  const InitialFov: real := 60.0
  const InitialNear: real := 0.1
  const InitialFar: real := 100.0
  const InitialPosition: Vec3 := Vec3(50.0, 50.0, -70.0)
  const InitialFront: Vec3 := Vec3(0.0, 0.0, 1.0)
  const InitialUp: Vec3 := Vec3(0.0, 1.0, 0.0)

  /** The target is one `front` ahead of the eye and the view matrix was built from the current eye, target and up. */
  predicate ViewBuilt(c: Camera) {
    && c.target == Add(c.position, c.front)
    && c.lookAt == LookAt(c.position, c.target, c.up)
  }

  /** The projection matrix was built from the current field of view, aspect ratio and clip planes. */
  predicate LensBuilt(c: Camera) {
    c.projection == Perspective(c.fov, c.ratio, c.zNear, c.zFar)
  }

  /** Both matrices agree with the state they are derived from: the camera is ready to render. */
  predicate Consistent(c: Camera) {
    ViewBuilt(c) && LensBuilt(c)
  }

  /** `a` and `b` look from the same place in the same direction. */
  predicate SameView(a: Camera, b: Camera) {
    && a.position == b.position
    && a.front == b.front
    && a.up == b.up
    && a.target == b.target
    && a.lookAt == b.lookAt
  }

  /** `a` and `b` have the same lens: field of view, clip planes, aspect ratio and projection. */
  predicate SameLens(a: Camera, b: Camera) {
    && a.fov == b.fov
    && a.zNear == b.zNear
    && a.zFar == b.zFar
    && a.ratio == b.ratio
    && a.projection == b.projection
  }

  /** `r` differs from `c` at most in its position, with the view matrix rebuilt. */
  predicate Moved(c: Camera, r: Camera) {
    r.front == c.front && r.up == c.up && SameLens(r, c) && ViewBuilt(r)
  }

  /** `r` differs from `c` at most in its front vector, with the view matrix rebuilt. */
  predicate Turned(c: Camera, r: Camera) {
    r.position == c.position && r.up == c.up && SameLens(r, c) && ViewBuilt(r)
  }

  /** `r` differs from `c` at most in its field of view, with the projection rebuilt. */
  predicate Zoomed(c: Camera, r: Camera) {
    && SameView(r, c)
    && r.zNear == c.zNear && r.zFar == c.zFar && r.ratio == c.ratio
    && LensBuilt(r)
  }

  /** Recomputes the target and the view matrix from position, front and up. */
  function BuildLookAt(c: Camera): (r: Camera)
    ensures Moved(c, r) && r.position == c.position
    ensures LensBuilt(c) ==> Consistent(r)
  {
    var target := Add(c.position, c.front);
    c.(target := target, lookAt := LookAt(c.position, target, c.up))
  }

  /** Recomputes the projection matrix from the field of view, aspect ratio and clip planes. */
  function BuildProjection(c: Camera): (r: Camera)
    ensures Zoomed(c, r) && r.fov == c.fov
    ensures ViewBuilt(c) ==> Consistent(r)
  {
    c.(projection := Perspective(c.fov, c.ratio, c.zNear, c.zFar))
  }

  /** The camera as constructed for a viewport of aspect ratio `ratio`. */
  function Init(ratio: real): (c: Camera)
    ensures Consistent(c)
    ensures c.fov == InitialFov && c.zNear == InitialNear && c.zFar == InitialFar && c.ratio == ratio
    ensures c.position == InitialPosition && c.front == InitialFront && c.up == InitialUp
  {
    var lens := BuildProjection(
      Camera(InitialFov, InitialNear, InitialFar, ratio,
             Vec3(0.0, 0.0, 0.0), Vec3(0.0, 0.0, 0.0), Vec3(0.0, 0.0, 0.0), Vec3(0.0, 0.0, 0.0),
             LookAt(Vec3(0.0, 0.0, 0.0), Vec3(0.0, 0.0, 0.0), Vec3(0.0, 0.0, 0.0)),
             Perspective(0.0, 0.0, 0.0, 0.0)));
    BuildLookAt(lens.(position := InitialPosition, front := InitialFront, up := InitialUp))
  }

  function ZoomIn(c: Camera, z: real): (r: Camera)
    ensures Zoomed(c, r)
    ensures r.fov == c.fov - z
    ensures Consistent(c) ==> Consistent(r)
  {
    BuildProjection(c.(fov := c.fov - z))
  }

  function ZoomOut(c: Camera, z: real): (r: Camera)
    ensures Zoomed(c, r)
    ensures r.fov == c.fov + z
    ensures Consistent(c) ==> Consistent(r)
  {
    BuildProjection(c.(fov := c.fov + z))
  }

  function MoveForward(c: Camera, step: real): (r: Camera)
    ensures Moved(c, r)
    ensures Sub(r.position, c.position) == Scale(c.front, step)
    ensures Consistent(c) ==> Consistent(r)
  {
    BuildLookAt(c.(position := Add(c.position, Scale(c.front, step))))
  }

  /** Moving backwards by `step` is moving forward by `-step`. */
  function MoveBackwards(c: Camera, step: real): (r: Camera)
    ensures Moved(c, r)
    ensures Sub(r.position, c.position) == Scale(c.front, -step)
    ensures Consistent(c) ==> Consistent(r)
  {
    BuildLookAt(c.(position := Sub(c.position, Scale(c.front, step))))
  }

  function StrafeLeft(g: Geometry, c: Camera, x: real): (r: Camera)
    ensures Moved(c, r)
    ensures Sub(r.position, c.position) == Scale(g.right(c.front, c.up), -x)
    ensures Consistent(c) ==> Consistent(r)
  {
    BuildLookAt(c.(position := Sub(c.position, Scale(g.right(c.front, c.up), x))))
  }

  function StrafeRight(g: Geometry, c: Camera, x: real): (r: Camera)
    ensures Moved(c, r)
    ensures Sub(r.position, c.position) == Scale(g.right(c.front, c.up), x)
    ensures Consistent(c) ==> Consistent(r)
  {
    BuildLookAt(c.(position := Add(c.position, Scale(g.right(c.front, c.up), x))))
  }

  function StrafeUp(c: Camera, y: real): (r: Camera)
    ensures Moved(c, r)
    ensures Sub(r.position, c.position) == Scale(c.up, y)
    ensures Consistent(c) ==> Consistent(r)
  {
    BuildLookAt(c.(position := Add(c.position, Scale(c.up, y))))
  }

  function StrafeDown(c: Camera, y: real): (r: Camera)
    ensures Moved(c, r)
    ensures Sub(r.position, c.position) == Scale(c.up, -y)
    ensures Consistent(c) ==> Consistent(r)
  {
    BuildLookAt(c.(position := Sub(c.position, Scale(c.up, y))))
  }

  /** A turn of `x` to the left is a rotation of `2 * x` degrees about the y axis. */
  function RotateLeft(g: Geometry, c: Camera, x: real): (r: Camera)
    ensures Turned(c, r)
    ensures r.front == g.yaw(2.0 * x, c.front)
    ensures Consistent(c) ==> Consistent(r)
  {
    BuildLookAt(c.(front := g.yaw(2.0 * x, c.front)))
  }

  /** A turn of `x` to the right is a rotation of `-2 * x` degrees about the y axis. */
  function RotateRight(g: Geometry, c: Camera, x: real): (r: Camera)
    ensures Turned(c, r)
    ensures r.front == g.yaw(-(2.0 * x), c.front)
    ensures Consistent(c) ==> Consistent(r)
  {
    BuildLookAt(c.(front := g.yaw(-(2.0 * x), c.front)))
  }

  /** A turn of `y` upwards is a rotation of `2 * y` degrees about the x axis. */
  function RotateUp(g: Geometry, c: Camera, y: real): (r: Camera)
    ensures Turned(c, r)
    ensures r.front == g.pitch(2.0 * y, c.front)
    ensures Consistent(c) ==> Consistent(r)
  {
    BuildLookAt(c.(front := g.pitch(2.0 * y, c.front)))
  }

  /** A turn of `y` downwards is a rotation of `-2 * y` degrees about the x axis. */
  function RotateDown(g: Geometry, c: Camera, y: real): (r: Camera)
    ensures Turned(c, r)
    ensures r.front == g.pitch(-(2.0 * y), c.front)
    ensures Consistent(c) ==> Consistent(r)
  {
    BuildLookAt(c.(front := g.pitch(-(2.0 * y), c.front)))
  }

  /** Rotating about the y axis by an angle and then by its opposite gives back the vector, as rotations about a fixed axis do. */
  ghost predicate YawReversible(g: Geometry) {
    forall a: real, b: real, v: Vec3 :: a + b == 0.0 ==> g.yaw(b, g.yaw(a, v)) == v
  }

  /** Rotating about the x axis by an angle and then by its opposite gives back the vector. */
  ghost predicate PitchReversible(g: Geometry) {
    forall a: real, b: real, v: Vec3 :: a + b == 0.0 ==> g.pitch(b, g.pitch(a, v)) == v
  }

  /** Zooming in and then out by the same amount (in either order) restores the field of view, and a ready camera entirely. */
  lemma ZoomRoundTrip(c: Camera, z: real)
    ensures ZoomOut(ZoomIn(c, z), z).fov == c.fov
    ensures ZoomIn(ZoomOut(c, z), z).fov == c.fov
    ensures Consistent(c) ==> ZoomOut(ZoomIn(c, z), z) == c && ZoomIn(ZoomOut(c, z), z) == c
  {}

  /** Moving forward and back by the same step (in either order) restores the position, and a ready camera entirely. */
  lemma MoveRoundTrip(c: Camera, step: real)
    ensures MoveBackwards(MoveForward(c, step), step).position == c.position
    ensures MoveForward(MoveBackwards(c, step), step).position == c.position
    ensures Consistent(c) ==>
      MoveBackwards(MoveForward(c, step), step) == c && MoveForward(MoveBackwards(c, step), step) == c
  {}

  /** Strafing up and down by the same amount restores the position, and a ready camera entirely. */
  lemma StrafeVerticalRoundTrip(c: Camera, y: real)
    ensures StrafeDown(StrafeUp(c, y), y).position == c.position
    ensures StrafeUp(StrafeDown(c, y), y).position == c.position
    ensures Consistent(c) ==> StrafeDown(StrafeUp(c, y), y) == c && StrafeUp(StrafeDown(c, y), y) == c
  {}

  /** Strafing left and right by the same amount restores the position: the strafe axis is the same both times because strafing leaves front and up alone. */
  lemma StrafeSidewaysRoundTrip(g: Geometry, c: Camera, x: real)
    ensures StrafeRight(g, StrafeLeft(g, c, x), x).position == c.position
    ensures StrafeLeft(g, StrafeRight(g, c, x), x).position == c.position
    ensures Consistent(c) ==>
      StrafeRight(g, StrafeLeft(g, c, x), x) == c && StrafeLeft(g, StrafeRight(g, c, x), x) == c
  {}

  /** With rotations that can be undone, turning left and then right by the same amount restores a ready camera. */
  lemma RotateSidewaysRoundTrip(g: Geometry, c: Camera, x: real)
    requires YawReversible(g)
    ensures Consistent(c) ==>
      RotateRight(g, RotateLeft(g, c, x), x) == c && RotateLeft(g, RotateRight(g, c, x), x) == c
  {}

  /** With rotations that can be undone, turning up and then down by the same amount restores a ready camera. */
  lemma RotateVerticalRoundTrip(g: Geometry, c: Camera, y: real)
    requires PitchReversible(g)
    ensures Consistent(c) ==>
      RotateDown(g, RotateUp(g, c, y), y) == c && RotateUp(g, RotateDown(g, c, y), y) == c
  {}

  /**
    The freshly built camera, one default step forward: the eye and the look-at
    target both advance by 0.1 along z. The body spells out the arithmetic, which
    keeps the proof cheap.
   */
  lemma FirstStepForward(ratio: real)
    ensures MoveForward(Init(ratio), DefaultStep).position == Vec3(50.0, 50.0, -69.9)
    ensures MoveForward(Init(ratio), DefaultStep).lookAt == LookAt(Vec3(50.0, 50.0, -69.9), Vec3(50.0, 50.0, -68.9), Vec3(0.0, 1.0, 0.0))
  {
    var moved := Add(InitialPosition, Scale(InitialFront, DefaultStep));
    assert moved == Vec3(50.0, 50.0, -69.9);
    assert Add(moved, InitialFront) == Vec3(50.0, 50.0, -68.9);
  }
}
