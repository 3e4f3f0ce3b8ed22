/**
  How the demo window drives the camera: the table of held keys, the per-frame
  poll of that table (`move_camera`), and the mouse drag and scroll handlers.
  Each handler is a pure transition from one camera to the next.
 */
module Controls {
  import opened Vectors
  import CM = CameraModel

  /** The keys and buttons the window registers in its state table; any other key code is `OtherKey`. */
  datatype Key =
    | W | S | ArrowUp | ArrowDown | ArrowLeft | ArrowRight
    | Q | E | A | D | Z | X
    | MouseLeft | MouseRight
    | OtherKey(code: int)

  /** What happened to a key: a press, or anything else (a release). Only a press marks the key held. */
  datatype KeyAction = Press | Release

  /** Whether each registered key is currently held. */
  type KeyStates = map<Key, bool>

  /** The state table as the window builds it: every registered key released. */
  const InitialStates: KeyStates := map[
    W := false, S := false, ArrowUp := false, ArrowDown := false,
    ArrowLeft := false, ArrowRight := false, Q := false, E := false,
    A := false, D := false, Z := false, X := false,
    MouseLeft := false, MouseRight := false]

  /** A key counts as held when the table has it and says so; a key missing from the table reads as released. */
  predicate Held(states: KeyStates, k: Key) {
    k in states && states[k]
  }

  /** A key event records whether `key` is now held (only a press holds it) and leaves every other entry alone. */
  function KeyEvent(states: KeyStates, key: Key, action: KeyAction): (r: KeyStates)
    ensures key in r && r[key] == (action == Press)
    ensures forall k :: k != key ==> (k in r <==> k in states)
    ensures forall k :: k != key && k in states ==> r[k] == states[k]
  {
    states[key := action == Press]
  }

  /** After an event, `key` is held exactly when the event was a press; every other key is held exactly when it was before. */
  lemma KeyEventHeld(states: KeyStates, key: Key, action: KeyAction, k: Key)
    ensures Held(KeyEvent(states, key, action), k) <==> if k == key then action == Press else Held(states, k)
  {}

  /** The camera operations the keyboard can trigger. */
  datatype Op =
    | ZoomIn | ZoomOut
    | MoveForward | MoveBackwards
    | StrafeLeft | StrafeRight | StrafeUp | StrafeDown
    | RotateLeft | RotateRight | RotateUp | RotateDown

  /** One call of a camera operation with its magnitude argument. */
  datatype Call = Call(op: Op, amount: real)

  predicate IsTranslation(op: Op) {
    op.MoveForward? || op.MoveBackwards? || op.StrafeLeft? || op.StrafeRight? || op.StrafeUp? || op.StrafeDown?
  }

  predicate IsZoom(op: Op) {
    op.ZoomIn? || op.ZoomOut?
  }

  /** Carries out one call on the camera. */
  function Perform(g: CM.Geometry, c: CM.Camera, call: Call): (r: CM.Camera)
    ensures IsZoom(call.op) ==> CM.Zoomed(c, r)
    ensures IsTranslation(call.op) ==> CM.Moved(c, r)
    ensures !IsZoom(call.op) && !IsTranslation(call.op) ==> CM.Turned(c, r)
    ensures CM.Consistent(c) ==> CM.Consistent(r)
  {
    match call.op
    case ZoomIn => CM.ZoomIn(c, call.amount)
    case ZoomOut => CM.ZoomOut(c, call.amount)
    case MoveForward => CM.MoveForward(c, call.amount)
    case MoveBackwards => CM.MoveBackwards(c, call.amount)
    case StrafeLeft => CM.StrafeLeft(g, c, call.amount)
    case StrafeRight => CM.StrafeRight(g, c, call.amount)
    case StrafeUp => CM.StrafeUp(c, call.amount)
    case StrafeDown => CM.StrafeDown(c, call.amount)
    case RotateLeft => CM.RotateLeft(g, c, call.amount)
    case RotateRight => CM.RotateRight(g, c, call.amount)
    case RotateUp => CM.RotateUp(g, c, call.amount)
    case RotateDown => CM.RotateDown(g, c, call.amount)
  }

  /** Carries out calls one after the other. Up, aspect ratio and clip planes never change, and a ready camera stays ready. */
  function Run(g: CM.Geometry, c: CM.Camera, calls: seq<Call>): (r: CM.Camera)
    ensures r.up == c.up && r.ratio == c.ratio && r.zNear == c.zNear && r.zFar == c.zFar
    ensures CM.Consistent(c) ==> CM.Consistent(r)
    decreases |calls|
  {
    if |calls| == 0 then c else Run(g, Perform(g, c, calls[0]), calls[1..])
  }

  /** The operations `move_camera` checks, in the order it checks them. */
  const Checks: seq<Op> := [
    MoveForward, MoveBackwards, StrafeUp, StrafeDown, StrafeLeft, StrafeRight,
    RotateLeft, RotateRight, RotateUp, RotateDown, ZoomOut, ZoomIn]

  /** The key whose being held triggers `op` in `move_camera`. */
  function KeyOf(op: Op): Key {
    match op
    case MoveForward => W
    case MoveBackwards => S
    case StrafeUp => ArrowUp
    case StrafeDown => ArrowDown
    case StrafeLeft => ArrowLeft
    case StrafeRight => ArrowRight
    case RotateLeft => A
    case RotateRight => D
    case RotateUp => Z
    case RotateDown => X
    case ZoomOut => Q
    case ZoomIn => E
  }

  /** The position of `op` in the order of checks. */
  function Rank(op: Op): (n: nat)
    ensures n < |Checks| && Checks[n] == op
  {
    match op
    case MoveForward => 0
    case MoveBackwards => 1
    case StrafeUp => 2
    case StrafeDown => 3
    case StrafeLeft => 4
    case StrafeRight => 5
    case RotateLeft => 6
    case RotateRight => 7
    case RotateUp => 8
    case RotateDown => 9
    case ZoomOut => 10
    case ZoomIn => 11
  }

  /** No two operations share a key, and no operation is triggered by a mouse button or an unregistered key. */
  lemma KeysDistinct(a: Op, b: Op)
    ensures KeyOf(a) == KeyOf(b) ==> a == b
    ensures KeyOf(a) in InitialStates && !KeyOf(a).MouseLeft? && !KeyOf(a).MouseRight?
  {}

  /** The calls the checks from position `from` on issue: a default-step call for each held key, in check order. */
  function DispatchFrom(states: KeyStates, from: nat): (calls: seq<Call>)
    requires from <= |Checks|
    ensures forall k :: 0 <= k < |calls| ==>
      && calls[k].amount == CM.DefaultStep
      && from <= Rank(calls[k].op)
      && Held(states, KeyOf(calls[k].op))
    ensures forall k, l :: 0 <= k < l < |calls| ==> Rank(calls[k].op) < Rank(calls[l].op)
    decreases |Checks| - from
  {
    if from == |Checks| then []
    else
      var rest := DispatchFrom(states, from + 1);
      var op := Checks[from];
      if Held(states, KeyOf(op)) then [Call(op, CM.DefaultStep)] + rest else rest
  }

  /** No held key is skipped: every operation at or after `from` whose key is held gets its call. */
  lemma {:induction false} DispatchFromComplete(states: KeyStates, from: nat)
    requires from <= |Checks|
    ensures forall op :: from <= Rank(op) && Held(states, KeyOf(op)) ==> Call(op, CM.DefaultStep) in DispatchFrom(states, from)
    decreases |Checks| - from
  {
    if from < |Checks| {
      DispatchFromComplete(states, from + 1);
      var rest := DispatchFrom(states, from + 1);
      forall op | from <= Rank(op) && Held(states, KeyOf(op))
        ensures Call(op, CM.DefaultStep) in DispatchFrom(states, from)
      {
        if Rank(op) == from {
          assert Checks[from] == op;
        } else {
          assert Call(op, CM.DefaultStep) in rest;
        }
      }
    }
  }

  /**
    The calls one poll of the key table issues. Every call uses the default
    step, an operation is called exactly when its key is held, no operation is
    called twice, and calls come in check order.
   */
  function Dispatch(states: KeyStates): (calls: seq<Call>)
    ensures forall k :: 0 <= k < |calls| ==> calls[k].amount == CM.DefaultStep
    ensures forall k, l :: 0 <= k < l < |calls| ==> Rank(calls[k].op) < Rank(calls[l].op)
    ensures forall op :: Call(op, CM.DefaultStep) in calls <==> Held(states, KeyOf(op))
  {
    DispatchFromComplete(states, 0);
    DispatchFrom(states, 0)
  }

  /** One frame's keyboard-driven camera update: a ready camera stays ready and its up vector never changes. */
  function MoveCamera(g: CM.Geometry, states: KeyStates, c: CM.Camera): (r: CM.Camera)
    ensures r.up == c.up && r.ratio == c.ratio && r.zNear == c.zNear && r.zFar == c.zFar
    ensures CM.Consistent(c) ==> CM.Consistent(r)
  {
    Run(g, c, Dispatch(states))
  }

  /** When no key from check `from` on is held, those checks issue no call. */
  lemma DispatchFromNone(states: KeyStates, from: nat)
    requires from <= |Checks|
    requires forall op :: from <= Rank(op) ==> !Held(states, KeyOf(op))
    ensures DispatchFrom(states, from) == []
  {
    if |DispatchFrom(states, from)| > 0 {
      FirstCallHeld(states, from);
      assert false;
    }
  }

  /** The first call issued from check `from` on belongs to a held key at or after `from`. */
  lemma FirstCallHeld(states: KeyStates, from: nat)
    requires from <= |Checks| && |DispatchFrom(states, from)| > 0
    ensures var op := DispatchFrom(states, from)[0].op; from <= Rank(op) && Held(states, KeyOf(op))
  {}

  /** A frame with no bound key held leaves the camera as it was. */
  lemma IdleFrame(g: CM.Geometry, states: KeyStates, c: CM.Camera)
    requires forall op :: !Held(states, KeyOf(op))
    ensures MoveCamera(g, states, c) == c
  {
    DispatchFromNone(states, 0);
  }

  /** Holding forward and backwards and nothing else leaves a ready camera where it was. */
  lemma OppositeKeysCancel(g: CM.Geometry, states: KeyStates, c: CM.Camera)
    requires Held(states, W) && Held(states, S)
    requires forall op :: op != MoveForward && op != MoveBackwards ==> !Held(states, KeyOf(op))
    requires CM.Consistent(c)
    ensures MoveCamera(g, states, c) == c
  {
    var forward := Call(MoveForward, CM.DefaultStep);
    var backwards := Call(MoveBackwards, CM.DefaultStep);
    DispatchFromNone(states, 2);
    assert DispatchFrom(states, 1) == [backwards] + DispatchFrom(states, 2);
    assert DispatchFrom(states, 0) == [forward] + DispatchFrom(states, 1);
    assert Dispatch(states) == [forward, backwards];
    var c1 := Perform(g, c, forward);
    assert c1 == CM.MoveForward(c, CM.DefaultStep);
    assert Run(g, c, [forward, backwards]) == Run(g, c1, [backwards]);
    assert Run(g, c1, [backwards]) == Run(g, CM.MoveBackwards(c1, CM.DefaultStep), []);
    CM.MoveRoundTrip(c, CM.DefaultStep);
  }

  /** Translations only add to the position along axes they do not change, so two of them commute. */
  lemma TranslationsCommute(g: CM.Geometry, c: CM.Camera, a: Call, b: Call)
    requires IsTranslation(a.op) && IsTranslation(b.op)
    ensures Perform(g, Perform(g, c, a), b) == Perform(g, Perform(g, c, b), a)
  {}

  /** Zooming touches only the lens and nothing else touches it, so a zoom commutes with every call. */
  lemma ZoomCommutes(g: CM.Geometry, c: CM.Camera, a: Call, b: Call)
    requires IsZoom(a.op)
    ensures Perform(g, Perform(g, c, a), b) == Perform(g, Perform(g, c, b), a)
  {}

  /**
    The net turn of a left-button drag by (dx, dy) pixels: a pitch of -dy/5
    degrees about x, then a yaw of dx/5 degrees about y, each skipped when its
    delta is zero.
   */
  function DragHeading(g: CM.Geometry, front: Vec3, dx: int, dy: int): Vec3 {
    var pitched := if dy == 0 then front else g.pitch(-(dy as real) / 5.0, front);
    if dx == 0 then pitched else g.yaw(dx as real / 5.0, pitched)
  }

  /** The net displacement of a right-button drag by (dx, dy) pixels: a tenth of dy along up, minus a tenth of dx along the strafe axis. */
  function DragOffset(g: CM.Geometry, front: Vec3, up: Vec3, dx: int, dy: int): Vec3 {
    Sub(Scale(up, dy as real / 10.0), Scale(g.right(front, up), dx as real / 10.0))
  }

  /** The pitch a vertical left-button drag issues: up for a negative delta, down for a positive one, nothing for zero. */
  function PitchDrag(g: CM.Geometry, c: CM.Camera, dy: int): (r: CM.Camera)
    ensures r.front == if dy == 0 then c.front else g.pitch(-(dy as real) / 5.0, c.front)
    ensures r.position == c.position && r.up == c.up && CM.SameLens(r, c)
    ensures CM.Consistent(c) ==> CM.Consistent(r)
  {
    var c1 := if dy < 0 then CM.RotateUp(g, c, (-dy) as real / 10.0) else c;
    if dy > 0 then CM.RotateDown(g, c1, dy as real / 10.0) else c1
  }

  /** The yaw a horizontal left-button drag issues: right for a positive delta, left for a negative one, nothing for zero. */
  function YawDrag(g: CM.Geometry, c: CM.Camera, dx: int): (r: CM.Camera)
    ensures r.front == if dx == 0 then c.front else g.yaw(dx as real / 5.0, c.front)
    ensures r.position == c.position && r.up == c.up && CM.SameLens(r, c)
    ensures CM.Consistent(c) ==> CM.Consistent(r)
  {
    var c1 := if dx > 0 then CM.RotateRight(g, c, (-dx) as real / 10.0) else c;
    if dx < 0 then CM.RotateLeft(g, c1, dx as real / 10.0) else c1
  }

  /** The rotations a left-button drag issues: first the vertical delta, then the horizontal one. */
  function LeftDrag(g: CM.Geometry, c: CM.Camera, dx: int, dy: int): (r: CM.Camera)
    ensures r.front == DragHeading(g, c.front, dx, dy)
    ensures r.position == c.position && r.up == c.up && CM.SameLens(r, c)
    ensures CM.Consistent(c) ==> CM.Consistent(r)
  {
    YawDrag(g, PitchDrag(g, c, dy), dx)
  }

  /** The strafe a vertical right-button drag issues: up for a negative delta, down for a positive one, nothing for zero. */
  function VerticalDrag(c: CM.Camera, dy: int): (r: CM.Camera)
    ensures r.position == Add(c.position, Scale(c.up, dy as real / 10.0))
    ensures r.front == c.front && r.up == c.up && CM.SameLens(r, c)
    ensures CM.Consistent(c) ==> CM.Consistent(r)
  {
    var c1 := if dy < 0 then CM.StrafeUp(c, dy as real / 10.0) else c;
    if dy > 0 then CM.StrafeDown(c1, (-dy) as real / 10.0) else c1
  }

  /** The strafe a horizontal right-button drag issues: right for a positive delta, left for a negative one, nothing for zero. */
  function SidewaysDrag(g: CM.Geometry, c: CM.Camera, dx: int): (r: CM.Camera)
    ensures r.position == Sub(c.position, Scale(g.right(c.front, c.up), dx as real / 10.0))
    ensures r.front == c.front && r.up == c.up && CM.SameLens(r, c)
    ensures CM.Consistent(c) ==> CM.Consistent(r)
  {
    var c1 := if dx > 0 then CM.StrafeRight(g, c, (-dx) as real / 10.0) else c;
    if dx < 0 then CM.StrafeLeft(g, c1, dx as real / 10.0) else c1
  }

  /** The strafes a right-button drag issues: first the vertical delta, then the horizontal one. */
  function RightDrag(g: CM.Geometry, c: CM.Camera, dx: int, dy: int): (r: CM.Camera)
    ensures r.position == Add(c.position, DragOffset(g, c.front, c.up, dx, dy))
    ensures r.front == c.front && r.up == c.up && CM.SameLens(r, c)
    ensures CM.Consistent(c) ==> CM.Consistent(r)
  {
    SidewaysDrag(g, VerticalDrag(c, dy), dx)
  }

  /**
    A drag with the given buttons held: the left button turns the camera, the
    right button then moves it sideways along axes taken from the turned
    front.
   */
  function MouseDrag(g: CM.Geometry, c: CM.Camera, leftHeld: bool, rightHeld: bool, dx: int, dy: int): (r: CM.Camera)
    ensures r.front == if leftHeld then DragHeading(g, c.front, dx, dy) else c.front
    ensures r.position == if rightHeld then Add(c.position, DragOffset(g, r.front, c.up, dx, dy)) else c.position
    ensures r.up == c.up && CM.SameLens(r, c)
    ensures CM.Consistent(c) ==> CM.Consistent(r)
  {
    var turned := if leftHeld then LeftDrag(g, c, dx, dy) else c;
    if rightHeld then RightDrag(g, turned, dx, dy) else turned
  }

  /** A right-button drag and the opposite drag return a ready camera to where it was: strafing never changes the axes it moves along. */
  lemma RightDragRoundTrip(g: CM.Geometry, c: CM.Camera, dx: int, dy: int)
    requires CM.Consistent(c)
    ensures RightDrag(g, RightDrag(g, c, dx, dy), -dx, -dy) == c
  {}

  /** A scroll moves the camera along its front by exactly the vertical offset, whatever its sign; a zero offset changes nothing. */
  function MouseScroll(c: CM.Camera, yOffset: real): (r: CM.Camera)
    ensures Sub(r.position, c.position) == Scale(c.front, yOffset)
    ensures r.front == c.front && r.up == c.up && CM.SameLens(r, c)
    ensures yOffset == 0.0 ==> r == c
    ensures CM.Consistent(c) ==> CM.Consistent(r)
  {
    if yOffset > 0.0 then CM.MoveForward(c, yOffset)
    else if yOffset < 0.0 then CM.MoveBackwards(c, -yOffset)
    else c
  }

  /** Scrolling by an offset and back by its opposite returns a ready camera to where it was. */
  lemma ScrollRoundTrip(c: CM.Camera, yOffset: real)
    requires CM.Consistent(c)
    ensures MouseScroll(MouseScroll(c, yOffset), -yOffset) == c
  {}
}
