/**
  The first-person fly camera (`Ver2/Camera.cs`): a position, Euler angles
  (yaw, pitch) in degrees, a zoom (field of view in degrees), a movement
  speed and a mouse sensitivity, plus the Front/Right/Up basis derived from
  the angles. Every operation is a pure function from the old camera to the
  new one; the maths library is the parameter `m`.
 */
module FlyCamera {
  import opened VectorMath
  import opened Input

  const InitialYaw: real := -90.0
  const InitialPitch: real := 0.0
  const InitialZoom: real := 45.0
  const DefaultMovementSpeed: real := 2.5
  const DefaultMouseSensitivity: real := 0.1

  /** Pitch limit applied when `constrainPitch` is set. */
  const MaxPitch: real := 89.0
  const MinZoom: real := 1.0
  const MaxZoom: real := 45.0

  datatype Camera = Camera(
    position: Vec3,
    front: Vec3,
    up: Vec3,
    right: Vec3,
    yaw: real,
    pitch: real,
    movementSpeed: real,
    mouseSensitivity: real,
    zoom: real
  )

  /** The orientation basis derived from the Euler angles. */
  datatype Basis = Basis(front: Vec3, right: Vec3, up: Vec3)

  /** The basis `UpdateCameraVectors` computes for the angles `yaw` and `pitch`. */
  function BasisOf(m: MathLib, yaw: real, pitch: real): Basis
  {
    var y := Radians(m, yaw);
    var p := Radians(m, pitch);
    var front := m.normalize(Vec3(m.cos(y) * m.cos(p), m.sin(p), m.sin(y) * m.cos(p)));
    var right := m.normalize(Cross(front, UnitY));
    Basis(front, right, m.normalize(Cross(right, front)))
  }

  /** The camera's Front, Right and Up are the basis of its current angles. */
  predicate BasisInSync(m: MathLib, c: Camera)
  {
    var b := BasisOf(m, c.yaw, c.pitch);
    c.front == b.front && c.right == b.right && c.up == b.up
  }

  predicate PitchInRange(pitch: real)
  {
    -MaxPitch <= pitch <= MaxPitch
  }

  predicate ZoomInRange(zoom: real)
  {
    MinZoom <= zoom <= MaxZoom
  }

  /**
    `UpdateCameraVectors`: recomputes Front, Right and Up from the angles and
    touches nothing else.
   */
  function UpdateCameraVectors(m: MathLib, c: Camera): (r: Camera)
    ensures BasisInSync(m, r)
    ensures r.(front := c.front, right := c.right, up := c.up) == c
  {
    var b := BasisOf(m, c.yaw, c.pitch);
    c.(front := b.front, right := b.right, up := b.up)
  }

  /**
    The constructor. The `front` and `up` arguments are stored and then
    immediately overwritten by the basis of the fixed initial angles.
   */
  function NewCamera(m: MathLib, position: Vec3, front: Vec3, up: Vec3,
                     movementSpeed: real := DefaultMovementSpeed,
                     mouseSensitivity: real := DefaultMouseSensitivity): (c: Camera)
    ensures c.position == position
    ensures c.yaw == InitialYaw && c.pitch == InitialPitch && c.zoom == InitialZoom
    ensures c.movementSpeed == movementSpeed && c.mouseSensitivity == mouseSensitivity
    ensures BasisInSync(m, c)
  {
    // Right starts as the zero vector (the C# default) before the basis update.
    var raw := Camera(position, front, up, Vec3(0.0, 0.0, 0.0),
                      InitialYaw, InitialPitch, movementSpeed, mouseSensitivity, InitialZoom);
    UpdateCameraVectors(m, raw)
  }

  /** Omitting the optional arguments gives speed 2.5 and sensitivity 0.1. */
  lemma NewCameraDefaults(m: MathLib, position: Vec3, front: Vec3, up: Vec3)
    ensures NewCamera(m, position, front, up).movementSpeed == DefaultMovementSpeed
    ensures NewCamera(m, position, front, up).mouseSensitivity == DefaultMouseSensitivity
  {
  }

  /** The caller's `front` and `up` have no influence on the constructed camera. */
  lemma NewCameraIgnoresOrientation(m: MathLib, position: Vec3, front1: Vec3, up1: Vec3,
                                    front2: Vec3, up2: Vec3, speed: real, sensitivity: real)
    ensures NewCamera(m, position, front1, up1, speed, sensitivity)
         == NewCamera(m, position, front2, up2, speed, sensitivity)
  {
  }

  /** A maths library whose sine and cosine are exact at 0 and -90 degrees. */
  predicate ExactAtInitialAngles(m: MathLib)
  {
    && m.cos(Radians(m, InitialYaw)) == 0.0 && m.sin(Radians(m, InitialYaw)) == -1.0
    && m.cos(Radians(m, InitialPitch)) == 1.0 && m.sin(Radians(m, InitialPitch)) == 0.0
  }

  /** A normalisation that leaves the unit axis vectors alone. */
  predicate NormalizeFixesAxes(m: MathLib)
  {
    && m.normalize(Vec3(0.0, 0.0, -1.0)) == Vec3(0.0, 0.0, -1.0)
    && m.normalize(Vec3(1.0, 0.0, 0.0)) == Vec3(1.0, 0.0, 0.0)
    && m.normalize(Vec3(0.0, 1.0, 0.0)) == Vec3(0.0, 1.0, 0.0)
  }

  /**
    With exact trigonometry and a normalisation that fixes the unit axes, a
    fresh camera looks down -Z with +X to its right and +Y up, whatever
    `front` and `up` the caller passed.
   */
  lemma NewCameraLooksDownNegativeZ(m: MathLib, position: Vec3, front: Vec3, up: Vec3,
                                    speed: real, sensitivity: real)
    requires ExactAtInitialAngles(m) && NormalizeFixesAxes(m)
    ensures NewCamera(m, position, front, up, speed, sensitivity).front == Vec3(0.0, 0.0, -1.0)
    ensures NewCamera(m, position, front, up, speed, sensitivity).right == Vec3(1.0, 0.0, 0.0)
    ensures NewCamera(m, position, front, up, speed, sensitivity).up == Vec3(0.0, 1.0, 0.0)
  {
    var b := BasisOf(m, InitialYaw, InitialPitch);
    assert Vec3(m.cos(Radians(m, InitialYaw)) * m.cos(Radians(m, InitialPitch)),
                m.sin(Radians(m, InitialPitch)),
                m.sin(Radians(m, InitialYaw)) * m.cos(Radians(m, InitialPitch)))
        == Vec3(0.0, 0.0, -1.0);
    assert b.front == Vec3(0.0, 0.0, -1.0);
    assert Cross(b.front, UnitY) == Vec3(1.0, 0.0, 0.0);
    assert b.right == Vec3(1.0, 0.0, 0.0);
    assert Cross(b.right, b.front) == Vec3(0.0, 1.0, 0.0);
  }

  /** `GetViewMatrix`: a look-at from the position towards position + Front. */
  function GetViewMatrix(m: MathLib, c: Camera): Mat4
  {
    m.lookAt(c.position, Add(c.position, c.front), c.up)
  }

  /** The view matrix depends on the position and on Front and Up only. */
  lemma ViewDependsOnlyOnPose(m: MathLib, c1: Camera, c2: Camera)
    requires c1.position == c2.position && c1.front == c2.front && c1.up == c2.up
    ensures GetViewMatrix(m, c1) == GetViewMatrix(m, c2)
  {
  }

  /** `ProcessKeyboard`: move along Front (W/S) or Right (A/D) by speed * deltaTime. */
  function ProcessKeyboard(c: Camera, key: Key, deltaTime: real): (r: Camera)
    ensures r == c.(position := r.position)
    ensures key == W ==> Sub(r.position, c.position) == Scale(c.front, c.movementSpeed * deltaTime)
    ensures key == S ==> Sub(c.position, r.position) == Scale(c.front, c.movementSpeed * deltaTime)
    ensures key == A ==> Sub(c.position, r.position) == Scale(c.right, c.movementSpeed * deltaTime)
    ensures key == D ==> Sub(r.position, c.position) == Scale(c.right, c.movementSpeed * deltaTime)
    ensures key !in {W, S, A, D} ==> r == c
  {
    var velocity := c.movementSpeed * deltaTime;
    match key
    case W => c.(position := Add(c.position, Scale(c.front, velocity)))
    case S => c.(position := Sub(c.position, Scale(c.front, velocity)))
    case A => c.(position := Sub(c.position, Scale(c.right, velocity)))
    case D => c.(position := Add(c.position, Scale(c.right, velocity)))
    case _ => c
  }

  /** Forward then backward, or backward then forward, over the same time step is a no-op. */
  lemma ForwardBackwardCancel(c: Camera, deltaTime: real)
    ensures ProcessKeyboard(ProcessKeyboard(c, W, deltaTime), S, deltaTime) == c
    ensures ProcessKeyboard(ProcessKeyboard(c, S, deltaTime), W, deltaTime) == c
  {
    var v := Scale(c.front, c.movementSpeed * deltaTime);
    AddSubCancel(c.position, v);
    var ahead := c.(position := Add(c.position, v));
    assert ProcessKeyboard(c, W, deltaTime) == ahead;
    assert ProcessKeyboard(ahead, S, deltaTime) == ahead.(position := Sub(ahead.position, v));
    var behind := c.(position := Sub(c.position, v));
    assert ProcessKeyboard(c, S, deltaTime) == behind;
    assert ProcessKeyboard(behind, W, deltaTime) == behind.(position := Add(behind.position, v));
  }

  /** Strafing left then right, or right then left, over the same time step is a no-op. */
  lemma StrafeCancel(c: Camera, deltaTime: real)
    ensures ProcessKeyboard(ProcessKeyboard(c, A, deltaTime), D, deltaTime) == c
    ensures ProcessKeyboard(ProcessKeyboard(c, D, deltaTime), A, deltaTime) == c
  {
    var v := Scale(c.right, c.movementSpeed * deltaTime);
    AddSubCancel(c.position, v);
    var left := c.(position := Sub(c.position, v));
    assert ProcessKeyboard(c, A, deltaTime) == left;
    assert ProcessKeyboard(left, D, deltaTime) == left.(position := Add(left.position, v));
    var right := c.(position := Add(c.position, v));
    assert ProcessKeyboard(c, D, deltaTime) == right;
    assert ProcessKeyboard(right, A, deltaTime) == right.(position := Sub(right.position, v));
  }

  /**
    `ProcessMouseMovement`: scales the offsets by the sensitivity, adds them to
    yaw and pitch, clamps pitch to [-89, 89] when asked, and recomputes the basis.
   */
  function ProcessMouseMovement(m: MathLib, c: Camera, xOffset: real, yOffset: real,
                                constrainPitch: bool := true): (r: Camera)
    ensures r.yaw == c.yaw + xOffset * c.mouseSensitivity
    ensures constrainPitch ==> PitchInRange(r.pitch)
    ensures constrainPitch ==> r.pitch == Clamp(-MaxPitch, MaxPitch, c.pitch + yOffset * c.mouseSensitivity)
    ensures !constrainPitch ==> r.pitch == c.pitch + yOffset * c.mouseSensitivity
    ensures BasisInSync(m, r)
    ensures r.position == c.position && r.zoom == c.zoom
    ensures r.movementSpeed == c.movementSpeed && r.mouseSensitivity == c.mouseSensitivity
  {
    var x := xOffset * c.mouseSensitivity;
    var y := yOffset * c.mouseSensitivity;
    var yaw := c.yaw + x;
    var pitch := c.pitch + y;
    var pitch := if constrainPitch && pitch > MaxPitch then MaxPitch else pitch;
    var pitch := if constrainPitch && pitch < -MaxPitch then -MaxPitch else pitch;
    UpdateCameraVectors(m, c.(yaw := yaw, pitch := pitch))
  }

  /**
    Two cameras that reach the same angles through mouse movement end up with
    the same basis, however different their bases were before.
   */
  lemma BasisDependsOnlyOnAngles(m: MathLib, c1: Camera, c2: Camera,
                                 x1: real, y1: real, x2: real, y2: real, constrainPitch: bool)
    requires ProcessMouseMovement(m, c1, x1, y1, constrainPitch).yaw
          == ProcessMouseMovement(m, c2, x2, y2, constrainPitch).yaw
    requires ProcessMouseMovement(m, c1, x1, y1, constrainPitch).pitch
          == ProcessMouseMovement(m, c2, x2, y2, constrainPitch).pitch
    ensures ProcessMouseMovement(m, c1, x1, y1, constrainPitch).front
         == ProcessMouseMovement(m, c2, x2, y2, constrainPitch).front
    ensures ProcessMouseMovement(m, c1, x1, y1, constrainPitch).right
         == ProcessMouseMovement(m, c2, x2, y2, constrainPitch).right
    ensures ProcessMouseMovement(m, c1, x1, y1, constrainPitch).up
         == ProcessMouseMovement(m, c2, x2, y2, constrainPitch).up
  {
  }

  /** `ProcessMouseScroll`: subtracts the offset from the zoom and clamps it to [1, 45]. */
  function ProcessMouseScroll(c: Camera, yOffset: real): (r: Camera)
    ensures ZoomInRange(r.zoom)
    ensures r.zoom == Clamp(MinZoom, MaxZoom, c.zoom - yOffset)
    ensures r == c.(zoom := r.zoom)
  {
    var zoom := c.zoom - yOffset;
    var zoom := if zoom < MinZoom then MinZoom else zoom;
    var zoom := if zoom > MaxZoom then MaxZoom else zoom;
    c.(zoom := zoom)
  }

  /** Scrolling never changes what the camera sees from where. */
  lemma ScrollKeepsView(m: MathLib, c: Camera, yOffset: real)
    ensures GetViewMatrix(m, ProcessMouseScroll(c, yOffset)) == GetViewMatrix(m, c)
  {
  }
}
