/**
  The input glue of the game loop (`Ver2/Game.cs`): the fields the mouse,
  wheel and per-frame handlers read and write, and one pure step function per
  handler. Window, GL and shader work is not part of this model.
 */
module GameLoop {
  import opened VectorMath
  import opened Input
  import opened FlyCamera

  const InitialLastX: real := 400.0
  const InitialLastY: real := 300.0
  const InitialRotationSpeed: real := 1.0
  const InitialLightPosition: Vec3 := Vec3(1.2, 1.0, 2.0)
  const MinMovementSpeed: real := 0.5
  const MaxMovementSpeed: real := 10.0
  /** Movement speed gained per unit of wheel offset. */
  const WheelSpeedStep: real := 0.5

  /** The object colours selected by keys D1..D4, in that order. */
  const Palette: seq<Vec3> := [
    Vec3(0.8, 0.3, 0.2),
    Vec3(0.2, 0.6, 0.8),
    Vec3(0.3, 0.8, 0.3),
    Vec3(0.9, 0.9, 0.3)
  ]

  /** The key that selects `Palette[i]`. */
  function ColourKey(i: nat): Key
    requires i < 4
  {
    if i == 0 then D1 else if i == 1 then D2 else if i == 2 then D3 else D4
  }

  datatype GameState = GameState(
    camera: Camera,
    lastX: real,
    lastY: real,
    firstMouse: bool,
    rotationAngle: real,
    isRotating: bool,
    rotationSpeed: real,
    lightPosition: Vec3,
    objectColor: Vec3,
    rotatingCubeModel: Mat4,
    view: Mat4
  )

  /** The rotating cube's model matrix for a given angle (rotate, then lift by 1). */
  function CubeModel(m: MathLib, angle: real): Mat4
  {
    m.mul(m.rotationY(angle), m.translation(Vec3(0.0, 1.0, 0.0)))
  }

  predicate SpeedInRange(speed: real)
  {
    MinMovementSpeed <= speed <= MaxMovementSpeed
  }

  /**
    What every handler preserves: the camera basis matches its angles, pitch,
    zoom and speed stay in their ranges, and sensitivity and rotation speed
    keep their initial values.
   */
  predicate Invariant(m: MathLib, g: GameState)
  {
    && BasisInSync(m, g.camera)
    && PitchInRange(g.camera.pitch)
    && ZoomInRange(g.camera.zoom)
    && SpeedInRange(g.camera.movementSpeed)
    && g.camera.mouseSensitivity == DefaultMouseSensitivity
    && g.rotationSpeed == InitialRotationSpeed
  }

  /** The field initialisers together with the state-setting part of `OnLoad`. */
  function InitialGame(m: MathLib): (g: GameState)
    ensures Invariant(m, g)
    ensures g.firstMouse && !g.isRotating && g.rotationAngle == 0.0
    ensures g.objectColor == Palette[0]
    ensures g.view == GetViewMatrix(m, g.camera)
    ensures g.camera == NewCamera(m, Vec3(0.0, 2.0, 5.0), Vec3(0.0, 0.0, -1.0), Vec3(0.0, 1.0, 0.0))
    ensures g.lastX == 400.0 && g.lastY == 300.0
    ensures g.lightPosition == Vec3(1.2, 1.0, 2.0)
    ensures g.rotatingCubeModel == m.translation(Vec3(0.0, 1.0, 0.0))
  {
    var camera := NewCamera(m, Vec3(0.0, 2.0, 5.0), Vec3(0.0, 0.0, -1.0), Vec3(0.0, 1.0, 0.0));
    GameState(camera, InitialLastX, InitialLastY, true, 0.0, false, InitialRotationSpeed,
              InitialLightPosition, Vec3(0.8, 0.3, 0.2),
              m.translation(Vec3(0.0, 1.0, 0.0)), GetViewMatrix(m, camera))
  }

  // ---------------------------------------------------------------- OnMouseMove

  /**
    `OnMouseMove`: the offset from the previous cursor sample (screen Y
    inverted) turns the camera with pitch constrained. The first sample is
    taken as its own predecessor, so it does not turn a camera whose pitch is
    already in range.
   */
  function OnMouseMove(m: MathLib, g: GameState, ex: real, ey: real): (r: GameState)
    ensures !r.firstMouse && r.lastX == ex && r.lastY == ey
    ensures g.firstMouse ==> r.camera == ProcessMouseMovement(m, g.camera, 0.0, 0.0)
    ensures !g.firstMouse ==> r.camera == ProcessMouseMovement(m, g.camera, ex - g.lastX, g.lastY - ey)
    ensures PitchInRange(r.camera.pitch)
    ensures r == g.(camera := r.camera, lastX := ex, lastY := ey, firstMouse := false)
  {
    var lastX := if g.firstMouse then ex else g.lastX;
    var lastY := if g.firstMouse then ey else g.lastY;
    var xOffset := ex - lastX;
    var yOffset := lastY - ey;
    g.(camera := ProcessMouseMovement(m, g.camera, xOffset, yOffset),
       lastX := ex, lastY := ey, firstMouse := false)
  }

  /** The first cursor sample does not turn a camera whose pitch is already in range. */
  lemma FirstSampleDoesNotTurn(m: MathLib, g: GameState, ex: real, ey: real)
    requires g.firstMouse && PitchInRange(g.camera.pitch)
    ensures OnMouseMove(m, g, ex, ey).camera.yaw == g.camera.yaw
    ensures OnMouseMove(m, g, ex, ey).camera.pitch == g.camera.pitch
  {
  }

  // --------------------------------------------------------------- OnMouseWheel

  /**
    `OnMouseWheel`: the camera's scroll rule changes zoom, then movement speed
    grows by half the offset and is clamped to [0.5, 10].
   */
  function OnMouseWheel(g: GameState, offsetY: real): (r: GameState)
    ensures SpeedInRange(r.camera.movementSpeed) && ZoomInRange(r.camera.zoom)
    ensures r.camera.movementSpeed
         == Clamp(MinMovementSpeed, MaxMovementSpeed, g.camera.movementSpeed + offsetY * WheelSpeedStep)
    ensures r.camera.zoom == Clamp(MinZoom, MaxZoom, g.camera.zoom - offsetY)
    ensures r == g.(camera := g.camera.(zoom := r.camera.zoom, movementSpeed := r.camera.movementSpeed))
  {
    var camera := ProcessMouseScroll(g.camera, offsetY);
    var speed := camera.movementSpeed + offsetY * WheelSpeedStep;
    var speed := if speed < MinMovementSpeed then MinMovementSpeed else speed;
    var speed := if speed > MaxMovementSpeed then MaxMovementSpeed else speed;
    g.(camera := camera.(movementSpeed := speed))
  }

  // -------------------------------------------------------------- OnUpdateFrame

  /** Camera movement: each of W, S, A, D that is held moves the camera, in that order. */
  function MoveCamera(c: Camera, held: set<Key>, deltaTime: real): (r: Camera)
    ensures r == c.(position := r.position)
  {
    var c := if W in held then ProcessKeyboard(c, W, deltaTime) else c;
    var c := if S in held then ProcessKeyboard(c, S, deltaTime) else c;
    var c := if A in held then ProcessKeyboard(c, A, deltaTime) else c;
    if D in held then ProcessKeyboard(c, D, deltaTime) else c
  }

  /** W then S: the position moves along Front by speed * deltaTime * (W minus S). */
  lemma ForwardHalf(c: Camera, held: set<Key>, deltaTime: real)
    ensures var c1 := if W in held then ProcessKeyboard(c, W, deltaTime) else c;
            var c2 := if S in held then ProcessKeyboard(c1, S, deltaTime) else c1;
            && c2 == c.(position := c2.position)
            && Sub(c2.position, c.position) == Scale(Scale(c.front, c.movementSpeed * deltaTime), Axis(held, W, S))
  {
    var f := Scale(c.front, c.movementSpeed * deltaTime);
    var c1 := if W in held then ProcessKeyboard(c, W, deltaTime) else c;
    var p1 := if W in held then Add(c.position, f) else c.position;
    assert c1 == c.(position := p1);
    var c2 := if S in held then ProcessKeyboard(c1, S, deltaTime) else c1;
    assert c2 == c.(position := if S in held then Sub(p1, f) else p1);
    SignedStep(c.position, f, W in held, S in held);
  }

  /**
    A then D on a camera `c` that differs from `c0` in position only: the
    position moves along `c0`'s Right by speed * deltaTime * (D minus A).
   */
  lemma StrafeHalf(c0: Camera, c: Camera, held: set<Key>, deltaTime: real)
    requires c == c0.(position := c.position)
    ensures var c1 := if A in held then ProcessKeyboard(c, A, deltaTime) else c;
            var c2 := if D in held then ProcessKeyboard(c1, D, deltaTime) else c1;
            && c2 == c0.(position := c2.position)
            && Sub(c2.position, c.position) == Scale(Scale(c0.right, c0.movementSpeed * deltaTime), Axis(held, D, A))
  {
    var rt := Scale(c0.right, c0.movementSpeed * deltaTime);
    assert c.right == c0.right && c.movementSpeed == c0.movementSpeed;
    assert Scale(c.right, c.movementSpeed * deltaTime) == rt;
    var c1 := if A in held then ProcessKeyboard(c, A, deltaTime) else c;
    var p1 := if A in held then Sub(c.position, rt) else c.position;
    assert c1 == c0.(position := p1);
    var c2 := if D in held then ProcessKeyboard(c1, D, deltaTime) else c1;
    assert c2 == c0.(position := if D in held then Add(p1, rt) else p1);
    SignedStep'(c.position, rt, D in held, A in held);
  }

  /**
    The net movement over one frame: speed * deltaTime along Front for W
    against S, and along Right for D against A. Opposing keys cancel.
   */
  lemma MoveCameraDisplacement(c: Camera, held: set<Key>, deltaTime: real)
    ensures Sub(MoveCamera(c, held, deltaTime).position, c.position)
         == Add(Scale(Scale(c.front, c.movementSpeed * deltaTime), Axis(held, W, S)),
                Scale(Scale(c.right, c.movementSpeed * deltaTime), Axis(held, D, A)))
  {
    ForwardHalf(c, held, deltaTime);
    var c1 := if W in held then ProcessKeyboard(c, W, deltaTime) else c;
    var c2 := if S in held then ProcessKeyboard(c1, S, deltaTime) else c1;
    StrafeHalf(c, c2, held, deltaTime);
    var c3 := if A in held then ProcessKeyboard(c2, A, deltaTime) else c2;
    var c4 := if D in held then ProcessKeyboard(c3, D, deltaTime) else c3;
    assert MoveCamera(c, held, deltaTime) == c4;
    SubChain(c.position, c2.position, c4.position);
  }

  /**
    Adding `v` when `pos` holds and then subtracting it when `neg` holds moves
    a point by `v` times (pos minus neg).
   */
  lemma SignedStep(p: Vec3, v: Vec3, pos: bool, neg: bool)
    ensures var p1 := if pos then Add(p, v) else p;
            var p2 := if neg then Sub(p1, v) else p1;
            Sub(p2, p) == Scale(v, (if pos then 1.0 else 0.0) - (if neg then 1.0 else 0.0))
  {
  }

  /** As `SignedStep`, with the subtraction applied first. */
  lemma SignedStep'(p: Vec3, v: Vec3, pos: bool, neg: bool)
    ensures var p1 := if neg then Sub(p, v) else p;
            var p2 := if pos then Add(p1, v) else p1;
            Sub(p2, p) == Scale(v, (if pos then 1.0 else 0.0) - (if neg then 1.0 else 0.0))
  {
  }

  /** `IsKeyPressed(R)` flips the rotation flag. */
  function ToggleRotation(isRotating: bool, pressed: set<Key>): (r: bool)
    ensures r != isRotating <==> R in pressed
  {
    if R in pressed then !isRotating else isRotating
  }

  /** Two frames in which R is pressed leave the rotation flag as it was. */
  lemma ToggleRotationTwice(isRotating: bool, pressed: set<Key>)
    requires R in pressed
    ensures ToggleRotation(ToggleRotation(isRotating, pressed), pressed) == isRotating
  {
  }

  /**
    Rotation angle: Left and Right turn by one radian per second in opposite
    senses; while rotating, `rotationSpeed` radians per second are added.
   */
  function StepRotation(angle: real, isRotating: bool, rotationSpeed: real,
                        held: set<Key>, deltaTime: real): (r: real)
    ensures r - angle == deltaTime * Axis(held, Right, Left)
                         + (if isRotating then rotationSpeed * deltaTime else 0.0)
  {
    var angle := if Left in held then angle - 1.0 * deltaTime else angle;
    var angle := if Right in held then angle + 1.0 * deltaTime else angle;
    if isRotating then angle + rotationSpeed * deltaTime else angle
  }

  /** With neither arrow key held and rotation off, the angle does not move. */
  lemma RotationIdle(angle: real, rotationSpeed: real, held: set<Key>, deltaTime: real)
    requires Left !in held && Right !in held
    ensures StepRotation(angle, false, rotationSpeed, held, deltaTime) == angle
  {
  }

  /** Light movement: Up/Down move it in Y, Comma/Period in X, one unit per second. */
  function MoveLight(light: Vec3, held: set<Key>, deltaTime: real): (r: Vec3)
    ensures r.z == light.z
    ensures r.y - light.y == deltaTime * Axis(held, Up, Down)
    ensures r.x - light.x == deltaTime * Axis(held, Period, Comma)
  {
    var light := if Up in held then light.(y := light.y + 1.0 * deltaTime) else light;
    var light := if Down in held then light.(y := light.y - 1.0 * deltaTime) else light;
    var light := if Comma in held then light.(x := light.x - 1.0 * deltaTime) else light;
    if Period in held then light.(x := light.x + 1.0 * deltaTime) else light
  }

  /**
    Colour keys: each of D1..D4 pressed this frame selects its palette colour,
    checked in that order.
   */
  function SelectColour(colour: Vec3, pressed: set<Key>): (r: Vec3)
    ensures (D1 !in pressed && D2 !in pressed && D3 !in pressed && D4 !in pressed) ==> r == colour
    ensures r == colour || r in Palette
    ensures (D1 in pressed || D2 in pressed || D3 in pressed || D4 in pressed) ==> r in Palette
  {
    var colour := if D1 in pressed then Palette[0] else colour;
    var colour := if D2 in pressed then Palette[1] else colour;
    var colour := if D3 in pressed then Palette[2] else colour;
    if D4 in pressed then Palette[3] else colour
  }

  /** Of several colour keys pressed in one frame, the highest-numbered one wins. */
  lemma SelectColourLastWins(colour: Vec3, pressed: set<Key>, i: nat)
    requires i < 4 && ColourKey(i) in pressed
    requires forall j :: i < j < 4 ==> ColourKey(j) !in pressed
    ensures SelectColour(colour, pressed) == Palette[i]
  {
    if i < 3 { assert ColourKey(3) !in pressed; }
    if i < 2 { assert ColourKey(2) !in pressed; }
    if i < 1 { assert ColourKey(1) !in pressed; }
  }

  /**
    `OnUpdateFrame` without the Escape/close path: camera movement, rotation
    toggle and angle, the cube's model matrix, light movement, colour keys,
    and finally the view matrix. `held` is the set of keys down this frame,
    `pressed` the set pressed this frame.
   */
  function OnUpdateFrame(m: MathLib, g: GameState, held: set<Key>, pressed: set<Key>,
                         deltaTime: real): (r: GameState)
    ensures r.camera == g.camera.(position := r.camera.position)
    ensures r.view == GetViewMatrix(m, r.camera)
    ensures r.rotatingCubeModel == CubeModel(m, r.rotationAngle)
    ensures r.isRotating != g.isRotating <==> R in pressed
    ensures r.rotationAngle - g.rotationAngle
         == deltaTime * Axis(held, Right, Left) + (if r.isRotating then g.rotationSpeed * deltaTime else 0.0)
    ensures r.lightPosition.z == g.lightPosition.z
    ensures r.lightPosition.y - g.lightPosition.y == deltaTime * Axis(held, Up, Down)
    ensures r.lightPosition.x - g.lightPosition.x == deltaTime * Axis(held, Period, Comma)
    ensures r.objectColor == SelectColour(g.objectColor, pressed)
    ensures r.lastX == g.lastX && r.lastY == g.lastY && r.firstMouse == g.firstMouse
    ensures r.rotationSpeed == g.rotationSpeed
  {
    var camera := MoveCamera(g.camera, held, deltaTime);
    var rotating := ToggleRotation(g.isRotating, pressed);
    var angle := StepRotation(g.rotationAngle, rotating, g.rotationSpeed, held, deltaTime);
    g.(camera := camera,
       isRotating := rotating,
       rotationAngle := angle,
       rotatingCubeModel := CubeModel(m, angle),
       lightPosition := MoveLight(g.lightPosition, held, deltaTime),
       objectColor := SelectColour(g.objectColor, pressed),
       view := GetViewMatrix(m, camera))
  }

  /**
    Over one frame the camera travels speed * deltaTime along Front for W
    against S and along Right for D against A, and its view follows it.
   */
  lemma FrameMovesCamera(m: MathLib, g: GameState, held: set<Key>, pressed: set<Key>, deltaTime: real)
    ensures Sub(OnUpdateFrame(m, g, held, pressed, deltaTime).camera.position, g.camera.position)
         == Add(Scale(Scale(g.camera.front, g.camera.movementSpeed * deltaTime), Axis(held, W, S)),
                Scale(Scale(g.camera.right, g.camera.movementSpeed * deltaTime), Axis(held, D, A)))
  {
    MoveCameraDisplacement(g.camera, held, deltaTime);
    assert OnUpdateFrame(m, g, held, pressed, deltaTime).camera == MoveCamera(g.camera, held, deltaTime);
  }

  // ------------------------------------------------------------------- traces

  /** One input event delivered by the window. */
  datatype Event =
    | MouseMove(x: real, y: real)
    | MouseWheel(offsetY: real)
    | UpdateFrame(held: set<Key>, pressed: set<Key>, deltaTime: real)

  function Step(m: MathLib, g: GameState, e: Event): GameState
  {
    match e
    case MouseMove(x, y) => OnMouseMove(m, g, x, y)
    case MouseWheel(offsetY) => OnMouseWheel(g, offsetY)
    case UpdateFrame(held, pressed, deltaTime) => OnUpdateFrame(m, g, held, pressed, deltaTime)
  }

  /** The state after handling `events` in order. */
  function Run(m: MathLib, g: GameState, events: seq<Event>): GameState
    decreases |events|
  {
    if |events| == 0 then g else Run(m, Step(m, g, events[0]), events[1..])
  }

  lemma StepPreservesInvariant(m: MathLib, g: GameState, e: Event)
    requires Invariant(m, g)
    ensures Invariant(m, Step(m, g, e))
  {
  }

  lemma {:induction false} RunPreservesInvariant(m: MathLib, g: GameState, events: seq<Event>)
    requires Invariant(m, g)
    ensures Invariant(m, Run(m, g, events))
    decreases |events|
  {
    if |events| > 0 {
      StepPreservesInvariant(m, g, events[0]);
      RunPreservesInvariant(m, Step(m, g, events[0]), events[1..]);
    }
  }

  /**
    Whatever events arrive, the camera basis matches its angles, pitch stays
    in [-89, 89], zoom in [1, 45] and movement speed in [0.5, 10].
   */
  lemma InvariantHoldsOnEveryTrace(m: MathLib, events: seq<Event>)
    ensures Invariant(m, Run(m, InitialGame(m), events))
  {
    RunPreservesInvariant(m, InitialGame(m), events);
  }

  /**
    Once a first cursor sample has been seen, each event turns the camera by
    the sensitivity `s` times the horizontal cursor travel it records.
   */
  lemma StepTracksCursor(m: MathLib, g: GameState, e: Event, s: real)
    requires !g.firstMouse && g.camera.mouseSensitivity == s
    ensures var h := Step(m, g, e);
            && !h.firstMouse
            && h.camera.mouseSensitivity == s
            && h.camera.yaw - g.camera.yaw == s * (h.lastX - g.lastX)
  {
    match e
    case MouseMove(x, y) => MouseMoveTracksCursor(m, g, x, y, s);
    case MouseWheel(offsetY) => assert Step(m, g, e) == OnMouseWheel(g, offsetY);
    case UpdateFrame(held, pressed, deltaTime) =>
      assert Step(m, g, e) == OnUpdateFrame(m, g, held, pressed, deltaTime);
  }

  lemma MouseMoveTracksCursor(m: MathLib, g: GameState, ex: real, ey: real, s: real)
    requires !g.firstMouse && g.camera.mouseSensitivity == s
    ensures var h := OnMouseMove(m, g, ex, ey);
            h.camera.yaw - g.camera.yaw == s * (h.lastX - g.lastX)
  {
  }

  /**
    The heading anchor: yaw minus `s` times the last cursor X. Past the first
    sample it is left unchanged by every event.
   */
  function Anchor(g: GameState, s: real): real
  {
    g.camera.yaw - s * g.lastX
  }

  lemma StepKeepsAnchor(m: MathLib, g: GameState, e: Event, s: real)
    requires !g.firstMouse && g.camera.mouseSensitivity == s
    ensures !Step(m, g, e).firstMouse && Step(m, g, e).camera.mouseSensitivity == s
    ensures Anchor(Step(m, g, e), s) == Anchor(g, s)
  {
    match e
    case MouseMove(x, y) => MouseMoveKeepsAnchor(m, g, x, y, s);
    case MouseWheel(offsetY) => assert Step(m, g, e) == OnMouseWheel(g, offsetY);
    case UpdateFrame(held, pressed, deltaTime) =>
      assert Step(m, g, e) == OnUpdateFrame(m, g, held, pressed, deltaTime);
  }

  lemma MouseMoveKeepsAnchor(m: MathLib, g: GameState, ex: real, ey: real, s: real)
    requires !g.firstMouse && g.camera.mouseSensitivity == s
    ensures Anchor(OnMouseMove(m, g, ex, ey), s) == Anchor(g, s)
  {
    MouseMoveTracksCursor(m, g, ex, ey, s);
    var h := OnMouseMove(m, g, ex, ey);
    AnchorFromTravel(g.camera.yaw, h.camera.yaw, g.lastX, h.lastX, s);
  }

  lemma {:induction false} RunKeepsAnchor(m: MathLib, g: GameState, events: seq<Event>, s: real)
    requires !g.firstMouse && g.camera.mouseSensitivity == s
    ensures !Run(m, g, events).firstMouse && Run(m, g, events).camera.mouseSensitivity == s
    ensures Anchor(Run(m, g, events), s) == Anchor(g, s)
    decreases |events|
  {
    if |events| > 0 {
      StepKeepsAnchor(m, g, events[0], s);
      RunKeepsAnchor(m, Step(m, g, events[0]), events[1..], s);
    }
  }

  /** The first sample fixes the anchor at the current yaw and the sample's X. */
  lemma FirstSampleAnchor(m: MathLib, g: GameState, ex: real, ey: real)
    requires g.firstMouse
    ensures var s := g.camera.mouseSensitivity;
            && !OnMouseMove(m, g, ex, ey).firstMouse
            && OnMouseMove(m, g, ex, ey).camera.mouseSensitivity == s
            && Anchor(OnMouseMove(m, g, ex, ey), s) == g.camera.yaw - s * ex
  {
  }

  /**
    After any trace of events that starts with the first cursor sample `ex`,
    yaw minus the sensitivity times the last cursor X still equals the yaw
    before that sample minus the sensitivity times `ex`. So the net change of
    yaw is the sensitivity times the net horizontal cursor travel since the
    first sample: that sample introduces no jump, and wheel and frame events
    in between do not disturb the heading.
   */
  lemma YawTracksCursor(m: MathLib, g: GameState, ex: real, ey: real, events: seq<Event>)
    requires g.firstMouse
    ensures var h := Run(m, OnMouseMove(m, g, ex, ey), events);
            && h.camera.mouseSensitivity == g.camera.mouseSensitivity
            && Anchor(h, g.camera.mouseSensitivity) == g.camera.yaw - g.camera.mouseSensitivity * ex
  {
    FirstSampleAnchor(m, g, ex, ey);
    RunKeepsAnchor(m, OnMouseMove(m, g, ex, ey), events, g.camera.mouseSensitivity);
  }

  /** A turn proportional to the cursor travel keeps yaw minus `s` times the cursor X fixed. */
  lemma AnchorFromTravel(yaw0: real, yaw1: real, x0: real, x1: real, s: real)
    requires yaw1 - yaw0 == s * (x1 - x0)
    ensures yaw1 - s * x1 == yaw0 - s * x0
  {
    assert s * (x1 - x0) == s * x1 - s * x0;
  }
}
