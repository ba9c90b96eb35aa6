# Fly camera, input handling and plane mesh of the OpenTK demo

This project models the non-graphical core of a small OpenTK scene (`Ver2`).
It has three parts.

- **The first-person fly camera** (`Ver2/Camera.cs`). The camera state is:
  - position, yaw and pitch, with the basis Front, Right and Up derived from the two angles;
  - movement speed, mouse sensitivity and zoom.

  Keyboard input moves the position along Front or Right. Mouse input turns the camera, with pitch clamped to [-89, 89]. Scrolling changes zoom, clamped to [1, 45].
- **The game loop's input handlers** (`Ver2/Game.cs`). `OnMouseMove` turns the camera by the cursor travel since the last sample. The very first sample counts as its own predecessor, and screen Y is inverted. `OnMouseWheel` zooms and changes movement speed, clamped to [0.5, 10]. The state-changing part of `OnUpdateFrame` covers:
  - WASD movement;
  - the R toggle for automatic rotation and the arrow keys for manual rotation;
  - moving the light with Up/Down/Comma/Period;
  - the D1–D4 colour palette;
  - refreshing the cube's model matrix and the view matrix.

  Each handler is a pure step function on an immutable `GameState`. A trace of `Event`s is folded by `Run`.
- **The floor plane mesh** (`Ver2/Shapes/Plane.cs`). It is a literal buffer of 4 vertices (position, normal, texture coordinate: 8 floats each) and 6 indices. The model checks these literals against the stride and draw count the game loop uses.

Numbers are Dafny `real`. The source's `float` rounding is not modelled.

The model does not fix the maths library behind the camera: sine, cosine, pi, `Vector3.Normalize`, `Matrix4.LookAt`, `CreateRotationY`, `CreateTranslation` and the matrix product. These are the fields of a `MathLib` value that every operation using the library takes as a parameter, so each property below holds for any such library. Vector addition, scaling and the cross product are exact ring arithmetic and are defined concretely.

Modules:
- `VectorMath` (`vector_math.dfy`): `Vec3`, `Mat4`, `MathLib`, the vector operations, and `Clamp`. `Clamp` is the reference definition that the source's hand-written clamps are proved against.
- `Input` (`input.dfy`): the keys the scene reacts to, and `Axis`, the net direction of a pair of opposing keys.
- `FlyCamera` (`camera.dfy`): the camera.
- `GameLoop` (`game.dfy`): the game state, the three handlers, traces, and the trace invariants.
- `PlaneShape` (`plane.dfy`): the plane's vertex and index data.

Two details of the clamps:
- The pitch clamp is the closed range [-89, 89]: the guards are `> 89` and `< -89` (Camera.cs:75-78), so the boundary values are kept.
- The speed clamp to [0.5, 10] is in `Game.OnMouseWheel` (Game.cs:317-321), not in the camera. `ProcessMouseScroll` alone changes only the zoom.

## Model

| member | source | states |
|---|---|---|
| FlyCamera.NewCamera | Ver2/Camera.cs:24-36 | The new camera has the given position, yaw -90, pitch 0 and zoom 45. Speed and sensitivity are the arguments. Front/Right/Up are the basis of those angles. |
| FlyCamera.NewCameraDefaults | Ver2/Camera.cs:24 | If the optional arguments are left out, speed is 2.5 and sensitivity is 0.1. |
| FlyCamera.NewCameraIgnoresOrientation | Ver2/Camera.cs:27-35 | The `front` and `up` passed in are overwritten, so any two choices build the same camera. |
| FlyCamera.NewCameraLooksDownNegativeZ | Ver2/Camera.cs:32-35 | With trigonometry exact at -90 and 0 degrees and a normalisation that fixes the unit axes, a new camera has Front (0,0,-1), Right (1,0,0) and Up (0,1,0). |
| FlyCamera.UpdateCameraVectors | Ver2/Camera.cs:94-106 | Afterwards the basis is the function of (yaw, pitch) built from cos/sin, Normalize and Cross. No other field changes. |
| VectorMath.CrossWithUnitYIsHorizontal | Ver2/Camera.cs:104 | The un-normalised Right, Cross(Front, UnitY), is (-z, 0, x) and is orthogonal to the world up axis. |
| FlyCamera.ViewDependsOnlyOnPose | Ver2/Camera.cs:38-41 | The view matrix is determined by position, Front and Up. Two cameras that agree on these get the same view. |
| FlyCamera.ProcessKeyboard | Ver2/Camera.cs:43-62 | Only the position changes: W adds Front·v, S subtracts Front·v, A subtracts Right·v, D adds Right·v, with v = speed·deltaTime. Any other key leaves the camera unchanged. |
| FlyCamera.ForwardBackwardCancel | Ver2/Camera.cs:49-54 | W followed by S with the same deltaTime, in either order, restores the camera exactly. |
| FlyCamera.StrafeCancel | Ver2/Camera.cs:55-60 | A followed by D with the same deltaTime, in either order, restores the camera exactly. |
| FlyCamera.ProcessMouseMovement | Ver2/Camera.cs:64-83 | Yaw grows by xOffset·sensitivity with no bound. Constrained pitch is the clamp of old + yOffset·sensitivity to [-89, 89], so it is always in range. Unconstrained pitch is exactly old + yOffset·sensitivity. The basis is recomputed. Position, zoom, speed and sensitivity are unchanged. |
| FlyCamera.BasisDependsOnlyOnAngles | Ver2/Camera.cs:81-82 | Two cameras that reach the same yaw and pitch get the same Front, Right and Up, whatever their earlier bases were. |
| FlyCamera.ProcessMouseScroll | Ver2/Camera.cs:85-92 | Zoom becomes the clamp of old - yOffset to [1, 45]: it is always in range, and exactly old - yOffset when that is in range. No other field changes. |
| FlyCamera.ScrollKeepsView | Ver2/Camera.cs:85-92 | Scrolling never changes the view matrix. |
| GameLoop.InitialGame | Ver2/Game.cs:35-47 | The initial state satisfies the game invariant. The first mouse sample is pending, rotation is off at angle 0, the colour is the first palette entry, and the view is the camera's. The camera is the one built at lines 97-101 (position (0, 2, 5), default speed and sensitivity). The cursor starts at (400, 300), the light at (1.2, 1, 2), and the cube model is the lift by 1 of line 117. |
| GameLoop.OnMouseMove | Ver2/Game.cs:297-312 | The camera turns by (x - lastX, lastY - y) with Y inverted, or by (0, 0) on the first sample. Afterwards the first-sample flag is cleared, the last cursor is the event position, and pitch is in range. Nothing else changes. |
| GameLoop.FirstSampleDoesNotTurn | Ver2/Game.cs:299-311 | When pitch is already in [-89, 89], the first cursor sample leaves yaw and pitch as they were. |
| GameLoop.OnMouseWheel | Ver2/Game.cs:314-322 | Zoom becomes the clamp of zoom - offset to [1, 45]. Speed becomes the clamp of speed + 0.5·offset to [0.5, 10]. Only those two fields change. |
| GameLoop.MoveCamera | Ver2/Game.cs:196-204 | Holding any of W, S, A, D changes only the camera's position. |
| GameLoop.MoveCameraDisplacement | Ver2/Game.cs:196-204 | Over one frame the position moves by speed·deltaTime·(W - S) along Front plus speed·deltaTime·(D - A) along Right. Opposing keys cancel. |
| GameLoop.FrameMovesCamera | Ver2/Game.cs:196-204 | The frame handler moves the camera by exactly that displacement. |
| GameLoop.ToggleRotation | Ver2/Game.cs:206-210 | The rotation flag changes if and only if R was pressed this frame. |
| GameLoop.ToggleRotationTwice | Ver2/Game.cs:207-210 | Two frames with R pressed restore the flag. |
| GameLoop.StepRotation | Ver2/Game.cs:212-222 | The angle changes by deltaTime·(Right - Left), plus rotationSpeed·deltaTime while rotating. |
| GameLoop.RotationIdle | Ver2/Game.cs:212-222 | With neither arrow held and rotation off, the angle does not move. |
| GameLoop.MoveLight | Ver2/Game.cs:227-235 | The light's Y changes by deltaTime·(Up - Down) and its X by deltaTime·(Period - Comma). Z never changes. |
| GameLoop.SelectColour | Ver2/Game.cs:237-245 | With no colour key pressed the colour is unchanged. When any of D1–D4 is pressed it is one of the four palette colours. |
| GameLoop.SelectColourLastWins | Ver2/Game.cs:237-245 | Of several colour keys pressed together, the highest-numbered one wins. |
| GameLoop.OnUpdateFrame | Ver2/Game.cs:189-248 | The camera changes only its position. The flag flips if and only if R is pressed. The angle advances as above, using the flag after the toggle. The cube model and view matrices follow the new angle and camera. The light moves as above. The colour is what `SelectColour` gives for the keys pressed this frame: unchanged when no colour key is pressed, otherwise the highest-numbered pressed key's palette entry. Cursor tracking and rotation speed are untouched. |
| GameLoop.StepPreservesInvariant | Ver2/Game.cs:189-322 | Each handler keeps the basis in sync with the angles, keeps pitch, zoom and speed in range, and keeps sensitivity and rotation speed fixed. |
| GameLoop.RunPreservesInvariant | Ver2/Game.cs:189-322 | The same holds after any sequence of events. |
| GameLoop.InvariantHoldsOnEveryTrace | Ver2/Game.cs:189-322 | From the initial state, every trace of mouse, wheel and frame events keeps the basis in sync, pitch in [-89, 89], zoom in [1, 45] and speed in [0.5, 10]. |
| GameLoop.StepTracksCursor | Ver2/Game.cs:306-311 | After the first sample, each event turns the camera by sensitivity times the horizontal cursor travel it records. Wheel and frame events record none and turn by none. |
| GameLoop.MouseMoveKeepsAnchor | Ver2/Game.cs:306-311 | After the first sample, a mouse event turns yaw by sensitivity times the cursor's X travel, so yaw - sensitivity·lastX is unchanged. |
| GameLoop.RunKeepsAnchor | Ver2/Game.cs:306-311 | After the first sample, yaw - sensitivity·lastX is the same after any sequence of events. |
| GameLoop.FirstSampleAnchor | Ver2/Game.cs:299-304 | The first sample fixes yaw - sensitivity·lastX at the current yaw minus sensitivity times the sample's X. |
| GameLoop.YawTracksCursor | Ver2/Game.cs:297-311 | From the first sample on, over any trace, the net change of yaw equals sensitivity times the net horizontal cursor travel since that sample. |
| PlaneShape.NewPlane | Ver2/Shapes/Plane.cs:10-25 | The plane has 4 vertices of 8 floats. All normals are up. All positions are corners of the square at height 0.25. Texture coordinates are in [0, 1]. There are 6 indices, all below 4, forming two proper triangles that split the quad along the diagonal 0-2. |
| PlaneShape.PlaneNormalsUp | Ver2/Shapes/Plane.cs:13-19 | Floats 3..5 of every vertex are (0, 1, 0). |
| PlaneShape.PlaneCornersAtHeight | Ver2/Shapes/Plane.cs:13-19 | Every position has y = 0.25 and x, z in {-0.5, 0.5}. |
| PlaneShape.PlaneTexCoordsInUnitSquare | Ver2/Shapes/Plane.cs:13-19 | Floats 6..7 of every vertex lie in [0, 1]. |
| PlaneShape.PlaneTriangles | Ver2/Shapes/Plane.cs:21-24 | The two triangles share exactly vertices 0 and 2 and together cover all four. No triangle repeats a vertex. |
| PlaneShape.PlaneBuffersMatchPipeline | Ver2/Game.cs:174-183 | The vertex array returned by `getVert` is 4·8 floats, a whole number of the 8-float attribute stride. The 3 position, 3 normal and 2 texture floats at offsets 0, 3 and 6 fill each vertex exactly. |
| PlaneShape.PlaneDrawCountMatches | Ver2/Game.cs:286 | The index array returned by `getIndices` has exactly the 6 entries the draw call consumes, and each drawn index is below the vertex count. |

## Left out

- Window creation, `OnLoad`'s GL setup, `SetupCubeGeometry`, `SetupPlaneGeometry`'s buffer uploads, `OnRenderFrame`, `Dispose` and `Run`: these are OpenGL/OpenTK calls with no state the model tracks. The attribute stride and the draw count are kept as constants.
- The Escape key closing the window in `OnUpdateFrame`: it is a call into the windowing library.
- `OnResize` and the projection matrix: both are viewport/GL state. The projection's use of zoom is therefore not modelled. Zoom itself is.
- `Ver2/Shader.cs` and `Ver2/Texture.cs`: file reading, shader compilation and texture decoding are foreign calls.
- The `Cube` shape: its source is not part of this model. The rotating cube is represented only by its model matrix.
- The light colour, the stationary cube's colour and model matrix, the plane's colour and model matrix: they are constants that no handler changes.
- Real trigonometry, normalisation and matrix arithmetic: these are `MathLib` parameters. Nothing is proved about orthonormality or unit length of the basis.
- `float` rounding: the model uses `real`, so the round-trip lemmas (W then S, A then D) hold exactly in the model and only approximately in single precision.
- The key state (`IsKeyDown`, `IsKeyPressed`) and the frame time are inputs: each frame event carries the set of keys held, the set of keys pressed, and deltaTime.
- FlyCamera.GetViewMatrix: has no contract of its own, because the look-at matrix is a library parameter. What it depends on is stated by `ViewDependsOnlyOnPose` and `ScrollKeepsView`.
- PlaneShape.GetVert, PlaneShape.GetIndices (Ver2/Shapes/Plane.cs:27-35): no contract of their own, since each returns its stored array as is. What they hand out is stated by `PlaneBuffersMatchPipeline` and `PlaneDrawCountMatches`.
- No guard against a degenerate basis when pitch reaches ±90 is modelled. The source has none, and with the constrained pitch used by the game it cannot be reached.
