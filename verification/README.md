# Hinged cube stack — a Dafny model

`main.js` draws a stack of seven cubes that swing like a hinged chain. Each
cube is the same hand-written cube geometry: 24 vertex positions, 24 normals
and a list of 36 triangle indices, plus a 24-vertex wireframe of the cube's
12 edges. Every animation frame builds a scaling `S` and two translations
`T1`, `T2` with the constructors `translationMatrix`, `rotationMatrixZ` and
`scalingMatrix`, plus a rotation `R` by an angle that oscillates with time.
It then hands cube `i` the matrix `(T2·R·T1)^i · S`. The keys 's' and 'w'
pause and resume the swing and switch between the solid cubes and the
wireframe cubes.

The model has five modules:

- `Linear` — 3- and 4-vectors and 4x4 real matrices, stored by rows as
  `Matrix4.set` receives them. It covers the product that `multiplyMatrices`
  stores, matrices applied to points, associativity and powers.
- `CubeGeometry` — the four tables `positions`, `indices`, `normals` and
  `wireframe_vertices`, with half-edge `L = 0.5`. A three-component
  `Float32Array` becomes a sequence of `Vec3`. The index list is written as
  12 triangles; `Flatten` turns it into the 36 indices the buffer receives.
- `Transforms` — the three matrix constructors and what each does to a point:
  how they compose, their inverses, and rigidity.
- `Stacking` — the loop of `animate` that assigns the cube matrices. It gives
  the closed form `H^i · S` of cube `i`'s matrix, where `H = T2·R·T1` is
  written out as `Hinge`. From that it proves:
  - neighbouring cubes share their hinge edge at every angle;
  - at angle 0 they sit flush on top of each other;
  - every cube is a congruent copy of the scaled cube.

  These lemmas take the half-edge `l` as a parameter and hold for every `l`.
  `main.js` uses 0.5.
- `Animation` — the interactive state:
  - the visibility of the seven meshes and the seven wireframes;
  - the pause flag `still`;
  - the time variables;
  - the handling of key presses and animation frames, with runs of events
    folded over them.

  The invariant `Inv` says that each cube is shown exactly when its twin is
  hidden, and that all meshes share one visibility. Every run keeps it.

The rotation angle is `MAX_ANGLE / 2 · (1 + sin(2π·t / T))` with
`MAX_ANGLE = 20·π/360` and `T = 3`. The sine's value and π are parameters of
the model. The rotation matrix takes a cosine/sine pair; the rigidity lemmas
require it to lie on the unit circle. The hinge lemmas hold for any pair.

The comment on `MAX_ANGLE` in `main.js:245` says "20 degrees". The expression
`20 * Math.PI / 360` is 10 degrees, so the swing spans 0 to 10 degrees. The
model follows the expression (`Animation.MaxAngleIsTenDegrees`).

## Model

| member | source | states |
|---|---|---|
| `Linear.ApplyMul` | main.js:280-282 | Applying a product `multiplyMatrices(a, b)` to a point applies `b` first, then `a`. |
| `Linear.MulAssoc` | main.js:280-282 | The matrix product is associative, so the three in-place products of one loop turn can be regrouped. |
| `Linear.PowerCommutes` | main.js:278-283 | The repeated per-cube factor commutes with its own powers. |
| `Transforms.TranslationMovesPoints` | main.js:182-189 | `translationMatrix(tx, ty, tz)` moves a point by (tx, ty, tz) and leaves a direction (w = 0) unchanged. |
| `Transforms.TranslationsCompose` | main.js:182-189 | Translating by b and then by a is one translation by a + b. |
| `Transforms.TranslationInverse` | main.js:182-189 | The translation by -t undoes the translation by t. |
| `Transforms.TranslationIsRigid` | main.js:182-189 | A translation keeps points as points and keeps the distance between any two of them. |
| `Transforms.RotationTurnsPoints` | main.js:191-198 | `rotationMatrixZ` turns the (x, y) part of a point by the angle and leaves z and w. |
| `Transforms.RotationFixesAxis` | main.js:191-198 | Points on the z axis are fixed by every rotation about z. |
| `Transforms.RotationIsRigid` | main.js:191-198 | For an angle on the unit circle the rotation preserves distances between points. |
| `Transforms.RotationInverse` | main.js:191-198 | Rotating by the opposite angle undoes a rotation. |
| `Transforms.NoRotationIsIdentity` | main.js:191-198 | The zero angle gives the identity matrix. |
| `Transforms.ScalingScalesPoints` | main.js:199-206 | `scalingMatrix(sx, sy, sz)` multiplies each coordinate of a point by its own factor. |
| `Transforms.ScalingsCompose` | main.js:199-206 | Two scalings compose to the scaling by the products of their factors. |
| `Transforms.LiftIsProduct` | main.js:270 | n lifts by d, added one at a time, reach d·n. |
| `Transforms.LiftPower` | main.js:270 | The n-th power of a vertical translation by d lifts every point by n·d, in the form `Lift(d, n)`. |
| `CubeGeometry.Flatten` | main.js:157 | The triangle list flattens to three indices per triangle, triangle t giving entries 3t, 3t+1 and 3t+2. |
| `CubeGeometry.FlattenInRange` | main.js:157 | Triangles whose corners are all valid vertex numbers flatten to an index buffer of valid vertex numbers. |
| `CubeGeometry.TrianglesInRange` | main.js:88-112 | The 12 triangles name only vertices among the 24 positions. |
| `CubeGeometry.IndexTableWellFormed` | main.js:88-112 | The index buffer holds 36 entries, whole triangles, each below the 24 vertices. |
| `CubeGeometry.TrianglesStayInFaces` | main.js:88-112 | The three corners of every triangle lie in one face's block of four vertices. |
| `CubeGeometry.FaceTriangles` | main.js:88-112 | Face f is the quad 4f..4f+3, cut into two triangles along its diagonal 4f, 4f+2. |
| `CubeGeometry.PositionsAreCorners` | main.js:50-86 | Each of the 24 positions is a corner (±L, ±L, ±L) of the cube. |
| `CubeGeometry.NormalsAreUnitAxes` | main.js:116-152 | Every normal is a unit vector along one axis. |
| `CubeGeometry.VerticesOnNormalPlanes` | main.js:116-152 | Each vertex lies at distance L along its normal, on the outside of the cube. |
| `CubeGeometry.FaceNormalsAgree` | main.js:116-152 | The four vertices of a face carry the same normal. |
| `CubeGeometry.NormalsPointOutOfFaces` | main.js:116-152 | Normals are unit axis vectors shared per face and pointing out of the face their vertex belongs to. |
| `CubeGeometry.FrontLeftTopWind` | main.js:88-99 | Front, left and top quads wind counter-clockwise around their normals. |
| `CubeGeometry.BottomRightBackWind` | main.js:100-112 | Bottom, right and back quads wind counter-clockwise around their normals. |
| `CubeGeometry.FirstHalfFacesOutward` | main.js:88-112 | The first triangle of each face uses vertices of one normal and winds counter-clockwise around it. |
| `CubeGeometry.SecondHalfFacesOutward` | main.js:88-112 | The second triangle of each face does the same. |
| `CubeGeometry.TrianglesFaceOutward` | main.js:88-112 | All 12 triangles are front-facing seen from outside the cube, as the normals say. |
| `CubeGeometry.WireframeEndsAtCorners` | main.js:160-176 | Every wireframe endpoint is a cube corner. |
| `CubeGeometry.WireframeSegmentsAreEdges` | main.js:160-176 | Every wireframe segment runs along one axis over a full edge length 2L. |
| `CubeGeometry.WireframeSegmentsDistinct` | main.js:160-176 | No two wireframe segments join the same pair of corners. |
| `CubeGeometry.WireframeIsCubeEdges` | main.js:160-176 | The wireframe is exactly the 12 distinct edges of the cube. |
| `Stacking.AssignMatrices` | main.js:271-283 | The loop gives cube 0 the scaling and cube i the i-th power of T2·R·T1 times the scaling, for any count and any four matrices. |
| `Stacking.Advance` | main.js:280-282 | The three in-place products of one turn multiply the running matrix by T2·(R·T1). |
| `Stacking.AnimateFrame` | main.js:264-283 | With the frame's S, T1, R and T2, cube i receives `CubeMatrix(l, a, i)`, that is H^i·S. |
| `Stacking.HingeIsProduct` | main.js:267-270 | T2·(R·T1) equals the written-out hinge `Hinge`: T1 moves the scaled cube's bottom-left edge onto the z axis, R turns about it and T2 carries that edge onto the top-left edge. |
| `Stacking.TurnIsConjugate` | main.js:267-270 | Moving the edge x = px, y = py onto the z axis, rotating, and moving it back is the written-out turn `TurnAbout` about that edge. |
| `Stacking.TurnFixesEdge` | main.js:267-270 | A turn about an edge leaves every point of that edge in place. |
| `Stacking.HingeIsLiftThenTurn` | main.js:267-270 | The hinge moves every point up by the cube height 3l and then turns it about the top-left edge x = -l, y = 1.5l. |
| `Stacking.PlacementStep` | main.js:278-283 | Each cube's matrix is the hinge times the matrix of the cube before it. |
| `Stacking.StackTranslations` | main.js:268-270 | T2·T1 lifts by 3l, exactly the height of the cube after the 1.5 scaling. |
| `Stacking.HingeMapsBottomToTop` | main.js:267-270 | At every angle the hinge takes the scaled cube's bottom-left edge onto its top-left edge. |
| `Stacking.ScaledLeftEdges` | main.js:268 | The scaling moves the left edges y = ±l to y = ±1.5l. |
| `Stacking.CubesStayHinged` | main.js:264-283 | At every angle the bottom-left edge of cube i+1 lies on the top-left edge of cube i. |
| `Stacking.StraightHinge` | main.js:267-270 | At angle 0 the hinge is a plain lift by 3l. |
| `Stacking.StraightStacking` | main.js:264-283 | At angle 0 cube i is the scaled cube lifted i times by 3l. |
| `Stacking.StraightCubesTouch` | main.js:264-283 | At angle 0 the top face of cube i coincides with the bottom face of cube i+1. |
| `Stacking.HingeIsRigid` | main.js:267-270 | For a true rotation the hinge moves points rigidly. |
| `Stacking.HingePowerIsRigid` | main.js:278-283 | So does every power of the hinge. |
| `Stacking.CubesAreCongruent` | main.js:264-283 | Every cube of the stack is a congruent copy of the scaled cube. |
| `Animation.Init` | main.js:213-230 | There are seven cubes of each kind. |
| `Animation.InitShowsMeshes` | main.js:213-230 | Initially all meshes are shown and all wireframes hidden, the swing runs and all times are 0. |
| `Animation.ToggleWireframe` | main.js:233-238 | The loop flips the visibility of mesh i and wireframe i for every index of the mesh list. |
| `Animation.ToggledFlips` | main.js:233-238 | A toggle flips exactly as many cubes of each kind as `mesh_cubes` holds, and nothing else. |
| `Animation.ToggleTwice` | main.js:233-238 | Toggling twice restores the state. |
| `Animation.ToggleKeepsInv` | main.js:233-238 | A toggle keeps every cube opposite its twin and the meshes uniform, and flips the first mesh. |
| `Animation.OnKeyPress` | main.js:295-306 | A key press never adds or removes cubes and never touches the time variables; `still` changes exactly on 's' and the first mesh's visibility exactly on 'w'. |
| `Animation.PauseKeyFlipsStill` | main.js:297-299 | 's' flips only `still`; pressing it twice restores the state. |
| `Animation.WireKeyTogglesOnly` | main.js:300-302 | 'w' toggles the cube sets and changes nothing else. |
| `Animation.OtherKeysIgnored` | main.js:303-305 | Every other key leaves the state unchanged. |
| `Animation.KeyPressKeepsInv` | main.js:295-306 | Every key press keeps the invariant. |
| `Animation.Frame` | main.js:252-260 | A frame records the clock delta and touches neither `still` nor visibility; a paused frame keeps the animation time, and a running frame clears the pause time and keeps the pause start. |
| `Animation.StillFrameFreezesTime` | main.js:253-255 | A paused frame leaves the animation time, records the pause start and the gap between the two readings. |
| `Animation.RunningRunAdvances` | main.js:252-260 | While running and without an 's' press, a run of events advances the animation time by the sum of its frames' deltas, less the pause time pending at the start, which the first frame clears. |
| `Animation.ActiveSetIsVisible` | main.js:275 | The set of cubes the loop places is the set on screen, and the other set is hidden. |
| `Animation.AngleInRange` | main.js:264 | The angle lies in [0, MAX_ANGLE] and reaches 0 or MAX_ANGLE exactly when the sine is -1 or 1. |
| `Animation.MaxAngleIsTenDegrees` | main.js:245 | MAX_ANGLE is 10 degrees, half of the 20 degrees its comment names. |
| `Animation.PhaseRepeatsEachPeriod` | main.js:246 | After T = 3 seconds the sine's argument advances by 2π. |
| `Animation.Step` | main.js:289-293 | Handling one key press or frame never adds or removes cubes. |
| `Animation.Run` | main.js:289-293 | Handling any sequence of key presses and frames never adds or removes cubes. |
| `Animation.RunKeepsInv` | main.js:233-306 | Any sequence of key presses and frames keeps the invariant. |
| `Animation.RunVisibility` | main.js:233-306 | After a run the meshes are shown exactly when the number of 'w' presses is even (relative to the start). |
| `Animation.ShownSetAfterRun` | main.js:213-306 | From the start, `animate` places the meshes exactly after an even number of 'w' presses, otherwise the wireframes. |
| `Animation.PausedRunFreezesTime` | main.js:250-306 | While paused and without an 's' press, no run moves the animation time. |

## Left out

- Scene, camera, renderer, lights, materials, `OrbitControls` and
  `renderer.render` (main.js:1-47, 154-156, 178-180, 285-289): drawing has
  no state the model needs. The geometry and mesh objects are represented
  only by the tables they are built from and by the cubes' visibility.
- Registering the key listener and the animation loop (main.js:289, 293)
  and the `console.log` of unhandled keys: effects outside the program
  state. A run of events stands for the browser calling the handlers.
- `THREE.Clock`: its readings are inputs of each frame (`ClockReading`),
  not computed.
- `Math.sin`, `Math.cos` and `Math.PI`: the sine value, the cosine/sine
  pair of the angle and π are parameters. Facts that need a true rotation
  require the pair to lie on the unit circle.
- Floating-point and `Float32Array` rounding: all numbers are exact reals.
- `Matrix4` beyond `set`, `copy` and `multiplyMatrices`, and the per-cube
  `matrixAutoUpdate` flag: the model keeps the matrices handed to the cubes.
- The commented-out first version of the animation (main.js:308-323): it
  is not executed.
- `Stacking.StraightStacking`: states the lift of cube i as `Lift(3l, i)`, the
  lift added one cube at a time; the product form 3l·i follows from
  `Transforms.LiftIsProduct`.
- `Stacking.AnimateFrame`: the number of cubes is a parameter; main.js
  always places the seven cubes of the active set.
