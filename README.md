# Card viewer interaction and animation engine, in Dafny

A model of the `Model3D` component of the membership-card demo: the one
component that holds logic rather than scene layout. It covers three pieces:

- **Entry spring and phase machine** (`Spring`). Each frame while the entry
  runs, two independent damped springs advance by semi-implicit Euler. One is
  the vertical offset (target 30), the other the yaw (target `Math.PI`); both
  use mass 2.5, stiffness 90 and damping 22. When the four error terms of the
  stepped state (both position errors, both velocities) are all strictly
  below 0.01, the state snaps to the exact targets with zero velocities and
  `entryDone` is set, for good.
- **Drag-to-rotate and settled smoothing** (`Drag`, `Smoothing`). Pointer-down
  records an anchor (pointer x, current target yaw) and starts a drag; a mouse
  move while dragging sets the target yaw to `anchor.rotY + dx * 0.01`;
  mouse-up ends the drag. Once settled, every frame moves the rendered yaw
  0.15 of the way to the target yaw.
- **Material assignment** (`Materials`). The meshes of the loaded card, in
  traversal order, each get a new physical material holding the five scalars
  of the configuration. The mesh at index 2 takes the configured colour; every
  other mesh keeps a copy of its current colour. Every mesh casts and receives
  shadows.

`Viewer` puts the pieces together: the component's fields in a class
`Model3D` whose handlers are proved against a pure transition function
`Next`, and lemmas about any sequence of frames and pointer events.

All numbers are `real`. `Math.PI` is the decimal `3.141592653589793`. Colours
are an opaque type that is only copied and compared.

`handlePointerDown` (app/CreditCard3D.tsx:114-118) does not read `entryDone`,
so a press during the entry arms a drag; only the smoothing (145-148) is
gated. `Viewer.PressDuringEntryArmsDrag` states this.

## Model

| member | source | states |
|---|---|---|
| Spring.SemiImplicitPosition | app/CreditCard3D.tsx:123-132 | a channel's new velocity is the old one plus acceleration times delta, and its new position adds the old velocity times delta plus acceleration times delta squared, so the position moves with the new velocity |
| Spring.StepMatrix | app/CreditCard3D.tsx:123-126 | the step is the linear map v' = -(k h/m) e + (1 - c h/m) v, e' = (1 - k h²/m) e + h (1 - c h/m) v on position error and velocity |
| Spring.StepTranslates | app/CreditCard3D.tsx:123-126 | only the error to the target matters: shifting position and target together shifts the stepped position and keeps the stepped velocity |
| Spring.StepScales | app/CreditCard3D.tsx:124-126 | scaling error and velocity by k scales the stepped error and velocity by k |
| Spring.RestIsFixed | app/CreditCard3D.tsx:123-126 | a channel at its target with zero velocity stays there for any delta |
| Spring.ChannelsIndependent | app/CreditCard3D.tsx:122-132 | each half of the stepped state is the one-channel step of the same half of the old state, so the channels do not read each other |
| Spring.PinnedAtRest | app/CreditCard3D.tsx:142 | the pinned state {30, 0, π, 0} passes the settle test and is a rest point of the spring |
| Spring.SnapIsSmall | app/CreditCard3D.tsx:136-142 | the snap moves each of the four fields by less than 0.01 |
| Spring.EntryFrame | app/CreditCard3D.tsx:121-144 | a settled entry is unchanged; otherwise the phase flips exactly when the stepped state passes all four tests, a flipped entry holds exactly the pinned state, and an unflipped one holds the stepped spring |
| Spring.SettledIsFinal | app/CreditCard3D.tsx:121-145 | once done, no run of frames changes the spring or clears the flag |
| Spring.DoneMeansPinned | app/CreditCard3D.tsx:142-143 | after any run of frames, a done entry holds exactly the pinned state |
| Spring.EnteringFollowsSpring | app/CreditCard3D.tsx:121-141 | the entry is still running after the frames if and only if no intermediate stepped state passed the test, and then its spring is the spring stepped once per frame |
| Spring.FlipsOnce | app/CreditCard3D.tsx:134-143 | a run settles at the first frame whose stepped state passes the test and stays pinned through all later frames |
| Drag.DownAnchors | app/CreditCard3D.tsx:114-118 | pointer-down starts a drag anchored at the pointer x and the current target yaw and does not move the target |
| Drag.MoveSetsTarget | app/CreditCard3D.tsx:97-101 | a move while dragging sets only the target, to anchor.rotY + (x - anchor.x) * 0.01; a move while not dragging changes nothing |
| Drag.UpReleases | app/CreditCard3D.tsx:96 | mouse-up always ends the drag, keeps anchor and target, and is idempotent |
| Drag.MovesEndAtLast | app/CreditCard3D.tsx:97-100 | any non-empty run of moves while dragging ends at the target of the last pointer x, with flag and anchor untouched |
| Drag.DragContinuity | app/CreditCard3D.tsx:96-118 | a press followed by moves by x-deltas d1..dn (n may be 0) ends at the press-time target plus sum(di) * 0.01, and the release keeps it |
| Drag.IdleIgnoresMoves | app/CreditCard3D.tsx:98 | when not dragging, any run of moves changes nothing |
| Smoothing.Approach | app/CreditCard3D.tsx:148 | after one settled frame the remaining gap to the target is exactly 0.85 times the old gap |
| Smoothing.ApproachN | app/CreditCard3D.tsx:147-148 | after n settled frames with a fixed target the remaining gap is 0.85^n times the initial gap |
| Smoothing.ApproachStep | app/CreditCard3D.tsx:148 | one frame keeps the yaw on its side of the target, never overshoots, never widens the gap, and reaches the target only if already there |
| Smoothing.ApproachMonotone | app/CreditCard3D.tsx:148 | repeated frames move monotonically toward the target without passing it, from either side |
| Materials.ApplyMaterials | app/CreditCard3D.tsx:56-91 | the in-place loop over the collected meshes leaves the array equal to the specification `Applied` of its old contents |
| Materials.AppliedSpec | app/CreditCard3D.tsx:56-89 | length and order kept; mesh 2 (if any) takes the configured colour; every other mesh keeps its colour; every mesh has the five configured scalars and both shadow flags |
| Materials.ShortListHasNoAccent | app/CreditCard3D.tsx:56-59 | with fewer than three meshes every mesh takes the body branch: its own colour plus the configured scalars and shadows |
| Materials.LastConfigWins | app/CreditCard3D.tsx:58-90 | a run is a full rebuild: running with one configuration then another equals running with the second alone |
| Materials.Idempotent | app/CreditCard3D.tsx:45-92 | running twice with the same configuration gives the same meshes as running once |
| Materials.AppliedAllIsLast | app/CreditCard3D.tsx:45-92 | any non-empty run of configurations leaves the meshes as the last configuration alone would |
| Materials.BodyColorPreserved | app/CreditCard3D.tsx:76-78 | however many runs with whatever accent colours, every mesh other than index 2 keeps its original colour |
| Viewer.NextConsistent | app/CreditCard3D.tsx:120-151 | every frame or pointer event preserves: a done entry is pinned, and while entering the rendered yaw is the spring's rotation |
| Viewer.RunConsistent | app/CreditCard3D.tsx:25-35 | from a consistent state (the mount state is one), every sequence of inputs reaches a consistent state |
| Viewer.SettledStaysSettled | app/CreditCard3D.tsx:121-145 | under any mix of frames and pointer events, a settled entry never changes and is never cleared |
| Viewer.InputsSeparate | app/CreditCard3D.tsx:95-151 | pointer events touch neither the entry nor the rendered yaw; frames do not touch the drag state |
| Viewer.PressDuringEntryArmsDrag | app/CreditCard3D.tsx:114-118 | pointer-down while the entry runs still starts a drag anchored at the current target yaw |
| Viewer.SettlingFrame | app/CreditCard3D.tsx:136-143 | the frame that settles the entry leaves it pinned and done and the rendered yaw exactly at π |
| Viewer.SettledFramesSmooth | app/CreditCard3D.tsx:145-149 | once settled, n frames without pointer events bring the yaw to n smoothing steps toward the unchanged drag target |
| Viewer.Model3D.constructor | app/CreditCard3D.tsx:25-32 | the mount state: spring {-10, 0, 0, 0}, not done, target yaw π, anchor {0, π}, not dragging |
| Viewer.Model3D.Frame | app/CreditCard3D.tsx:120-151 | the frame callback's new state is `Next` of the old one, and it keeps the state consistent |
| Viewer.Model3D.PointerDown | app/CreditCard3D.tsx:114-118 | the press handler's new state is `Next` of the old one on a pointer-down |
| Viewer.Model3D.MouseMove | app/CreditCard3D.tsx:97-101 | the move handler's new state is `Next` of the old one on a move |
| Viewer.Model3D.MouseUp | app/CreditCard3D.tsx:96 | the release handler's new state is `Next` of the old one on a mouse-up |

## Left out

- Floating point: numbers are `real`. Rounding, and `Math.PI` being a double rather than π, are not modelled.
- Convergence of the spring in finitely many frames with the concrete constants is not proved. The code does not assert it; only the settle test and the snap are modelled.
- Scene traversal with its `instanceof THREE.Mesh` filter (app/CreditCard3D.tsx:48-53) and asset loading (24): the model starts from the already collected array of meshes.
- Colour parsing (`new THREE.Color(hex)`) and colour cloning: a colour is an opaque value, and a clone is the same value.
- Material object identity: a rebuilt mesh is compared by field values, so "a new material instance each run" and `needsUpdate` are not modelled. Meshes are records in an array, so aliasing between mesh objects is not modelled either.
- The mount effect that sets `rotation.y = π` (38-42). The rendered yaw starts at the spring's rotation, which the JSX `rotation` prop (167) applies.
- The rendered vertical offset is the spring's `y` through the `position` prop (166) and is not a separate field.
- Text overlays and font loading (153-183), `console.log`, and `e.stopPropagation()` (115).
- React lifecycle: adding and removing window listeners (103-111) and asynchronous `setState` batching. Handlers are synchronous field updates on one object. A mouse-up with no listener attached (not dragging) and the modelled unconditional `dragging := false` give the same state.
- The control-panel page (app/page.tsx) that produces the configuration and owns the `dragging` flag. That flag is a field of `Model3D` here.
