# Larva chain: a Dafny model

This project models the simulation core of a small Unity game. A larva is a
chain of five point masses (index 0 is the head, 4 the tail) joined by four
segments. Each frame the larva may reshape its target segment lengths, then
adds corrective and propulsive velocities to the points, then integrates the
points with damping and moves its game object to their centroid. There are
three chain components and one cosmetic component:

- `Larva` (Larva.cs) drives the chain with a three-phase gait. A dwell timer
  steps the phase Rest → ExtendingHead → DraggingTail → Rest. Each transition
  resets the target lengths and stretches the head segment or shortens the
  tail segment. The head is pulled toward a point ahead of it, and the later
  points are pulled toward their target distance, with a boost when they
  come too close.
- `Larva3` (Larva3.cs) drives the chain with a continuous peristaltic wave.
  A phase accumulator reshapes every target length through an asymmetric
  sine. The constraint pass pushes each segment's two ends apart or together
  and adds thrust while a segment contracts. Then the head and its two
  successors get a forward lead.
- `Larva2` (larva2.cs) has the same wave. Its constraint pass pulls each later
  point toward its natural distance from the point in front, and it pushes
  only the head forward.
- `LarvaEyes` (LarvaEyes.cs) builds the triangle fan of its circle meshes,
  places two eyes beside the head, turns the pupils toward the movement
  direction, and runs a blink timer.

Arithmetic is over `real`. The library maths the code calls (vector magnitude
and normalisation, `Mathf.Sin`, `Mathf.Pow(_, 0.7f)`) are values of a
`Maths` datatype. They are uninterpreted, and `Lawful(m)` states the few
facts the proofs use. `Time.deltaTime` and `Time.time` are method parameters.
`Random.Range` takes its random source as a `roll` parameter in [0, 1].
`transform.position` is a `position` field, x and y only. LarvaEyes reads
the points and the target direction of the larva it is attached to, and
these are parameters of its methods.

Files:

- `vectors.dfy`: `Vec` and the `Maths` library.
- `chain.dfy`: the chain shared by all three components. It holds the
  straight layout, the half-correction, Euler integration with damping and
  the centroid, with the loops of InitializeLarva, UpdatePositions and
  GetCenter.
- `wave.dfy`: the peristaltic wave shared by Larva3 and Larva2.
- `larva.dfy`, `larva3.dfy`, `larva2.dfy`: one class per chain component.
  Each has the spec functions of its constraint pass and the lemmas about
  them.
- `eyes.dfy`: LarvaEyes.

Each component is a class whose fields keep the source's names. The arrays
the source updates in place are arrays here: points, natural lengths, target
lengths and velocities. Each method states its new state as a function of
its old state. The lemmas beside each class prove what that function
promises.

Points where the code has a behaviour worth knowing. The model follows the
code in each case.

- In Larva.cs, `StopMoving` assigns `0f` to the phase (Larva.cs:179), and
  this does not compile as written. It is read as enum value 0, which is
  ExtendingHead (Larva.cs:187-192), not Rest. The line does not reset the
  dwell timer.
- In Larva.cs, rest is not a fixed point. The head block runs whenever the
  phase is not DraggingTail, moving or not, and always reaches ahead by
  `targetDirection * headForwardForce`. `PhasedLarva.HeadNudgedAtRest` proves
  that the straight, resting chain gives the head the velocity
  targetDirection · headForwardForce · 0.5 · restoreForce · dt. That velocity
  is non-zero whenever the direction, both gains and dt are non-zero. For
  Larva3 and Larva2, rest is a fixed point (`WaveLarva.RestIsFixedPoint`,
  `SimpleLarva.RestIsFixedPoint`).
- The head block of Larva.cs divides by the head segment's length without a
  guard (Larva.cs:101-104). The guarded later segments are skipped when
  their length is 0.
- larva2.cs computes wave-shaped target lengths but its constraint pass
  reads only the natural lengths (larva2.cs:92). The wave therefore never
  reaches the velocities. `SimpleLarva.Constrained` takes no target lengths
  at all, and `SimpleLarva.Larva2.Tick` states the frame without them.
- None of the components has inter-point repulsion. None rejects a zero or
  negative segment length: the natural lengths become |segmentLength|. None
  rejects a zero direction.
- In Larva2 the pull on point i has no counter-pull on point i - 1. In
  Larva3 the restoring updates of a later segment are equal and opposite
  (`WaveLarva.PassEqualAndOpposite`, `WaveLarva.RestoredMomentum`).

## Model

| member | source | states |
|---|---|---|
| `Chain.LayoutLengths` | Assets/Scripts/Larva.cs:50-56 | every segment of the straight layout with spacing L has length \|L\| under a lawful magnitude, in both directions |
| `Chain.CentroidOfFive` | Assets/Scripts/Larva.cs:147-154 | the centroid of five points is the sum of their coordinates divided by 5 |
| `Chain.CentroidOfLayout` | Assets/Scripts/Larva.cs:48-59 | the straight layout from an origin is centred at origin + (2L, 0) |
| `Chain.SumAdvance` | Assets/Scripts/Larva.cs:137-141 | integration moves the sum of the points by the sum of the velocities times dt |
| `Chain.SumDamp` | Assets/Scripts/Larva.cs:140 | damping scales the total velocity by the damping factor |
| `Chain.CentroidAdvance` | Assets/Scripts/Larva.cs:135-154 | one integration step moves the centroid by the mean velocity times dt |
| `Chain.AdvanceAtRest` | Assets/Scripts/Larva.cs:137-141 | with every velocity zero, integration moves no point and damping keeps every velocity zero |
| `Chain.CorrectionAlongSegment` | Assets/Scripts/Larva.cs:123-130 | the half-correction is the segment vector times (target - d) / 2d, plus half the reach: outward when short, inward when long |
| `Chain.CorrectionAtTarget` | Assets/Scripts/Larva.cs:123-130 | a segment at its target length with no reach gets no correction |
| `Chain.LayOut` | Assets/Scripts/Larva.cs:48-59 | after the three loops, points[i] = origin + (i·L, 0), every natural length is \|L\|, targets equal the natural lengths, all velocities are zero |
| `Chain.LayPoints` | Assets/Scripts/Larva.cs:50 | the first loop puts every point at its place on the straight layout |
| `Chain.MeasureSegments` | Assets/Scripts/Larva.cs:52-56 | on the straight layout, the second loop records \|L\| as every natural length and copies it to every target |
| `Chain.Integrate` | Assets/Scripts/Larva.cs:137-141 | every point moves by its velocity times dt and every velocity is multiplied by the damping |
| `Chain.CenterOf` | Assets/Scripts/Larva.cs:147-154 | the accumulation loop returns the centroid of the points |
| `Wave.Contraction` | Assets/Scripts/Larva3.cs:73-79 | for a sine value in [-1, 1] the shaped contraction lies in [-0.2, 0.4] and is positive exactly when the sine is; a non-positive sine is scaled by 0.2 |
| `Wave.WaveTargetsBounded` | Assets/Scripts/Larva3.cs:70-81 | every wave target lies between 0.8 and 1.4 times its natural length |
| `Wave.WaveTravels` | Assets/Scripts/Larva3.cs:68-70 | with equal natural lengths, segment i now has the target segment 0 had at a phase 1.2·i earlier: the wave runs head to tail |
| `Wave.ShapeWave` | Assets/Scripts/Larva3.cs:68-82 | the wave loop sets every target length to the natural length shaped by the wave at the current phase |
| `PhasedLarva.PhaseCycle` | Assets/Scripts/Larva.cs:67-73 | three phase transitions return to the starting phase, and one or two never do |
| `PhasedLarva.PhaseTargetsPerturbOne` | Assets/Scripts/Larva.cs:76-90 | after a transition the targets are the natural lengths, except target 0 doubled in ExtendingHead and target 3 halved in DraggingTail |
| `PhasedLarva.DwellAccumulates` | Assets/Scripts/Larva.cs:63-64 | while the timer plus the frame times stays below the dwell time, phase and targets are unchanged and the timer grows by exactly the frame times |
| `PhasedLarva.GaitCycle` | Assets/Scripts/Larva.cs:63-90 | three frames of at least the dwell time each return to the starting phase with timer 0 and that phase's targets; from Rest, the targets are the natural lengths |
| `PhasedLarva.ProximityBoost` | Assets/Scripts/Larva.cs:126-128 | the proximity multiplier is at least 1, and it is exactly 1 iff the distance is at least a fifth of the target |
| `PhasedLarva.ConstrainedLeavesAlone` | Assets/Scripts/Larva.cs:93-133 | while dragging the tail the head's velocity is untouched, and a point coinciding with its predecessor keeps its velocity |
| `PhasedLarva.SegmentDeltaAlongSegment` | Assets/Scripts/Larva.cs:112-131 | a later point's velocity change lies along its segment: (target - d) / 2d times restore·dt·boost times the segment vector |
| `PhasedLarva.SegmentDeltaAtTarget` | Assets/Scripts/Larva.cs:114-131 | a later point already at its target distance gets no velocity change |
| `PhasedLarva.HeadDeltaAtTarget` | Assets/Scripts/Larva.cs:95-110 | a head at its target distance still gets half of targetDirection·headForwardForce, times restoreForce·dt |
| `PhasedLarva.HeadNudgedAtRest` | Assets/Scripts/Larva.cs:93-133 | from the straight resting layout, the constraint pass leaves every later point at rest and gives the head exactly targetDirection·headForwardForce·0.5·restoreForce·dt, which is non-zero for a non-zero direction, gains and dt: rest is not a fixed point |
| `PhasedLarva.Larva.constructor` | Assets/Scripts/Larva.cs:7-31 | the field initialisers: 5 points, 4 lengths, the default gains, phase Rest, timer 0 |
| `PhasedLarva.Larva.InitializeLarva` | Assets/Scripts/Larva.cs:48-59 | straight layout from the component's position, natural and target lengths \|segmentLength\|, zero velocities |
| `PhasedLarva.Larva.UpdateMovementWave` | Assets/Scripts/Larva.cs:61-91 | the phase, timer and targets afterwards are one step of the gait machine applied to those before |
| `PhasedLarva.Larva.ApplySegmentConstraints` | Assets/Scripts/Larva.cs:93-133 | only velocities change, and they become the constraint-pass function of the points, targets, phase and old velocities |
| `PhasedLarva.Larva.ConstrainHead` | Assets/Scripts/Larva.cs:95-110 | the head block adds the head's half-correction toward a point reaching ahead to velocities[0] and changes nothing else |
| `PhasedLarva.Larva.ConstrainSegment` | Assets/Scripts/Larva.cs:112-132 | one loop pass changes velocities[i] only, by its boosted correction, and not at all for a zero-length segment |
| `PhasedLarva.Larva.UpdatePositions` | Assets/Scripts/Larva.cs:135-145 | points integrated, velocities damped, position moved to the centroid |
| `PhasedLarva.Larva.GetCenter` | Assets/Scripts/Larva.cs:147-154 | returns the centroid of the points |
| `PhasedLarva.Larva.Tick` | Assets/Scripts/Larva.cs:38-46 | wave only while moving, then constraints, then integration; while not moving, the phase and timer do not change |
| `PhasedLarva.Larva.StartMoving` | Assets/Scripts/Larva.cs:170-174 | sets isMoving and stores the direction normalised twice (once here, once in SetMovementDirection) |
| `PhasedLarva.Larva.StopMoving` | Assets/Scripts/Larva.cs:176-180 | clears isMoving, sets the phase to enum value 0 (ExtendingHead), and keeps the timer |
| `PhasedLarva.Larva.SetMovementDirection` | Assets/Scripts/Larva.cs:182-185 | stores the normalised direction and changes nothing else |
| `WaveLarva.PassTouchesEnds` | Assets/Scripts/Larva3.cs:88-118 | a pass over segment i touches only velocities i and i + 1, and a zero-length segment changes nothing |
| `WaveLarva.PassEqualAndOpposite` | Assets/Scripts/Larva3.cs:99-104 | without thrust, a later segment's two ends change by exact negatives; segment 0 spares the head and gives points[1] the whole impulse |
| `WaveLarva.PassPropels` | Assets/Scripts/Larva3.cs:106-117 | thrust happens only when moving and lengthDiff < 0; it splits the propulsion force times (i + 1)/4 as 0.3 and 0.7 between the segment's ends |
| `WaveLarva.RestoredMomentum` | Assets/Scripts/Larva3.cs:99-104 | the restoring updates conserve the total velocity, except on segment 0, where it grows by the impulse |
| `WaveLarva.ThrustMomentum` | Assets/Scripts/Larva3.cs:110-116 | the thrust adds exactly the propulsion force times the factor to the total velocity |
| `WaveLarva.PassMomentum` | Assets/Scripts/Larva3.cs:88-118 | one pass changes the total velocity by the uncompensated head-side impulse (segment 0 only) plus the thrust (propelling segments only) |
| `WaveLarva.PassesSpareHead` | Assets/Scripts/Larva3.cs:102-104 | without thrust, no number of passes changes velocities[0] |
| `WaveLarva.HeadLeadWeights` | Assets/Scripts/Larva3.cs:120-132 | the head lead touches only points 0, 1 and 2, with weights 1, ·2/3 and ·1/3 of headDirectionInfluence, and nothing while not moving |
| `WaveLarva.PassAtTarget` | Assets/Scripts/Larva3.cs:90-104 | a segment at its target length, not moving, changes no velocity |
| `WaveLarva.PassesAtTarget` | Assets/Scripts/Larva3.cs:88-118 | with every segment at its target and no movement, the passes change no velocity |
| `WaveLarva.QuietAtTarget` | Assets/Scripts/Larva3.cs:85-133 | with every segment at its target and no movement, the whole constraint pass changes no velocity |
| `WaveLarva.RestIsFixedPoint` | Assets/Scripts/Larva3.cs:85-147 | from the straight layout at rest, a frame without movement keeps every velocity zero and every point in place |
| `WaveLarva.Larva3.constructor` | Assets/Scripts/Larva3.cs:6-29 | the field initialisers: 5 points, 4 lengths, the default gains, phase 0 |
| `WaveLarva.Larva3.InitializeLarva` | Assets/Scripts/Larva3.cs:47-61 | straight layout from the component's position, natural and target lengths \|segmentLength\|, zero velocities |
| `WaveLarva.Larva3.UpdateMovementWave` | Assets/Scripts/Larva3.cs:63-83 | the phase grows by waveSpeed·dt and the targets become the wave shape at the new phase |
| `WaveLarva.Larva3.ApplySegmentConstraints` | Assets/Scripts/Larva3.cs:85-133 | only velocities change: the four passes in order, then the head lead |
| `WaveLarva.Larva3.LeadHead` | Assets/Scripts/Larva3.cs:120-132 | the head-lead block produces the head-lead function of the old velocities |
| `WaveLarva.Larva3.ConstrainSegment` | Assets/Scripts/Larva3.cs:88-118 | one loop pass produces the pass function of the old velocities: restoring updates, then thrust when it applies, skipped for a zero-length segment |
| `WaveLarva.Larva3.UpdatePositions` | Assets/Scripts/Larva3.cs:135-147 | points integrated, velocities damped, position moved to the centroid |
| `WaveLarva.Larva3.GetCenter` | Assets/Scripts/Larva3.cs:149-156 | returns the centroid of the points |
| `WaveLarva.Larva3.Tick` | Assets/Scripts/Larva3.cs:36-45 | the phase grows by waveSpeed·dt and the targets are reshaped only while moving; then constraints and integration |
| `WaveLarva.Larva3.StartMoving` | Assets/Scripts/Larva3.cs:173-177 | sets isMoving and stores the normalised direction |
| `WaveLarva.Larva3.StopMoving` | Assets/Scripts/Larva3.cs:179-183 | clears isMoving and resets the phase to 0 |
| `WaveLarva.Larva3.SetMovementDirection` | Assets/Scripts/Larva3.cs:185-188 | stores the normalised direction and changes nothing else |
| `SimpleLarva.HeadOnlyPushed` | Assets/Scripts/larva2.cs:88-113 | velocities[0] changes only by the head push and only while moving; each later point changes only by its own pull |
| `SimpleLarva.CoincidentUnpulled` | Assets/Scripts/larva2.cs:97-105 | a point on top of the point in front keeps its velocity |
| `SimpleLarva.PullAlongSegment` | Assets/Scripts/larva2.cs:90-104 | the pull lies along the segment, away from the point in front when closer than the natural length and toward it when farther |
| `SimpleLarva.PulledAtNatural` | Assets/Scripts/larva2.cs:90-104 | a point at its natural distance from the point in front is not pulled |
| `SimpleLarva.RestIsFixedPoint` | Assets/Scripts/larva2.cs:83-124 | from the straight layout at rest, a frame without movement keeps every velocity zero and every point in place, whatever the target lengths |
| `SimpleLarva.Larva2.constructor` | Assets/Scripts/larva2.cs:6-27 | the field initialisers: 5 points, 4 lengths, the default gains, phase 0 |
| `SimpleLarva.Larva2.InitializeLarva` | Assets/Scripts/larva2.cs:45-59 | straight layout from the component's position, natural and target lengths \|segmentLength\|, zero velocities |
| `SimpleLarva.Larva2.UpdateMovementWave` | Assets/Scripts/larva2.cs:61-81 | the phase grows by waveSpeed·dt and the targets become the wave shape at the new phase |
| `SimpleLarva.Larva2.ApplySegmentConstraints` | Assets/Scripts/larva2.cs:83-114 | only velocities change: points 1 to 4 are pulled using the natural lengths, then the head is pushed while moving |
| `SimpleLarva.Larva2.PullPoint` | Assets/Scripts/larva2.cs:88-106 | one loop pass changes velocities[i] only, by its pull, and not at all when the distance is 0 |
| `SimpleLarva.Larva2.UpdatePositions` | Assets/Scripts/larva2.cs:116-129 | points integrated, velocities damped, position moved to the centroid |
| `SimpleLarva.Larva2.GetCenter` | Assets/Scripts/larva2.cs:131-138 | returns the centroid of the points |
| `SimpleLarva.Larva2.Tick` | Assets/Scripts/larva2.cs:34-43 | the wave runs only while moving; the velocities do not depend on the target lengths |
| `SimpleLarva.Larva2.StartMoving` | Assets/Scripts/larva2.cs:155-159 | sets isMoving and stores the normalised direction |
| `SimpleLarva.Larva2.StopMoving` | Assets/Scripts/larva2.cs:161-165 | clears isMoving and resets the phase to 0 |
| `SimpleLarva.Larva2.SetMovementDirection` | Assets/Scripts/larva2.cs:167-170 | stores the normalised direction and changes nothing else |
| `Eyes.CreateCircleMesh` | Assets/Scripts/LarvaEyes.cs:125-167 | segments + 1 vertices and uvs, and the triangle loop fills the list with the fan of `segments` triangles |
| `Eyes.FanTriangles` | Assets/Scripts/LarvaEyes.cs:152-158 | the list has 3·s entries; triangle i is (0, i + 1, (i + 1) mod s + 1); the last triangle closes at rim vertex 1 |
| `Eyes.FanBounds` | Assets/Scripts/LarvaEyes.cs:152-158 | every index lies in [0, s], so it names a vertex |
| `Eyes.WrapIndex` | Assets/Scripts/LarvaEyes.cs:157 | the wrapped successor (i + 1) mod s + 1 equals v for exactly one i |
| `Eyes.FanRimOnce` | Assets/Scripts/LarvaEyes.cs:152-158 | each rim vertex is the second index of exactly one triangle and the third index of exactly one |
| `Eyes.Lerp` | Assets/Scripts/LarvaEyes.cs:210 | Mathf.Lerp stays between its ends and returns an end for t outside [0, 1] |
| `Eyes.RandomRange` | Assets/Scripts/LarvaEyes.cs:233 | Random.Range returns a value between its bounds, in either order |
| `Eyes.LerpVec` | Assets/Scripts/LarvaEyes.cs:194-195 | Vector2.Lerp returns the start for t ≤ 0 and the target for t ≥ 1 |
| `Eyes.BlinkScale` | Assets/Scripts/LarvaEyes.cs:209-210 | the eyes' blink scale stays between 0.1 and 1 |
| `Eyes.EyesSymmetric` | Assets/Scripts/LarvaEyes.cs:179-184 | the eye base is the midpoint of the eyes, the line between them is orthogonal to the head direction, and they are eyeSpacing apart for a unit head direction |
| `Eyes.LookSettles` | Assets/Scripts/LarvaEyes.cs:194-195 | a look step of eyeRotationSpeed·dt ≥ 1 lands on the target and a step ≤ 0 keeps the current direction |
| `Eyes.LarvaEyes.constructor` | Assets/Scripts/LarvaEyes.cs:6-44 | the field initialisers: sizes, spacing, blink interval 3 and duration 0.2, not blinking, eyes open |
| `Eyes.LarvaEyes.Start` | Assets/Scripts/LarvaEyes.cs:46-54 | schedules the first blink within the random window and looks to the right |
| `Eyes.LarvaEyes.GetNextBlinkTime` | Assets/Scripts/LarvaEyes.cs:231-234 | the next blink time lies between now + 0.5·interval and now + 1.5·interval |
| `Eyes.LarvaEyes.UpdateEyePositions` | Assets/Scripts/LarvaEyes.cs:169-188 | nothing for an empty chain; otherwise the eyes go to their placement beside the head |
| `Eyes.LarvaEyes.UpdateEyeLookDirection` | Assets/Scripts/LarvaEyes.cs:190-201 | the look direction turns toward the larva's direction, and both pupils get the same offset lookDirection·pupilMaxOffset |
| `Eyes.LarvaEyes.UpdateBlinking` | Assets/Scripts/LarvaEyes.cs:203-229 | during a blink the timer grows by dt; at the duration the blink ends, the timer resets, the eyes reopen and the next blink is scheduled; a blink starts only when not blinking and time ≥ next blink time, with timer 0; the blink invariant is preserved |
| `Eyes.LarvaEyes.Tick` | Assets/Scripts/LarvaEyes.cs:56-62 | eyes placed beside the head (kept for an empty chain); the target look direction is the larva's direction, the current one turns toward it, and both pupils get the same offset; with blinking enabled, the blink state takes UpdateBlinking's step in each of its four cases; with blinking disabled, the whole blink state is unchanged; the configuration fields are never written; the blink invariant is preserved |

## Left out

- Floating point: every quantity is a real, so rounding, overflow, NaN and
  infinity are not modelled. Sine, x^0.7, magnitude and normalisation are
  uninterpreted beyond `Lawful`, so no rate of convergence and no
  periodicity of the wave are claimed.
- What `.normalized` does with a zero vector. The direction setters store
  whatever the abstract normalisation returns.
- The z coordinate of `transform.position` and of the eye and pupil objects:
  only x and y are modelled.
- Debug drawing and gizmos (Larva.cs:156-168, Larva3.cs:158-170,
  larva2.cs:140-152, LarvaEyes.cs:64-73) and the `Debug.Log` at larva2.cs:123.
  They are output only.
- The creation of game objects, meshes and materials (LarvaEyes.cs:75-123,
  160-164). CreateCircleMesh models only the array sizes and the triangle
  indices. The vertex and uv coordinates are cosines and sines of the angle
  and are not modelled.
- LarvaRenderer.cs and LarvaSimulation.cs are not part of this model. They
  are rendering and spawning/input code.
- The engine hooks `Start` and `Update` of the chain components. Only their
  order of calls is kept, as `Tick`.
- Fields that no modelled code reads: `bodyWidth`, `eyeSize`, `pupilSize`,
  `lookAheadDistance` and, in Larva.cs, `headDirectionInfluence`. They are
  kept as fields with their initial values.
- PhasedLarva.Larva.ApplySegmentConstraints: requires the head segment to
  have non-zero length whenever the phase is not DraggingTail. The source
  divides by that length unguarded (Larva.cs:101-104), which has no real
  counterpart.
- PhasedLarva.Larva.Tick: requires `points[0] != points[1]` when the phase
  after the wave step is not DraggingTail, for the same reason.
- Eyes.LarvaEyes.UpdateBlinking: requires a non-zero blinkDuration while a
  blink is under way, because the float division by zero (LarvaEyes.cs:209)
  has no real counterpart. The blink invariant is proved only for dt ≥ 0 and
  a positive duration.
- Eyes.LarvaEyes.Tick: requires a non-zero blinkDuration while blinking is
  enabled and a blink is under way, as UpdateBlinking does.
- Eyes.LarvaEyes.GetNextBlinkTime: the random source is a parameter `roll`
  in [0, 1], not a choice the method makes.
- Wave.WaveTravels: stated for equal natural lengths, which InitializeLarva
  produces. With unequal natural lengths, targets differ by their natural
  lengths.
