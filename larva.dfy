/** Larva.cs: the chain driven by a three-phase gait. A dwell timer steps the
    phase Rest -> ExtendingHead -> DraggingTail -> Rest; each transition resets
    the target lengths to the natural ones and stretches the head segment
    (ExtendingHead) or shortens the tail segment (DraggingTail). Every frame the
    head is pulled toward a point ahead of it, the other points are pulled toward
    their target distance from their predecessor, and the chain is integrated. */
module PhasedLarva {
  import opened Vectors
  import opened Chain

  /** MovementPhase in declaration order: ExtendingHead is enum value 0. */
  datatype MovementPhase = ExtendingHead | Rest | DraggingTail

  /** The phase switch of UpdateMovementWave. */
  function NextPhase(p: MovementPhase): MovementPhase
  {
    match p
    case ExtendingHead => DraggingTail
    case Rest => ExtendingHead
    case DraggingTail => Rest
  }

  /** Three transitions return to the starting phase, and fewer never do. */
  lemma PhaseCycle(p: MovementPhase)
    ensures NextPhase(NextPhase(NextPhase(p))) == p
    ensures NextPhase(p) != p && NextPhase(NextPhase(p)) != p
  {
  }

  /** The target lengths set on entering phase p: the natural lengths, with the
      head segment doubled in ExtendingHead and the tail segment halved in
      DraggingTail. */
  function PhaseTargets(p: MovementPhase, natural: seq<real>): seq<real>
    requires |natural| == Segments
  {
    match p
    case DraggingTail => natural[3 := natural[3] * 0.5]
    case ExtendingHead => natural[0 := natural[0] * 2.0]
    case Rest => natural
  }

  /** Each phase perturbs at most one segment, by the documented factor. */
  lemma PhaseTargetsPerturbOne(p: MovementPhase, natural: seq<real>)
    requires |natural| == Segments
    ensures |PhaseTargets(p, natural)| == Segments
    ensures forall i :: 0 <= i < Segments ==>
      PhaseTargets(p, natural)[i] ==
        if p == ExtendingHead && i == 0 then 2.0 * natural[0]
        else if p == DraggingTail && i == 3 then 0.5 * natural[3]
        else natural[i]
  {
  }

  /** The part of the state UpdateMovementWave changes. */
  datatype Gait = Gait(phase: MovementPhase, timer: real, targets: seq<real>)

  /** One UpdateMovementWave: the timer grows by dt; once it reaches the dwell
      time it restarts at 0, the phase steps on and the targets are reset for
      the new phase. */
  function WaveStep(g: Gait, natural: seq<real>, phaseTime: real, dt: real): Gait
    requires |natural| == Segments
  {
    if g.timer + dt >= phaseTime then
      var p := NextPhase(g.phase);
      Gait(p, 0.0, PhaseTargets(p, natural))
    else
      Gait(g.phase, g.timer + dt, g.targets)
  }

  /** A run of UpdateMovementWave calls, one per frame time. */
  function Run(g: Gait, natural: seq<real>, phaseTime: real, dts: seq<real>): Gait
    requires |natural| == Segments
    decreases |dts|
  {
    if dts == [] then g else Run(WaveStep(g, natural, phaseTime, dts[0]), natural, phaseTime, dts[1..])
  }

  function Total(dts: seq<real>): real
    decreases |dts|
  {
    if dts == [] then 0.0 else dts[0] + Total(dts[1..])
  }

  lemma {:induction false} TotalNonNegative(dts: seq<real>)
    requires forall k :: 0 <= k < |dts| ==> dts[k] >= 0.0
    ensures Total(dts) >= 0.0
    decreases |dts|
  {
    if dts != [] {
      TotalNonNegative(dts[1..]);
    }
  }

  /** While the accumulated time stays below the dwell time, the phase and
      the targets stay as they are and the timer is the sum of the frame times. */
  lemma {:induction false} DwellAccumulates(g: Gait, natural: seq<real>, phaseTime: real, dts: seq<real>)
    requires |natural| == Segments
    requires forall k :: 0 <= k < |dts| ==> dts[k] >= 0.0
    requires g.timer + Total(dts) < phaseTime
    ensures Run(g, natural, phaseTime, dts) == Gait(g.phase, g.timer + Total(dts), g.targets)
    decreases |dts|
  {
    if dts != [] {
      TotalNonNegative(dts[1..]);
      var g' := WaveStep(g, natural, phaseTime, dts[0]);
      assert g' == Gait(g.phase, g.timer + dts[0], g.targets);
      DwellAccumulates(g', natural, phaseTime, dts[1..]);
    }
  }

  /** Three frames each at least the dwell time long walk the whole cycle:
      the phase is back where it started, the timer is at 0 and the targets
      are those of that phase (the natural lengths when it is Rest). */
  lemma GaitCycle(g: Gait, natural: seq<real>, phaseTime: real, dt: real)
    requires |natural| == Segments
    requires g.timer >= 0.0 && dt >= phaseTime && dt >= 0.0
    ensures Run(g, natural, phaseTime, [dt, dt, dt]) == Gait(g.phase, 0.0, PhaseTargets(g.phase, natural))
    ensures g.phase == Rest ==> Run(g, natural, phaseTime, [dt, dt, dt]).targets == natural
  {
    var g1 := WaveStep(g, natural, phaseTime, dt);
    var g2 := WaveStep(g1, natural, phaseTime, dt);
    var g3 := WaveStep(g2, natural, phaseTime, dt);
    assert [dt, dt, dt][1..] == [dt, dt] && [dt, dt][1..] == [dt] && [dt][1..] == [];
    assert Run(g3, natural, phaseTime, []) == g3;
    assert Run(g2, natural, phaseTime, [dt]) == g3;
    assert Run(g1, natural, phaseTime, [dt, dt]) == g3;
    assert Run(g, natural, phaseTime, [dt, dt, dt]) == g3;
    PhaseCycle(g.phase);
  }

  /** The proximity multiplier: 1 while the segment is at least a fifth of its
      target, and target / (5 * dist), which then exceeds 1, below that. */
  function ProximityBoost(dist: real, target: real): (r: real)
    requires dist > 0.0
    ensures r >= 1.0
    ensures r == 1.0 <==> dist >= target / 5.0
  {
    if dist < target / 5.0 then target / (5.0 * dist) else 1.0
  }

  /** The velocity change the head block gives points[0]: the half-correction
      toward the head's target distance from points[1], reaching ahead by
      targetDirection * headForwardForce. */
  function HeadDelta(ps: seq<Vec>, targets: seq<real>, dir: Vec, headForce: real,
                     restore: real, dt: real, m: Maths): Vec
    requires |ps| == Points && |targets| == Segments
    requires m.mag(Sub(ps[0], ps[1])) != 0.0
  {
    Scale(Correction(ps[1], ps[0], targets[0], Scale(dir, headForce), m), restore * dt)
  }

  /** The velocity change segment i - 1 gives points[i]. */
  function SegmentDelta(ps: seq<Vec>, targets: seq<real>, i: nat, restore: real, dt: real, m: Maths): Vec
    requires |ps| == Points && |targets| == Segments && 1 <= i < Points
    requires m.mag(Sub(ps[i], ps[i - 1])) > 0.0
  {
    var dist := m.mag(Sub(ps[i], ps[i - 1]));
    Scale(Correction(ps[i - 1], ps[i], targets[i - 1], Zero, m),
          restore * dt * ProximityBoost(dist, targets[i - 1]))
  }

  /** HeadDelta written out as the head block of ApplySegmentConstraints
      computes it from the points it reads. */
  lemma HeadDeltaUnfolded(ps: seq<Vec>, targets: seq<real>, dir: Vec, headForce: real,
                          restore: real, dt: real, m: Maths, prev: Vec, cur: Vec, target: real, d: real)
    requires |ps| == Points && |targets| == Segments
    requires prev == ps[1] && cur == ps[0] && target == targets[0]
    requires d == m.mag(Sub(cur, prev)) && d != 0.0
    ensures HeadDelta(ps, targets, dir, headForce, restore, dt, m)
         == Scale(Scale(Sub(Add(Add(prev, Scale(Div(Sub(cur, prev), d), target)), Scale(dir, headForce)), cur), 0.5),
                  restore * dt)
  {
  }

  /** SegmentDelta written out as the loop body of ApplySegmentConstraints
      computes it from the points it reads. */
  lemma SegmentDeltaUnfolded(ps: seq<Vec>, targets: seq<real>, i: nat, restore: real, dt: real, m: Maths,
                             prev: Vec, cur: Vec, target: real, d: real)
    requires |ps| == Points && |targets| == Segments && 1 <= i < Points
    requires prev == ps[i - 1] && cur == ps[i] && target == targets[i - 1]
    requires d == m.mag(Sub(cur, prev)) && d > 0.0
    ensures SegmentDelta(ps, targets, i, restore, dt, m)
         == Scale(Scale(Sub(Add(prev, Scale(Div(Sub(cur, prev), d), target)), cur), 0.5),
                  restore * dt * (if d < target / 5.0 then target / (5.0 * d) else 1.0))
  {
  }

  /** The velocity ApplySegmentConstraints leaves on point i. */
  function ConstrainedAt(ps: seq<Vec>, vs: seq<Vec>, targets: seq<real>, phase: MovementPhase,
                         dir: Vec, headForce: real, restore: real, dt: real, m: Maths, i: nat): Vec
    requires |ps| == Points && |vs| == Points && |targets| == Segments && i < Points
    requires phase != DraggingTail ==> m.mag(Sub(ps[0], ps[1])) != 0.0
  {
    if i == 0 then
      if phase != DraggingTail then Add(vs[0], HeadDelta(ps, targets, dir, headForce, restore, dt, m))
      else vs[0]
    else if m.mag(Sub(ps[i], ps[i - 1])) > 0.0 then Add(vs[i], SegmentDelta(ps, targets, i, restore, dt, m))
    else vs[i]
  }

  /** Velocities after ApplySegmentConstraints. */
  function Constrained(ps: seq<Vec>, vs: seq<Vec>, targets: seq<real>, phase: MovementPhase,
                       dir: Vec, headForce: real, restore: real, dt: real, m: Maths): seq<Vec>
    requires |ps| == Points && |vs| == Points && |targets| == Segments
    requires phase != DraggingTail ==> m.mag(Sub(ps[0], ps[1])) != 0.0
  {
    seq(Points, i requires 0 <= i < Points =>
      ConstrainedAt(ps, vs, targets, phase, dir, headForce, restore, dt, m, i))
  }

  /** The constraint pass leaves the head alone while dragging the tail and
      leaves the velocity of a point that coincides with its predecessor alone. */
  lemma ConstrainedLeavesAlone(ps: seq<Vec>, vs: seq<Vec>, targets: seq<real>, phase: MovementPhase,
                               dir: Vec, headForce: real, restore: real, dt: real, m: Maths)
    requires Lawful(m)
    requires |ps| == Points && |vs| == Points && |targets| == Segments
    requires phase != DraggingTail ==> ps[0] != ps[1]
    ensures |Constrained(ps, vs, targets, phase, dir, headForce, restore, dt, m)| == Points
    ensures phase == DraggingTail ==> Constrained(ps, vs, targets, phase, dir, headForce, restore, dt, m)[0] == vs[0]
    ensures forall i :: 1 <= i < Points && ps[i] == ps[i - 1] ==>
      Constrained(ps, vs, targets, phase, dir, headForce, restore, dt, m)[i] == vs[i]
  {
    forall i | 1 <= i < Points && ps[i] == ps[i - 1]
      ensures Constrained(ps, vs, targets, phase, dir, headForce, restore, dt, m)[i] == vs[i]
    {
      assert Sub(ps[i], ps[i - 1]) == Zero;
    }
  }

  /** A segment's correction lies along the segment: it pushes points[i] away
      from points[i - 1] when the segment is shorter than its target, toward it
      when longer, and not at all at the target length. */
  lemma SegmentDeltaAlongSegment(ps: seq<Vec>, targets: seq<real>, i: nat, restore: real, dt: real, m: Maths)
    requires |ps| == Points && |targets| == Segments && 1 <= i < Points
    requires m.mag(Sub(ps[i], ps[i - 1])) > 0.0
    ensures var d := m.mag(Sub(ps[i], ps[i - 1]));
      SegmentDelta(ps, targets, i, restore, dt, m)
        == Scale(Sub(ps[i], ps[i - 1]),
                 (targets[i - 1] - d) / (2.0 * d) * (restore * dt * ProximityBoost(d, targets[i - 1])))
  {
    CorrectionAlongSegment(ps[i - 1], ps[i], targets[i - 1], Zero, m);
  }

  /** A later point whose segment is at its target length gets no correction. */
  lemma SegmentDeltaAtTarget(ps: seq<Vec>, targets: seq<real>, i: nat, restore: real, dt: real, m: Maths)
    requires |ps| == Points && |targets| == Segments && 1 <= i < Points
    requires m.mag(Sub(ps[i], ps[i - 1])) == targets[i - 1] > 0.0
    ensures SegmentDelta(ps, targets, i, restore, dt, m) == Zero
  {
    CorrectionAtTarget(ps[i - 1], ps[i], m);
  }

  /** A head at its target distance from points[1] gets exactly half its reach,
      times restoreForce * dt. */
  lemma HeadDeltaAtTarget(ps: seq<Vec>, targets: seq<real>, dir: Vec, headForce: real,
                          restore: real, dt: real, m: Maths)
    requires |ps| == Points && |targets| == Segments
    requires m.mag(Sub(ps[0], ps[1])) == targets[0] != 0.0
    ensures HeadDelta(ps, targets, dir, headForce, restore, dt, m) == Scale(dir, headForce * 0.5 * (restore * dt))
  {
    var reach := Scale(dir, headForce);
    CorrectionAlongSegment(ps[1], ps[0], targets[0], reach, m);
    var c := Correction(ps[1], ps[0], targets[0], reach, m);
    assert c == Add(Scale(Sub(ps[0], ps[1]), 0.0), Scale(reach, 0.5));
    assert c == Scale(reach, 0.5);
    ScaleTwice(dir, headForce, 0.5);
    ScaleTwice(dir, headForce * 0.5, restore * dt);
  }

  /** From the straight layout with every velocity zero and targets at the
      natural length, the constraint pass leaves every point but the head at
      rest, and gives the head half of targetDirection * headForwardForce,
      times restoreForce * dt, even though nothing asked it to move. That
      velocity is non-zero for a non-zero direction and non-zero gains. */
  lemma HeadNudgedAtRest(origin: Vec, len: real, phase: MovementPhase, dir: Vec,
                         headForce: real, restore: real, dt: real, m: Maths)
    requires Lawful(m) && len != 0.0 && phase != DraggingTail
    ensures m.mag(Sub(Layout(origin, len)[0], Layout(origin, len)[1])) != 0.0
    ensures Constrained(Layout(origin, len), Fill(Points, Zero), Fill(Segments, Abs(len)),
                        phase, dir, headForce, restore, dt, m)
         == Fill(Points, Zero)[0 := Scale(dir, headForce * 0.5 * (restore * dt))]
    ensures dir != Zero && headForce != 0.0 && restore != 0.0 && dt != 0.0 ==>
      Constrained(Layout(origin, len), Fill(Points, Zero), Fill(Segments, Abs(len)),
                  phase, dir, headForce, restore, dt, m)[0] != Zero
  {
    var ps := Layout(origin, len);
    var ts := Fill(Segments, Abs(len));
    LayoutLengths(origin, len, m);
    HeadDeltaAtTarget(ps, ts, dir, headForce, restore, dt, m);
    var r := Constrained(ps, Fill(Points, Zero), ts, phase, dir, headForce, restore, dt, m);
    var expected := Fill(Points, Zero)[0 := Scale(dir, headForce * 0.5 * (restore * dt))];
    forall i | 0 <= i < Points
      ensures r[i] == expected[i]
    {
      if i > 0 {
        SegmentDeltaAtTarget(ps, ts, i, restore, dt, m);
      }
    }
    assert r == expected;
    if dir != Zero && headForce != 0.0 && restore != 0.0 && dt != 0.0 {
      assert restore * dt != 0.0;
      assert headForce * 0.5 != 0.0;
      assert headForce * 0.5 * (restore * dt) != 0.0;
      ScaleNonZero(dir, headForce * 0.5 * (restore * dt));
    }
  }

  /** The Larva component. Fields keep the source's names (without the
      leading underscore); `position` is the x and y of transform.position. */
  class Larva {
    var points: array<Vec>
    var segmentLength: real
    var dampening: real
    var restoreForce: real
    var headForwardForce: real
    var headDirectionInfluence: real
    var isMoving: bool
    var targetDirection: Vec
    var movementPhaseTime: real
    var movementPhase: MovementPhase
    const naturalLengths: array<real>
    const segmentTargetLengths: array<real>
    const velocities: array<Vec>
    var timeInPhase: real
    var position: Vec

    /** Fixed sizes: 5 points and velocities, 4 natural and target lengths. */
    ghost predicate Valid()
      reads this
    {
      && points.Length == Points && velocities.Length == Points
      && naturalLengths.Length == Segments && segmentTargetLengths.Length == Segments
      && points != velocities && naturalLengths != segmentTargetLengths
    }

    /** The field initialisers, for a component placed at `position`. */
    constructor (position: Vec)
      ensures Valid() && fresh(points) && fresh(velocities)
      ensures fresh(naturalLengths) && fresh(segmentTargetLengths)
      ensures this.position == position
      ensures segmentLength == 1.0 && dampening == 0.9 && restoreForce == 5.0
      ensures headForwardForce == 3.0 && headDirectionInfluence == 0.8
      ensures !isMoving && targetDirection == Right
      ensures movementPhaseTime == 0.5 && movementPhase == Rest && timeInPhase == 0.0
      ensures points[..] == Fill(Points, Zero) && velocities[..] == Fill(Points, Zero)
      ensures naturalLengths[..] == Fill(Segments, 0.0) && segmentTargetLengths[..] == Fill(Segments, 0.0)
    {
      points := new Vec[Points](_ => Zero);
      segmentLength := 1.0;
      dampening := 0.9;
      restoreForce := 5.0;
      headForwardForce := 3.0;
      headDirectionInfluence := 0.8;
      isMoving := false;
      targetDirection := Right;
      movementPhaseTime := 0.5;
      movementPhase := Rest;
      naturalLengths := new real[Segments](_ => 0.0);
      segmentTargetLengths := new real[Segments](_ => 0.0);
      velocities := new Vec[Points](_ => Zero);
      timeInPhase := 0.0;
      this.position := position;
    }

    /** The state UpdateMovementWave works on. */
    function CurrentGait(): Gait
      requires Valid()
      reads this, segmentTargetLengths
    {
      Gait(movementPhase, timeInPhase, segmentTargetLengths[..])
    }

    /** The gait the next Update will use: stepped only while moving. */
    function GaitAfterWave(dt: real): Gait
      requires Valid()
      reads this, naturalLengths, segmentTargetLengths
    {
      if isMoving then WaveStep(CurrentGait(), naturalLengths[..], movementPhaseTime, dt) else CurrentGait()
    }

    /** InitializeLarva: the straight layout from the component's position,
      natural and target lengths |segmentLength|, velocities zero. */
    method InitializeLarva(m: Maths)
      requires Valid() && Lawful(m)
      modifies points, naturalLengths, segmentTargetLengths, velocities
      ensures points[..] == Layout(position, segmentLength)
      ensures naturalLengths[..] == Fill(Segments, Abs(segmentLength))
      ensures segmentTargetLengths[..] == naturalLengths[..]
      ensures velocities[..] == Fill(Points, Zero)
    {
      LayOut(points, naturalLengths, segmentTargetLengths, velocities, position, segmentLength, m);
    }

    /** UpdateMovementWave: advance the dwell timer and, when it reaches the
        dwell time, step the phase and reset the targets for it. */
    method UpdateMovementWave(dt: real)
      requires Valid()
      modifies this`timeInPhase, this`movementPhase, segmentTargetLengths
      ensures Valid()
      ensures CurrentGait() == WaveStep(old(CurrentGait()), naturalLengths[..], movementPhaseTime, dt)
    {
      timeInPhase := timeInPhase + dt;
      if !(timeInPhase >= movementPhaseTime) {
        return;
      }
      timeInPhase := 0.0;
      movementPhase := match movementPhase
        case ExtendingHead => DraggingTail
        case Rest => ExtendingHead
        case DraggingTail => Rest;
      for i := 0 to naturalLengths.Length
        modifies segmentTargetLengths
        invariant forall k :: 0 <= k < i ==> segmentTargetLengths[k] == naturalLengths[k]
      {
        segmentTargetLengths[i] := naturalLengths[i];
      }
      assert segmentTargetLengths[..] == naturalLengths[..];
      match movementPhase {
        case DraggingTail =>
          segmentTargetLengths[3] := naturalLengths[3] * 0.5;
          assert segmentTargetLengths[..] == naturalLengths[..][3 := naturalLengths[3] * 0.5];
        case ExtendingHead =>
          segmentTargetLengths[0] := naturalLengths[0] * 2.0;
          assert segmentTargetLengths[..] == naturalLengths[..][0 := naturalLengths[0] * 2.0];
        case Rest =>
      }
    }

    /** ApplySegmentConstraints: the head block (skipped while dragging the
        tail), then one correction per later point. Only velocities change. */
    method ApplySegmentConstraints(dt: real, m: Maths)
      requires Valid()
      requires movementPhase != DraggingTail ==> m.mag(Sub(points[0], points[1])) != 0.0
      modifies velocities
      ensures velocities[..] == Constrained(points[..], old(velocities[..]), segmentTargetLengths[..],
        movementPhase, targetDirection, headForwardForce, restoreForce, dt, m)
    {
      ghost var ps, vs, ts := points[..], velocities[..], segmentTargetLengths[..];
      if movementPhase != DraggingTail {
        ConstrainHead(dt, m);
      }
      for i := 1 to points.Length
        invariant forall k :: 0 <= k < i ==> velocities[k] == ConstrainedAt(ps, vs, ts, movementPhase,
          targetDirection, headForwardForce, restoreForce, dt, m, k)
        invariant forall k :: i <= k < Points ==> velocities[k] == vs[k]
      {
        ConstrainSegment(i, dt, m);
      }
      assert velocities[..] == Constrained(ps, vs, ts, movementPhase, targetDirection,
        headForwardForce, restoreForce, dt, m);
    }

    /** The head block of ApplySegmentConstraints: points[0] is pulled toward
        its target distance from points[1], reaching ahead by
        targetDirection * headForwardForce. */
    method ConstrainHead(dt: real, m: Maths)
      requires Valid()
      requires m.mag(Sub(points[0], points[1])) != 0.0
      modifies velocities
      ensures velocities[..] == old(velocities[..])[0 := Add(old(velocities[0]),
        HeadDelta(points[..], segmentTargetLengths[..], targetDirection, headForwardForce, restoreForce, dt, m))]
    {
      var previousPoint := points[1];
      var currentPoint := points[0];
      var targetDistance := segmentTargetLengths[0];
      var direction := Sub(currentPoint, previousPoint);
      var currentDistance := m.mag(direction);
      var normalizedDirection := Div(direction, currentDistance);
      var targetPosition := Add(Add(previousPoint, Scale(normalizedDirection, targetDistance)),
                                Scale(targetDirection, headForwardForce));
      var correction := Scale(Sub(targetPosition, currentPoint), 0.5);
      HeadDeltaUnfolded(points[..], segmentTargetLengths[..], targetDirection, headForwardForce, restoreForce, dt, m,
                        previousPoint, currentPoint, targetDistance, currentDistance);
      ghost var delta := HeadDelta(points[..], segmentTargetLengths[..], targetDirection, headForwardForce,
                                   restoreForce, dt, m);
      assert Scale(correction, restoreForce * dt) == delta;
      velocities[0] := Add(velocities[0], Scale(correction, restoreForce * dt));
    }

    /** One pass of the loop in ApplySegmentConstraints: points[i] is pulled
        toward its target distance from points[i - 1], unless the two coincide. */
    method ConstrainSegment(i: nat, dt: real, m: Maths)
      requires Valid() && 1 <= i < Points
      modifies velocities
      ensures velocities[..] == old(velocities[..])[i :=
        if m.mag(Sub(points[i], points[i - 1])) > 0.0
        then Add(old(velocities[i]), SegmentDelta(points[..], segmentTargetLengths[..], i, restoreForce, dt, m))
        else old(velocities[i])]
    {
      var previousPoint := points[i - 1];
      var currentPoint := points[i];
      var targetDistance := segmentTargetLengths[i - 1];
      var direction := Sub(currentPoint, previousPoint);
      var currentDistance := m.mag(direction);
      if !(currentDistance > 0.0) {
        return;
      }
      var normalizedDirection := Div(direction, currentDistance);
      var targetPosition := Add(previousPoint, Scale(normalizedDirection, targetDistance));
      var additionalForce := if currentDistance < segmentTargetLengths[i - 1] / 5.0
        then segmentTargetLengths[i - 1] / (5.0 * currentDistance) else 1.0;
      var correction := Scale(Sub(targetPosition, currentPoint), 0.5);
      SegmentDeltaUnfolded(points[..], segmentTargetLengths[..], i, restoreForce, dt, m,
                           previousPoint, currentPoint, targetDistance, currentDistance);
      ghost var delta := SegmentDelta(points[..], segmentTargetLengths[..], i, restoreForce, dt, m);
      assert Scale(correction, restoreForce * dt * additionalForce) == delta;
      velocities[i] := Add(velocities[i], Scale(correction, restoreForce * dt * additionalForce));
    }

    /** UpdatePositions: integrate, damp, and move the component to the centroid. */
    method UpdatePositions(dt: real)
      requires Valid()
      modifies points, velocities, this`position
      ensures points[..] == Advance(old(points[..]), old(velocities[..]), dt)
      ensures velocities[..] == Damp(old(velocities[..]), dampening)
      ensures position == Centroid(points[..])
    {
      Integrate(points, velocities, dt, dampening);
      var center := GetCenter();
      position := center;
    }

    /** GetCenter: the mean of the five points. */
    method GetCenter() returns (center: Vec)
      requires Valid()
      ensures center == Centroid(points[..])
    {
      center := CenterOf(points);
    }

    /** Update: the wave only while moving, then the constraints, then the
        integration, in that order. */
    method Tick(dt: real, m: Maths)
      requires Valid() && Lawful(m)
      requires GaitAfterWave(dt).phase != DraggingTail ==> points[0] != points[1]
      modifies this`timeInPhase, this`movementPhase, segmentTargetLengths, points, velocities, this`position
      ensures Valid()
      ensures CurrentGait() == old(GaitAfterWave(dt))
      ensures !isMoving ==> movementPhase == old(movementPhase) && timeInPhase == old(timeInPhase)
      ensures var v := Constrained(old(points[..]), old(velocities[..]), segmentTargetLengths[..],
                                   movementPhase, targetDirection, headForwardForce, restoreForce, dt, m);
        && points[..] == Advance(old(points[..]), v, dt)
        && velocities[..] == Damp(v, dampening)
      ensures position == Centroid(points[..])
    {
      if isMoving {
        UpdateMovementWave(dt);
      }
      ApplySegmentConstraints(dt, m);
      UpdatePositions(dt);
    }

    /** StartMoving: set isMoving and store the (twice) normalized direction. */
    method StartMoving(direction: Vec, m: Maths)
      modifies this`isMoving, this`targetDirection
      ensures isMoving && targetDirection == m.normalize(m.normalize(direction))
    {
      isMoving := true;
      SetMovementDirection(m.normalize(direction), m);
    }

    /** StopMoving: clear isMoving and set the phase to enum value 0, which is
        ExtendingHead; the dwell timer and the target lengths are kept. */
    method StopMoving()
      modifies this`isMoving, this`movementPhase
      ensures !isMoving && movementPhase == ExtendingHead
      ensures timeInPhase == old(timeInPhase)
    {
      isMoving := false;
      movementPhase := ExtendingHead;
    }

    /** SetMovementDirection: store the normalized direction, nothing else. */
    method SetMovementDirection(direction: Vec, m: Maths)
      modifies this`targetDirection
      ensures targetDirection == m.normalize(direction)
    {
      targetDirection := m.normalize(direction);
    }
  }
}
