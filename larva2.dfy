/** larva2.cs: the simplest chain. The wave reshapes the target lengths while
    moving, but the constraint pass measures every point against the point
    in front of it at the NATURAL length: each later point is pulled half
    the way toward where it would sit, with no counter-pull on the point in
    front, and the head alone gets the forward push. */
module SimpleLarva {
  import opened Vectors
  import opened Chain
  import opened Wave

  /** The velocity change of point i (1 <= i < 5) toward the natural length
      behind point i - 1: the half-correction times restoreForce * dt. */
  function Pull(ps: seq<Vec>, natural: seq<real>, i: nat, restore: real, dt: real, m: Maths): Vec
    requires |ps| == Points && |natural| == Segments && 0 < i < Points
    requires m.mag(Sub(ps[i], ps[i - 1])) != 0.0
  {
    Scale(Scale(Correction(ps[i - 1], ps[i], natural[i - 1], Zero, m), restore), dt)
  }

  /** Velocity v of point i after its iteration of the constraint loop; a
      point at distance 0 from the one in front keeps v. */
  function PulledAt(ps: seq<Vec>, v: Vec, natural: seq<real>, i: nat, restore: real, dt: real, m: Maths): Vec
    requires |ps| == Points && |natural| == Segments && 0 < i < Points
  {
    if m.mag(Sub(ps[i], ps[i - 1])) > 0.0 then Add(v, Pull(ps, natural, i, restore, dt, m)) else v
  }

  /** All four iterations of the constraint loop. The loop changes only
      velocities and reads only points, so each iteration sees the point
      positions of the frame. */
  function Pulled(ps: seq<Vec>, vs: seq<Vec>, natural: seq<real>, restore: real, dt: real, m: Maths): (r: seq<Vec>)
    requires |ps| == Points && |vs| == Points && |natural| == Segments
    ensures |r| == Points
  {
    seq(Points, k requires 0 <= k < Points =>
      if k == 0 then vs[0] else PulledAt(ps, vs[k], natural, k, restore, dt, m))
  }

  /** The head push: while moving, velocities[0] gains
      targetDirection * contractionStrength * dt. */
  function HeadPush(vs: seq<Vec>, moving: bool, dir: Vec, strength: real, dt: real): (r: seq<Vec>)
    requires |vs| == Points
    ensures |r| == Points
  {
    if moving then vs[0 := Add(vs[0], Scale(Scale(dir, strength), dt))] else vs
  }

  /** Velocities after ApplySegmentConstraints. The target lengths the wave
      writes are not an argument: nothing here reads them. */
  function Constrained(ps: seq<Vec>, vs: seq<Vec>, natural: seq<real>, moving: bool, dir: Vec,
                       strength: real, restore: real, dt: real, m: Maths): (r: seq<Vec>)
    requires |ps| == Points && |vs| == Points && |natural| == Segments
    ensures |r| == Points
  {
    HeadPush(Pulled(ps, vs, natural, restore, dt, m), moving, dir, strength, dt)
  }

  /** The head's velocity changes by the push, only while moving; every
      other point changes by its own pull only. */
  lemma HeadOnlyPushed(ps: seq<Vec>, vs: seq<Vec>, natural: seq<real>, moving: bool, dir: Vec,
                       strength: real, restore: real, dt: real, m: Maths)
    requires |ps| == Points && |vs| == Points && |natural| == Segments
    ensures var r := Constrained(ps, vs, natural, moving, dir, strength, restore, dt, m);
      && r[0] == (if moving then Add(vs[0], Scale(Scale(dir, strength), dt)) else vs[0])
      && (forall k :: 0 < k < Points ==> r[k] == PulledAt(ps, vs[k], natural, k, restore, dt, m))
  {
  }

  /** A point that sits on the point in front of it is left alone. */
  lemma CoincidentUnpulled(ps: seq<Vec>, vs: seq<Vec>, natural: seq<real>, i: nat, moving: bool, dir: Vec,
                           strength: real, restore: real, dt: real, m: Maths)
    requires Lawful(m)
    requires |ps| == Points && |vs| == Points && |natural| == Segments && 0 < i < Points
    requires ps[i] == ps[i - 1]
    ensures Constrained(ps, vs, natural, moving, dir, strength, restore, dt, m)[i] == vs[i]
  {
    assert Sub(ps[i], ps[i - 1]) == Zero;
  }

  /** The pull lies along the segment: point i moves away from point i - 1
      when closer than the natural length and toward it when farther. */
  lemma PullAlongSegment(ps: seq<Vec>, natural: seq<real>, i: nat, restore: real, dt: real, m: Maths)
    requires |ps| == Points && |natural| == Segments && 0 < i < Points
    requires m.mag(Sub(ps[i], ps[i - 1])) != 0.0
    ensures var d := m.mag(Sub(ps[i], ps[i - 1]));
      Pull(ps, natural, i, restore, dt, m)
        == Scale(Scale(Sub(ps[i], ps[i - 1]), (natural[i - 1] - d) / (2.0 * d)), restore * dt)
  {
    var d := m.mag(Sub(ps[i], ps[i - 1]));
    var k := (natural[i - 1] - d) / (2.0 * d);
    var c := Scale(Sub(ps[i], ps[i - 1]), k);
    CorrectionAlongSegment(ps[i - 1], ps[i], natural[i - 1], Zero, m);
    assert Correction(ps[i - 1], ps[i], natural[i - 1], Zero, m) == c;
    ScaleTwice(c, restore, dt);
  }

  /** A point at the natural length behind its predecessor is not pulled. */
  lemma PulledAtNatural(ps: seq<Vec>, v: Vec, natural: seq<real>, i: nat, restore: real, dt: real, m: Maths)
    requires |ps| == Points && |natural| == Segments && 0 < i < Points
    requires m.mag(Sub(ps[i], ps[i - 1])) == natural[i - 1]
    ensures PulledAt(ps, v, natural, i, restore, dt, m) == v
  {
    if m.mag(Sub(ps[i], ps[i - 1])) > 0.0 {
      CorrectionAtTarget(ps[i - 1], ps[i], m);
    }
  }

  /** Rest is a fixed point: from the straight layout with every velocity
      zero and natural lengths |len|, a frame without movement leaves every
      velocity zero and every point where it is, whatever the wave did to
      the target lengths. */
  lemma RestIsFixedPoint(origin: Vec, len: real, dir: Vec, strength: real, restore: real,
                         dt: real, dampening: real, m: Maths)
    requires Lawful(m)
    ensures var v := Constrained(Layout(origin, len), Fill(Points, Zero), Fill(Segments, Abs(len)), false,
                                 dir, strength, restore, dt, m);
      && v == Fill(Points, Zero)
      && Advance(Layout(origin, len), v, dt) == Layout(origin, len)
      && Damp(v, dampening) == Fill(Points, Zero)
  {
    var ps := Layout(origin, len);
    var ns := Fill(Segments, Abs(len));
    var zs := Fill(Points, Zero);
    LayoutLengths(origin, len, m);
    forall k | 0 < k < Points
      ensures PulledAt(ps, zs[k], ns, k, restore, dt, m) == Zero
    {
      assert m.mag(Sub(ps[k], ps[k - 1])) == ns[k - 1];
      PulledAtNatural(ps, zs[k], ns, k, restore, dt, m);
    }
    assert Constrained(ps, zs, ns, false, dir, strength, restore, dt, m) == zs;
    AdvanceAtRest(ps, dt, dampening);
  }

  /** The larva2 component. Fields keep the source's names (without the
      leading underscore); `position` is the x and y of transform.position. */
  class Larva2 {
    var points: array<Vec>
    var segmentLength: real
    var bodyWidth: real
    var contractionStrength: real
    var waveSpeed: real
    var dampening: real
    var restoreForce: real
    var isMoving: bool
    var targetDirection: Vec
    const naturalLengths: array<real>
    const segmentTargetLengths: array<real>
    const velocities: array<Vec>
    var movementPhase: real
    var position: Vec

    /** Fixed sizes: 5 points and velocities, 4 natural and target lengths. */
    ghost predicate Valid()
      reads this
    {
      && points.Length == Points && velocities.Length == Points
      && naturalLengths.Length == Segments && segmentTargetLengths.Length == Segments
      && points != velocities && naturalLengths != segmentTargetLengths
    }

    /** The field initialisers, for a component placed at `position`. */
    constructor (position: Vec)
      ensures Valid() && fresh(points) && fresh(velocities)
      ensures fresh(naturalLengths) && fresh(segmentTargetLengths)
      ensures this.position == position
      ensures segmentLength == 1.0 && bodyWidth == 0.3 && contractionStrength == 2.0 && waveSpeed == 3.0
      ensures dampening == 0.9 && restoreForce == 5.0
      ensures !isMoving && targetDirection == Right && movementPhase == 0.0
      ensures points[..] == Fill(Points, Zero) && velocities[..] == Fill(Points, Zero)
      ensures naturalLengths[..] == Fill(Segments, 0.0) && segmentTargetLengths[..] == Fill(Segments, 0.0)
    {
      points := new Vec[Points](_ => Zero);
      segmentLength := 1.0;
      bodyWidth := 0.3;
      contractionStrength := 2.0;
      waveSpeed := 3.0;
      dampening := 0.9;
      restoreForce := 5.0;
      isMoving := false;
      targetDirection := Right;
      naturalLengths := new real[Segments](_ => 0.0);
      segmentTargetLengths := new real[Segments](_ => 0.0);
      velocities := new Vec[Points](_ => Zero);
      movementPhase := 0.0;
      this.position := position;
    }

    /** InitializeLarva: the straight layout from the component's position,
        natural and target lengths |segmentLength|, velocities zero. */
    method InitializeLarva(m: Maths)
      requires Valid() && Lawful(m)
      modifies points, naturalLengths, segmentTargetLengths, velocities
      ensures points[..] == Layout(position, segmentLength)
      ensures naturalLengths[..] == Fill(Segments, Abs(segmentLength))
      ensures segmentTargetLengths[..] == naturalLengths[..]
      ensures velocities[..] == Fill(Points, Zero)
    {
      LayOut(points, naturalLengths, segmentTargetLengths, velocities, position, segmentLength, m);
    }

    /** UpdateMovementWave: the phase advances by waveSpeed * dt and every
        target length is reshaped by the wave at the new phase. */
    method UpdateMovementWave(dt: real, m: Maths)
      requires Valid() && Lawful(m)
      modifies this`movementPhase, segmentTargetLengths
      ensures movementPhase == old(movementPhase) + waveSpeed * dt
      ensures segmentTargetLengths[..] == WaveTargets(movementPhase, naturalLengths[..], m)
    {
      movementPhase := movementPhase + waveSpeed * dt;
      ShapeWave(segmentTargetLengths, naturalLengths, movementPhase, m);
    }

    /** ApplySegmentConstraints: pull points 1 to 4 in order, then push the
        head while moving. Only velocities change. */
    method ApplySegmentConstraints(dt: real, m: Maths)
      requires Valid()
      modifies velocities
      ensures velocities[..] == Constrained(points[..], old(velocities[..]), naturalLengths[..], isMoving,
        targetDirection, contractionStrength, restoreForce, dt, m)
    {
      ghost var ps, vs, ns := points[..], velocities[..], naturalLengths[..];
      for i := 1 to points.Length
        modifies velocities
        invariant velocities[0] == vs[0]
        invariant forall k :: 0 < k < i ==> velocities[k] == PulledAt(ps, vs[k], ns, k, restoreForce, dt, m)
        invariant forall k :: i <= k < Points ==> velocities[k] == vs[k]
      {
        PullPoint(i, dt, m);
      }
      assert velocities[..] == Pulled(ps, vs, ns, restoreForce, dt, m);
      if isMoving {
        var headForce := Scale(Scale(targetDirection, contractionStrength), dt);
        velocities[0] := Add(velocities[0], headForce);
      }
    }

    /** One iteration of the constraint loop: point i is pulled toward the
        natural length behind point i - 1, unless the two coincide. */
    method PullPoint(i: nat, dt: real, m: Maths)
      requires Valid() && 0 < i < Points
      modifies velocities
      ensures velocities[..] == old(velocities[..])[i := PulledAt(points[..], old(velocities[i]),
        naturalLengths[..], i, restoreForce, dt, m)]
    {
      ghost var ps, ns := points[..], naturalLengths[..];
      var previousPoint := points[i - 1];
      var currentPoint := points[i];
      var targetDistance := naturalLengths[i - 1];
      var direction := Sub(currentPoint, previousPoint);
      var currentDistance := m.mag(direction);
      if currentDistance > 0.0 {
        var normalizedDirection := Div(direction, currentDistance);
        var targetPosition := Add(previousPoint, Scale(normalizedDirection, targetDistance));
        var correction := Scale(Sub(targetPosition, currentPoint), 0.5);
        var pull := Scale(Scale(correction, restoreForce), dt);
        assert pull == Pull(ps, ns, i, restoreForce, dt, m);
        velocities[i] := Add(velocities[i], pull);
      }
    }

    /** UpdatePositions: integrate, damp, and move the component to the centroid. */
    method UpdatePositions(dt: real)
      requires Valid()
      modifies points, velocities, this`position
      ensures points[..] == Advance(old(points[..]), old(velocities[..]), dt)
      ensures velocities[..] == Damp(old(velocities[..]), dampening)
      ensures position == Centroid(points[..])
    {
      Integrate(points, velocities, dt, dampening);
      var center := GetCenter();
      position := center;
    }

    /** GetCenter: the mean of the five points. */
    method GetCenter() returns (center: Vec)
      requires Valid()
      ensures center == Centroid(points[..])
    {
      center := CenterOf(points);
    }

    /** Update: the wave only while moving, then the constraints, then the
        integration, in that order. */
    method Tick(dt: real, m: Maths)
      requires Valid() && Lawful(m)
      modifies this`movementPhase, segmentTargetLengths, points, velocities, this`position
      ensures isMoving ==> movementPhase == old(movementPhase) + old(waveSpeed) * dt
      ensures isMoving ==> segmentTargetLengths[..] == WaveTargets(movementPhase, naturalLengths[..], m)
      ensures !isMoving ==> movementPhase == old(movementPhase)
      ensures !isMoving ==> segmentTargetLengths[..] == old(segmentTargetLengths[..])
      ensures var v := Constrained(old(points[..]), old(velocities[..]), naturalLengths[..], isMoving,
                                   targetDirection, contractionStrength, restoreForce, dt, m);
        && points[..] == Advance(old(points[..]), v, dt)
        && velocities[..] == Damp(v, dampening)
      ensures position == Centroid(points[..])
    {
      if isMoving {
        UpdateMovementWave(dt, m);
      }
      ghost var phase := movementPhase;
      assert isMoving ==> phase == old(movementPhase) + old(waveSpeed) * dt;
      ghost var ts, ns := segmentTargetLengths[..], naturalLengths[..];
      ApplySegmentConstraints(dt, m);
      UpdatePositions(dt);
      assert segmentTargetLengths[..] == ts && naturalLengths[..] == ns;
      assert movementPhase == phase;
    }

    /** StartMoving: set isMoving and store the normalized direction. */
    method StartMoving(direction: Vec, m: Maths)
      modifies this`isMoving, this`targetDirection
      ensures isMoving && targetDirection == m.normalize(direction)
    {
      isMoving := true;
      targetDirection := m.normalize(direction);
    }

    /** StopMoving: clear isMoving and restart the wave phase at 0. */
    method StopMoving()
      modifies this`isMoving, this`movementPhase
      ensures !isMoving && movementPhase == 0.0
    {
      isMoving := false;
      movementPhase := 0.0;
    }

    /** SetMovementDirection: store the normalized direction, nothing else. */
    method SetMovementDirection(direction: Vec, m: Maths)
      modifies this`targetDirection
      ensures targetDirection == m.normalize(direction)
    {
      targetDirection := m.normalize(direction);
    }
  }
}
