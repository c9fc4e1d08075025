/** Larva3.cs: the chain driven by a continuous peristaltic wave. While moving,
    a phase accumulator advances and reshapes every target length. Each frame the
    constraint pass walks the four segments in order, pushing the two ends of a
    segment apart or together toward its target (the head end of segment 0 is
    spared) and adding forward thrust while a segment contracts; then the head
    and its two successors get a forward lead, and the chain is integrated. */
module WaveLarva {
  import opened Vectors
  import opened Chain
  import opened Wave

  /** lengthDiff: target length minus current length of segment i
      (points[i] to points[i + 1]). */
  function LengthDiff(ps: seq<Vec>, targets: seq<real>, i: nat, m: Maths): real
    requires |ps| == Points && |targets| == Segments && i < Segments
  {
    targets[i] - m.mag(Sub(ps[i + 1], ps[i]))
  }

  /** The restoring velocity change of segment i: half the length
      difference along the segment, times restoreForce * dt. */
  function Impulse(ps: seq<Vec>, targets: seq<real>, i: nat, restore: real, dt: real, m: Maths): Vec
    requires |ps| == Points && |targets| == Segments && i < Segments
  {
    Scale(Scale(m.normalize(Sub(ps[i + 1], ps[i])), LengthDiff(ps, targets, i, m) * 0.5), restore * dt)
  }

  /** propulsionForce of segment i. */
  function Push(ps: seq<Vec>, targets: seq<real>, i: nat, dir: Vec, strength: real, dt: real, m: Maths): Vec
    requires |ps| == Points && |targets| == Segments && i < Segments
  {
    Scale(dir, strength * Abs(LengthDiff(ps, targets, i, m)) * dt)
  }

  /** propulsionFactor: (i + 1) / (points.Length - 1). */
  function PushFactor(i: nat): real
  {
    (i + 1) as real / (Points - 1) as real
  }

  /** Whether segment i adds thrust: only while moving and contracting. */
  predicate Propels(ps: seq<Vec>, targets: seq<real>, i: nat, moving: bool, m: Maths)
    requires |ps| == Points && |targets| == Segments && i < Segments
  {
    moving && LengthDiff(ps, targets, i, m) < 0.0
  }

  /** The restoring updates of segment i: points[i] (unless it is the head)
      loses the impulse and points[i + 1] gains it. */
  function Restored(vs: seq<Vec>, i: nat, impulse: Vec): (r: seq<Vec>)
    requires i + 1 < |vs|
    ensures |r| == |vs|
  {
    if i > 0 then vs[i := Sub(vs[i], impulse)][i + 1 := Add(vs[i + 1], impulse)]
    else vs[i + 1 := Add(vs[i + 1], impulse)]
  }

  /** The thrust updates of segment i: 0.3 and 0.7 of the propulsion force,
      times the factor, on points[i] and points[i + 1]. */
  function Thrust(vs: seq<Vec>, i: nat, push: Vec): (r: seq<Vec>)
    requires i + 1 < |vs|
    ensures |r| == |vs|
  {
    Nudge(Nudge(vs, i, Scale(push, PushFactor(i) * 0.3)), i + 1, Scale(push, PushFactor(i) * 0.7))
  }

  /** `velocities[k] += d` */
  function Nudge(vs: seq<Vec>, k: nat, d: Vec): (r: seq<Vec>)
    requires k < |vs|
    ensures |r| == |vs|
  {
    vs[k := Add(vs[k], d)]
  }

  /** One pass of the constraint loop over segment i: the restoring updates,
      then the thrust while moving and contracting. A segment of zero length
      is skipped. */
  function Pass(ps: seq<Vec>, vs: seq<Vec>, targets: seq<real>, i: nat, moving: bool, dir: Vec,
                strength: real, restore: real, dt: real, m: Maths): (r: seq<Vec>)
    requires |ps| == Points && |vs| == Points && |targets| == Segments && i < Segments
    ensures |r| == Points
  {
    if !(m.mag(Sub(ps[i + 1], ps[i])) > 0.0) then vs
    else
      var restored := Restored(vs, i, Impulse(ps, targets, i, restore, dt, m));
      if Propels(ps, targets, i, moving, m) then Thrust(restored, i, Push(ps, targets, i, dir, strength, dt, m))
      else restored
  }

  /** The first n passes of the constraint loop, in order. */
  function Passes(ps: seq<Vec>, vs: seq<Vec>, targets: seq<real>, n: nat, moving: bool, dir: Vec,
                  strength: real, restore: real, dt: real, m: Maths): (r: seq<Vec>)
    requires |ps| == Points && |vs| == Points && |targets| == Segments && n <= Segments
    ensures |r| == Points
  {
    if n == 0 then vs
    else Pass(ps, Passes(ps, vs, targets, n - 1, moving, dir, strength, restore, dt, m),
              targets, n - 1, moving, dir, strength, restore, dt, m)
  }

  /** The weight of the head's forward velocity on points[i], 1 <= i < 3. */
  function Influence(headInfluence: real, i: nat): real
  {
    headInfluence * (1.0 - i as real / 3.0)
  }

  /** The head lead: while moving, points[0] gets targetDirection *
      headForwardForce * dt and points[1], points[2] a share of it. */
  function HeadLead(vs: seq<Vec>, moving: bool, dir: Vec, headForce: real, headInfluence: real, dt: real): (r: seq<Vec>)
    requires |vs| == Points
    ensures |r| == Points
  {
    if !moving then vs
    else
      var lead := Scale(Scale(dir, headForce), dt);
      seq(Points, k requires 0 <= k < Points =>
        if k == 0 then Add(vs[0], lead)
        else if k < 3 then Add(vs[k], Scale(lead, Influence(headInfluence, k)))
        else vs[k])
  }

  /** Velocities after ApplySegmentConstraints. */
  function Constrained(ps: seq<Vec>, vs: seq<Vec>, targets: seq<real>, moving: bool, dir: Vec,
                       strength: real, restore: real, headForce: real, headInfluence: real,
                       dt: real, m: Maths): (r: seq<Vec>)
    requires |ps| == Points && |vs| == Points && |targets| == Segments
    ensures |r| == Points
  {
    HeadLead(Passes(ps, vs, targets, Segments, moving, dir, strength, restore, dt, m),
             moving, dir, headForce, headInfluence, dt)
  }

  /** A pass touches only the two ends of its segment, and a segment of zero
      length (its ends coincide) changes nothing at all. */
  lemma PassTouchesEnds(ps: seq<Vec>, vs: seq<Vec>, targets: seq<real>, i: nat, moving: bool, dir: Vec,
                        strength: real, restore: real, dt: real, m: Maths)
    requires Lawful(m)
    requires |ps| == Points && |vs| == Points && |targets| == Segments && i < Segments
    ensures forall k :: 0 <= k < Points && k != i && k != i + 1 ==>
      Pass(ps, vs, targets, i, moving, dir, strength, restore, dt, m)[k] == vs[k]
    ensures ps[i + 1] == ps[i] ==> Pass(ps, vs, targets, i, moving, dir, strength, restore, dt, m) == vs
  {
    if ps[i + 1] == ps[i] {
      assert Sub(ps[i + 1], ps[i]) == Zero;
    }
  }

  /** Without thrust, a pass over a later segment changes its two ends by
      exact negatives of each other, and the pass over segment 0 leaves the
      head alone and gives points[1] the whole impulse. */
  lemma PassEqualAndOpposite(ps: seq<Vec>, vs: seq<Vec>, targets: seq<real>, i: nat, moving: bool, dir: Vec,
                             strength: real, restore: real, dt: real, m: Maths)
    requires |ps| == Points && |vs| == Points && |targets| == Segments && i < Segments
    requires m.mag(Sub(ps[i + 1], ps[i])) > 0.0 && !Propels(ps, targets, i, moving, m)
    ensures var r := Pass(ps, vs, targets, i, moving, dir, strength, restore, dt, m);
      var impulse := Impulse(ps, targets, i, restore, dt, m);
      && r[i + 1] == Add(vs[i + 1], impulse)
      && (i > 0 ==> r[i] == Sub(vs[i], impulse))
      && (i > 0 ==> Add(Sub(r[i], vs[i]), Sub(r[i + 1], vs[i + 1])) == Zero)
      && (i == 0 ==> r[0] == vs[0])
  {
  }

  /** With thrust (moving and contracting), a pass gives points[i] 0.3 and
      points[i + 1] 0.7 of the propulsion force times (i + 1) / 4, on top of
      the restoring updates. */
  lemma PassPropels(ps: seq<Vec>, vs: seq<Vec>, targets: seq<real>, i: nat, moving: bool, dir: Vec,
                    strength: real, restore: real, dt: real, m: Maths)
    requires |ps| == Points && |vs| == Points && |targets| == Segments && i < Segments
    requires m.mag(Sub(ps[i + 1], ps[i])) > 0.0 && Propels(ps, targets, i, moving, m)
    ensures moving && LengthDiff(ps, targets, i, m) < 0.0
    ensures var r := Pass(ps, vs, targets, i, moving, dir, strength, restore, dt, m);
      var impulse := Impulse(ps, targets, i, restore, dt, m);
      var push := Push(ps, targets, i, dir, strength, dt, m);
      var f := (i + 1) as real / 4.0;
      && r[i + 1] == Add(Add(vs[i + 1], impulse), Scale(push, f * 0.7))
      && r[i] == Add(if i > 0 then Sub(vs[i], impulse) else vs[i], Scale(push, f * 0.3))
      && (forall k :: 0 <= k < Points && k != i && k != i + 1 ==> r[k] == vs[k])
  {
  }

  /** Momentum of the restoring updates: conserved for a later segment; for
      segment 0, whose head end gets no counter-impulse, the sum grows by the
      impulse. */
  lemma RestoredMomentum(vs: seq<Vec>, i: nat, impulse: Vec)
    requires i + 1 < |vs|
    ensures Sum(Restored(vs, i, impulse)) == Add(Sum(vs), if i == 0 then impulse else Zero)
  {
    var total := Sum(vs);
    var up := Add(vs[i + 1], impulse);
    if i == 0 {
      SumUpdate(vs, 1, up);
      assert Sub(up, vs[1]) == impulse;
    } else {
      var down := Sub(vs[i], impulse);
      var w := vs[i := down];
      SumUpdate(vs, i, down);
      assert Sum(w) == Add(total, Sub(down, vs[i]));
      assert w[i + 1] == vs[i + 1];
      SumUpdate(w, i + 1, up);
      assert Sum(w[i + 1 := up]) == Add(Add(total, Sub(down, vs[i])), Sub(up, vs[i + 1]));
      assert Restored(vs, i, impulse) == w[i + 1 := up];
    }
  }

  /** Momentum of the thrust: the sum grows by the whole propulsion force
      times the factor. */
  lemma ThrustMomentum(vs: seq<Vec>, i: nat, push: Vec)
    requires i + 1 < |vs|
    ensures Sum(Thrust(vs, i, push)) == Add(Sum(vs), Scale(push, PushFactor(i)))
  {
    ThrustShares(vs, i, push);
    TwoNudges(vs, i, Scale(push, PushFactor(i) * 0.3), Scale(push, PushFactor(i) * 0.7));
    SplitSums(push, PushFactor(i));
  }

  /** Nudging two neighbours moves the sum by both nudges. */
  lemma TwoNudges(vs: seq<Vec>, i: nat, a: Vec, b: Vec)
    requires i + 1 < |vs|
    ensures Sum(Nudge(Nudge(vs, i, a), i + 1, b)) == Add(Sum(vs), Add(a, b))
  {
    NudgeMomentum(vs, i, a);
    NudgeMomentum(Nudge(vs, i, a), i + 1, b);
    AddAssoc(Sum(vs), a, b);
  }

  /** The thrust is two nudges, 0.3 and 0.7 of the force times the factor. */
  lemma ThrustShares(vs: seq<Vec>, i: nat, push: Vec)
    requires i + 1 < |vs|
    ensures Thrust(vs, i, push) == Nudge(Nudge(vs, i, Scale(push, PushFactor(i) * 0.3)), i + 1, Scale(push, PushFactor(i) * 0.7))
    ensures Sum(Thrust(vs, i, push)) == Sum(Nudge(Nudge(vs, i, Scale(push, PushFactor(i) * 0.3)), i + 1, Scale(push, PushFactor(i) * 0.7)))
  {
  }

  /** One nudge moves the sum by exactly the nudge. */
  lemma NudgeMomentum(vs: seq<Vec>, k: nat, d: Vec)
    requires k < |vs|
    ensures Sum(Nudge(vs, k, d)) == Add(Sum(vs), d)
  {
    SumUpdate(vs, k, Add(vs[k], d));
    assert Sub(Add(vs[k], d), vs[k]) == d;
  }

  /** Momentum of one pass: the sum of the velocities grows by the impulse
      when the pass is over segment 0 and by the whole thrust times the
      factor when the segment propels; otherwise it is conserved. */
  lemma PassMomentum(ps: seq<Vec>, vs: seq<Vec>, targets: seq<real>, i: nat, moving: bool, dir: Vec,
                     strength: real, restore: real, dt: real, m: Maths)
    requires |ps| == Points && |vs| == Points && |targets| == Segments && i < Segments
    requires m.mag(Sub(ps[i + 1], ps[i])) > 0.0
    ensures Sum(Pass(ps, vs, targets, i, moving, dir, strength, restore, dt, m))
         == Add(Add(Sum(vs), if i == 0 then Impulse(ps, targets, i, restore, dt, m) else Zero),
                if Propels(ps, targets, i, moving, m)
                then Scale(Push(ps, targets, i, dir, strength, dt, m), PushFactor(i)) else Zero)
  {
    var impulse := Impulse(ps, targets, i, restore, dt, m);
    RestoredMomentum(vs, i, impulse);
    if Propels(ps, targets, i, moving, m) {
      ThrustMomentum(Restored(vs, i, impulse), i, Push(ps, targets, i, dir, strength, dt, m));
    }
  }

  lemma AddAssoc(t: Vec, a: Vec, b: Vec)
    ensures Add(Add(t, a), b) == Add(t, Add(a, b))
  {
  }

  /** The 0.3 / 0.7 split hands out the whole thrust. */
  lemma SplitSums(push: Vec, f: real)
    ensures Add(Scale(push, f * 0.3), Scale(push, f * 0.7)) == Scale(push, f)
  {
    assert push.x * (f * 0.3) + push.x * (f * 0.7) == push.x * f;
    assert push.y * (f * 0.3) + push.y * (f * 0.7) == push.y * f;
  }

  /** The restoring term never changes the head's velocity: without thrust,
      no number of passes moves velocities[0]. */
  lemma {:induction false} PassesSpareHead(ps: seq<Vec>, vs: seq<Vec>, targets: seq<real>, n: nat, dir: Vec,
                                          strength: real, restore: real, dt: real, m: Maths)
    requires |ps| == Points && |vs| == Points && |targets| == Segments && n <= Segments
    ensures Passes(ps, vs, targets, n, false, dir, strength, restore, dt, m)[0] == vs[0]
  {
    if n > 0 {
      PassesSpareHead(ps, vs, targets, n - 1, dir, strength, restore, dt, m);
    }
  }

  /** The head lead touches only points 0, 1 and 2, with weights 1,
      headDirectionInfluence * 2/3 and headDirectionInfluence * 1/3, and
      nothing while not moving. */
  lemma HeadLeadWeights(vs: seq<Vec>, moving: bool, dir: Vec, headForce: real, headInfluence: real, dt: real)
    requires |vs| == Points
    ensures var r := HeadLead(vs, moving, dir, headForce, headInfluence, dt);
      var lead := Scale(Scale(dir, headForce), dt);
      && (!moving ==> r == vs)
      && (moving ==> r[0] == Add(vs[0], lead))
      && (moving ==> r[1] == Add(vs[1], Scale(lead, headInfluence * (2.0 / 3.0))))
      && (moving ==> r[2] == Add(vs[2], Scale(lead, headInfluence * (1.0 / 3.0))))
      && (forall k :: 3 <= k < Points ==> r[k] == vs[k])
  {
    assert Influence(headInfluence, 1) == headInfluence * (2.0 / 3.0);
    assert Influence(headInfluence, 2) == headInfluence * (1.0 / 3.0);
  }

  /** A segment at its target length gives no impulse. */
  lemma PassAtTarget(ps: seq<Vec>, vs: seq<Vec>, targets: seq<real>, i: nat, dir: Vec,
                     strength: real, restore: real, dt: real, m: Maths)
    requires |ps| == Points && |vs| == Points && |targets| == Segments && i < Segments
    requires m.mag(Sub(ps[i + 1], ps[i])) == targets[i]
    ensures Pass(ps, vs, targets, i, false, dir, strength, restore, dt, m) == vs
  {
    if m.mag(Sub(ps[i + 1], ps[i])) > 0.0 {
      var impulse := Impulse(ps, targets, i, restore, dt, m);
      assert impulse == Zero;
      var v := if i > 0 then vs[i := Sub(vs[i], impulse)] else vs;
      assert v == vs;
      assert vs[i + 1 := Add(vs[i + 1], impulse)] == vs;
    }
  }

  /** With every segment at its target length and no movement, the passes
      change no velocity. */
  lemma {:induction false} PassesAtTarget(ps: seq<Vec>, vs: seq<Vec>, targets: seq<real>, n: nat, dir: Vec,
                                         strength: real, restore: real, dt: real, m: Maths)
    requires |ps| == Points && |vs| == Points && |targets| == Segments && n <= Segments
    requires forall i :: 0 <= i < Segments ==> m.mag(Sub(ps[i + 1], ps[i])) == targets[i]
    ensures Passes(ps, vs, targets, n, false, dir, strength, restore, dt, m) == vs
  {
    if n > 0 {
      PassesAtTarget(ps, vs, targets, n - 1, dir, strength, restore, dt, m);
      PassAtTarget(ps, vs, targets, n - 1, dir, strength, restore, dt, m);
    }
  }

  /** With every segment at its target length and no movement, the whole
      constraint pass changes no velocity. */
  lemma QuietAtTarget(ps: seq<Vec>, vs: seq<Vec>, targets: seq<real>, dir: Vec, strength: real, restore: real,
                      headForce: real, headInfluence: real, dt: real, m: Maths)
    requires |ps| == Points && |vs| == Points && |targets| == Segments
    requires forall i :: 0 <= i < Segments ==> m.mag(Sub(ps[i + 1], ps[i])) == targets[i]
    ensures Constrained(ps, vs, targets, false, dir, strength, restore, headForce, headInfluence, dt, m) == vs
  {
    PassesAtTarget(ps, vs, targets, Segments, dir, strength, restore, dt, m);
  }

  /** Rest is a fixed point: from the straight layout with every velocity
      zero and targets at the natural length |len|, a frame without movement
      leaves every velocity zero and every point where it is. */
  lemma RestIsFixedPoint(origin: Vec, len: real, dir: Vec, strength: real, restore: real,
                         headForce: real, headInfluence: real, dt: real, dampening: real, m: Maths)
    requires Lawful(m)
    ensures var v := Constrained(Layout(origin, len), Fill(Points, Zero), Fill(Segments, Abs(len)), false,
                                 dir, strength, restore, headForce, headInfluence, dt, m);
      && v == Fill(Points, Zero)
      && Advance(Layout(origin, len), v, dt) == Layout(origin, len)
      && Damp(v, dampening) == Fill(Points, Zero)
  {
    var ps := Layout(origin, len);
    var ts := Fill(Segments, Abs(len));
    var zs := Fill(Points, Zero);
    LayoutLengths(origin, len, m);
    assert forall i :: 0 <= i < Segments ==> m.mag(Sub(ps[i + 1], ps[i])) == ts[i];
    QuietAtTarget(ps, zs, ts, dir, strength, restore, headForce, headInfluence, dt, m);
    AdvanceAtRest(ps, dt, dampening);
  }

  /** The Larva3 component. Fields keep the source's names (without the
      leading underscore); `position` is the x and y of transform.position. */
  class Larva3 {
    var points: array<Vec>
    var segmentLength: real
    var bodyWidth: real
    var contractionStrength: real
    var waveSpeed: real
    var dampening: real
    var restoreForce: real
    var headForwardForce: real
    var headDirectionInfluence: real
    var isMoving: bool
    var targetDirection: Vec
    const naturalLengths: array<real>
    const segmentTargetLengths: array<real>
    const velocities: array<Vec>
    var movementPhase: real
    var position: Vec

    /** Fixed sizes: 5 points and velocities, 4 natural and target lengths. */
    ghost predicate Valid()
      reads this
    {
      && points.Length == Points && velocities.Length == Points
      && naturalLengths.Length == Segments && segmentTargetLengths.Length == Segments
      && points != velocities && naturalLengths != segmentTargetLengths
    }

    /** The field initialisers, for a component placed at `position`. */
    constructor (position: Vec)
      ensures Valid() && fresh(points) && fresh(velocities)
      ensures fresh(naturalLengths) && fresh(segmentTargetLengths)
      ensures this.position == position
      ensures segmentLength == 1.0 && bodyWidth == 0.3 && contractionStrength == 2.0 && waveSpeed == 3.0
      ensures dampening == 0.9 && restoreForce == 5.0 && headForwardForce == 3.0 && headDirectionInfluence == 0.8
      ensures !isMoving && targetDirection == Right && movementPhase == 0.0
      ensures points[..] == Fill(Points, Zero) && velocities[..] == Fill(Points, Zero)
      ensures naturalLengths[..] == Fill(Segments, 0.0) && segmentTargetLengths[..] == Fill(Segments, 0.0)
    {
      points := new Vec[Points](_ => Zero);
      segmentLength := 1.0;
      bodyWidth := 0.3;
      contractionStrength := 2.0;
      waveSpeed := 3.0;
      dampening := 0.9;
      restoreForce := 5.0;
      headForwardForce := 3.0;
      headDirectionInfluence := 0.8;
      isMoving := false;
      targetDirection := Right;
      naturalLengths := new real[Segments](_ => 0.0);
      segmentTargetLengths := new real[Segments](_ => 0.0);
      velocities := new Vec[Points](_ => Zero);
      movementPhase := 0.0;
      this.position := position;
    }

    /** InitializeLarva: the straight layout from the component's position,
        natural and target lengths |segmentLength|, velocities zero. */
    method InitializeLarva(m: Maths)
      requires Valid() && Lawful(m)
      modifies points, naturalLengths, segmentTargetLengths, velocities
      ensures points[..] == Layout(position, segmentLength)
      ensures naturalLengths[..] == Fill(Segments, Abs(segmentLength))
      ensures segmentTargetLengths[..] == naturalLengths[..]
      ensures velocities[..] == Fill(Points, Zero)
    {
      LayOut(points, naturalLengths, segmentTargetLengths, velocities, position, segmentLength, m);
    }

    /** UpdateMovementWave: the phase advances by waveSpeed * dt and every
        target length is reshaped by the wave at the new phase. */
    method UpdateMovementWave(dt: real, m: Maths)
      requires Valid() && Lawful(m)
      modifies this`movementPhase, segmentTargetLengths
      ensures movementPhase == old(movementPhase) + waveSpeed * dt
      ensures segmentTargetLengths[..] == WaveTargets(movementPhase, naturalLengths[..], m)
    {
      movementPhase := movementPhase + waveSpeed * dt;
      ShapeWave(segmentTargetLengths, naturalLengths, movementPhase, m);
    }

    /** ApplySegmentConstraints: the four passes in order, then the head lead.
        Only velocities change. */
    method ApplySegmentConstraints(dt: real, m: Maths)
      requires Valid()
      modifies velocities
      ensures velocities[..] == Constrained(points[..], old(velocities[..]), segmentTargetLengths[..],
        isMoving, targetDirection, contractionStrength, restoreForce, headForwardForce,
        headDirectionInfluence, dt, m)
    {
      ghost var ps, vs, ts := points[..], velocities[..], segmentTargetLengths[..];
      for i := 0 to points.Length - 1
        invariant velocities[..] == Passes(ps, vs, ts, i, isMoving, targetDirection, contractionStrength,
          restoreForce, dt, m)
      {
        ConstrainSegment(i, dt, m);
      }
      LeadHead(dt);
    }

    /** The head lead of ApplySegmentConstraints: while moving, points[0]
        gets targetDirection * headForwardForce * dt and points[1] and
        points[2] a share of it. */
    method LeadHead(dt: real)
      requires Valid()
      modifies velocities
      ensures velocities[..] == HeadLead(old(velocities[..]), isMoving, targetDirection, headForwardForce,
        headDirectionInfluence, dt)
    {
      ghost var vs := velocities[..];
      if isMoving {
        var headForwardVelocity := Scale(Scale(targetDirection, headForwardForce), dt);
        velocities[0] := Add(velocities[0], headForwardVelocity);
        for i := 1 to MinInt(3, points.Length)
          invariant velocities[0] == Add(vs[0], headForwardVelocity)
          invariant forall k :: 1 <= k < i ==>
            velocities[k] == Add(vs[k], Scale(headForwardVelocity, Influence(headDirectionInfluence, k)))
          invariant forall k :: i <= k < Points ==> velocities[k] == vs[k]
        {
          var influence := headDirectionInfluence * (1.0 - i as real / 3.0);
          velocities[i] := Add(velocities[i], Scale(headForwardVelocity, influence));
        }
      }
      assert velocities[..] == HeadLead(vs, isMoving, targetDirection, headForwardForce,
        headDirectionInfluence, dt);
    }

    /** One pass of the constraint loop over segment i. */
    method ConstrainSegment(i: nat, dt: real, m: Maths)
      requires Valid() && i < Segments
      modifies velocities
      ensures velocities[..] == Pass(points[..], old(velocities[..]), segmentTargetLengths[..], i, isMoving,
        targetDirection, contractionStrength, restoreForce, dt, m)
    {
      ghost var ps, ts, vs := points[..], segmentTargetLengths[..], velocities[..];
      var segment := Sub(points[i + 1], points[i]);
      var currentLength := m.mag(segment);
      var targetLength := segmentTargetLengths[i];
      if !(currentLength > 0.0) {
        return;
      }
      var segmentDir := m.normalize(segment);
      var lengthDiff := targetLength - currentLength;
      var correction := Scale(segmentDir, lengthDiff * 0.5);
      var restoring := Scale(correction, restoreForce * dt);
      var propels := isMoving && lengthDiff < 0.0;
      var propulsionForce := Scale(targetDirection, contractionStrength * Abs(lengthDiff) * dt);
      var propulsionFactor := (i + 1) as real / (points.Length - 1) as real;
      assert restoring == Impulse(ps, ts, i, restoreForce, dt, m);
      assert propulsionForce == Push(ps, ts, i, targetDirection, contractionStrength, dt, m);
      if i > 0 {
        velocities[i] := Sub(velocities[i], restoring);
      }
      velocities[i + 1] := Add(velocities[i + 1], restoring);
      assert velocities[..] == Restored(vs, i, restoring);
      if propels {
        ghost var restored := velocities[..];
        velocities[i] := Add(velocities[i], Scale(propulsionForce, propulsionFactor * 0.3));
        velocities[i + 1] := Add(velocities[i + 1], Scale(propulsionForce, propulsionFactor * 0.7));
        assert velocities[..] == Thrust(restored, i, propulsionForce);
      }
    }

    /** UpdatePositions: integrate, damp, and move the component to the centroid. */
    method UpdatePositions(dt: real)
      requires Valid()
      modifies points, velocities, this`position
      ensures points[..] == Advance(old(points[..]), old(velocities[..]), dt)
      ensures velocities[..] == Damp(old(velocities[..]), dampening)
      ensures position == Centroid(points[..])
    {
      Integrate(points, velocities, dt, dampening);
      var center := GetCenter();
      position := center;
    }

    /** GetCenter: the mean of the five points. */
    method GetCenter() returns (center: Vec)
      requires Valid()
      ensures center == Centroid(points[..])
    {
      center := CenterOf(points);
    }

    /** Update: the wave only while moving, then the constraints, then the
        integration, in that order. */
    method Tick(dt: real, m: Maths)
      requires Valid() && Lawful(m)
      modifies this`movementPhase, segmentTargetLengths, points, velocities, this`position
      ensures isMoving ==> movementPhase == old(movementPhase) + old(waveSpeed) * dt
      ensures isMoving ==> segmentTargetLengths[..] == WaveTargets(movementPhase, naturalLengths[..], m)
      ensures !isMoving ==> movementPhase == old(movementPhase)
      ensures !isMoving ==> segmentTargetLengths[..] == old(segmentTargetLengths[..])
      ensures var v := Constrained(old(points[..]), old(velocities[..]), segmentTargetLengths[..], isMoving,
                                   targetDirection, contractionStrength, restoreForce, headForwardForce,
                                   headDirectionInfluence, dt, m);
        && points[..] == Advance(old(points[..]), v, dt)
        && velocities[..] == Damp(v, dampening)
      ensures position == Centroid(points[..])
    {
      if isMoving {
        UpdateMovementWave(dt, m);
      }
      ghost var phase := movementPhase;
      assert isMoving ==> phase == old(movementPhase) + old(waveSpeed) * dt;
      ghost var ts, ns := segmentTargetLengths[..], naturalLengths[..];
      ApplySegmentConstraints(dt, m);
      UpdatePositions(dt);
      assert segmentTargetLengths[..] == ts && naturalLengths[..] == ns;
      assert movementPhase == phase;
    }

    /** StartMoving: set isMoving and store the normalized direction. */
    method StartMoving(direction: Vec, m: Maths)
      modifies this`isMoving, this`targetDirection
      ensures isMoving && targetDirection == m.normalize(direction)
    {
      isMoving := true;
      targetDirection := m.normalize(direction);
    }

    /** StopMoving: clear isMoving and restart the wave phase at 0. */
    method StopMoving()
      modifies this`isMoving, this`movementPhase
      ensures !isMoving && movementPhase == 0.0
    {
      isMoving := false;
      movementPhase := 0.0;
    }

    /** SetMovementDirection: store the normalized direction, nothing else. */
    method SetMovementDirection(direction: Vec, m: Maths)
      modifies this`targetDirection
      ensures targetDirection == m.normalize(direction)
    {
      targetDirection := m.normalize(direction);
    }
  }
}
