/** The point chain every larva variant shares: five points (index 0 is the
    head, 4 the tail) joined by four segments, the straight layout that
    InitializeLarva gives it, the half-correction toward a target position,
    explicit Euler integration with damping, and the centroid. */
module Chain {
  import opened Vectors

  const Points: nat := 5
  const Segments: nat := 4

  /** n copies of x. */
  function Fill<T>(n: nat, x: T): seq<T> { seq(n, _ => x) }

  /** Point i sits at origin + (i * len, 0). */
  function Layout(origin: Vec, len: real): seq<Vec>
  {
    seq(Points, i => LaidAt(origin, len, i))
  }

  /** Where the layout puts point i. */
  function LaidAt(origin: Vec, len: real, i: int): Vec
  {
    Add(origin, Vec(i as real * len, 0.0))
  }

  /** Point i of the layout, coordinate by coordinate. */
  lemma LayoutAt(origin: Vec, len: real, i: nat)
    requires i < Points
    ensures |Layout(origin, len)| == Points
    ensures Layout(origin, len)[i] == Vec(origin.x + i as real * len, origin.y)
  {
    assert Layout(origin, len)[i] == LaidAt(origin, len, i);
  }

  /** Consecutive layout points are exactly (len, 0) apart. */
  lemma LayoutStep(origin: Vec, len: real, i: nat)
    requires i < Segments
    ensures |Layout(origin, len)| == Points
    ensures Sub(Layout(origin, len)[i + 1], Layout(origin, len)[i]) == Vec(len, 0.0)
    ensures Sub(Layout(origin, len)[i], Layout(origin, len)[i + 1]) == Vec(-len, 0.0)
  {
    LayoutAt(origin, len, i);
    LayoutAt(origin, len, i + 1);
    assert (i + 1) as real * len == i as real * len + len;
  }

  /** Every segment of the layout has length |len|, under a lawful magnitude. */
  lemma LayoutLengths(origin: Vec, len: real, m: Maths)
    requires Lawful(m)
    ensures forall i :: 0 <= i < Segments ==>
      m.mag(Sub(Layout(origin, len)[i], Layout(origin, len)[i + 1])) == Abs(len)
    ensures forall i :: 0 <= i < Segments ==>
      m.mag(Sub(Layout(origin, len)[i + 1], Layout(origin, len)[i])) == Abs(len)
  {
    forall i | 0 <= i < Segments
      ensures m.mag(Sub(Layout(origin, len)[i], Layout(origin, len)[i + 1])) == Abs(len)
      ensures m.mag(Sub(Layout(origin, len)[i + 1], Layout(origin, len)[i])) == Abs(len)
    {
      LayoutStep(origin, len, i);
      assert Abs(-len) == Abs(len);
    }
  }

  /** Vector sum, accumulated front to back as `center += t` does. */
  function Sum(ps: seq<Vec>): Vec
  {
    if ps == [] then Zero else Add(Sum(ps[..|ps| - 1]), ps[|ps| - 1])
  }

  /** The arithmetic mean of the points: `center / points.Length`. */
  function Centroid(ps: seq<Vec>): Vec
    requires |ps| > 0
  {
    Div(Sum(ps), |ps| as real)
  }

  /** For a chain, the centroid is the five coordinates added up and divided by 5. */
  lemma CentroidOfFive(ps: seq<Vec>)
    requires |ps| == Points
    ensures Centroid(ps) == Vec((ps[0].x + ps[1].x + ps[2].x + ps[3].x + ps[4].x) / 5.0,
                                (ps[0].y + ps[1].y + ps[2].y + ps[3].y + ps[4].y) / 5.0)
  {
    assert ps[..1][..0] == [];
    assert ps[..2][..1] == ps[..1] && ps[..3][..2] == ps[..2];
    assert ps[..4][..3] == ps[..3] && ps[..5][..4] == ps[..4] && ps[..5] == ps;
    assert Sum(ps[..1]) == ps[0];
    assert Sum(ps[..2]) == Add(ps[0], ps[1]);
    assert Sum(ps[..3]) == Add(Add(ps[0], ps[1]), ps[2]);
    assert Sum(ps[..4]) == Add(Add(Add(ps[0], ps[1]), ps[2]), ps[3]);
  }

  /** The straight layout is centred two segment lengths behind the origin. */
  lemma CentroidOfLayout(origin: Vec, len: real)
    ensures Centroid(Layout(origin, len)) == Add(origin, Vec(2.0 * len, 0.0))
  {
    var ps := Layout(origin, len);
    CentroidOfFive(ps);
    LayoutAt(origin, len, 0);
    LayoutAt(origin, len, 1);
    LayoutAt(origin, len, 2);
    LayoutAt(origin, len, 3);
    LayoutAt(origin, len, 4);
  }

  /** Changing one element changes the sum by the difference. */
  lemma {:induction false} SumUpdate(vs: seq<Vec>, k: nat, v: Vec)
    requires k < |vs|
    ensures Sum(vs[k := v]) == Add(Sum(vs), Sub(v, vs[k]))
    decreases |vs|
  {
    var n := |vs| - 1;
    var ws := vs[k := v];
    assert ws[..n] == if k < n then vs[..n][k := v] else vs[..n];
    if k < n {
      SumUpdate(vs[..n], k, v);
    }
  }

  /** `points[i] += velocities[i] * dt` for every point. */
  function Advance(ps: seq<Vec>, vs: seq<Vec>, dt: real): seq<Vec>
    requires |ps| == |vs|
  {
    seq(|ps|, i requires 0 <= i < |ps| => Add(ps[i], Scale(vs[i], dt)))
  }

  /** `velocities[i] *= dampening` for every point. */
  function Damp(vs: seq<Vec>, dampening: real): seq<Vec>
  {
    seq(|vs|, i requires 0 <= i < |vs| => Scale(vs[i], dampening))
  }

  /** Integration moves the sum of the points by the sum of the velocities times dt. */
  lemma {:induction false} SumAdvance(ps: seq<Vec>, vs: seq<Vec>, dt: real)
    requires |ps| == |vs|
    ensures Sum(Advance(ps, vs, dt)) == Add(Sum(ps), Scale(Sum(vs), dt))
    decreases |ps|
  {
    if ps != [] {
      var n := |ps| - 1;
      assert Advance(ps, vs, dt)[..n] == Advance(ps[..n], vs[..n], dt);
      SumAdvance(ps[..n], vs[..n], dt);
    }
  }

  /** Damping scales the total velocity by the damping factor. */
  lemma {:induction false} SumDamp(vs: seq<Vec>, dampening: real)
    ensures Sum(Damp(vs, dampening)) == Scale(Sum(vs), dampening)
    decreases |vs|
  {
    if vs != [] {
      var n := |vs| - 1;
      assert Damp(vs, dampening)[..n] == Damp(vs[..n], dampening);
      SumDamp(vs[..n], dampening);
    }
  }

  /** One integration step moves the centroid by the mean velocity times dt. */
  lemma CentroidAdvance(ps: seq<Vec>, vs: seq<Vec>, dt: real)
    requires |ps| == |vs| > 0
    ensures Centroid(Advance(ps, vs, dt)) == Add(Centroid(ps), Scale(Centroid(vs), dt))
  {
    SumAdvance(ps, vs, dt);
    var n := |ps| as real;
    var a, b := Sum(ps), Sum(vs);
    assert Centroid(Advance(ps, vs, dt)) == Div(Add(a, Scale(b, dt)), n);
    DivSplit(a, b, dt, n);
  }

  lemma DivSplit(a: Vec, b: Vec, dt: real, n: real)
    requires n > 0.0
    ensures Div(Add(a, Scale(b, dt)), n) == Add(Div(a, n), Scale(Div(b, n), dt))
  {
    DivSplitReal(a.x, b.x, dt, n);
    DivSplitReal(a.y, b.y, dt, n);
  }

  lemma DivSplitReal(a: real, b: real, dt: real, n: real)
    requires n > 0.0
    ensures (a + b * dt) / n == a / n + b / n * dt
  {
    var q, r := a / n, b / n;
    assert a == q * n && b == r * n;
    assert a + b * dt == (q + r * dt) * n;
  }

  /** With every velocity zero, integration leaves every point where it is,
      and damping keeps every velocity zero. */
  lemma AdvanceAtRest(ps: seq<Vec>, dt: real, damping: real)
    ensures Advance(ps, Fill(|ps|, Zero), dt) == ps
    ensures Damp(Fill(|ps|, Zero), damping) == Fill(|ps|, Zero)
  {
  }

  /** The half-correction: half the way from `cur` to the point `target` away
      from `prev` along the segment, shifted by `reach`. */
  function Correction(prev: Vec, cur: Vec, target: real, reach: Vec, m: Maths): Vec
    requires m.mag(Sub(cur, prev)) != 0.0
  {
    var direction := Sub(cur, prev);
    var normalized := Div(direction, m.mag(direction));
    var targetPosition := Add(Add(prev, Scale(normalized, target)), reach);
    Scale(Sub(targetPosition, cur), 0.5)
  }

  /** The half-correction lies along the segment, pushing `cur` outward when
      the segment is shorter than `target` and inward when it is longer,
      plus half the reach. */
  lemma CorrectionAlongSegment(prev: Vec, cur: Vec, target: real, reach: Vec, m: Maths)
    requires m.mag(Sub(cur, prev)) != 0.0
    ensures var d := m.mag(Sub(cur, prev));
      Correction(prev, cur, target, reach, m)
        == Add(Scale(Sub(cur, prev), (target - d) / (2.0 * d)), Scale(reach, 0.5))
  {
    var direction := Sub(cur, prev);
    var d := m.mag(direction);
    var k := (target - d) / (2.0 * d);
    assert (direction.x / d * target - direction.x) * 0.5 == direction.x * k;
    assert (direction.y / d * target - direction.y) * 0.5 == direction.y * k;
  }

  /** A segment already at its target length, with no reach, needs no correction. */
  lemma CorrectionAtTarget(prev: Vec, cur: Vec, m: Maths)
    requires m.mag(Sub(cur, prev)) != 0.0
    ensures Correction(prev, cur, m.mag(Sub(cur, prev)), Zero, m) == Zero
  {
    CorrectionAlongSegment(prev, cur, m.mag(Sub(cur, prev)), Zero, m);
  }

  /** InitializeLarva: lay the points out in a straight line from `origin`,
      record every segment's length as both natural and target length, and
      zero every velocity. */
  method LayOut(points: array<Vec>, natural: array<real>, targets: array<real>,
                velocities: array<Vec>, origin: Vec, len: real, m: Maths)
    requires points.Length == Points && velocities.Length == Points
    requires natural.Length == Segments && targets.Length == Segments
    requires points != velocities && natural != targets
    requires Lawful(m)
    modifies points, natural, targets, velocities
    ensures points[..] == Layout(origin, len)
    ensures natural[..] == Fill(Segments, Abs(len)) && targets[..] == natural[..]
    ensures velocities[..] == Fill(Points, Zero)
  {
    LayPoints(points, origin, len);
    MeasureSegments(points, natural, targets, origin, len, m);
    for i := 0 to velocities.Length
      modifies velocities
      invariant forall k :: 0 <= k < i ==> velocities[k] == Zero
    {
      velocities[i] := Zero;
    }
  }

  /** The first loop of InitializeLarva: `points[i] = position + (i * L, 0)`. */
  method LayPoints(points: array<Vec>, origin: Vec, len: real)
    requires points.Length == Points
    modifies points
    ensures points[..] == Layout(origin, len)
  {
    for i := 0 to points.Length
      invariant forall k :: 0 <= k < i ==> points[k] == LaidAt(origin, len, k)
    {
      points[i] := Add(origin, Vec(i as real * len, 0.0));
    }
  }

  /** The second loop of InitializeLarva: each natural length is the
      measured distance between consecutive points, and each target starts
      equal to it. */
  method MeasureSegments(points: array<Vec>, natural: array<real>, targets: array<real>,
                         ghost origin: Vec, ghost len: real, m: Maths)
    requires points.Length == Points && natural.Length == Segments && targets.Length == Segments
    requires natural != targets && points[..] == Layout(origin, len) && Lawful(m)
    modifies natural, targets
    ensures natural[..] == Fill(Segments, Abs(len)) && targets[..] == natural[..]
  {
    for i := 0 to natural.Length
      invariant forall k :: 0 <= k < i ==> natural[k] == Abs(len) && targets[k] == natural[k]
    {
      LayoutStep(origin, len, i);
      assert Sub(points[i], points[i + 1]) == Vec(-len, 0.0);
      assert Abs(-len) == Abs(len);
      natural[i] := m.mag(Sub(points[i], points[i + 1]));
      targets[i] := natural[i];
    }
  }

  /** UpdatePositions' loop: `points[i] += velocities[i] * dt` followed by
      `velocities[i] *= dampening`, for every point. */
  method Integrate(points: array<Vec>, velocities: array<Vec>, dt: real, dampening: real)
    requires points.Length == velocities.Length && points != velocities
    modifies points, velocities
    ensures points[..] == Advance(old(points[..]), old(velocities[..]), dt)
    ensures velocities[..] == Damp(old(velocities[..]), dampening)
  {
    for i := 0 to points.Length
      invariant forall k :: 0 <= k < i ==>
        points[k] == Add(old(points[k]), Scale(old(velocities[k]), dt))
        && velocities[k] == Scale(old(velocities[k]), dampening)
      invariant forall k :: i <= k < points.Length ==>
        points[k] == old(points[k]) && velocities[k] == old(velocities[k])
    {
      points[i] := Add(points[i], Scale(velocities[i], dt));
      velocities[i] := Scale(velocities[i], dampening);
    }
  }

  /** GetCenter: accumulate the points, then divide by their number. */
  method CenterOf(points: array<Vec>) returns (center: Vec)
    requires points.Length > 0
    ensures center == Centroid(points[..])
  {
    center := Zero;
    for i := 0 to points.Length
      invariant center == Sum(points[..i])
    {
      assert points[..i + 1][..i] == points[..i];
      center := Add(center, points[i]);
    }
    assert points[..points.Length] == points[..];
    center := Div(center, points.Length as real);
  }
}
