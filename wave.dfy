/** The peristaltic wave that Larva3 and Larva2 share: each segment follows
    the sine of the movement phase, lagged by 1.2 radians per segment, and
    the sine is shaped asymmetrically before it scales the natural length. */
module Wave {
  import opened Vectors
  import opened Chain

  /** Phase lag between consecutive segments (`i * 1.2f`). */
  const SegmentLag: real := 1.2

  /** The asymmetric shaping of a sine value: a positive value becomes
      `Pow(s, 0.7) * 0.4`, any other value `s * 0.2`. */
  function Contraction(s: real, m: Maths): (c: real)
    requires Lawful(m)
    ensures -1.0 <= s <= 1.0 ==> -0.2 <= c <= 0.4
    ensures -1.0 <= s <= 1.0 ==> (c > 0.0 <==> s > 0.0)
    ensures s <= 0.0 ==> c == s * 0.2
  {
    if s > 0.0 then m.pow07(s) * 0.4 else s * 0.2
  }

  /** Phase of segment i. */
  function SegmentPhase(phase: real, i: nat): real
  {
    phase - i as real * SegmentLag
  }

  /** The target lengths UpdateMovementWave writes: natural length times
      one plus the shaped sine of the segment's phase. */
  function WaveTargets(phase: real, natural: seq<real>, m: Maths): (t: seq<real>)
    requires |natural| == Segments && Lawful(m)
    ensures |t| == Segments
  {
    seq(Segments, i requires 0 <= i < Segments =>
      natural[i] * (1.0 + Contraction(m.sin(SegmentPhase(phase, i)), m)))
  }

  /** Every wave target lies between 0.8 and 1.4 times its natural length. */
  lemma WaveTargetsBounded(phase: real, natural: seq<real>, m: Maths)
    requires |natural| == Segments && Lawful(m)
    requires forall i :: 0 <= i < Segments ==> natural[i] >= 0.0
    ensures forall i :: 0 <= i < Segments ==>
      0.8 * natural[i] <= WaveTargets(phase, natural, m)[i] <= 1.4 * natural[i]
  {
    forall i | 0 <= i < Segments
      ensures 0.8 * natural[i] <= WaveTargets(phase, natural, m)[i] <= 1.4 * natural[i]
    {
      var c := Contraction(m.sin(SegmentPhase(phase, i)), m);
      ScaleWithin(natural[i], c, WaveTargets(phase, natural, m)[i]);
    }
  }

  lemma ScaleWithin(n: real, c: real, t: real)
    requires n >= 0.0 && -0.2 <= c <= 0.4 && t == n * (1.0 + c)
    ensures 0.8 * n <= t <= 1.4 * n
  {
    assert n * (1.0 + c) == n + n * c;
    assert -0.2 * n <= n * c <= 0.4 * n;
  }

  /** The wave travels from head to tail: with equal natural lengths,
      segment i now has the target segment 0 had at a phase 1.2 * i
      earlier. */
  lemma WaveTravels(phase: real, natural: seq<real>, m: Maths, i: nat)
    requires |natural| == Segments && Lawful(m) && i < Segments
    requires forall k :: 0 <= k < Segments ==> natural[k] == natural[0]
    ensures WaveTargets(phase, natural, m)[i]
         == WaveTargets(phase - i as real * SegmentLag, natural, m)[0]
  {
    assert SegmentPhase(phase - i as real * SegmentLag, 0) == SegmentPhase(phase, i);
  }

  /** The loop of UpdateMovementWave shared by Larva3 and Larva2: every
      target length becomes its natural length shaped by the wave at `phase`. */
  method ShapeWave(targets: array<real>, natural: array<real>, phase: real, m: Maths)
    requires targets.Length == Segments && natural.Length == Segments && targets != natural
    requires Lawful(m)
    modifies targets
    ensures targets[..] == WaveTargets(phase, natural[..], m)
  {
    for i := 0 to targets.Length
      invariant forall k :: 0 <= k < i ==> targets[k] == WaveTargets(phase, natural[..], m)[k]
    {
      var segmentPhase := phase - i as real * SegmentLag;
      var contraction := m.sin(segmentPhase);
      if contraction > 0.0 {
        contraction := m.pow07(contraction) * 0.4;
      } else {
        contraction := contraction * 0.2;
      }
      targets[i] := natural[i] * (1.0 + contraction);
    }
  }
}
