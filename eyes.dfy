/** LarvaEyes.cs: the triangle fan of the circle meshes the eyes and pupils
    are drawn with, the eye placement beside the head, the pupils that look
    toward the movement direction, and the blink timer. */
module Eyes {
  import opened Vectors

  /** Mathf.PI */
  const Pi: real := 3.1415927

  /** Triangle i of a fan of s rim vertices: the centre vertex 0, rim vertex
      i + 1, and the next rim vertex, wrapping from s back to 1. */
  function Triangle(s: nat, i: nat): seq<int>
    requires s > 0
  {
    [0, i + 1, (i + 1) % s + 1]
  }

  /** The first n triangles of the fan, in order, as a flat index list. */
  function FanOf(s: nat, n: nat): (r: seq<int>)
    requires n <= s
    ensures |r| == 3 * n
  {
    if n == 0 then [] else FanOf(s, n - 1) + Triangle(s, n - 1)
  }

  /** The counts and the triangle list of a mesh; vertex and uv coordinates
      are not part of this model. */
  datatype Mesh = Mesh(vertexCount: nat, uvCount: nat, triangles: seq<int>)

  /** CreateCircleMesh, index part: one centre vertex and `segments` rim
      vertices, and `segments` triangles fanned around the centre. */
  method CreateCircleMesh(segments: nat) returns (mesh: Mesh)
    ensures mesh.vertexCount == segments + 1 && mesh.uvCount == segments + 1
    ensures mesh.triangles == FanOf(segments, segments)
  {
    var triangles := new int[segments * 3];
    for i := 0 to segments
      invariant triangles[..3 * i] == FanOf(segments, i)
    {
      var triangleIndex := i * 3;
      triangles[triangleIndex] := 0;
      triangles[triangleIndex + 1] := i + 1;
      triangles[triangleIndex + 2] := (i + 1) % segments + 1;
      assert triangles[..3 * i + 3] == triangles[..3 * i] + Triangle(segments, i);
    }
    assert triangles[..] == triangles[..3 * segments];
    mesh := Mesh(segments + 1, segments + 1, triangles[..]);
  }

  /** Entry c of triangle i sits at index 3 * i + c of the list. */
  lemma {:induction false} FanAt(s: nat, n: nat, i: nat, c: nat)
    requires n <= s && i < n && c < 3
    ensures FanOf(s, n)[3 * i + c] == Triangle(s, i)[c]
  {
    if i < n - 1 {
      FanAt(s, n - 1, i, c);
    }
  }

  /** Triangle i of the mesh is (0, i + 1, (i + 1) mod s + 1): the centre
      comes first, and the last triangle closes the fan at rim vertex 1. */
  lemma FanTriangles(s: nat)
    ensures |FanOf(s, s)| == 3 * s
    ensures forall i :: 0 <= i < s ==>
      FanOf(s, s)[3 * i] == 0 && FanOf(s, s)[3 * i + 1] == i + 1 && FanOf(s, s)[3 * i + 2] == (i + 1) % s + 1
    ensures s > 0 ==> FanOf(s, s)[3 * (s - 1) + 2] == 1
  {
    forall i | 0 <= i < s
      ensures FanOf(s, s)[3 * i] == 0 && FanOf(s, s)[3 * i + 1] == i + 1
      ensures FanOf(s, s)[3 * i + 2] == (i + 1) % s + 1
    {
      FanAt(s, s, i, 0);
      FanAt(s, s, i, 1);
      FanAt(s, s, i, 2);
    }
  }

  /** Every index of the mesh names one of its s + 1 vertices. */
  lemma FanBounds(s: nat)
    ensures forall j :: 0 <= j < |FanOf(s, s)| ==> 0 <= FanOf(s, s)[j] <= s
  {
    forall j | 0 <= j < |FanOf(s, s)|
      ensures 0 <= FanOf(s, s)[j] <= s
    {
      var i, c := j / 3, j % 3;
      assert j == 3 * i + c;
      FanAt(s, s, i, c);
    }
  }

  /** The rim index that follows i, wrapping, is v exactly for one i: the
      one before v, or the last one when v is 1. */
  lemma WrapIndex(s: nat, i: nat, v: nat)
    requires i < s && 1 <= v <= s
    ensures (i + 1) % s + 1 == v <==> i == Before(s, v)
  {
    if i + 1 < s {
      ModSmall(i + 1, s);
    } else {
      assert i + 1 == s;
      ModSelf(s);
    }
  }

  /** The triangle whose third index is rim vertex v. */
  function Before(s: nat, v: nat): nat
    requires 1 <= v <= s
  {
    if v == 1 then s - 1 else v - 2
  }

  lemma ModSmall(a: nat, s: nat)
    requires a < s
    ensures a % s == a
  {
  }

  lemma ModSelf(s: nat)
    requires s > 0
    ensures s % s == 0
  {
  }

  /** Rim vertex v is the second index of exactly one triangle (the
      v - 1-th) and the third index of exactly one (the one before it,
      cyclically). */
  lemma FanRimOnce(s: nat, v: nat)
    requires 1 <= v <= s
    ensures forall i :: 0 <= i < s ==> (FanOf(s, s)[3 * i + 1] == v <==> i == v - 1)
    ensures forall i :: 0 <= i < s ==> (FanOf(s, s)[3 * i + 2] == v <==> i == Before(s, v))
  {
    forall i | 0 <= i < s
      ensures FanOf(s, s)[3 * i + 1] == v <==> i == v - 1
      ensures FanOf(s, s)[3 * i + 2] == v <==> i == Before(s, v)
    {
      FanAt(s, s, i, 1);
      FanAt(s, s, i, 2);
      WrapIndex(s, i, v);
    }
  }

  /** Mathf.Clamp01 */
  function Clamp01(t: real): (r: real)
    ensures 0.0 <= r <= 1.0
    ensures 0.0 <= t <= 1.0 ==> r == t
  {
    if t < 0.0 then 0.0 else if t > 1.0 then 1.0 else t
  }

  /** Mathf.Lerp: from a toward b by t, clamped to [0, 1]. */
  function Lerp(a: real, b: real, t: real): (r: real)
    ensures Min(a, b) <= r <= Max(a, b)
    ensures t <= 0.0 ==> r == a
    ensures t >= 1.0 ==> r == b
  {
    var k := Clamp01(t);
    LerpBetween(a, b, k);
    a + (b - a) * k
  }

  lemma LerpBetween(a: real, b: real, k: real)
    requires 0.0 <= k <= 1.0
    ensures Min(a, b) <= a + (b - a) * k <= Max(a, b)
  {
    var w := if a <= b then b - a else a - b;
    assert w * k >= 0.0 && w * (1.0 - k) >= 0.0;
    assert w * k + w * (1.0 - k) == w;
  }

  /** Random.Range(a, b) on floats, with the random source as `roll`, a
      number in [0, 1]: a value between the bounds, in either order. */
  function RandomRange(a: real, b: real, roll: real): (r: real)
    requires 0.0 <= roll <= 1.0
    ensures Min(a, b) <= r <= Max(a, b)
    ensures roll == 0.0 ==> r == a
    ensures roll == 1.0 ==> r == b
  {
    LerpBetween(a, b, roll);
    a + (b - a) * roll
  }

  /** Vector2.Lerp: component by component, with the same clamping. */
  function LerpVec(a: Vec, b: Vec, t: real): (r: Vec)
    ensures t <= 0.0 ==> r == a
    ensures t >= 1.0 ==> r == b
  {
    Vec(Lerp(a.x, b.x, t), Lerp(a.y, b.y, t))
  }

  /** The eyes' vertical scale during a blink: from 1 down to 0.1 and back
      as the sine of progress * pi rises and falls. */
  function BlinkScale(progress: real, m: Maths): (r: real)
    ensures 0.1 <= r <= 1.0
  {
    Lerp(1.0, 0.1, m.sin(progress * Pi))
  }

  /** The head direction the eyes face: the unit vector from the second
      point to the head, or Vector2.right for a one-point chain. */
  function HeadDirection(ps: seq<Vec>, m: Maths): Vec
    requires |ps| > 0
  {
    if |ps| > 1 then m.normalize(Sub(ps[0], ps[1])) else Right
  }

  /** The direction turned a quarter to the left. */
  function Perpendicular(d: Vec): Vec
  {
    Vec(-d.y, d.x)
  }

  /** The two eye positions, relative to the component's position. */
  datatype EyePair = EyePair(left: Vec, right: Vec)

  /** Where the eyes go: eyeOffsetFromHead ahead of the head along the head
      direction, then eyeSpacing / 2 to either side. */
  function EyeBase(ps: seq<Vec>, position: Vec, offset: real, m: Maths): Vec
    requires |ps| > 0
  {
    Add(Sub(ps[0], position), Scale(HeadDirection(ps, m), offset))
  }

  function EyePlacement(ps: seq<Vec>, position: Vec, offset: real, spacing: real, m: Maths): (e: EyePair)
    requires |ps| > 0
  {
    var base := EyeBase(ps, position, offset, m);
    var side := Scale(Perpendicular(HeadDirection(ps, m)), spacing * 0.5);
    EyePair(Add(base, side), Sub(base, side))
  }

  /** The eyes are symmetric about the eye base — it is their midpoint — the
      line between them is perpendicular to the head direction, and they are
      eyeSpacing apart when the head direction is a unit vector. */
  lemma EyesSymmetric(ps: seq<Vec>, position: Vec, offset: real, spacing: real, m: Maths)
    requires |ps| > 0
    ensures var e := EyePlacement(ps, position, offset, spacing, m);
      var d := HeadDirection(ps, m);
      && Scale(Add(e.left, e.right), 0.5) == EyeBase(ps, position, offset, m)
      && Dot(Sub(e.left, e.right), d) == 0.0
      && (Dot(d, d) == 1.0 ==> Dot(Sub(e.left, e.right), Sub(e.left, e.right)) == spacing * spacing)
  {
    var d := HeadDirection(ps, m);
    var k := spacing * 0.5;
    var x, y := d.x, d.y;
    var gap := Vec(2.0 * (-y * k), 2.0 * (x * k));
    assert Sub(EyePlacement(ps, position, offset, spacing, m).left,
               EyePlacement(ps, position, offset, spacing, m).right) == gap;
    assert gap.x * x + gap.y * y == 2.0 * k * (x * y - x * y);
    assert gap.x * gap.x + gap.y * gap.y == 4.0 * (k * k) * (x * x + y * y);
  }

  /** The LarvaEyes component. The eye and pupil objects are reduced to
      their local positions and the eyes' vertical scale. */
  class LarvaEyes {
    var eyeSize: real
    var eyeSpacing: real
    var eyeOffsetFromHead: real
    var pupilSize: real
    var pupilMaxOffset: real
    var lookAheadDistance: real
    var eyeRotationSpeed: real
    var enableBlinking: bool
    var blinkInterval: real
    var blinkDuration: real
    var blinkTimer: real
    var currentLookDirection: Vec
    var isBlinking: bool
    var nextBlinkTime: real
    var targetLookDirection: Vec
    var leftEye: Vec
    var rightEye: Vec
    var leftPupil: Vec
    var rightPupil: Vec
    var leftEyeScaleY: real
    var rightEyeScaleY: real

    /** The blink timer runs only during a blink and stays below the
        blink's duration; both eyes always share one scale, between 0.1 and
        1, and are fully open whenever no blink is under way. */
    predicate BlinkValid()
      reads this
    {
      && 0.0 <= blinkTimer
      && (!isBlinking ==> blinkTimer == 0.0 && leftEyeScaleY == 1.0)
      && (isBlinking ==> blinkTimer < blinkDuration)
      && leftEyeScaleY == rightEyeScaleY
      && 0.1 <= leftEyeScaleY <= 1.0
    }

    /** The field initialisers. */
    constructor ()
      ensures eyeSize == 0.15 && eyeSpacing == 0.3 && eyeOffsetFromHead == 0.2
      ensures pupilSize == 0.08 && pupilMaxOffset == 0.04 && lookAheadDistance == 1.0 && eyeRotationSpeed == 5.0
      ensures enableBlinking && blinkInterval == 3.0 && blinkDuration == 0.2
      ensures blinkTimer == 0.0 && !isBlinking && nextBlinkTime == 0.0
      ensures leftEyeScaleY == 1.0 && rightEyeScaleY == 1.0
      ensures BlinkValid()
    {
      eyeSize := 0.15;
      eyeSpacing := 0.3;
      eyeOffsetFromHead := 0.2;
      pupilSize := 0.08;
      pupilMaxOffset := 0.04;
      lookAheadDistance := 1.0;
      eyeRotationSpeed := 5.0;
      enableBlinking := true;
      blinkInterval := 3.0;
      blinkDuration := 0.2;
      blinkTimer := 0.0;
      currentLookDirection := Zero;
      isBlinking := false;
      nextBlinkTime := 0.0;
      targetLookDirection := Zero;
      leftEye, rightEye := Zero, Zero;
      leftPupil, rightPupil := Zero, Zero;
      leftEyeScaleY, rightEyeScaleY := 1.0, 1.0;
    }

    /** Start, without the mesh and object creation: schedule the first
        blink and look to the right. */
    method Start(time: real, roll: real)
      requires 0.0 <= roll <= 1.0
      modifies this`nextBlinkTime, this`currentLookDirection, this`targetLookDirection
      ensures time + Min(blinkInterval * 0.5, blinkInterval * 1.5) <= nextBlinkTime
      ensures nextBlinkTime <= time + Max(blinkInterval * 0.5, blinkInterval * 1.5)
      ensures currentLookDirection == Right && targetLookDirection == Right
    {
      nextBlinkTime := GetNextBlinkTime(time, roll);
      currentLookDirection := Right;
      targetLookDirection := Right;
    }

    /** GetNextBlinkTime: now plus a random delay between half and one and a
        half blink intervals. */
    method GetNextBlinkTime(time: real, roll: real) returns (t: real)
      requires 0.0 <= roll <= 1.0
      ensures time + Min(blinkInterval * 0.5, blinkInterval * 1.5) <= t
      ensures t <= time + Max(blinkInterval * 0.5, blinkInterval * 1.5)
    {
      t := time + RandomRange(blinkInterval * 0.5, blinkInterval * 1.5, roll);
    }

    /** UpdateEyePositions: nothing for an empty chain; otherwise both eyes
        move to their placement beside the head. `ps` are the larva's
        points and `position` its component's position. */
    method UpdateEyePositions(ps: seq<Vec>, position: Vec, m: Maths)
      modifies this`leftEye, this`rightEye
      ensures |ps| == 0 ==> leftEye == old(leftEye) && rightEye == old(rightEye)
      ensures |ps| > 0 ==> EyePair(leftEye, rightEye) == EyePlacement(ps, position, eyeOffsetFromHead, eyeSpacing, m)
    {
      if |ps| == 0 {
        return;
      }
      var headPosition := ps[0];
      var localHeadPosition := Sub(headPosition, position);
      var headDirection := Right;
      if |ps| > 1 {
        headDirection := m.normalize(Sub(ps[0], ps[1]));
      }
      var perpendicular := Vec(-headDirection.y, headDirection.x);
      var eyeBasePosition := Add(localHeadPosition, Scale(headDirection, eyeOffsetFromHead));
      leftEye := Add(eyeBasePosition, Scale(perpendicular, eyeSpacing * 0.5));
      rightEye := Sub(eyeBasePosition, Scale(perpendicular, eyeSpacing * 0.5));
    }

    /** UpdateEyeLookDirection: take the larva's direction as the target,
        turn the current direction toward it by eyeRotationSpeed * dt, and
        give both pupils the same offset along it. */
    method UpdateEyeLookDirection(larvaDirection: Vec, dt: real)
      modifies this`targetLookDirection, this`currentLookDirection, this`leftPupil, this`rightPupil
      ensures targetLookDirection == larvaDirection
      ensures currentLookDirection == LerpVec(old(currentLookDirection), larvaDirection, eyeRotationSpeed * dt)
      ensures leftPupil == rightPupil == Scale(currentLookDirection, pupilMaxOffset)
    {
      targetLookDirection := larvaDirection;
      currentLookDirection := LerpVec(currentLookDirection, targetLookDirection, eyeRotationSpeed * dt);
      var pupilOffset := Scale(currentLookDirection, pupilMaxOffset);
      leftPupil := pupilOffset;
      rightPupil := pupilOffset;
    }

    /** UpdateBlinking: during a blink the timer grows by dt and the eyes
        follow the blink curve until the timer reaches the duration, when the
        blink ends, the timer resets, the next blink is scheduled and the
        eyes open fully; otherwise a blink starts once `time` reaches the
        scheduled time. */
    method UpdateBlinking(dt: real, time: real, roll: real, m: Maths)
      requires isBlinking ==> blinkDuration != 0.0
      requires 0.0 <= roll <= 1.0
      modifies this`blinkTimer, this`isBlinking, this`nextBlinkTime, this`leftEyeScaleY, this`rightEyeScaleY
      ensures old(isBlinking) && old(blinkTimer) + dt >= blinkDuration ==>
        && !isBlinking && blinkTimer == 0.0 && leftEyeScaleY == 1.0 && rightEyeScaleY == 1.0
        && time + Min(blinkInterval * 0.5, blinkInterval * 1.5) <= nextBlinkTime
        && nextBlinkTime <= time + Max(blinkInterval * 0.5, blinkInterval * 1.5)
      ensures old(isBlinking) && old(blinkTimer) + dt < blinkDuration ==>
        && isBlinking && blinkTimer == old(blinkTimer) + dt && nextBlinkTime == old(nextBlinkTime)
        && leftEyeScaleY == rightEyeScaleY == BlinkScale(blinkTimer / blinkDuration, m)
      ensures !old(isBlinking) && time >= old(nextBlinkTime) ==>
        && isBlinking && blinkTimer == 0.0 && nextBlinkTime == old(nextBlinkTime)
        && leftEyeScaleY == old(leftEyeScaleY) && rightEyeScaleY == old(rightEyeScaleY)
      ensures !old(isBlinking) && time < old(nextBlinkTime) ==>
        && !isBlinking && blinkTimer == old(blinkTimer) && nextBlinkTime == old(nextBlinkTime)
        && leftEyeScaleY == old(leftEyeScaleY) && rightEyeScaleY == old(rightEyeScaleY)
      ensures old(BlinkValid()) && dt >= 0.0 && blinkDuration > 0.0 ==> BlinkValid()
    {
      if isBlinking {
        blinkTimer := blinkTimer + dt;
        var blinkProgress := blinkTimer / blinkDuration;
        var scaleY := Lerp(1.0, 0.1, m.sin(blinkProgress * Pi));
        leftEyeScaleY := scaleY;
        rightEyeScaleY := scaleY;
        if !(blinkTimer >= blinkDuration) {
          return;
        }
        isBlinking := false;
        blinkTimer := 0.0;
        nextBlinkTime := GetNextBlinkTime(time, roll);
        leftEyeScaleY := 1.0;
        rightEyeScaleY := 1.0;
      } else if time >= nextBlinkTime {
        isBlinking := true;
        blinkTimer := 0.0;
      }
    }

    /** Update: place the eyes, turn the pupils, and blink if enabled. The
        configuration fields are not written. */
    method Tick(dt: real, time: real, roll: real, ps: seq<Vec>, position: Vec, larvaDirection: Vec, m: Maths)
      requires enableBlinking && isBlinking ==> blinkDuration != 0.0
      requires 0.0 <= roll <= 1.0
      modifies this`leftEye, this`rightEye, this`targetLookDirection, this`currentLookDirection
      modifies this`leftPupil, this`rightPupil
      modifies this`blinkTimer, this`isBlinking, this`nextBlinkTime, this`leftEyeScaleY, this`rightEyeScaleY
      ensures |ps| == 0 ==> leftEye == old(leftEye) && rightEye == old(rightEye)
      ensures |ps| > 0 ==> EyePair(leftEye, rightEye) == EyePlacement(ps, position, eyeOffsetFromHead, eyeSpacing, m)
      ensures targetLookDirection == larvaDirection
      ensures currentLookDirection == LerpVec(old(currentLookDirection), larvaDirection, eyeRotationSpeed * dt)
      ensures leftPupil == rightPupil == Scale(currentLookDirection, pupilMaxOffset)
      ensures old(enableBlinking) && old(isBlinking) && old(blinkTimer) + dt >= blinkDuration ==>
        && !isBlinking && blinkTimer == 0.0 && leftEyeScaleY == 1.0 && rightEyeScaleY == 1.0
        && time + Min(blinkInterval * 0.5, blinkInterval * 1.5) <= nextBlinkTime
        && nextBlinkTime <= time + Max(blinkInterval * 0.5, blinkInterval * 1.5)
      ensures old(enableBlinking) && old(isBlinking) && old(blinkTimer) + dt < blinkDuration ==>
        && isBlinking && blinkTimer == old(blinkTimer) + dt && nextBlinkTime == old(nextBlinkTime)
        && leftEyeScaleY == rightEyeScaleY == BlinkScale(blinkTimer / blinkDuration, m)
      ensures old(enableBlinking) && !old(isBlinking) && time >= old(nextBlinkTime) ==>
        && isBlinking && blinkTimer == 0.0 && nextBlinkTime == old(nextBlinkTime)
        && leftEyeScaleY == old(leftEyeScaleY) && rightEyeScaleY == old(rightEyeScaleY)
      ensures old(enableBlinking) && !old(isBlinking) && time < old(nextBlinkTime) ==>
        && !isBlinking && blinkTimer == old(blinkTimer) && nextBlinkTime == old(nextBlinkTime)
        && leftEyeScaleY == old(leftEyeScaleY) && rightEyeScaleY == old(rightEyeScaleY)
      ensures !old(enableBlinking) ==>
        && isBlinking == old(isBlinking) && blinkTimer == old(blinkTimer) && nextBlinkTime == old(nextBlinkTime)
        && leftEyeScaleY == old(leftEyeScaleY) && rightEyeScaleY == old(rightEyeScaleY)
      ensures old(BlinkValid()) && dt >= 0.0 && blinkDuration > 0.0 ==> BlinkValid()
    {
      UpdateEyePositions(ps, position, m);
      UpdateEyeLookDirection(larvaDirection, dt);
      assert isBlinking == old(isBlinking) && blinkTimer == old(blinkTimer) && nextBlinkTime == old(nextBlinkTime);
      assert leftEyeScaleY == old(leftEyeScaleY) && rightEyeScaleY == old(rightEyeScaleY);
      ghost var eyes, look, pupil := EyePair(leftEye, rightEye), currentLookDirection, leftPupil;
      if enableBlinking {
        UpdateBlinking(dt, time, roll, m);
      }
      assert EyePair(leftEye, rightEye) == eyes && currentLookDirection == look && leftPupil == pupil;
    }
  }

  /** The two saturated cases of one eye-turning step: a step of
      eyeRotationSpeed * dt >= 1 lands on the target, and a step <= 0 keeps
      the current direction. */
  lemma LookSettles(current: Vec, target: Vec, speed: real, dt: real)
    ensures speed * dt >= 1.0 ==> LerpVec(current, target, speed * dt) == target
    ensures speed * dt <= 0.0 ==> LerpVec(current, target, speed * dt) == current
  {
  }
}
