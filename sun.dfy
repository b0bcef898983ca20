/**
 * The 3D sun's per-frame motion: the page's scroll fraction picks a target
 * position in one of five bands (hero, about, works, services, footer),
 * the mesh moves a fifth of the way towards it every frame, and its spin
 * and the shader's time uniform follow the clock's absolute elapsed time.
 */
module SunMotion {
  import opened Scalar

  /** Scroll fraction as the frame computes it: 0 when the page cannot
      scroll, otherwise scrollTop / maxScroll with no clamp. */
  function RawProgress(maxScroll: real, scrollTop: real): (r: real)
    ensures maxScroll <= 0.0 ==> r == 0.0
    ensures maxScroll > 0.0 ==> r * maxScroll == scrollTop
    ensures maxScroll > 0.0 && 0.0 <= scrollTop <= maxScroll ==> 0.0 <= r <= 1.0
    ensures maxScroll > 0.0 && scrollTop > maxScroll ==> r > 1.0
  {
    if maxScroll > 0.0 then
      QuotientSigns(scrollTop, maxScroll);
      if 0.0 <= scrollTop <= maxScroll then QuotientInUnit(scrollTop, maxScroll); scrollTop / maxScroll
      else scrollTop / maxScroll
    else 0.0
  }

  datatype Vec3 = Vec3(x: real, y: real, z: real)

  const Origin := Vec3(0.0, 0.0, 0.0)

  /** Where the sun is headed for a scroll offset. */
  function Target(offset: real): Vec3 {
    if offset < 0.15 then Origin
    else if offset < 0.35 then
      var p := (offset - 0.15) / 0.2;
      Vec3(if p < 0.5 then p * 2.0 * 2.5 else 2.5, 0.0, -1.0)
    else if offset < 0.55 then
      var p := (offset - 0.35) / 0.2;
      Vec3(if p < 0.5 then 2.5 - p * 2.0 * 5.0 else -2.5, 0.0, -0.5)
    else if offset < 0.75 then
      var p := (offset - 0.55) / 0.2;
      Vec3(if p < 0.5 then -2.5 + p * 2.0 * 5.0 else 2.5, 0.0, -1.0)
    else
      var p := (offset - 0.75) / 0.25;
      Vec3(2.5 - p * 2.5, -1.5 * p, 1.0 * p)
  }

  /** The hero band keeps the sun centred; the end of the page brings it
      down and towards the camera. */
  lemma TargetEnds(offset: real)
    ensures offset < 0.15 ==> Target(offset) == Origin
    ensures Target(1.0) == Vec3(0.0, -1.5, 1.0)
  {
  }

  /** Within the page the sun never strays more than 2.5 to either side. */
  lemma TargetXBounded(offset: real)
    requires offset <= 1.0
    ensures -2.5 <= Target(offset).x <= 2.5
  {
  }

  /** Horizontally the target slides without jumps: it moves by at most 50
      per unit of offset, across band boundaries too. */
  lemma TargetXContinuous(a: real, b: real)
    requires a <= b
    ensures Abs(Target(b).x - Target(a).x) <= 50.0 * (b - a)
  {
  }

  /** Depth, in contrast, jumps at each band boundary. */
  lemma TargetZJumps()
    ensures Target(0.1).z == 0.0 && Target(0.15).z == -1.0
    ensures Target(0.3).z == -1.0 && Target(0.35).z == -0.5
    ensures Target(0.5).z == -0.5 && Target(0.55).z == -1.0
    ensures Target(0.7).z == -1.0 && Target(0.75).z == 0.0
  {
  }

  /** Narrow viewports keep the sun horizontally centred. */
  function ResponsiveX(innerWidth: real, targetX: real): (x: real)
    ensures innerWidth < 768.0 ==> x == 0.0
    ensures innerWidth >= 768.0 ==> x == targetX
  {
    if innerWidth < 768.0 then 0.0 else targetX
  }

  const Smoothing: real := 0.2

  /** One frame of smoothing: each coordinate a fifth of the way to the target. */
  function Approach(pos: Vec3, target: Vec3): (r: Vec3)
    ensures r.x - target.x == 0.8 * (pos.x - target.x)
    ensures r.y - target.y == 0.8 * (pos.y - target.y)
    ensures r.z - target.z == 0.8 * (pos.z - target.z)
  {
    Vec3(Lerp(pos.x, target.x, Smoothing), Lerp(pos.y, target.y, Smoothing), Lerp(pos.z, target.z, Smoothing))
  }

  function Pow(b: real, n: nat): real {
    if n == 0 then 1.0 else b * Pow(b, n - 1)
  }

  /** n frames towards a target that stays put. */
  function ApproachN(pos: Vec3, target: Vec3, n: nat): Vec3 {
    if n == 0 then pos else Approach(ApproachN(pos, target, n - 1), target)
  }

  /** The gap to a fixed target shrinks by the factor 0.8 every frame. */
  lemma {:induction false} GapShrinks(pos: Vec3, target: Vec3, n: nat)
    ensures ApproachN(pos, target, n).x - target.x == Pow(0.8, n) * (pos.x - target.x)
    ensures ApproachN(pos, target, n).y - target.y == Pow(0.8, n) * (pos.y - target.y)
    ensures ApproachN(pos, target, n).z - target.z == Pow(0.8, n) * (pos.z - target.z)
  {
    if n > 0 {
      GapShrinks(pos, target, n - 1);
      var q := ApproachN(pos, target, n - 1);
      assert ApproachN(pos, target, n) == Approach(q, target);
      calc {
        Approach(q, target).x - target.x;
        0.8 * (q.x - target.x);
        0.8 * (Pow(0.8, n - 1) * (pos.x - target.x));
        Pow(0.8, n) * (pos.x - target.x);
      }
      calc {
        Approach(q, target).y - target.y;
        0.8 * (Pow(0.8, n - 1) * (pos.y - target.y));
        Pow(0.8, n) * (pos.y - target.y);
      }
      calc {
        Approach(q, target).z - target.z;
        0.8 * (Pow(0.8, n - 1) * (pos.z - target.z));
        Pow(0.8, n) * (pos.z - target.z);
      }
    }
  }

  lemma {:induction false} PowBounds(n: nat)
    ensures 0.0 < Pow(0.8, n) <= 1.0
    ensures n > 0 ==> Pow(0.8, n) < 1.0
  {
    if n > 0 {
      PowBounds(n - 1);
    }
  }

  /** The mesh and the material uniforms the frame callback writes. */
  class SunMesh {
    var position: Vec3
    var rotationX: real
    var rotationY: real
    var uTime: real
    var uScroll: real

    /** Mounted at the origin, unrotated, with both uniforms at 0. */
    constructor ()
      ensures position == Origin && rotationX == 0.0 && rotationY == 0.0
      ensures uTime == 0.0 && uScroll == 0.0
    {
      position := Origin;
      rotationX, rotationY := 0.0, 0.0;
      uTime, uScroll := 0.0, 0.0;
    }

    /** One rendered frame at absolute clock time `elapsed`. */
    method Frame(elapsed: real, maxScroll: real, scrollTop: real, innerWidth: real)
      modifies this
      ensures uTime == elapsed * 0.1
      ensures uScroll == RawProgress(maxScroll, scrollTop)
      ensures var t := Target(RawProgress(maxScroll, scrollTop));
        position == Approach(old(position), Vec3(ResponsiveX(innerWidth, t.x), t.y, t.z))
      ensures rotationY == elapsed * 0.02 && rotationX == elapsed * 0.01
    {
      var offset := RawProgress(maxScroll, scrollTop);
      uTime := elapsed * 0.1;
      uScroll := offset;
      var t := Target(offset);
      var responsiveX := ResponsiveX(innerWidth, t.x);
      var x := Lerp(position.x, responsiveX, 0.2);
      var y := Lerp(position.y, t.y, 0.2);
      var z := Lerp(position.z, t.z, 0.2);
      position := Vec3(x, y, z);
      rotationY := elapsed * 0.02;
      rotationX := elapsed * 0.01;
    }
  }
}
