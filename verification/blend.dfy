/** The parameter blender: the per-frame exponential smoothing step shared by the
    angry, grin, head-follow and camera-zoom values, the camera-zoom schedule and
    the jaw-open rule. All smoothing is per rendered frame, not per unit of time. */
module Blend {

  /** Fraction of the remaining distance closed per frame by the angry-brow blend. */
  const AngryRate: real := 0.03
  /** Same for the grin (teeth and mustache) blend. */
  const GrinRate: real := 0.03
  /** Same for the head turning toward the pointer. */
  const HeadFollowRate: real := 0.03
  /** Same for the camera zoom, which moves faster. */
  const ZoomRate: real := 0.1

  /** Camera distance outside the zoom window, and the close-up distance. */
  const DefaultZoom: real := 10.5
  const CloseZoom: real := 6.5

  function Abs(x: real): real {
    if x < 0.0 then -x else x
  }

  function Max(a: real, b: real): real {
    if a < b then b else a
  }

  /** One smoothing step `v += (target - v) * k`. The new value lies between the
      old value and the target (no overshoot), and the remaining distance shrinks
      by exactly the factor 1 - k; a value at its target stays there. */
  function Smooth(v: real, target: real, k: real): (r: real)
    requires 0.0 < k < 1.0
    ensures v <= target ==> v <= r <= target
    ensures target <= v ==> target <= r <= v
    ensures target - r == (1.0 - k) * (target - v)
  {
    var d := target - v;
    ProductBetween(d, k);
    assert d - d * k == (1.0 - k) * d;
    v + d * k
  }

  /** For 0 <= k <= 1, d * k lies between 0 and d. */
  lemma ProductBetween(d: real, k: real)
    requires 0.0 <= k <= 1.0
    ensures 0.0 <= d ==> 0.0 <= d * k <= d
    ensures d <= 0.0 ==> d <= d * k <= 0.0
  {
    if 0.0 <= d {
      assert d - d * k == d * (1.0 - k);
    } else {
      assert d * k - d == (-d) * (1.0 - k);
    }
  }

  lemma MulLe(x: real, a: real, b: real)
    requires 0.0 <= x && a <= b
    ensures x * a <= x * b
  {
    assert x * b - x * a == x * (b - a);
  }

  lemma MulBound(x: real, y: real, xMax: real, yMax: real)
    requires 0.0 <= x <= xMax && 0.0 <= y <= yMax
    ensures x * y <= xMax * yMax
  {
    MulLe(x, y, yMax);
    MulLe(yMax, x, xMax);
  }

  /** With a target of 0 or 1 (an off/on behaviour flag), a blend value in [0, 1]
      stays in [0, 1]. */
  lemma SmoothKeepsUnit(v: real, on: bool, k: real)
    requires 0.0 < k < 1.0 && 0.0 <= v <= 1.0
    ensures 0.0 <= Smooth(v, if on then 1.0 else 0.0, k) <= 1.0
  {
  }

  /** The value after n frames toward a target held constant. */
  function SmoothFrames(v: real, target: real, k: real, n: nat): real
    requires 0.0 < k < 1.0
  {
    if n == 0 then v else Smooth(SmoothFrames(v, target, k, n - 1), target, k)
  }

  function Pow(b: real, n: nat): real {
    if n == 0 then 1.0 else b * Pow(b, n - 1)
  }

  /** After n frames the remaining distance is (1 - k)^n times the initial one. */
  lemma {:induction false} SmoothFramesGap(v: real, target: real, k: real, n: nat)
    requires 0.0 < k < 1.0
    ensures target - SmoothFrames(v, target, k, n) == Pow(1.0 - k, n) * (target - v)
  {
    if n > 0 {
      SmoothFramesGap(v, target, k, n - 1);
      var prev := SmoothFrames(v, target, k, n - 1);
      var p := Pow(1.0 - k, n - 1);
      assert target - SmoothFrames(v, target, k, n) == (1.0 - k) * (target - prev);
      assert target - prev == p * (target - v);
      assert Pow(1.0 - k, n) == (1.0 - k) * p;
    }
  }

  /** Held at a constant target, the value approaches it monotonically and
      never passes it. */
  lemma {:induction false} SmoothFramesMonotone(v: real, target: real, k: real, n: nat)
    requires 0.0 < k < 1.0
    ensures v <= target ==>
      v <= SmoothFrames(v, target, k, n) <= SmoothFrames(v, target, k, n + 1) <= target
    ensures target <= v ==>
      target <= SmoothFrames(v, target, k, n + 1) <= SmoothFrames(v, target, k, n) <= v
  {
    if n > 0 {
      SmoothFramesMonotone(v, target, k, n - 1);
    }
  }

  lemma {:induction false} PowPositive(b: real, n: nat)
    requires 0.0 < b
    ensures 0.0 < Pow(b, n)
  {
    if n > 0 {
      PowPositive(b, n - 1);
    }
  }

  lemma {:induction false} PowAdd(b: real, m: nat, n: nat)
    ensures Pow(b, m + n) == Pow(b, m) * Pow(b, n)
  {
    if m > 0 {
      PowAdd(b, m - 1, n);
      var p, q := Pow(b, m - 1), Pow(b, n);
      assert Pow(b, m + n) == b * Pow(b, m - 1 + n);
      assert b * (p * q) == (b * p) * q;
    }
  }

  lemma {:induction false} PowStep(b: real, n: nat)
    requires 0.0 < b < 1.0
    ensures Pow(b, n + 1) <= Pow(b, n)
  {
    PowPositive(b, n);
    var p := Pow(b, n);
    ProductBetween(p, b);
    assert Pow(b, n + 1) == b * p;
  }

  lemma {:induction false} PowShrinks(b: real, m: nat, n: nat)
    requires 0.0 < b < 1.0 && m <= n
    ensures Pow(b, n) <= Pow(b, m)
    decreases n
  {
    if m < n {
      PowShrinks(b, m, n - 1);
      PowStep(b, n - 1);
    }
  }

  /** Bernoulli-type bound: (1 - k)^n * (1 + n k) <= 1. */
  lemma {:induction false} PowBernoulli(k: real, n: nat)
    requires 0.0 < k < 1.0
    ensures Pow(1.0 - k, n) * (1.0 + n as real * k) <= 1.0
  {
    if n > 0 {
      PowBernoulli(k, n - 1);
      PowPositive(1.0 - k, n - 1);
      var q := Pow(1.0 - k, n - 1);
      var a := 1.0 + (n - 1) as real * k;
      var c := (1.0 - k) * (a + k);
      assert 0.0 <= (n - 1) as real * k;
      assert c == a - k * ((n - 1) as real * k) - k * k;
      assert 0.0 <= k * ((n - 1) as real * k);
      assert c <= a;
      MulLe(q, c, a);
      assert Pow(1.0 - k, n) * (1.0 + n as real * k) == q * c;
    }
  }

  /** If m k >= 1, a block of m frames at least halves the distance, so seven
      blocks leave less than 1% of it. */
  lemma PowSevenBlocks(k: real, m: nat)
    requires 0.0 < k < 1.0 && m as real * k >= 1.0
    ensures Pow(1.0 - k, 7 * m) <= 0.01
  {
    var b := 1.0 - k;
    PowBernoulli(k, m);
    PowPositive(b, m);
    var h := Pow(b, m);
    MulLe(h, 2.0, 1.0 + m as real * k);
    assert h <= 0.5;
    PowAdd(b, m, m);
    PowPositive(b, 2 * m);
    MulBound(h, h, 0.5, 0.5);
    var h2 := Pow(b, 2 * m);
    assert h2 <= 0.25;
    PowAdd(b, 2 * m, 2 * m);
    PowPositive(b, 4 * m);
    MulBound(h2, h2, 0.25, 0.25);
    var h4 := Pow(b, 4 * m);
    assert h4 <= 0.0625;
    PowAdd(b, 4 * m, 2 * m);
    PowPositive(b, 6 * m);
    MulBound(h4, h2, 0.0625, 0.25);
    var h6 := Pow(b, 6 * m);
    assert h6 <= 0.015625;
    PowAdd(b, 6 * m, m);
    MulBound(h6, h, 0.015625, 0.5);
  }

  lemma ScaledAbs(p: real, d: real)
    requires 0.0 <= p <= 0.01
    ensures Abs(p * d) <= Abs(d) / 100.0
  {
    if 0.0 <= d {
      MulLe(d, p, 0.01);
    } else {
      MulLe(-d, p, 0.01);
    }
  }

  /** Held at a constant target for n >= 7 m frames, where m k >= 1, the value
      is within 1% of the initial distance from the target. */
  lemma SmoothWithinOnePercent(v: real, target: real, k: real, m: nat, n: nat)
    requires 0.0 < k < 1.0 && m as real * k >= 1.0 && n >= 7 * m
    ensures Abs(target - SmoothFrames(v, target, k, n)) <= Abs(target - v) / 100.0
  {
    PowSevenBlocks(k, m);
    PowShrinks(1.0 - k, 7 * m, n);
    PowPositive(1.0 - k, n);
    var p := Pow(1.0 - k, n);
    assert 0.0 <= p <= 0.01;
    SmoothFramesGap(v, target, k, n);
    ScaledAbs(p, target - v);
    var gap := target - SmoothFrames(v, target, k, n);
    assert gap == p * (target - v);
  }

  /** For the 0.03 blends, 238 frames bring a held target within 1%; for the 0.1
      zoom, 70 frames. */
  lemma BlendSettling(v: real, target: real, n: nat)
    ensures n >= 238 ==> Abs(target - SmoothFrames(v, target, AngryRate, n)) <= Abs(target - v) / 100.0
    ensures n >= 70 ==> Abs(target - SmoothFrames(v, target, ZoomRate, n)) <= Abs(target - v) / 100.0
  {
    if n >= 238 {
      SmoothWithinOnePercent(v, target, AngryRate, 34, n);
    }
    if n >= 70 {
      SmoothWithinOnePercent(v, target, ZoomRate, 10, n);
    }
  }

  // ---------------------------------------------------------------- camera zoom

  /** The camera distance the zoom heads for at performance time e: the default
      outside [80, 92), a linear ramp in over [80, 82), the close-up over
      [82, 90) and a linear ramp back out over [90, 92). It is at the default
      exactly when e <= 80 or e >= 92 and at the close-up exactly on [82, 90]. */
  function ZoomTarget(e: real): (z: real)
    ensures CloseZoom <= z <= DefaultZoom
    ensures z == DefaultZoom <==> e <= 80.0 || 92.0 <= e
    ensures z == CloseZoom <==> 82.0 <= e <= 90.0
  {
    if 80.0 <= e < 82.0 then
      DefaultZoom - 4.0 * ((e - 80.0) / 2.0)
    else if 82.0 <= e < 90.0 then
      CloseZoom
    else if 90.0 <= e < 92.0 then
      CloseZoom + 4.0 * ((e - 90.0) / 2.0)
    else
      DefaultZoom
  }

  /** The schedule is continuous (it is 2-Lipschitz), so in particular it has no
      jump at 80, 82, 90 or 92 s. */
  lemma ZoomTargetContinuous(a: real, b: real)
    ensures Abs(ZoomTarget(a) - ZoomTarget(b)) <= 2.0 * Abs(a - b)
  {
  }

  /** The target never increases up to 90 s and never decreases from 82 s on;
      on [82, 90] it is therefore flat (the close-up). */
  lemma ZoomTargetShape(a: real, b: real)
    requires a <= b
    ensures b <= 90.0 ==> ZoomTarget(b) <= ZoomTarget(a)
    ensures 82.0 <= a ==> ZoomTarget(a) <= ZoomTarget(b)
  {
  }

  lemma ZoomTargetSamples()
    ensures CloseZoom < ZoomTarget(81.0) < DefaultZoom
    ensures ZoomTarget(85.0) == CloseZoom
    ensures CloseZoom < ZoomTarget(91.0) < DefaultZoom
  {
  }

  // ---------------------------------------------------------------- jaw

  /** The jaw opening driven by speech alone: a fraction of the speech wave
      value s while talking, closed otherwise. */
  function BaseJaw(talking: bool, s: real): (b: real)
    ensures 0.0 <= s <= 1.0 ==> 0.0 <= b <= 0.4
    ensures b == 0.0 <==> !talking || s == 0.0
    ensures !talking ==> b == 0.0
  {
    if talking then s * 0.4 else 0.0
  }

  /** The jaw opening of one frame, for a speech wave value s in [0, 1]. Grinning
      widens the opening by half and holds it at least 0.25 open. The opening is
      within [0, 0.6]; it is closed exactly when the king neither talks (or the
      wave is at 0) nor grins. */
  function JawOpen(talking: bool, grinning: bool, s: real): (j: real)
    requires 0.0 <= s <= 1.0
    ensures 0.0 <= j <= 0.6
    ensures grinning ==> 0.25 <= j && 1.5 * BaseJaw(talking, s) <= j
    ensures !grinning ==> j == BaseJaw(talking, s)
    ensures j == 0.0 <==> !grinning && (!talking || s == 0.0)
  {
    var base := BaseJaw(talking, s);
    if grinning then Max(base * 1.5, 0.25) else base
  }

  /** A wider speech wave never closes the jaw. */
  lemma JawOpenMonotone(talking: bool, grinning: bool, s1: real, s2: real)
    requires 0.0 <= s1 <= s2 <= 1.0
    ensures JawOpen(talking, grinning, s1) <= JawOpen(talking, grinning, s2)
  {
  }

  /** The teeth are drawn only once the grin blend exceeds 0.001: hidden with
      the blend at rest, and shown as soon as it has reached the size of one
      grin step from rest. */
  predicate TeethVisible(grin: real): (v: bool)
    ensures v ==> 0.0 < grin
    ensures grin >= GrinRate ==> v
  {
    grin > 0.001
  }

  /** From any blend in [0, 1], the first grinning frame already shows the
      teeth: one step toward 1 lifts the blend to at least 0.03. */
  lemma TeethShowOnFirstGrinFrame(grin: real)
    requires 0.0 <= grin <= 1.0
    ensures TeethVisible(Smooth(grin, 1.0, GrinRate))
  {
    var r := Smooth(grin, 1.0, GrinRate);
    assert 1.0 - r == 0.97 * (1.0 - grin);
  }

  /** The head-follow targets: the normalised pointer position scaled to at
      most 0.25 rad of yaw and 0.15 rad of pitch (pitch inverted). */
  function YawTarget(mouseX: real): (y: real)
    ensures -1.0 <= mouseX <= 1.0 ==> -0.25 <= y <= 0.25
    ensures (y < 0.0 <==> mouseX < 0.0) && (y == 0.0 <==> mouseX == 0.0)
  {
    mouseX * 0.25
  }

  function PitchTarget(mouseY: real): (p: real)
    ensures -1.0 <= mouseY <= 1.0 ==> -0.15 <= p <= 0.15
    ensures (p < 0.0 <==> mouseY > 0.0) && (p == 0.0 <==> mouseY == 0.0)
  {
    -mouseY * 0.15
  }
}
