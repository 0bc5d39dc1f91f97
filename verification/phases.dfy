/** The intro and outro phase machines, driven by their own sub-timers, and the
    presentation ramps those sub-timers drive (intro image opacities, outro
    green tint). Sub-timer values are seconds since the sub-timer's anchor. */
module Phases {

  /** The intro's phases; Main (3 in the component) is the performance itself. */
  datatype IntroPhase = ShowStart | FadeMiddle | FadeEnd | Main {
    /** The number the component stores for this phase. */
    function Rank(): nat {
      match this
      case ShowStart => 0
      case FadeMiddle => 1
      case FadeEnd => 2
      case Main => 3
    }
  }

  /** The outro's phases; NoOutro (0) while the performance has not ended,
      EndScreen (3) is terminal. */
  datatype OutroPhase = NoOutro | StaticWhite | StaticGreen | EndScreen {
    function Rank(): nat {
      match this
      case NoOutro => 0
      case StaticWhite => 1
      case StaticGreen => 2
      case EndScreen => 3
    }
  }

  /** The phase one poll of the intro timer sets, e seconds after the intro
      started: the performance begins exactly when 6 s have passed, and the
      start image is shown exactly for the first 2 s. */
  function IntroPhaseAt(e: real): (p: IntroPhase)
    ensures p == Main <==> e >= 6.0
    ensures p == ShowStart <==> e < 2.0
    ensures p == FadeMiddle ==> 2.0 <= e < 4.0
    ensures p == FadeEnd ==> 4.0 <= e < 6.0
  {
    if e < 2.0 then ShowStart
    else if e < 4.0 then FadeMiddle
    else if e < 6.0 then FadeEnd
    else Main
  }

  /** A later poll never sets an earlier phase. */
  lemma IntroPhaseMonotone(e1: real, e2: real)
    requires e1 <= e2
    ensures IntroPhaseAt(e1).Rank() <= IntroPhaseAt(e2).Rank()
  {
  }

  /** The phase one poll of the outro timer moves to, e seconds after the timer
      was (re)started. No timer runs before the outro or on the end screen; the
      white static is left once 0.5 s have passed, and the end screen is
      reached only once 2.5 s have passed. */
  function OutroNext(p: OutroPhase, e: real): (q: OutroPhase)
    ensures p.Rank() <= q.Rank()
    ensures p == NoOutro || p == EndScreen ==> q == p
    ensures q == EndScreen <==> p == EndScreen || (p != NoOutro && e >= 2.5)
    ensures p == StaticWhite ==> (q == StaticWhite <==> e < 0.5)
    ensures p == StaticGreen ==> q != StaticWhite
  {
    if p == NoOutro || p == EndScreen then p
    else if e < 0.5 then p
    else if e < 2.5 then StaticGreen
    else EndScreen
  }

  // ---------------------------------------------------------------- intro images

  /** Opacity of the start image, ie seconds into the intro: fully shown for
      2 s, then faded out over one second. */
  function StartOpacity(ie: real): (o: real)
    ensures 0.0 <= o <= 1.0
    ensures ie <= 2.0 ==> o == 1.0
    ensures ie >= 3.0 ==> o == 0.0
  {
    if ie < 2.0 then 1.0 else if 0.0 < 1.0 - (ie - 2.0) then 1.0 - (ie - 2.0) else 0.0
  }

  /** Opacity of the middle image: faded in over [2, 3], shown until 4, faded
      out over [4, 5]. */
  function MiddleOpacity(ie: real): (o: real)
    ensures 0.0 <= o <= 1.0
    ensures ie <= 2.0 || ie >= 5.0 ==> o == 0.0
    ensures 3.0 <= ie <= 4.0 ==> o == 1.0
  {
    if ie < 2.0 then 0.0
    else if ie < 3.0 then ie - 2.0
    else if ie < 4.0 then 1.0
    else if 0.0 < 1.0 - (ie - 4.0) then 1.0 - (ie - 4.0) else 0.0
  }

  /** Opacity of the end image: faded in over [4, 5] and then kept. */
  function EndOpacity(ie: real): (o: real)
    ensures 0.0 <= o <= 1.0
    ensures ie <= 4.0 ==> o == 0.0
    ensures ie >= 5.0 ==> o == 1.0
  {
    if ie < 4.0 then 0.0 else if 1.0 < ie - 4.0 then 1.0 else ie - 4.0
  }

  /** The three ramps are exact crossfades: at every instant the opacities add
      up to one full image. */
  lemma OpacitiesCrossfade(ie: real)
    ensures StartOpacity(ie) + MiddleOpacity(ie) + EndOpacity(ie) == 1.0
  {
  }

  // ---------------------------------------------------------------- outro tint

  /** Progress of the green tint of the outro's second static, oe seconds into
      the outro timer; capped at 1 above but NOT clamped below, so it is
      negative before 0.5 s. */
  function GreenTint(oe: real): (p: real)
    ensures p <= 1.0
    ensures p < 0.0 <==> oe < 0.5
    ensures p == 1.0 <==> oe >= 2.5
  {
    if 1.0 < (oe - 0.5) / 2.0 then 1.0 else (oe - 0.5) / 2.0
  }

  /** The red and blue channels of the green static are scaled by
      1 - 0.7 p. At the first poll of the restarted timer (oe = 0) the factor
      exceeds 1, so those channels are brightened rather than reduced. */
  lemma GreenTintAtTimerStart()
    ensures 1.0 - GreenTint(0.0) * 0.7 > 1.0
  {
  }
}
