# Talking king: timeline and blending engine, modelled in Dafny

The `TalkingKing` component animates a rigged 3D king to a fixed script. First
comes a 6-second intro that crossfades three images. Then comes a 126.25-second
performance. During it, time-indexed tables decide when the king talks, looks
angry or grins, and how fast his jaw moves. Last comes a short outro: white
static, then green-tinted static, then an end screen. A play/pause button and a
reset button are the only controls.

This project models the engine under the rendering. It does not model the
Three.js scene, the DOM or the audio. It covers these parts:

- `periods.dfy` (module `Periods`): the three interval tables and the cadence
  table. It has the interval-union membership test and the cadence scan, and it
  proves the scan equal to "the speed of the last step at or before t".
- `blend.dfy` (module `Blend`): the per-frame exponential smoothing step
  `v += (target - v) * k`. It also has the camera-zoom schedule, the jaw-open
  rule and the head-follow targets. It proves no overshoot, exact geometric
  contraction, monotone approach, and settling within 1% after a bounded
  number of frames.
- `phases.dfy` (module `Phases`): the intro phases (0-3) and outro phases (0-3)
  as datatypes, with the poll decisions of their timers. It also has the intro
  image opacity ramps and the outro's green-tint progress.
- `stage.dfy` (module `Stage`): the class `TalkingKing`. It owns the
  performance clock (anchor, frozen pause time, play state), both phase
  machines with their timers, and the smoothed pose values. It has the methods
  `IntroTick` and `OutroTick` (one poll of each 50 ms timer), `Mount` (scene
  set-up), `Animate` (one display frame, split into `ReadClock` and
  `UpdatePose`), `TogglePause` and `Reset`. Its invariant `Valid()` keeps these
  facts:
  - the intro phase matches the intro time;
  - the outro phase matches the outro timer;
  - the displayed and frozen times are never negative;
  - the blends stay in [0, 1];
  - the head stays within ±0.25 / ±0.15 rad;
  - the camera stays within [6.5, 10.5];
  - once the performance has begun, the clock is anchored.
- `scenarios.dfy` (module `Scenarios`): whole runs from mount. They cover the
  path to the end screen, pause then resume, reset while playing, and reset
  while paused.

Wall-clock readings (`Date.now()`) become a `now` parameter in milliseconds. The
model assumes they never decrease. Performance time is `(now - anchor) / 1000`
seconds. The speech wave `sin(time * speed) * 0.5 + 0.5` becomes a parameter
`speech` in [0, 1]. The pointer becomes normalised parameters `mouseX` and
`mouseY` in [-1, 1]. Times and blend values are Dafny `real`s.

Smoothing is tied to the frame count, as in the component. Each rendered frame
closes the fraction `k` of the remaining distance (0.03 for the angry, grin and
head values, 0.1 for the zoom). So the settling time in seconds depends on the
display's frame rate. The model keeps this per-frame form. `BlendSettling`
states the bound in frames: 238 frames for `k = 0.03`, 70 frames for `k = 0.1`.

## Behaviour worth knowing

These follow from the code and are proved here:

- **The cadence is not monotone.** The cadence table switches between 1.6 and
  2.5 several times. The lookup drops from 2.5 back to 1.6 at 27, 59, 93 and
  105 s (`TalkingSpeedDrops`). It holds 3.75 from 119 s on. The scan starts
  from 1.6, which is also the speed of the table's first step, at time 0.
- **The green static lasts 2.5 s, not 2 s.** The outro timer is re-created
  each time the outro phase changes, so its start time is reset when the green
  static begins. The end screen therefore comes 2.5 s after the green static
  began. With polls at 0.55 s and 2.6 s into the outro, the green static is
  still showing; the end screen arrives at 3.05 s (`OutroTick`,
  `FromMountToEndScreen`).
- **The green tint is negative at first.** The green-tint progress is capped
  at 1 but has no lower clamp. It is negative until 0.5 s into the restarted
  timer. At the timer's first reading it brightens the red and blue channels
  instead of dimming them (`GreenTint`, `GreenTintAtTimerStart`).
- **Reset keeps the play state and the frozen pause time.** After a reset
  while paused, the next performance resumes at the old frozen time, not at 0
  (`ResetWhilePaused`). After a reset while playing, it restarts from 0 at the
  poll that ends the intro (`ResetWhilePlaying`).
- **Resume adds only the last gap.** While paused, each frame moves the anchor
  to `now - pauseTime * 1000`. After resuming, performance time is the frozen
  value plus the wall time since the last paused frame (`PauseAndResume`).
- **Play/pause rebuilds the scene.** The scene is set up again, so the camera
  returns to 10.5 and the head to rest (`TogglePause`, `Mount`). The angry and
  grin blends live outside the scene and keep their values. The rebuilt scene
  hides the teeth, and only a playing frame shows them, so a paused frame never
  shows teeth, even in the middle of a grin (`Animate`,
  `TeethHiddenWhilePaused`).
- **The scene set-up never has to anchor the clock.** The set-up anchors the
  clock when it finds it unanchored (Brayn.jsx:474-476). That never happens:
  the poll that enters the performance has already anchored it, and only reset
  clears the anchor, together with the intro (`Mount`).

## Model

| member | source | states |
|---|---|---|
| Periods.AnyCovers | Brayn.jsx:180-182 | the left-to-right `some` scan is true exactly when t lies in some closed interval of the table |
| Periods.InPeriodUnion | Brayn.jsx:180-182 | membership in a concatenation of tables is membership in either, so overlapping intervals are unioned |
| Periods.EndpointsIncluded | Brayn.jsx:180-182 | both endpoints of every interval are inside (inclusive bounds) |
| Periods.TablesWellFormed | Brayn.jsx:138-152 | every talking, angry and grin interval has start <= end |
| Periods.TalkingSamples | Brayn.jsx:138-144 | the king talks at 1.5 s and at 3 s and is silent at 3.5 s |
| Periods.TalkingEndsAtOutro | Brayn.jsx:138-144 | the last talking interval ends exactly at 126.25 s and nothing is spoken after it |
| Periods.SentinelIntervals | Brayn.jsx:146-152 | angry on all of [119, 999], grinning on all of [108, 999], neither after the 999 sentinel |
| Periods.LastAtOrBefore | Brayn.jsx:168-178 | the reference lookup yields the default or the speed of some step whose time is <= t |
| Periods.DropLaterSteps | Brayn.jsx:168-178 | steps that all lie after t do not change the lookup |
| Periods.StepValue | Brayn.jsx:155-178 | on a sorted table, from a step's time up to the next step's time the speed is that step's speed |
| Periods.BeforeFirstStep | Brayn.jsx:168-178 | on a sorted table, before the first step the lookup yields the default |
| Periods.TalkingSpeed | Brayn.jsx:155-178 | the cadence at t is always 1.6, 2.5 or 3.75, and is 3.75 exactly from 119 s on |
| Periods.ScanSpeed | Brayn.jsx:168-178 | the loop with early break returns the speed of the last step at or before t, or 1.6 if none |
| Periods.SpeedTableSorted | Brayn.jsx:155-166 | the cadence table's times are strictly increasing |
| Periods.TalkingSpeedEnds | Brayn.jsx:155-178 | cadence is 1.6 for every t <= 0 and 3.75 for every t >= 119 |
| Periods.TalkingSpeedDrops | Brayn.jsx:155-166 | cadence is 2.5 at 20 s, and falls from 2.5 back to 1.6 at 27, 59, 93 and 105 s |
| Blend.Smooth | Brayn.jsx:541-542 | one step lands between value and target, with the remaining distance multiplied by exactly 1 - k |
| Blend.SmoothKeepsUnit | Brayn.jsx:558-559 | with an on/off target, a blend in [0, 1] stays in [0, 1] |
| Blend.SmoothFramesGap | Brayn.jsx:541-542 | after n frames at a held target the remaining distance is (1 - k)^n times the initial one |
| Blend.SmoothFramesMonotone | Brayn.jsx:604-607 | at a held target the value moves monotonically toward it and never passes it |
| Blend.SmoothWithinOnePercent | Brayn.jsx:623 | if m k >= 1, after 7 m frames at a held target the value is within 1% of the initial distance |
| Blend.BlendSettling | Brayn.jsx:541-542 | the 0.03 blends settle within 1% in 238 frames and the 0.1 zoom in 70 frames |
| Blend.ZoomTarget | Brayn.jsx:610-622 | the zoom target is always in [6.5, 10.5], equals 10.5 exactly when e <= 80 or e >= 92, and equals 6.5 exactly on [82, 90] |
| Blend.ZoomTargetContinuous | Brayn.jsx:611-622 | the zoom schedule is 2-Lipschitz, so it has no jump at 80, 82, 90 or 92 s |
| Blend.ZoomTargetShape | Brayn.jsx:611-622 | the target never increases up to 90 s and never decreases from 82 s on |
| Blend.ZoomTargetSamples | Brayn.jsx:611-622 | at 81 s and 91 s the target is strictly between 6.5 and 10.5, and at 85 s it is 6.5 |
| Blend.BaseJaw | Brayn.jsx:525 | the speech opening is within [0, 0.4] for a wave in [0, 1], and is 0 exactly when not talking or the wave is at 0 |
| Blend.JawOpen | Brayn.jsx:524-528 | jaw opening in [0, 0.6]; when grinning at least 0.25 and at least 1.5 times the speech opening; the speech opening otherwise; closed exactly when not grinning and not talking or silent |
| Blend.JawOpenMonotone | Brayn.jsx:524-528 | a wider speech wave never closes the jaw |
| Blend.TeethVisible | Brayn.jsx:561-562 | teeth are hidden while the grin blend is at rest (0) and shown once it reaches one grin step (0.03) |
| Blend.TeethShowOnFirstGrinFrame | Brayn.jsx:557-562 | from any blend in [0, 1], the first grinning frame already shows the teeth |
| Blend.YawTarget | Brayn.jsx:604 | a pointer in [-1, 1] turns the head at most 0.25 rad, toward the pointer's side |
| Blend.PitchTarget | Brayn.jsx:605 | a pointer in [-1, 1] tilts the head at most 0.15 rad, opposite to the pointer's sign |
| Phases.IntroPhaseAt | Brayn.jsx:29-36 | the performance begins exactly once 6 s of intro have passed; the start image holds exactly for the first 2 s; phases 1 and 2 cover [2, 4) and [4, 6) |
| Phases.IntroPhaseMonotone | Brayn.jsx:29-36 | a later poll never sets an earlier intro phase |
| Phases.OutroNext | Brayn.jsx:51-68 | the outro phase never decreases; no timer runs before the outro or on the end screen; white static is left exactly once 0.5 s have passed; the end screen is reached exactly when 2.5 s have passed |
| Phases.StartOpacity | Brayn.jsx:661 | start image opacity in [0, 1], full until 2 s, gone from 3 s |
| Phases.MiddleOpacity | Brayn.jsx:671-674 | middle image opacity in [0, 1], full on [3, 4], gone before 2 s and from 5 s |
| Phases.EndOpacity | Brayn.jsx:684 | end image opacity in [0, 1], gone until 4 s, full from 5 s |
| Phases.OpacitiesCrossfade | Brayn.jsx:656-686 | the three intro opacities always add up to exactly 1 |
| Phases.GreenTint | Brayn.jsx:99 | tint progress is at most 1, reaches 1 exactly from 2.5 s, and is negative exactly before 0.5 s |
| Phases.GreenTintAtTimerStart | Brayn.jsx:99-102 | at the restarted timer's first reading, red and blue are scaled by more than 1 |
| Stage.TalkingKing.constructor | Brayn.jsx:6-19 | a mounted component starts playing, in intro phase 0 anchored at now, with no performance anchor and every blend at rest |
| Stage.TalkingKing.IntroTick | Brayn.jsx:22-47 | an intro poll sets the phase for the elapsed intro time; phases never go back; entering the performance anchors the clock at now and starts the audio, only after 6 s; no poll acts once performing |
| Stage.TalkingKing.OutroTick | Brayn.jsx:50-72 | an outro poll moves the phase as OutroNext says, never back; a phase change restarts the timer at now; no timer acts before the outro or on the end screen |
| Stage.TalkingKing.Mount | Brayn.jsx:469-476 | scene set-up puts the camera (at 10.5, line 194) and the head at rest; the clock is already anchored, so its anchor is kept |
| Stage.TalkingKing.TogglePause | Brayn.jsx:709-711 | flips the play state and rebuilds the scene; clock, phases and blends are kept |
| Stage.TalkingKing.Reset | Brayn.jsx:716-728 | back to intro phase 0 at now, outro cleared, anchor cleared, displayed time 0, audio paused and rewound; play state and frozen time kept |
| Stage.TalkingKing.ReadClock | Brayn.jsx:493-512 | playing: time is now minus anchor and is remembered; paused: time is the frozen value and the anchor keeps it that far behind now; the outro starts exactly when playing at >= 126.25 s |
| Stage.TalkingKing.UpdatePose | Brayn.jsx:520-623 | while playing, the jaw is set by the jaw rule, and angry, grin and head each take one smoothing step toward their targets; while paused the jaw is not driven and the others hold; the zoom steps toward its schedule either way |
| Stage.TalkingKing.Animate | Brayn.jsx:489-626 | one frame: clock read, flags and cadence looked up at that time, pose updated, and a snapshot returned that shows exactly those values; teeth are shown only on a playing frame with the grin blend above 0.001 |
| Scenarios.FromMountToEndScreen | Brayn.jsx:22-72 | a poll at 6.01 s starts the performance and the audio; 126.3 s in, the white static starts and the audio pauses; green static still shows at 2.6 s; the end screen shows at 3.1 s and stays |
| Scenarios.PauseAndResume | Brayn.jsx:493-511 | a paused frame shows the frozen time; after resuming, time is the frozen value plus the wall time since the last paused frame |
| Scenarios.ResetWhilePlaying | Brayn.jsx:716-723 | after a reset while playing, performance time restarts from 0 at the poll that ends the new intro |
| Scenarios.ResetWhilePaused | Brayn.jsx:716-723 | after a reset while paused, the new performance shows the old frozen time |
| Scenarios.TeethHiddenWhilePaused | Brayn.jsx:520-562 | a playing frame during the final grin shows the teeth; after pausing, the next frame does not |

## Left out

- Three.js scene, material and mesh construction, lighting, rendering, window
  resize handling and effect clean-up (Brayn.jsx:185-467, 625-647): these are
  calls into a rendering library. Only the pose values they consume are
  modelled.
- Mapping of blend values onto mesh transforms (Brayn.jsx:530-583): this is
  linear rig plumbing. Only the teeth-visibility condition `grin > 0.001` is
  kept, in the snapshot.
- Sine-driven idle motion and the speech wave: breathing, head bob, brain
  pulse, crown sway, eyebrow waggle and `sin(time * speed)`. These are
  floating-point transcendental functions. The speech value is a parameter in
  [0, 1], so the frame-step accumulator `time` is not modelled.
- The pointer listener (Brayn.jsx:479-486): the normalised pointer position is
  a parameter of `Animate`.
- Audio loading, playing, pausing and rewinding (Brayn.jsx:39-41, 118-128,
  503-505, 724-727): only the cue the engine emits at each point is modelled.
  A failed audio start is not modelled.
- The static noise canvas (Brayn.jsx:75-115): it uses random pixels and canvas
  writes. Only the tint progress is modelled.
- SVG backgrounds and other markup (Brayn.jsx:650-775): presentation only.
- Timer cadence: the 50 ms polling interval and the display refresh are not
  enforced. The model admits any sequence of poll and frame times that never
  goes back in time.
- Floating point: times and blends are exact reals, not IEEE doubles.
- Stage.TalkingKing.Animate: the frame loop captures the outro phase when it
  is set up. So in the component, frames that run after the hand-over but
  before the next re-render could fire the hand-over again. The model applies
  the new phase at once and lets the hand-over fire exactly once.
- The unused `angryEyebrows` and `showGrin` state: it never changes.
