/** The engine of the talking king: one object owning the performance clock
    (with pause/resume/reset), the intro and outro phase machines with their
    polling timers, and the smoothed pose parameters. Wall-clock readings are
    passed in as `now` (milliseconds); the 50 ms polling timers and the
    per-display-frame animation loop become calls of IntroTick, OutroTick and
    Animate. Audio playback is not modelled beyond the cue each transition emits. */
module Stage {
  import opened Periods
  import opened Blend
  import opened Phases

  datatype Option<T> = None | Some(value: T)

  /** What the engine asks of the external audio player at a transition. */
  datatype AudioCue = Silent | PlayAudio | PauseAudio | PauseAndRewind

  /** The per-frame bundle handed to the rig. `jaw` is None while paused: the
      jaw is then not driven. The teeth are never shown on a paused frame: the
      scene is rebuilt on every play/pause switch with the teeth hidden, and
      only a playing frame shows them. */
  datatype Snapshot = Snapshot(
    elapsed: real,
    talking: bool, angry: bool, grinning: bool, speed: real,
    jaw: Option<real>,
    angryBlend: real, grinBlend: real, teethVisible: bool,
    headYaw: real, headPitch: real, zoom: real)

  /** Performance time (s) at which the performance hands over to the outro. */
  const OutroAt: real := 126.25

  class TalkingKing {
    var playing: bool
    var introPhase: IntroPhase
    /** Seconds since the intro started, as of the last intro poll. */
    var introElapsed: real
    /** Wall time (ms) the intro started. */
    var introStart: real
    var outroPhase: OutroPhase
    /** Seconds since the outro timer's anchor, as of the last outro poll. */
    var outroElapsed: real
    /** Wall time (ms) the outro timer was (re)started. */
    var outroStart: real
    /** Wall time (ms) at which performance time 0 lies; None after a reset. */
    var anchor: Option<real>
    /** The performance time last read while playing, frozen while paused. */
    var pauseTime: real
    /** The performance time of the last frame, as displayed. */
    var currentTime: real
    var angryBlend: real
    var grinBlend: real
    var headYaw: real
    var headPitch: real
    /** Camera distance. */
    var zoom: real
    /** The latest wall time the engine has been given. */
    ghost var lastNow: real

    ghost predicate Valid()
      reads this
    {
      && introStart <= lastNow
      && introPhase == IntroPhaseAt(introElapsed)
      && (introPhase != Main ==> introElapsed * 1000.0 <= lastNow - introStart)
      && (outroPhase != NoOutro ==> introPhase == Main && outroStart <= lastNow)
      && (outroPhase == NoOutro ==> outroElapsed == 0.0)
      && (outroPhase == StaticWhite ==> outroElapsed < 0.5)
      && (outroPhase == StaticGreen ==> outroElapsed < 2.5)
      && (outroPhase == EndScreen ==> outroElapsed >= 2.5)
      && (anchor.Some? ==> anchor.value <= lastNow)
      && (introPhase == Main ==> anchor.Some?)
      && 0.0 <= pauseTime && 0.0 <= currentTime
      && 0.0 <= angryBlend <= 1.0 && 0.0 <= grinBlend <= 1.0
      && -0.25 <= headYaw <= 0.25 && -0.15 <= headPitch <= 0.15
      && CloseZoom <= zoom <= DefaultZoom
    }

    /** The control surface and the animation loop exist only in the main view. */
    predicate InMainView()
      reads this
    {
      introPhase == Main && outroPhase == NoOutro
    }

    twostate predicate PoseUnchanged()
      reads this
    {
      && angryBlend == old(angryBlend) && grinBlend == old(grinBlend)
      && headYaw == old(headYaw) && headPitch == old(headPitch) && zoom == old(zoom)
    }

    twostate predicate OutroUnchanged()
      reads this
    {
      outroPhase == old(outroPhase) && outroElapsed == old(outroElapsed) && outroStart == old(outroStart)
    }

    twostate predicate IntroUnchanged()
      reads this
    {
      introPhase == old(introPhase) && introElapsed == old(introElapsed) && introStart == old(introStart)
    }

    /** Mounting the component at wall time `now`: the intro starts, the
      performance is set to play, nothing is anchored yet and every blend is at rest. */
    constructor (now: real)
      ensures Valid() && lastNow == now
      ensures playing && introPhase == ShowStart && introElapsed == 0.0 && introStart == now
      ensures outroPhase == NoOutro && anchor == None && pauseTime == 0.0 && currentTime == 0.0
      ensures angryBlend == 0.0 && grinBlend == 0.0 && headYaw == 0.0 && headPitch == 0.0
      ensures zoom == DefaultZoom
    {
      playing := true;
      introPhase, introElapsed, introStart := ShowStart, 0.0, now;
      outroPhase, outroElapsed, outroStart := NoOutro, 0.0, now;
      anchor, pauseTime, currentTime := None, 0.0, 0.0;
      angryBlend, grinBlend := 0.0, 0.0;
      headYaw, headPitch, zoom := 0.0, 0.0, DefaultZoom;
      lastNow := now;
    }

    /** One poll of the intro timer. While the intro runs it records the elapsed
        intro time and sets the phase for it; reaching the performance anchors
        the performance clock at `now` and starts the audio. Once the
        performance has begun no intro timer runs. The phase never goes back. */
    method IntroTick(now: real) returns (cue: AudioCue)
      requires Valid() && lastNow <= now
      modifies this
      ensures Valid() && lastNow == now
      ensures old(introPhase).Rank() <= introPhase.Rank()
      ensures old(introPhase) == Main ==> IntroUnchanged() && anchor == old(anchor) && cue == Silent
      ensures old(introPhase) != Main ==>
        introElapsed == (now - introStart) / 1000.0 && introPhase == IntroPhaseAt(introElapsed)
      ensures cue == PlayAudio <==> old(introPhase) != Main && introPhase == Main
      ensures cue == PlayAudio ==> anchor == Some(now) && now - introStart >= 6000.0
      ensures cue != PlayAudio ==> cue == Silent && anchor == old(anchor)
      ensures introStart == old(introStart) && playing == old(playing)
      ensures OutroUnchanged() && PoseUnchanged()
      ensures pauseTime == old(pauseTime) && currentTime == old(currentTime)
    {
      cue := Silent;
      if introPhase != Main {
        var elapsed := (now - introStart) / 1000.0;
        introElapsed := elapsed;
        introPhase := IntroPhaseAt(elapsed);
        if introPhase == Main {
          anchor := Some(now);
          cue := PlayAudio;
        }
      }
      lastNow := now;
    }

    /** One poll of the outro timer. The phase follows OutroNext; a change of
        phase restarts the timer at `now` (the timer is re-created for each
        phase), so the green static lasts 2.5 s from its own start. */
    method OutroTick(now: real)
      requires Valid() && lastNow <= now
      modifies this
      ensures Valid() && lastNow == now
      ensures old(outroPhase) == NoOutro || old(outroPhase) == EndScreen ==> OutroUnchanged()
      ensures old(outroPhase) != NoOutro && old(outroPhase) != EndScreen ==>
        outroElapsed == (now - old(outroStart)) / 1000.0 &&
        outroPhase == OutroNext(old(outroPhase), outroElapsed)
      ensures outroStart == (if outroPhase != old(outroPhase) then now else old(outroStart))
      ensures old(outroPhase).Rank() <= outroPhase.Rank()
      ensures IntroUnchanged() && PoseUnchanged() && playing == old(playing)
      ensures anchor == old(anchor) && pauseTime == old(pauseTime) && currentTime == old(currentTime)
    {
      if outroPhase != NoOutro && outroPhase != EndScreen {
        var elapsed := (now - outroStart) / 1000.0;
        outroElapsed := elapsed;
        var next := OutroNext(outroPhase, elapsed);
        if next != outroPhase {
          outroPhase := next;
          outroStart := now;
        }
      }
      lastNow := now;
    }

    /** Setting up the scene for the main view (on entering it and whenever the
        play state changes): the new camera and head start from their rest
        pose. The set-up also anchors the clock if it is unanchored; that never
        happens, because the intro poll that enters the main view has already
        anchored it (Valid), so the anchor is kept as it is. */
    method Mount(now: real)
      requires Valid() && lastNow <= now && InMainView()
      modifies this
      ensures Valid() && lastNow == now
      ensures anchor.Some? && anchor == old(anchor)
      ensures zoom == DefaultZoom && headYaw == 0.0 && headPitch == 0.0
      ensures angryBlend == old(angryBlend) && grinBlend == old(grinBlend)
      ensures IntroUnchanged() && OutroUnchanged() && playing == old(playing)
      ensures pauseTime == old(pauseTime) && currentTime == old(currentTime)
    {
      zoom, headYaw, headPitch := DefaultZoom, 0.0, 0.0;
      lastNow := now;
    }

    /** The pause/play button: flips the play state; the scene is then set up
        again (Mount). The clock is not touched here. */
    method TogglePause(now: real)
      requires Valid() && lastNow <= now && InMainView()
      modifies this
      ensures Valid() && lastNow == now && playing == !old(playing)
      ensures anchor.Some? && anchor == old(anchor)
      ensures zoom == DefaultZoom && headYaw == 0.0 && headPitch == 0.0
      ensures angryBlend == old(angryBlend) && grinBlend == old(grinBlend)
      ensures IntroUnchanged() && OutroUnchanged()
      ensures pauseTime == old(pauseTime) && currentTime == old(currentTime)
    {
      playing := !playing;
      Mount(now);
    }

    /** The reset button: back to the start of the intro, the clock anchor
        cleared, the audio paused and rewound. The play state, the frozen
        pause time and the blends are left as they are. */
    method Reset(now: real) returns (cue: AudioCue)
      requires Valid() && lastNow <= now && InMainView()
      modifies this
      ensures Valid() && lastNow == now && cue == PauseAndRewind
      ensures introPhase == ShowStart && introElapsed == 0.0 && introStart == now
      ensures outroPhase == NoOutro && outroElapsed == 0.0
      ensures anchor == None && currentTime == 0.0
      ensures playing == old(playing) && pauseTime == old(pauseTime) && PoseUnchanged()
    {
      introPhase, introElapsed, introStart := ShowStart, 0.0, now;
      outroPhase, outroElapsed := NoOutro, 0.0;
      anchor := None;
      currentTime := 0.0;
      cue := PauseAndRewind;
      lastNow := now;
    }

    /** The clock part of a frame. Playing: performance time is read from the
        anchor and remembered; reaching 126.25 s starts the outro (its timer at
        `now`) and pauses the audio. Paused: performance time is the frozen
        value and the anchor is moved so that it still lies that far behind
        `now`, which is what lets a later resume continue without a jump. */
    method ReadClock(now: real) returns (elapsed: real, cue: AudioCue)
      requires Valid() && lastNow <= now && InMainView()
      modifies this
      ensures Valid() && lastNow == now && playing == old(playing)
      ensures IntroUnchanged() && PoseUnchanged() && currentTime == elapsed && 0.0 <= elapsed
      ensures old(playing) ==> elapsed == (now - old(anchor).value) / 1000.0
      ensures old(playing) ==> pauseTime == elapsed && anchor == old(anchor)
      ensures !old(playing) ==> elapsed == old(pauseTime) && pauseTime == old(pauseTime)
      ensures !old(playing) ==> anchor == Some(now - pauseTime * 1000.0)
      ensures outroPhase == StaticWhite <==> old(playing) && elapsed >= OutroAt
      ensures outroPhase != StaticWhite ==> outroPhase == NoOutro && OutroUnchanged()
      ensures outroPhase == StaticWhite ==> outroElapsed == 0.0 && outroStart == now
      ensures cue == PauseAudio <==> outroPhase == StaticWhite
      ensures cue != PauseAudio ==> cue == Silent
    {
      cue := Silent;
      if playing {
        elapsed := (now - anchor.value) / 1000.0;
        pauseTime := elapsed;
        if elapsed >= OutroAt && outroPhase == NoOutro {
          outroPhase, outroElapsed, outroStart := StaticWhite, 0.0, now;
          cue := PauseAudio;
        }
      } else {
        elapsed := pauseTime;
        anchor := Some(now - pauseTime * 1000.0);
      }
      currentTime := elapsed;
      lastNow := now;
    }

    /** The pose part of a frame, given the behaviour flags at the current
        performance time: while playing, the jaw is set by the jaw rule and the
        angry, grin and head values take one smoothing step toward their
        targets; the zoom takes one step toward its schedule in either state. */
    method UpdatePose(elapsed: real, talking: bool, angry: bool, grinning: bool,
                      mouseX: real, mouseY: real, speech: real) returns (jaw: Option<real>)
      requires Valid()
      requires -1.0 <= mouseX <= 1.0 && -1.0 <= mouseY <= 1.0 && 0.0 <= speech <= 1.0
      modifies this`angryBlend, this`grinBlend, this`headYaw, this`headPitch, this`zoom
      ensures Valid()
      ensures playing ==>
        && jaw == Some(JawOpen(talking, grinning, speech))
        && angryBlend == Smooth(old(angryBlend), if angry then 1.0 else 0.0, AngryRate)
        && grinBlend == Smooth(old(grinBlend), if grinning then 1.0 else 0.0, GrinRate)
        && headYaw == Smooth(old(headYaw), YawTarget(mouseX), HeadFollowRate)
        && headPitch == Smooth(old(headPitch), PitchTarget(mouseY), HeadFollowRate)
      ensures !playing ==>
        && jaw == None
        && angryBlend == old(angryBlend) && grinBlend == old(grinBlend)
        && headYaw == old(headYaw) && headPitch == old(headPitch)
      ensures zoom == Smooth(old(zoom), ZoomTarget(elapsed), ZoomRate)
    {
      jaw := None;
      if playing {
        jaw := Some(JawOpen(talking, grinning, speech));
        SmoothKeepsUnit(angryBlend, angry, AngryRate);
        angryBlend := Smooth(angryBlend, if angry then 1.0 else 0.0, AngryRate);
        SmoothKeepsUnit(grinBlend, grinning, GrinRate);
        grinBlend := Smooth(grinBlend, if grinning then 1.0 else 0.0, GrinRate);
        headYaw := Smooth(headYaw, YawTarget(mouseX), HeadFollowRate);
        headPitch := Smooth(headPitch, PitchTarget(mouseY), HeadFollowRate);
      }
      zoom := Smooth(zoom, ZoomTarget(elapsed), ZoomRate);
    }

    /** One animation frame at wall time `now`, with the pointer at
        (mouseX, mouseY) in [-1, 1]^2 and the speech wave at `speech` in [0, 1]:
        read the clock, look up the behaviour flags and the cadence at that
        performance time, update the pose and hand the snapshot to the rig. */
    method Animate(now: real, mouseX: real, mouseY: real, speech: real)
      returns (cue: AudioCue, snap: Snapshot)
      requires Valid() && lastNow <= now && InMainView()
      requires -1.0 <= mouseX <= 1.0 && -1.0 <= mouseY <= 1.0 && 0.0 <= speech <= 1.0
      modifies this
      ensures Valid() && lastNow == now && playing == old(playing) && IntroUnchanged()
      // the clock
      ensures old(playing) ==> currentTime == (now - old(anchor).value) / 1000.0
      ensures old(playing) ==> pauseTime == currentTime && anchor == old(anchor)
      ensures !old(playing) ==> currentTime == old(pauseTime) && pauseTime == old(pauseTime)
      ensures !old(playing) ==> anchor == Some(now - pauseTime * 1000.0)
      // the hand-over to the outro
      ensures outroPhase == StaticWhite <==> old(playing) && currentTime >= OutroAt
      ensures outroPhase != StaticWhite ==> outroPhase == NoOutro && OutroUnchanged()
      ensures outroPhase == StaticWhite ==> outroElapsed == 0.0 && outroStart == now
      ensures cue == PauseAudio <==> outroPhase == StaticWhite
      ensures cue != PauseAudio ==> cue == Silent
      // what the frame shows
      ensures snap.elapsed == currentTime
      ensures snap.talking == InPeriod(currentTime, TalkingPeriods)
      ensures snap.angry == InPeriod(currentTime, AngryPeriods)
      ensures snap.grinning == InPeriod(currentTime, GrinPeriods)
      ensures snap.speed == TalkingSpeed(currentTime)
      ensures old(playing) ==>
        && snap.jaw == Some(JawOpen(snap.talking, snap.grinning, speech))
        && angryBlend == Smooth(old(angryBlend), if snap.angry then 1.0 else 0.0, AngryRate)
        && grinBlend == Smooth(old(grinBlend), if snap.grinning then 1.0 else 0.0, GrinRate)
        && headYaw == Smooth(old(headYaw), YawTarget(mouseX), HeadFollowRate)
        && headPitch == Smooth(old(headPitch), PitchTarget(mouseY), HeadFollowRate)
      ensures !old(playing) ==>
        && snap.jaw == None
        && angryBlend == old(angryBlend) && grinBlend == old(grinBlend)
        && headYaw == old(headYaw) && headPitch == old(headPitch)
      ensures zoom == Smooth(old(zoom), ZoomTarget(currentTime), ZoomRate)
      ensures snap.angryBlend == angryBlend && snap.grinBlend == grinBlend
      ensures snap.teethVisible == (old(playing) && TeethVisible(grinBlend))
      ensures snap.headYaw == headYaw && snap.headPitch == headPitch && snap.zoom == zoom
    {
      var elapsed;
      elapsed, cue := ReadClock(now);
      var talking := AnyCovers(elapsed, TalkingPeriods);
      var angry := AnyCovers(elapsed, AngryPeriods);
      var grinning := AnyCovers(elapsed, GrinPeriods);
      SpeedTableSorted();
      var speed := ScanSpeed(SpeedTransitions, elapsed);
      var jaw := UpdatePose(elapsed, talking, angry, grinning, mouseX, mouseY, speech);
      snap := Snapshot(elapsed, talking, angry, grinning, speed, jaw,
                       angryBlend, grinBlend, playing && TeethVisible(grinBlend), headYaw, headPitch, zoom);
    }
  }
}
