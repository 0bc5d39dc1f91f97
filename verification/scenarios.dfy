/** Whole runs of the engine, from mounting the component on: what a sequence
    of timer polls, frames and button presses leads to. Times are wall-clock
    milliseconds; t0 is when the component mounts. */
module Scenarios {
  import opened Periods
  import opened Blend
  import opened Phases
  import opened Stage

  /** From a fresh start: the poll at 6.01 s puts the engine in the
      performance and starts the audio; a frame 126.3 s of performance later
      hands over to the white static and pauses the audio. The outro timer is
      restarted when the green static begins, so 2.6 s into the outro the
      green static is still showing; the end screen comes 2.5 s after the
      green static began and then stays. */
  method FromMountToEndScreen(t0: real)
    returns (intro: IntroPhase, started: AudioCue, handOver: OutroPhase, stopped: AudioCue,
             at2600: OutroPhase, at3100: OutroPhase, later: OutroPhase)
    ensures intro == Main && started == PlayAudio
    ensures handOver == StaticWhite && stopped == PauseAudio
    ensures at2600 == StaticGreen && at3100 == EndScreen && later == EndScreen
  {
    var king := new TalkingKing(t0);
    var mainAt := t0 + 6010.0;
    started := king.IntroTick(mainAt);
    intro := king.introPhase;
    king.Mount(mainAt);
    var outroAt := mainAt + 126300.0;
    var snap;
    stopped, snap := king.Animate(outroAt, 0.0, 0.0, 0.5);
    handOver := king.outroPhase;
    king.OutroTick(outroAt + 550.0);
    assert king.outroPhase == StaticGreen && king.outroStart == outroAt + 550.0;
    king.OutroTick(outroAt + 2600.0);
    at2600 := king.outroPhase;
    king.OutroTick(outroAt + 3100.0);
    at3100 := king.outroPhase;
    king.OutroTick(outroAt + 60000.0);
    later := king.outroPhase;
  }

  /** Pausing freezes the displayed performance time, and resuming continues
      from the frozen value: the first frame after resuming is ahead of it only
      by the wall time since the last paused frame. */
  method PauseAndResume(t0: real, a: real, b: real, c: real, d: real, f: real)
    returns (before: real, frozen: real, resumed: real)
    requires t0 + 6000.0 <= a <= b <= c <= d <= f
    requires a - (t0 + 6000.0) < 126250.0
    ensures frozen == before
    ensures resumed == before + (f - c) / 1000.0
  {
    var king := new TalkingKing(t0);
    var cue := king.IntroTick(t0 + 6000.0);
    king.Mount(t0 + 6000.0);
    var snap;
    cue, snap := king.Animate(a, 0.0, 0.0, 0.0);
    before := snap.elapsed;
    king.TogglePause(b);
    cue, snap := king.Animate(c, 0.0, 0.0, 0.0);
    frozen := snap.elapsed;
    king.TogglePause(d);
    cue, snap := king.Animate(f, 0.0, 0.0, 0.0);
    resumed := snap.elapsed;
  }

  /** Reset while playing: once the intro has run again, the performance clock
      is anchored at the poll that ends the intro, so performance time starts
      again from 0 there. */
  method ResetWhilePlaying(t0: real, a: real, r: real, g: real, f: real)
    returns (before: real, after: real)
    requires t0 + 6000.0 <= a <= r && r + 6000.0 <= g <= f
    requires a - (t0 + 6000.0) < 126250.0
    ensures after == (f - g) / 1000.0
  {
    var king := new TalkingKing(t0);
    var cue := king.IntroTick(t0 + 6000.0);
    king.Mount(t0 + 6000.0);
    var snap;
    cue, snap := king.Animate(a, 0.0, 0.0, 0.0);
    before := snap.elapsed;
    cue := king.Reset(r);
    cue := king.IntroTick(g);
    king.Mount(g);
    cue, snap := king.Animate(f, 0.0, 0.0, 0.0);
    after := snap.elapsed;
  }

  /** Reset while paused: the play state and the frozen time survive the
      reset, so once the intro has run again the performance shows the time
      it was paused at, not 0. */
  method ResetWhilePaused(t0: real, a: real, b: real, c: real, r: real, g: real, f: real)
    returns (frozen: real, after: real)
    requires t0 + 6000.0 <= a <= b <= c <= r && r + 6000.0 <= g <= f
    requires a - (t0 + 6000.0) < 126250.0
    ensures after == frozen
    ensures frozen == (a - (t0 + 6000.0)) / 1000.0
  {
    var king := new TalkingKing(t0);
    var cue := king.IntroTick(t0 + 6000.0);
    king.Mount(t0 + 6000.0);
    var snap;
    cue, snap := king.Animate(a, 0.0, 0.0, 0.0);
    king.TogglePause(b);
    cue, snap := king.Animate(c, 0.0, 0.0, 0.0);
    frozen := snap.elapsed;
    cue := king.Reset(r);
    cue := king.IntroTick(g);
    king.Mount(g);
    cue, snap := king.Animate(f, 0.0, 0.0, 0.0);
    after := snap.elapsed;
  }

  /** Teeth only on playing frames: during the final grin (from 108 s) the
      first playing frame already shows the teeth; after pausing, the rebuilt
      scene keeps them hidden although the grin blend is unchanged. */
  method TeethHiddenWhilePaused(t0: real, a: real, b: real, c: real)
    returns (shownPlaying: bool, shownPaused: bool)
    requires t0 + 6000.0 + 108000.0 <= a <= b <= c
    requires a - (t0 + 6000.0) < 126250.0
    ensures shownPlaying && !shownPaused
  {
    var king := new TalkingKing(t0);
    var cue := king.IntroTick(t0 + 6000.0);
    king.Mount(t0 + 6000.0);
    var grin := king.grinBlend;
    var snap;
    cue, snap := king.Animate(a, 0.0, 0.0, 0.0);
    SentinelIntervals(snap.elapsed);
    TeethShowOnFirstGrinFrame(grin);
    shownPlaying := snap.teethVisible;
    king.TogglePause(b);
    cue, snap := king.Animate(c, 0.0, 0.0, 0.0);
    shownPaused := snap.teethVisible;
  }
}
