/**
 * The frame-rate monitor of `usePerformanceMonitor`: every animation frame
 * counts one frame, and once at least a second has passed since the window
 * started the monitor publishes the rounded frame rate with its two
 * thresholds and starts a new window.  Time is in whole milliseconds.
 */
module PerformanceMonitor {

  datatype Metrics = Metrics(fps: nat, isPerformanceGood: bool, shouldReduceAnimations: bool)

  const WindowMs: nat := 1000
  const GoodFps: nat := 30
  const ReduceFps: nat := 20

  /** `Math.round(n / d)` for n >= 0: the nearest integer, a half rounded up. */
  function RoundDiv(n: nat, d: nat): (r: nat)
    requires d > 0
    ensures 2 * r * d <= 2 * n + d < 2 * r * d + 2 * d
  {
    (2 * n + d) / (2 * d)
  }

  /** The frame rate of a window of `frames` frames over `elapsed` ms. */
  function WindowFps(frames: nat, elapsed: nat): (fps: nat)
    requires elapsed >= WindowMs
    ensures fps <= frames
    ensures 2 * fps * elapsed <= 2 * frames * WindowMs + elapsed < 2 * fps * elapsed + 2 * elapsed
  {
    var r := RoundDiv(frames * WindowMs, elapsed);
    FpsAtMostFrames(frames, elapsed, r);
    r
  }

  /** A window of at least a second cannot report more frames per second than it counted. */
  lemma FpsAtMostFrames(frames: nat, elapsed: nat, r: nat)
    requires elapsed >= WindowMs
    requires 2 * r * elapsed <= 2 * frames * WindowMs + elapsed
    ensures r <= frames
  {
    if r >= frames + 1 {
      calc {
        2 * frames * WindowMs + elapsed;
      >= 2 * r * elapsed;
      >= { MulMono(r, frames + 1, 2 * elapsed); }
        2 * (frames + 1) * elapsed;
      == 2 * frames * elapsed + 2 * elapsed;
      >= { MulMono(elapsed, WindowMs, 2 * frames); }
        2 * frames * WindowMs + 2 * elapsed;
      }
    }
  }

  lemma MulMono(a: nat, b: nat, c: nat)
    requires a >= b
    ensures a * c >= b * c
  {
  }

  /** The record published for a frame rate. */
  function MetricsFor(fps: nat): (m: Metrics)
    ensures m.fps == fps
    ensures m.isPerformanceGood <==> fps >= GoodFps
    ensures m.shouldReduceAnimations <==> fps < ReduceFps
    ensures m.shouldReduceAnimations ==> !m.isPerformanceGood
  {
    Metrics(fps, fps >= GoodFps, fps < ReduceFps)
  }

  /** The metrics before the first window closes. */
  function InitialMetrics(): (m: Metrics)
    ensures m.fps == 60 && m.isPerformanceGood && !m.shouldReduceAnimations
  {
    Metrics(60, true, false)
  }

  /** The initial metrics are those a 60 fps window would publish. */
  lemma InitialMetricsAreSixtyFps()
    ensures InitialMetrics() == MetricsFor(60)
  {
  }

  /** 15 frames over exactly one second: fps 15, not good, reduce. */
  lemma FifteenFramesInOneSecond()
    ensures WindowFps(15, 1000) == 15
    ensures !MetricsFor(WindowFps(15, 1000)).isPerformanceGood
    ensures MetricsFor(WindowFps(15, 1000)).shouldReduceAnimations
  {
  }

  /** 45 frames over exactly one second: fps 45, good, no reduction. */
  lemma FortyFiveFramesInOneSecond()
    ensures WindowFps(45, 1000) == 45
    ensures MetricsFor(WindowFps(45, 1000)).isPerformanceGood
    ensures !MetricsFor(WindowFps(45, 1000)).shouldReduceAnimations
  {
  }

  /** A window of exactly one second reports its frame count unchanged. */
  lemma OneSecondWindowIsFrameCount(frames: nat)
    ensures WindowFps(frames, WindowMs) == frames
  {
    var r := WindowFps(frames, WindowMs);
    assert 2000 * r <= 2000 * frames + 1000 < 2000 * r + 2000;
  }

  /**
   * The sampling loop's state: the `frames` and `startTime` locals of the
   * `measure` closure and the hook's `metrics` state.
   */
  class FpsMonitor {
    var frames: nat
    var startTime: int
    var metrics: Metrics

    /** Published metrics always agree with their own fps. */
    ghost predicate Valid()
      reads this
    {
      metrics == MetricsFor(metrics.fps)
    }

    /** Sampling starts with no frames, the window opening at `now`. */
    constructor (now: int)
      ensures Valid()
      ensures frames == 0 && startTime == now && metrics == InitialMetrics()
    {
      frames := 0;
      startTime := now;
      metrics := InitialMetrics();
    }

    /** One `measure` call at `currentTime`. */
    method Tick(currentTime: int)
      requires Valid()
      modifies this
      ensures Valid()
      ensures currentTime - old(startTime) < WindowMs ==>
                frames == old(frames) + 1 && startTime == old(startTime) && metrics == old(metrics)
      ensures currentTime - old(startTime) >= WindowMs ==>
                frames == 0 && startTime == currentTime &&
                metrics == MetricsFor(WindowFps(old(frames) + 1, currentTime - old(startTime)))
      ensures currentTime - old(startTime) >= WindowMs ==> metrics.fps <= old(frames) + 1
    {
      frames := frames + 1;
      var elapsed := currentTime - startTime;
      if elapsed >= WindowMs {
        metrics := MetricsFor(WindowFps(frames, elapsed));
        frames := 0;
        startTime := currentTime;
      }
    }
  }
}
