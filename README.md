# Hooks of a Next.js landing page, modelled in Dafny

The site is a presentational landing page. Its only logic lives in four
React hooks under `src/app/hooks/`. This project models those four rules and
proves what each one promises:

- **Device classification** (`useDeviceDetection`, module `DeviceDetection`).
  One detection pass turns the environment readings into a `DeviceInfo`
  record. The readings are viewport width, device memory, core count, user
  agent, the WebGL probe, the reduced-motion query and the optional network
  connection. The pass uses three closed-open width classes (below 768,
  768 to 1023, 1024 and up). Missing or zero memory and core counts become 4.
  A device is low-end when any of four triggers holds, and the connection
  speed is classified three ways. `Classify` is the pass as a pure function.
  `DeviceDetector` holds the hook's state: `Detect` replaces the whole record,
  or keeps it when there is no window.
- **Responsive config** (`useResponsiveConfig`, module `ResponsiveConfig`).
  A table of five configurations, one per screen category. A "modern iOS"
  user-agent test changes only the mobile entry. Durations and delays are in
  hundredths of a second. The lemmas prove that particle count, effect
  complexity and timing are monotone along the categories.
- **Frame-rate monitor** (`usePerformanceMonitor`, module `PerformanceMonitor`).
  `FpsMonitor` holds the frame counter, the window start and the published
  metrics. Each `Tick` counts one frame. Once at least 1000 ms have passed, it
  publishes `round(frames * 1000 / elapsed)` and its two thresholds, then
  starts a new window. `Math.round` is round-half-up on the exact quotient.
- **Throttle** (`useThrottledScroll`, module `ThrottledScroll`). A `Throttle`
  object holds `lastCall` and at most one pending trailing timer. It reacts
  to `Call(now)` and `TimerFires(t)` events. A ghost log records every time
  the callback runs.

The user-agent regular expressions are modelled as patterns of character
classes in module `Patterns`. Each test has two definitions. One is a ghost
existential over positions, used as the reference. The other is an executable
search, proved equal to it. The `.` in `/Android.*Chrome/` matches anything
except a line terminator.

Behaviour the code does not have:

- There are only three width classes, split at 768 and 1024 px. There is no
  1440 px or 1920 px breakpoint, and nothing maps a width to the five screen
  categories of the config table.
- Every mobile-width device is low-end. No modern iPhone or other capable
  phone is exempted (`MobileWidthIsLowEnd`).
- There is no render-tier selector choosing between a WebGL scene and fallbacks.
- `DeviceInfo` declares no `screenCategory` field
  (src/app/hooks/useDeviceDetection.ts:5-15). As written,
  `Record<typeof deviceInfo.screenCategory, ...>`
  (src/app/hooks/useResponsiveConfig.ts:40) does not type-check. At run time
  `deviceInfo.screenCategory` is `undefined`, so
  `configs[deviceInfo.screenCategory]` (src/app/hooks/useResponsiveConfig.ts:123)
  returns `undefined` on every call. The table is only usable with a real
  category, so `Resolve` takes the category as an input.

## Model

| member | source | states |
|---|---|---|
| `Patterns.Contains` | src/app/hooks/useResponsiveConfig.ts:35-36 | the executable search for a pattern finds a match exactly when a matching position exists |
| `Patterns.ContainsThenOnLine` | src/app/hooks/useDeviceDetection.ts:50 | the executable search for `p.*q` succeeds exactly when `p` occurs, followed later by `q` with no line terminator between them |
| `DeviceDetection.MemoryOrDefault` | src/app/hooks/useDeviceDetection.ts:42 | missing memory and zero memory both become 4; any other reading is kept; the result is never 0 |
| `DeviceDetection.ConcurrencyOrDefault` | src/app/hooks/useDeviceDetection.ts:43 | a missing or zero core count becomes 4; any other count is kept; the result is never 0 |
| `DeviceDetection.IsAndroidChrome` | src/app/hooks/useDeviceDetection.ts:50 | true exactly when the user agent has "Android" followed on the same line by "Chrome" |
| `DeviceDetection.SpeedOf` | src/app/hooks/useDeviceDetection.ts:61-67 | no connection gives Unknown; slow-2g, 2g and 3g give Slow; every other effective type gives Fast; each in both directions |
| `DeviceDetection.Classify` | src/app/hooks/useDeviceDetection.ts:36-79 | the three width classes by breakpoint; deviceMemory and cores are the defaulted readings; isLowEnd holds iff memory <= 2, cores <= 2, mobile width, or Android-then-Chrome; the other fields copy the probes; the record is well formed |
| `DeviceDetection.Initial` | src/app/hooks/useDeviceDetection.ts:18-28 | the initial record is desktop, not low-end, WebGL, no reduced motion, Unknown, memory 4, cores 4, and well formed |
| `DeviceDetection.InitialIsSilentDesktopPass` | src/app/hooks/useDeviceDetection.ts:18-28 | the initial record equals a detection pass over a desktop-width browser that reports no memory, cores, user agent or connection |
| `DeviceDetection.ExactlyOneWidthClass` | src/app/hooks/useDeviceDetection.ts:36-39 | for every width exactly one of isMobile, isTablet, isDesktop holds |
| `DeviceDetection.BreakpointEdges` | src/app/hooks/useDeviceDetection.ts:37-39 | 767 is mobile, 768 and 1023 are tablet, 1024 is desktop |
| `DeviceDetection.UnknownOnlyWithoutConnection` | src/app/hooks/useDeviceDetection.ts:61-67 | a pass reports 'unknown' speed exactly when there is no connection object |
| `DeviceDetection.LowMemoryIsLowEnd` | src/app/hooks/useDeviceDetection.ts:46-47 | a positive memory reading of at most 2 makes the device low-end, whatever else holds |
| `DeviceDetection.CapableWideDeviceIsNotLowEnd` | src/app/hooks/useDeviceDetection.ts:42-50 | at width 768 or more, with defaulted memory > 2 and defaulted cores > 2 (missing readings count as 4) and no Android-then-Chrome, the device is not low-end |
| `DeviceDetection.AndroidChromeIsLowEnd` | src/app/hooks/useDeviceDetection.ts:50 | the user agent "Mozilla/5.0 (Linux; Android 10) Chrome/120" alone makes the device low-end, whatever the width, memory and cores |
| `DeviceDetection.MobileWidthIsLowEnd` | src/app/hooks/useDeviceDetection.ts:49 | every mobile-width device is low-end |
| `DeviceDetection.DeviceDetector.constructor` | src/app/hooks/useDeviceDetection.ts:18-28 | the hook's state starts as the initial record |
| `DeviceDetection.DeviceDetector.Detect` | src/app/hooks/useDeviceDetection.ts:31-80 | with no window the record is unchanged; otherwise it is replaced wholesale by the classification of the environment, so two passes over one environment leave the same record; well-formedness is kept |
| `ResponsiveConfig.IsModernIOS` | src/app/hooks/useResponsiveConfig.ts:34-37 | true iff there is a window and the user agent has "iPhone1" then a digit 2-9, or has "iPad" and "Version/1" then a digit 4-9 |
| `ResponsiveConfig.ConfigFor` | src/app/hooks/useResponsiveConfig.ts:40-121 | the body is the table of :41-120 field for field; the ensures state that only the mobile entry has at most 80 particles, that 'minimal' occurs only in the mobile entry without modern iOS, and that every entry's delay is shorter than its duration (monotonicity is in the table lemmas below) |
| `ResponsiveConfig.Resolve` | src/app/hooks/useResponsiveConfig.ts:40-123 | non-mobile categories get their fixed entry whatever the user agent; with no window the baseline table applies; the mobile entry has 80 particles and 'reduced' exactly when the iOS test holds |
| `ResponsiveConfig.MobileEntry` | src/app/hooks/useResponsiveConfig.ts:54-55 | the mobile entry has 80 particles and 'reduced' with modern iOS, otherwise 50 and 'minimal' |
| `ResponsiveConfig.OnlyMobileDependsOnIOS` | src/app/hooks/useResponsiveConfig.ts:58-120 | tablet, laptop, desktop and large-desktop entries do not depend on the iOS test |
| `ResponsiveConfig.ParticleCountStrictlyIncreases` | src/app/hooks/useResponsiveConfig.ts:54-118 | particle count strictly increases along the categories, whatever the iOS test says on either side |
| `ResponsiveConfig.ComplexityNeverDecreases` | src/app/hooks/useResponsiveConfig.ts:55-119 | effect complexity never decreases along the categories, under minimal < reduced < normal < enhanced |
| `ResponsiveConfig.TimingNeverDecreases` | src/app/hooks/useResponsiveConfig.ts:51-117 | animation duration and delay never decrease along the categories |
| `ResponsiveConfig.ModernIOSBumpIsOneStep` | src/app/hooks/useResponsiveConfig.ts:55-71 | the modern-iOS bump raises mobile complexity by exactly one level and never above tablet's |
| `ResponsiveConfig.IPhone14IsModern` | src/app/hooks/useResponsiveConfig.ts:34-35 | an "iPhone14,2" user agent passes the iOS test when there is a window, and fails it when there is none |
| `PerformanceMonitor.RoundDiv` | src/app/hooks/usePerformanceMonitor.ts:31 | the result is the integer nearest n/d, with halves rounded up |
| `PerformanceMonitor.WindowFps` | src/app/hooks/usePerformanceMonitor.ts:30-31 | a window of at least 1000 ms reports the rounded frames-per-second, never more than the frames counted |
| `PerformanceMonitor.FpsAtMostFrames` | src/app/hooks/usePerformanceMonitor.ts:30-31 | a rate rounded from a window of at least a second cannot exceed the frame count |
| `PerformanceMonitor.MetricsFor` | src/app/hooks/usePerformanceMonitor.ts:32-39 | good iff fps >= 30, reduce iff fps < 20, hence reduce implies not good |
| `PerformanceMonitor.InitialMetrics` | src/app/hooks/usePerformanceMonitor.ts:12-16 | the initial metrics are fps 60, good, no reduction |
| `PerformanceMonitor.InitialMetricsAreSixtyFps` | src/app/hooks/usePerformanceMonitor.ts:12-16 | the initial metrics are those a 60 fps window publishes |
| `PerformanceMonitor.FifteenFramesInOneSecond` | src/app/hooks/usePerformanceMonitor.ts:31-33 | 15 frames over exactly 1000 ms give fps 15, not good, reduce |
| `PerformanceMonitor.FortyFiveFramesInOneSecond` | src/app/hooks/usePerformanceMonitor.ts:31-33 | 45 frames over exactly 1000 ms give fps 45, good, no reduction |
| `PerformanceMonitor.OneSecondWindowIsFrameCount` | src/app/hooks/usePerformanceMonitor.ts:31 | a window of exactly 1000 ms reports its frame count as the rate |
| `PerformanceMonitor.FpsMonitor.constructor` | src/app/hooks/usePerformanceMonitor.ts:12-23 | sampling starts with 0 frames, the window opening now, and the initial metrics |
| `PerformanceMonitor.FpsMonitor.Tick` | src/app/hooks/usePerformanceMonitor.ts:25-44 | a tick adds one frame; below 1000 ms elapsed, startTime and metrics are unchanged; at or above, all three metrics are overwritten from that window's rate (never above its frames), frames becomes 0 and startTime the current time |
| `ThrottledScroll.DeferredWait` | src/app/hooks/useThrottledScroll.ts:23 | the deferred wait is positive, at most one delay when lastCall <= now, and ends one delay after lastCall |
| `ThrottledScroll.Throttle.constructor` | src/app/hooks/useThrottledScroll.ts:5-7 | lastCall 0, no timer pending, no run recorded |
| `ThrottledScroll.Throttle.Call` | src/app/hooks/useThrottledScroll.ts:9-24 | at least one delay since lastCall: the callback runs now, lastCall becomes now, and a pending timer is left alone; otherwise nothing runs, and the single pending timer is replaced by one due at lastCall + delay |
| `ThrottledScroll.Throttle.TimerFires` | src/app/hooks/useThrottledScroll.ts:20-22 | the pending timer fires: the callback runs exactly once, lastCall becomes the firing time, and no timer is pending |
| `ThrottledScroll.SuppressedCallsShareDueTime` | src/app/hooks/useThrottledScroll.ts:20-23 | every suppressed call after one run schedules the same due time |
| `ThrottledScroll.FirstCallRunsAtOnce` | src/app/hooks/useThrottledScroll.ts:5-14 | with the default delay 16 and a clock reading of at least 16, the first call runs the callback at once, sets lastCall to now and leaves no timer pending |
| `ThrottledScroll.ImmediateCallKeepsTimer` | src/app/hooks/useThrottledScroll.ts:12-23 | a suppressed call's timer survives a later immediate run, and its firing brings the number of runs to three |

## Left out

- Browser queries are plain inputs: `innerWidth`, `navigator.deviceMemory`, `hardwareConcurrency`, `userAgent`, `connection`, the canvas WebGL probe and `matchMedia`. The resize listener and its removal are left out too; each resize is one more `Detect` call.
- `DeviceDetection.MemoryOrDefault`: a NaN reading, which `|| 4` also turns into 4, is not modelled, because reals have no NaN.
- `ResponsiveConfig.Resolve`: the lookup reads a screen category that `DeviceInfo` does not declare. The category is an input, and nothing maps a width to one of the five categories.
- `useResponsiveConfig` calls `useDeviceDetection` itself. That nesting is not modelled.
- `requestAnimationFrame`, the `performance.now` clock, `setTimeout`, `clearTimeout` and `Date.now` become explicit events with integer-millisecond times. Real scheduling is not modelled.
- `PerformanceMonitor.FpsMonitor.Tick`: sub-millisecond readings of `performance.now` and floating-point division are not modelled. The fps is the exact rational rounded half up.
- The monitor's cleanup is not modelled and nothing is claimed about it. It cancels only the first frame request. The frames requested later by the loop are never cancelled.
- The no-window early return of the monitor is not modelled. It means no `Tick` ever happens.
- `ThrottledScroll.Throttle.constructor`: `delay` is a `nat`. Negative and fractional delays are not modelled. The default delay 16 is the constant `DefaultDelay`.
- `ThrottledScroll.Throttle`: one object stands for one (callback, delay) pair. The hook rebuilds its throttled function when the callback or the delay changes between renders, while the `lastCall` and `timeoutRef` refs are kept and a pending timer still runs the old closure. That case is not modelled.
- `ThrottledScroll.Throttle.TimerFires`: the timer fires only while one is pending and at or after its due time. The browser's lateness and its clamping of timer delays are not modelled.
- The stale handle that `timeoutRef` keeps after its timer has fired is not modelled. Clearing it later has no effect.
- Pattern matching treats `char` as a Unicode scalar value, while JavaScript regular expressions without the `u` flag read UTF-16 code units. For user-agent strings this makes no difference.
- The scroll pipeline is framer-motion's `useScroll`, `useSpring` and `useTransform` in the page and its components (src/app/page.tsx, src/app/components/AnimatedBackground.tsx, src/app/components/ParallaxSection.tsx). It is library-driven and float-based, so it is not modelled.
- Left out because they are presentational or library-driven: the page markup, the animated and parallax components, the three.js background, the layout and the Open Graph image.
