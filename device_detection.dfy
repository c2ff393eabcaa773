/**
 * Device classification of the `useDeviceDetection` hook.  One detection
 * pass turns the environment readings (viewport width, device memory,
 * logical core count, user agent, the WebGL probe, the reduced-motion media
 * query and the optional network connection) into a DeviceInfo record; the
 * hook's state is replaced by that record, or kept when there is no window.
 */
module DeviceDetection {
  import opened Options
  import Patterns

  datatype ConnectionSpeed = Slow | Fast | Unknown

  datatype DeviceInfo = DeviceInfo(
    isMobile: bool,
    isTablet: bool,
    isDesktop: bool,
    isLowEnd: bool,
    supportsWebGL: bool,
    hasReducedMotion: bool,
    connectionSpeed: ConnectionSpeed,
    deviceMemory: real,
    hardwareConcurrency: int)

  /** `navigator.connection`, when the browser has one. */
  datatype Connection = Connection(effectiveType: string)

  /**
   * What one detection pass reads.  `deviceMemory` and `hardwareConcurrency`
   * are None when the browser does not report them; `webglContext` says
   * whether either WebGL context could be acquired.
   */
  datatype Env = Env(
    innerWidth: int,
    deviceMemory: Option<real>,
    hardwareConcurrency: Option<int>,
    userAgent: string,
    webglContext: bool,
    prefersReducedMotion: bool,
    connection: Option<Connection>)

  const MobileBreakpoint: int := 768
  const DesktopBreakpoint: int := 1024
  const DefaultMemory: real := 4.0
  const DefaultConcurrency: int := 4
  const LowEndLimit: int := 2

  /** The effective types the hook counts as slow. */
  const SlowEffectiveTypes: set<string> := {"slow-2g", "2g", "3g"}

  /** `x || 4` on an optional memory reading: missing and 0 are both falsy. */
  function MemoryOrDefault(v: Option<real>): (r: real)
    ensures v.None? || v.value == 0.0 ==> r == DefaultMemory
    ensures v.Some? && v.value != 0.0 ==> r == v.value
    ensures r != 0.0
  {
    if v.Some? && v.value != 0.0 then v.value else DefaultMemory
  }

  /** `x || 4` on an optional core count. */
  function ConcurrencyOrDefault(v: Option<int>): (r: int)
    ensures v.None? || v.value == 0 ==> r == DefaultConcurrency
    ensures v.Some? && v.value != 0 ==> r == v.value
    ensures r != 0
  {
    if v.Some? && v.value != 0 then v.value else DefaultConcurrency
  }

  /** The regular expression /Android.*Chrome/. */
  function AndroidChromePattern(): (Patterns.Pattern, Patterns.Pattern)
  {
    (Patterns.Literal("Android"), Patterns.Literal("Chrome"))
  }

  /** Whether the user agent shows "Android" and, later on the same line, "Chrome". */
  function IsAndroidChrome(ua: string): (r: bool)
    ensures r <==> Patterns.OccursThenOnLine(ua, AndroidChromePattern().0, AndroidChromePattern().1)
  {
    Patterns.ContainsThenOnLine(ua, AndroidChromePattern().0, AndroidChromePattern().1)
  }

  /** The three-way connection classification. */
  function SpeedOf(connection: Option<Connection>): (r: ConnectionSpeed)
    ensures r == Unknown <==> connection.None?
    ensures r == Slow <==> connection.Some? && connection.value.effectiveType in SlowEffectiveTypes
    ensures r == Fast <==> connection.Some? && connection.value.effectiveType !in SlowEffectiveTypes
  {
    match connection
    case None => Unknown
    case Some(c) => if c.effectiveType in SlowEffectiveTypes then Slow else Fast
  }

  /**
   * The invariant every record the hook can hold satisfies: exactly one
   * width class, reported readings never the falsy 0, and the low-end flag
   * implied by each of its memory, core and width triggers.
   */
  ghost predicate WellFormed(d: DeviceInfo)
  {
    (d.isMobile || d.isTablet || d.isDesktop) &&
    !(d.isMobile && d.isTablet) && !(d.isMobile && d.isDesktop) && !(d.isTablet && d.isDesktop) &&
    d.deviceMemory != 0.0 && d.hardwareConcurrency != 0 &&
    (d.deviceMemory <= LowEndLimit as real ==> d.isLowEnd) &&
    (d.hardwareConcurrency <= LowEndLimit ==> d.isLowEnd) &&
    (d.isMobile ==> d.isLowEnd)
  }

  /** One detection pass on a browser environment. */
  function Classify(env: Env): (d: DeviceInfo)
    ensures d.isMobile <==> env.innerWidth < MobileBreakpoint
    ensures d.isTablet <==> MobileBreakpoint <= env.innerWidth < DesktopBreakpoint
    ensures d.isDesktop <==> DesktopBreakpoint <= env.innerWidth
    ensures d.deviceMemory == MemoryOrDefault(env.deviceMemory)
    ensures d.hardwareConcurrency == ConcurrencyOrDefault(env.hardwareConcurrency)
    ensures d.isLowEnd <==>
              d.deviceMemory <= LowEndLimit as real || d.hardwareConcurrency <= LowEndLimit ||
              d.isMobile ||
              Patterns.OccursThenOnLine(env.userAgent, AndroidChromePattern().0, AndroidChromePattern().1)
    ensures d.supportsWebGL == env.webglContext
    ensures d.hasReducedMotion == env.prefersReducedMotion
    ensures d.connectionSpeed == SpeedOf(env.connection)
    ensures WellFormed(d)
  {
    var width := env.innerWidth;
    var isMobile := width < MobileBreakpoint;
    var isTablet := width >= MobileBreakpoint && width < DesktopBreakpoint;
    var isDesktop := width >= DesktopBreakpoint;
    var memory := MemoryOrDefault(env.deviceMemory);
    var cores := ConcurrencyOrDefault(env.hardwareConcurrency);
    var isLowEnd :=
      memory <= LowEndLimit as real ||
      cores <= LowEndLimit ||
      isMobile ||
      IsAndroidChrome(env.userAgent);
    DeviceInfo(isMobile, isTablet, isDesktop, isLowEnd, env.webglContext,
               env.prefersReducedMotion, SpeedOf(env.connection), memory, cores)
  }

  /** The record the hook holds before its first detection pass. */
  function Initial(): (d: DeviceInfo)
    ensures WellFormed(d)
    ensures d.isDesktop && !d.isLowEnd && d.supportsWebGL && !d.hasReducedMotion
    ensures d.connectionSpeed == Unknown
    ensures d.deviceMemory == DefaultMemory && d.hardwareConcurrency == DefaultConcurrency
  {
    DeviceInfo(false, false, true, false, true, false, Unknown, 4.0, 4)
  }

  /**
   * A desktop-width browser that reports nothing optional: no memory, no
   * core count, an empty user agent, no connection object.
   */
  function SilentDesktop(width: int): Env
  {
    Env(width, None, None, "", true, false, None)
  }

  /** The initial record is exactly what a pass over a silent desktop browser yields. */
  lemma InitialIsSilentDesktopPass(width: int)
    requires width >= DesktopBreakpoint
    ensures Classify(SilentDesktop(width)) == Initial()
  {
    Patterns.NothingInEmpty(AndroidChromePattern().0, AndroidChromePattern().1);
  }

  /** Whatever the width, exactly one of the three width classes holds. */
  lemma ExactlyOneWidthClass(env: Env)
    ensures var d := Classify(env);
            (if d.isMobile then 1 else 0) + (if d.isTablet then 1 else 0) + (if d.isDesktop then 1 else 0) == 1
  {
  }

  /** The breakpoints are closed-open: 767 and 768, 1023 and 1024 fall on different sides. */
  lemma BreakpointEdges(env: Env)
    ensures env.innerWidth == 767 ==> Classify(env).isMobile
    ensures env.innerWidth == 768 ==> Classify(env).isTablet
    ensures env.innerWidth == 1023 ==> Classify(env).isTablet
    ensures env.innerWidth == 1024 ==> Classify(env).isDesktop
  {
  }

  /** 'unknown' is reported exactly when no connection object exists. */
  lemma UnknownOnlyWithoutConnection(env: Env)
    ensures Classify(env).connectionSpeed == Unknown <==> env.connection.None?
  {
  }

  /** Memory alone triggers the low-end flag, whatever the user agent and width. */
  lemma LowMemoryIsLowEnd(env: Env)
    requires env.deviceMemory.Some? && 0.0 < env.deviceMemory.value <= 2.0
    ensures Classify(env).isLowEnd
  {
  }

  /**
   * A tablet- or desktop-width device whose memory and core count (after
   * defaulting) exceed 2, and that is not Android Chrome, is not low-end.
   */
  lemma CapableWideDeviceIsNotLowEnd(env: Env)
    requires env.innerWidth >= MobileBreakpoint
    requires MemoryOrDefault(env.deviceMemory) > 2.0
    requires ConcurrencyOrDefault(env.hardwareConcurrency) > 2
    requires !IsAndroidChrome(env.userAgent)
    ensures !Classify(env).isLowEnd
  {
  }

  /**
   * The user agent "Mozilla/5.0 (Linux; Android 10) Chrome/120" alone
   * triggers the low-end flag, whatever the width, memory and cores.
   */
  lemma AndroidChromeIsLowEnd(env: Env)
    requires env.userAgent == "Mozilla/5.0 (Linux; Android 10) Chrome/120"
    ensures Classify(env).isLowEnd
  {
    var ua := env.userAgent;
    var (p, q) := AndroidChromePattern();
    assert Patterns.MatchesAt(ua, p, 20);
    assert Patterns.MatchesAt(ua, q, 32);
    assert Patterns.OnOneLine(ua, 27, 32);
  }

  /**
   * Every mobile-width device is low-end, whatever its memory, cores and
   * user agent: there is no exemption for capable phones.
   */
  lemma MobileWidthIsLowEnd(env: Env)
    requires env.innerWidth < MobileBreakpoint
    ensures Classify(env).isLowEnd
  {
  }

  /** The hook's `deviceInfo` state. */
  class DeviceDetector {
    var info: DeviceInfo

    ghost predicate Valid()
      reads this
    {
      WellFormed(info)
    }

    constructor ()
      ensures Valid() && info == Initial()
    {
      info := Initial();
    }

    /**
     * One detection pass (on mount and on every resize).  With no window
     * (`env` None) the pass returns early and the record is kept;
     * otherwise the whole record is replaced at once.
     */
    method Detect(env: Option<Env>)
      requires Valid()
      modifies this
      ensures Valid()
      ensures env.None? ==> info == old(info)
      ensures env.Some? ==> info == Classify(env.value)
    {
      if env.None? {
        return;
      }
      info := Classify(env.value);
    }
  }
}
