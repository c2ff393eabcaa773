/**
 * The `useResponsiveConfig` table: five fixed configurations, one per
 * screen category, of which only the mobile entry depends on a "modern
 * iOS" user-agent test.  Durations and delays are in hundredths of a
 * second (0.3 s is 30).  The screen category is an input here.
 */
module ResponsiveConfig {
  import Patterns

  datatype ScreenCategory = Mobile | Tablet | Laptop | Desktop | LargeDesktop

  datatype EffectComplexity = Minimal | Reduced | Normal | Enhanced

  datatype Config = Config(
    heroTitleSize: string,
    heroSubtitleSize: string,
    sectionTitleSize: string,
    bodyTextSize: string,
    sectionPadding: string,
    containerPadding: string,
    elementSpacing: string,
    maxWidth: string,
    gridGap: string,
    animationDuration: nat,
    animationDelay: nat,
    particleCount: nat,
    effectComplexity: EffectComplexity)

  /** Position of a category in the order mobile < ... < large-desktop. */
  function CategoryRank(c: ScreenCategory): nat
  {
    match c
    case Mobile => 0
    case Tablet => 1
    case Laptop => 2
    case Desktop => 3
    case LargeDesktop => 4
  }

  /** Position of a complexity level in the order minimal < reduced < normal < enhanced. */
  function ComplexityLevel(e: EffectComplexity): nat
  {
    match e
    case Minimal => 0
    case Reduced => 1
    case Normal => 2
    case Enhanced => 3
  }

  /** /iPhone1[2-9]/ */
  function IPhone12Plus(): Patterns.Pattern
  {
    Patterns.Literal("iPhone1") + [Patterns.Range('2', '9')]
  }

  /** /iPad/ */
  function IPad(): Patterns.Pattern
  {
    Patterns.Literal("iPad")
  }

  /** /Version\/1[4-9]/ */
  function Version14Plus(): Patterns.Pattern
  {
    Patterns.Literal("Version/1") + [Patterns.Range('4', '9')]
  }

  /** The modern-iOS test; `hasWindow` false is server-side rendering. */
  function IsModernIOS(hasWindow: bool, userAgent: string): (r: bool)
    ensures r <==> hasWindow &&
                   (Patterns.Occurs(userAgent, IPhone12Plus()) ||
                    (Patterns.Occurs(userAgent, IPad()) && Patterns.Occurs(userAgent, Version14Plus())))
  {
    hasWindow &&
    (Patterns.Contains(userAgent, IPhone12Plus()) ||
     (Patterns.Contains(userAgent, IPad()) && Patterns.Contains(userAgent, Version14Plus())))
  }

  /** The configuration table, for a given outcome of the modern-iOS test. */
  function ConfigFor(modernIOS: bool, c: ScreenCategory): (r: Config)
    ensures r.particleCount <= 80 <==> c == Mobile
    ensures r.effectComplexity == Minimal <==> c == Mobile && !modernIOS
    ensures r.animationDelay < r.animationDuration
  {
    match c
    case Mobile =>
      Config("text-3xl sm:text-4xl", "text-base sm:text-lg", "text-2xl sm:text-3xl",
             "text-sm sm:text-base", "py-16 sm:py-20", "px-4 sm:px-6",
             "space-y-4 sm:space-y-6", "max-w-none sm:max-w-2xl", "gap-4 sm:gap-6",
             30, 10,
             if modernIOS then 80 else 50,
             if modernIOS then Reduced else Minimal)
    case Tablet =>
      Config("text-4xl md:text-5xl", "text-lg md:text-xl", "text-3xl md:text-4xl",
             "text-base md:text-lg", "py-20 md:py-24", "px-6 md:px-8",
             "space-y-6 md:space-y-8", "max-w-3xl md:max-w-4xl", "gap-6 md:gap-8",
             40, 15, 100, Reduced)
    case Laptop =>
      Config("text-4xl lg:text-5xl xl:text-6xl", "text-lg lg:text-xl", "text-3xl lg:text-4xl",
             "text-base lg:text-lg", "py-20 lg:py-24", "px-6 lg:px-10",
             "space-y-6 lg:space-y-8", "max-w-3xl lg:max-w-4xl", "gap-6 lg:gap-8",
             40, 15, 120, Normal)
    case Desktop =>
      Config("text-6xl xl:text-7xl 2xl:text-8xl", "text-2xl xl:text-3xl", "text-5xl xl:text-6xl",
             "text-xl xl:text-2xl", "py-28 xl:py-32", "px-12 xl:px-16",
             "space-y-10 xl:space-y-12", "max-w-5xl xl:max-w-6xl", "gap-10 xl:gap-12",
             60, 25, 200, Enhanced)
    case LargeDesktop =>
      Config("text-7xl 2xl:text-8xl 3xl:text-9xl", "text-3xl 2xl:text-4xl", "text-6xl 2xl:text-7xl",
             "text-2xl 2xl:text-3xl", "py-32 2xl:py-40", "px-16 2xl:px-20",
             "space-y-12 2xl:space-y-16", "max-w-6xl 2xl:max-w-7xl", "gap-12 2xl:gap-16",
             80, 30, 300, Enhanced)
  }

  /**
   * What the hook returns for a category: the table entry, with the mobile
   * entry chosen by the modern-iOS test.
   */
  function Resolve(hasWindow: bool, userAgent: string, c: ScreenCategory): (r: Config)
    ensures c != Mobile ==> r == ConfigFor(false, c) && r == ConfigFor(true, c)
    ensures !hasWindow ==> r == ConfigFor(false, c)
    ensures c == Mobile ==> (r.particleCount == 80 <==> IsModernIOS(hasWindow, userAgent))
    ensures c == Mobile ==> (r.effectComplexity == Reduced <==> IsModernIOS(hasWindow, userAgent))
  {
    ConfigFor(IsModernIOS(hasWindow, userAgent), c)
  }

  /** The mobile entry: 80 particles and 'reduced' for modern iOS, else 50 and 'minimal'. */
  lemma MobileEntry(modernIOS: bool)
    ensures ConfigFor(modernIOS, Mobile).particleCount == (if modernIOS then 80 else 50)
    ensures ConfigFor(modernIOS, Mobile).effectComplexity == (if modernIOS then Reduced else Minimal)
  {
  }

  /** Only the mobile entry depends on the modern-iOS test. */
  lemma OnlyMobileDependsOnIOS(c: ScreenCategory)
    requires c != Mobile
    ensures ConfigFor(true, c) == ConfigFor(false, c)
  {
  }

  /** Particle counts strictly increase along the categories, whatever each side's iOS test says. */
  lemma ParticleCountStrictlyIncreases(m1: bool, c1: ScreenCategory, m2: bool, c2: ScreenCategory)
    requires CategoryRank(c1) < CategoryRank(c2)
    ensures ConfigFor(m1, c1).particleCount < ConfigFor(m2, c2).particleCount
  {
  }

  /** Effect complexity never decreases along the categories. */
  lemma ComplexityNeverDecreases(m: bool, c1: ScreenCategory, c2: ScreenCategory)
    requires CategoryRank(c1) <= CategoryRank(c2)
    ensures ComplexityLevel(ConfigFor(m, c1).effectComplexity) <= ComplexityLevel(ConfigFor(m, c2).effectComplexity)
  {
  }

  /** Animation duration and delay never decrease along the categories. */
  lemma TimingNeverDecreases(m1: bool, c1: ScreenCategory, m2: bool, c2: ScreenCategory)
    requires CategoryRank(c1) <= CategoryRank(c2)
    ensures ConfigFor(m1, c1).animationDuration <= ConfigFor(m2, c2).animationDuration
    ensures ConfigFor(m1, c1).animationDelay <= ConfigFor(m2, c2).animationDelay
  {
  }

  /** The modern-iOS bump raises mobile complexity by exactly one level and not past tablet's. */
  lemma ModernIOSBumpIsOneStep(m: bool)
    ensures ComplexityLevel(ConfigFor(true, Mobile).effectComplexity)
            == ComplexityLevel(ConfigFor(false, Mobile).effectComplexity) + 1
    ensures ComplexityLevel(ConfigFor(true, Mobile).effectComplexity)
            <= ComplexityLevel(ConfigFor(m, Tablet).effectComplexity)
  {
  }

  /** An iPhone 14 user agent passes the modern-iOS test; with no window nothing does. */
  lemma IPhone14IsModern(ua: string)
    requires ua == "Mozilla/5.0 (iPhone14,2; CPU iPhone OS 16_0)"
    ensures IsModernIOS(true, ua)
    ensures !IsModernIOS(false, ua)
  {
    assert Patterns.MatchesAt(ua, IPhone12Plus(), 13);
  }
}
