/** The build-time feasibility check of the M7 build: the clock tree derived
    from the configuration, the datasheet ceiling table and the rejections
    the preprocessor raises with #error. The preprocessor computes in its
    widest integer type, so the arithmetic here is unbounded. */
module Feasibility {
  import opened ClockTypes
  import opened Frequency

  datatype Ceilings = Ceilings(sysclkMax: nat, ahbMax: nat, apbMax: nat)

  /** SYSCLK_FREQ_MAX, AHB_FREQ_MAX and APBx_FREQ_MAX per family. */
  function CeilingsOf(f: Family): (r: Ceilings)
    ensures r.ahbMax <= r.sysclkMax <= 550_000_000
    ensures r.apbMax * 2 == r.ahbMax
  {
    match f
    case Family480 => Ceilings(480_000_000, 240_000_000, 120_000_000)
    case Family550 => Ceilings(550_000_000, 275_000_000, 137_500_000)
    case FamilyA3B3 => Ceilings(280_000_000, 280_000_000, 140_000_000)
    case FamilyDefault => Ceilings(280_000_000, 140_000_000, 70_000_000)
  }

  /** The ceiling that applies to one stage of the tree. */
  function StageCeiling(f: Family, s: Stage): nat
  {
    match s
    case SysStage => CeilingsOf(f).sysclkMax
    case AhbStage => CeilingsOf(f).ahbMax
    case _ => CeilingsOf(f).apbMax
  }

  /** The preprocessor can evaluate every check: a division by zero in #if
      (an absent PLL node makes M and P read as 0) stops the build. */
  predicate Evaluable(c: Config)
  {
    c.pre.d1cpre > 0 && c.pre.hpre > 0 && c.pre.d2ppre1 > 0 && c.pre.d2ppre2 > 0
    && c.pre.d1ppre > 0 && c.pre.d3ppre > 0
    && (c.sysclkSrcPll ==>
          c.pll1.Some? && c.pll1.value.m > 0 && c.pll1.value.p > 0
          && (c.pllSrcHsi ==> c.hsiDivisor > 0))
    && (!c.sysclkSrcPll && c.sysclkSrcHsi ==> c.hsiDivisor > 0)
  }

  /** SYSCLKSRC_FREQ: precedence PLL > HSI > CSI > HSE; with no source the
      undefined macro reads as 0. */
  function SysclkSrcFreq(c: Config): nat
    requires Evaluable(c)
  {
    if c.sysclkSrcPll then
      PllOutFrequency(BuildPllSrcFreq(c), c.pll1.value.m, c.pll1.value.n, c.pll1.value.p)
    else if c.sysclkSrcHsi then c.hsiFreq / c.hsiDivisor
    else if c.sysclkSrcCsi then c.csiFreq
    else if c.sysclkSrcHse then c.hseFreq
    else 0
  }

  /** SYSCLK_FREQ, AHB_FREQ and APB1..APB4_FREQ. */
  function StageFreq(c: Config, s: Stage): (r: nat)
    requires Evaluable(c)
    ensures r <= SysclkSrcFreq(c)
  {
    var sysclk := BusClock(SysclkSrcFreq(c), c.pre.d1cpre);
    var ahb := BusClock(sysclk, c.pre.hpre);
    match s
    case SysStage => sysclk
    case AhbStage => ahb
    case Apb1Stage => BusClock(ahb, c.pre.d2ppre1)
    case Apb2Stage => BusClock(ahb, c.pre.d2ppre2)
    case Apb3Stage => BusClock(ahb, c.pre.d1ppre)
    case Apb4Stage => BusClock(ahb, c.pre.d3ppre)
  }

  /** The build of the M7 image succeeds: no #error of the feasibility block
      and of the D1CPRE check fires. */
  predicate Feasible(c: Config)
  {
    && Evaluable(c)
    && StageFreq(c, SysStage) <= CeilingsOf(c.family).sysclkMax
    && StageFreq(c, AhbStage) <= CeilingsOf(c.family).ahbMax
    && StageFreq(c, Apb1Stage) <= CeilingsOf(c.family).apbMax
    && StageFreq(c, Apb2Stage) <= CeilingsOf(c.family).apbMax
    && StageFreq(c, Apb3Stage) <= CeilingsOf(c.family).apbMax
    && StageFreq(c, Apb4Stage) <= CeilingsOf(c.family).apbMax
    && StageFreq(c, SysStage) == c.cyclesPerSec
    && c.pre.d1cpre <= 1
  }

  /** A feasible configuration keeps every stage of the tree under its
      family's ceiling, and any stage over its ceiling is rejected. */
  lemma FeasibleBoundsEveryStage(c: Config)
    ensures Feasible(c) ==> forall s :: StageFreq(c, s) <= StageCeiling(c.family, s)
    ensures Evaluable(c) && (exists s :: StageFreq(c, s) > StageCeiling(c.family, s)) ==> !Feasible(c)
  {
  }

  /** In a feasible configuration D1CPRE is 1, so SYSCLK is the selected
      source itself and equals the configured cycles per second; AHB is that
      divided by HPRE, every APB bus runs at most at AHB and AHB at most at SYSCLK. */
  lemma FeasibleChain(c: Config)
    requires Feasible(c)
    ensures c.pre.d1cpre == 1
    ensures SysclkSrcFreq(c) == c.cyclesPerSec == StageFreq(c, SysStage)
    ensures StageFreq(c, AhbStage) == BusClock(c.cyclesPerSec, c.pre.hpre)
    ensures StageFreq(c, AhbStage) <= StageFreq(c, SysStage)
    ensures forall s :: s != SysStage ==> StageFreq(c, s) <= StageFreq(c, AhbStage)
  {
    BusClockByOne(SysclkSrcFreq(c));
  }
}
