/** Vocabulary shared by the whole model of the STM32H7 clock-control driver:
    integer widths, error codes, the enumerations of the clock tree and the
    resolved build-time configuration the driver is compiled against. */
module ClockTypes {

  /** C's uint32_t. */
  type u32 = x: nat | x < 0x1_0000_0000

  const U32_MODULUS: nat := 0x1_0000_0000

  /** A bit position of a 32-bit register word. */
  type Bit = i: nat | i < 32

  /** A 32-bit register word, as the set of the positions of its 1 bits:
      | is union, & is intersection and & ~ is difference. */
  type Word = set<Bit>

  /** MHZ(1). */
  const MHZ: nat := 1_000_000

  /** Zephyr's errno values; the driver returns them negated. */
  const ENOTSUP: int := 134
  const ERANGE: int := 34

  datatype Option<T> = None | Some(value: T)

  /** A value, or a negative errno. */
  datatype Result<T> = Ok(value: T) | Err(code: int)

  /** The core the driver is built for. */
  datatype Core = M7 | M4

  /** The four rows of the datasheet ceiling table: H743/745/747/750/753
      (480 MHz), H723/725/735 (550 MHz), H7A3/H7B3 (280 MHz) and every other
      H7 part (280 MHz, default row). */
  datatype Family = Family480 | Family550 | FamilyA3B3 | FamilyDefault

  /** The fixed oscillators, in the order the driver starts them. */
  datatype Osc = HSE | HSI | CSI | LSI | LSE

  datatype PllUnit = PLL1 | PLL3
  datatype PllOutput = OutP | OutQ | OutR

  /** Values written to the PLL source multiplexer. */
  datatype PllSource = PllSrcNone | PllSrcHsi | PllSrcCsi | PllSrcHse

  /** System clock sources the switch can select (and the status it reports). */
  datatype SysClkSource = SysClkHsi | SysClkCsi | SysClkHse | SysClkPll1

  /** LL_RCC_PLLINPUTRANGE_* and LL_RCC_PLLVCORANGE_*. */
  datatype VcoInputRange = Range1To2 | Range2To4 | Range4To8 | Range8To16
  datatype VcoOutputRange = VcoMedium | VcoWide

  /** The prescaler stages: D1CPRE, HPRE, D2PPRE1, D2PPRE2, D1PPRE, D3PPRE. */
  datatype Stage = SysStage | AhbStage | Apb1Stage | Apb2Stage | Apb3Stage | Apb4Stage

  datatype VoltageScale = Scale0 | Scale1 | Scale2 | Scale3

  /** The bus whose enable register gates the hardware semaphore clock. */
  datatype HsemClockBus = HsemOnAhb2 | HsemOnAhb4

  /** One PLL node of the devicetree: divm, muln and the optional P/Q/R
      dividers. A divider that is absent is disabled and resolves to 1. */
  datatype PllConfig = PllConfig(
    m: nat, n: nat,
    pEnabled: bool, p: nat,
    qEnabled: bool, q: nat,
    rEnabled: bool, r: nat)

  /** STM32_D1CPRE, STM32_HPRE, STM32_D2PPRE1, STM32_D2PPRE2, STM32_D1PPRE, STM32_D3PPRE. */
  datatype Prescalers = Prescalers(
    d1cpre: nat, hpre: nat, d2ppre1: nat, d2ppre2: nat, d1ppre: nat, d3ppre: nat)

  /** The resolved configuration: every macro the driver reads, with the
      defaults the header applies (an absent oscillator has frequency 0, the
      HSI divisor of an absent HSI is 1). Each source-selection macro is a
      separate flag, as the IS_ENABLED chains read them. */
  datatype Config = Config(
    family: Family,
    hseEnabled: bool, hseBypass: bool, hseFreq: u32,
    hsiEnabled: bool, hsiFreq: u32, hsiDivisor: nat,
    csiEnabled: bool, csiFreq: u32,
    lsiEnabled: bool, lseEnabled: bool,
    pllSrcHse: bool, pllSrcCsi: bool, pllSrcHsi: bool,
    pll1: Option<PllConfig>, pll3: Option<PllConfig>,
    sysclkSrcPll: bool, sysclkSrcHse: bool, sysclkSrcHsi: bool, sysclkSrcCsi: bool,
    pre: Prescalers,
    cyclesPerSec: u32)

  /** The devicetree names one clock node per selection, so at most one
      flag of each selection is set. */
  predicate SingleSelections(c: Config)
  {
    (if c.pllSrcHse then 1 else 0) + (if c.pllSrcCsi then 1 else 0)
      + (if c.pllSrcHsi then 1 else 0) <= 1
    && (if c.sysclkSrcPll then 1 else 0) + (if c.sysclkSrcHse then 1 else 0)
      + (if c.sysclkSrcHsi then 1 else 0) + (if c.sysclkSrcCsi then 1 else 0) <= 1
  }

  /** The divisors the runtime code divides by without a check: the HSI
      divisor, HPRE, and M (and P for PLL1) of each configured PLL. */
  predicate RuntimeDivisorsNonZero(c: Config)
  {
    c.hsiDivisor > 0 && c.pre.hpre > 0
    && (c.pll1.Some? ==> c.pll1.value.m > 0 && c.pll1.value.p > 0)
    && (c.pll3.Some? ==> c.pll3.value.m > 0)
  }
}
