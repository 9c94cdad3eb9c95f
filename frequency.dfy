/** Frequency arithmetic of the driver: bus-clock division, the PLL output
    formula, the frequency of the PLL input and of the current HCLK. */
module Frequency {
  import opened ClockTypes

  lemma {:induction false} MulMono(a: nat, b: nat, c: nat)
    requires b <= c
    ensures a * b <= a * c
  {
    if a > 0 {
      MulMono(a - 1, b, c);
      assert a * b == (a - 1) * b + b;
      assert a * c == (a - 1) * c + c;
    }
  }

  /** Floor division bounds its quotient from both sides. */
  lemma DivBounds(x: nat, d: nat)
    requires d > 0
    ensures 0 <= x / d <= x
    ensures (x / d) * d <= x < (x / d + 1) * d
  {
    var q, r := x / d, x % d;
    assert x == d * q + r;
    assert 0 <= r < d;
    assert q * d == d * q;
    assert (q + 1) * d == q * d + d;
    MulMono(q, 1, d);
  }

  /** get_bus_clock: a clock divided by a prescaler, rounded down. */
  function BusClock(clock: nat, prescaler: nat): (r: nat)
    requires prescaler > 0
    ensures r * prescaler <= clock < (r + 1) * prescaler
    ensures r <= clock
  {
    var q := clock / prescaler;
    DivBounds(clock, prescaler);
    q
  }

  /** get_pllout_frequency exactly as written: pllsrc_freq is a uint32_t, so
      pllsrc_freq * plln_mul is computed modulo 2^32 before the division. */
  function PllOutFrequencyAsWritten(src: u32, m: nat, n: nat, div: nat): (r: u32)
    requires m > 0 && div > 0
    ensures src * n < U32_MODULUS ==> r * (m * div) <= src * n < (r + 1) * (m * div)
  {
    var product, divisor := src * n, m * div;
    var wrapped := product % U32_MODULUS;
    assert product < U32_MODULUS ==> wrapped == product;
    DivBounds(wrapped, divisor);
    wrapped / divisor
  }

  /** A prescaler of 1 passes the clock through. */
  lemma BusClockByOne(clock: nat)
    ensures BusClock(clock, 1) == clock
  {
  }

  /** The PLL output frequency the formula (src * N) / (M * div) means, with the
      product taken without overflow. */
  function PllOutFrequency(src: nat, m: nat, n: nat, div: nat): (r: nat)
    requires m > 0 && div > 0
    ensures r * (m * div) <= src * n < (r + 1) * (m * div)
  {
    var product, divisor := src * n, m * div;
    assert divisor > 0;
    DivBounds(product, divisor);
    product / divisor
  }

  /** Whenever the 32-bit product does not wrap, the code computes the intended value. */
  lemma PllOutAsWrittenAgrees(src: u32, m: nat, n: nat, div: nat)
    requires m > 0 && div > 0
    requires src * n < U32_MODULUS
    ensures PllOutFrequencyAsWritten(src, m, n, div) == PllOutFrequency(src, m, n, div)
  {
    assert (src * n) % U32_MODULUS == src * n;
  }

  /** A 25 MHz HSE with M = 5, N = 192, P = 2 is a 480 MHz PLL1 P output, but
      25 MHz * 192 exceeds 2^32 and the code computes 50 503 270 Hz. */
  lemma PllOutAsWrittenWraps()
    ensures PllOutFrequency(25_000_000, 5, 192, 2) == 480_000_000
    ensures PllOutFrequencyAsWritten(25_000_000, 5, 192, 2) == 50_503_270
  {
    assert 25_000_000 * 192 == 4_800_000_000;
    assert 4_800_000_000 % U32_MODULUS == 505_032_704;
  }

  /** Conversely, with the divisor in the range of a C int (below 2^31), a
      wrap of the product always changes the result: the wrapped numerator
      is smaller by at least 2^32, which is more than one divisor. */
  lemma PllOutWrapChangesResult(src: u32, m: nat, n: nat, div: nat)
    requires m > 0 && div > 0 && m * div < 0x8000_0000
    requires src * n >= U32_MODULUS
    ensures PllOutFrequencyAsWritten(src, m, n, div) != PllOutFrequency(src, m, n, div)
  {
    var x, d := src * n, m * div;
    var w, k := x % U32_MODULUS, x / U32_MODULUS;
    DivBounds(x, U32_MODULUS);
    assert k >= 1;
    MulMono(U32_MODULUS, 1, k);
    assert x - w == k * U32_MODULUS >= U32_MODULUS;
    var q := w / d;
    DivBounds(w, d);
    assert PllOutFrequencyAsWritten(src, m, n, div) == q;
    var r := PllOutFrequency(src, m, n, div);
    assert (q + 1) * d == q * d + d;
    assert (q + 1) * d <= x;
    if r <= q {
      MulMono(d, r + 1, q + 1);
    }
  }

  /** PLLSRC_FREQ: the PLL input frequency fixed at build time, with the
      preprocessor's precedence HSI > CSI > HSE and 0 when none is selected. */
  function BuildPllSrcFreq(c: Config): (r: nat)
    requires c.pllSrcHsi ==> c.hsiDivisor > 0
    ensures r < U32_MODULUS
  {
    if c.pllSrcHsi then c.hsiFreq / c.hsiDivisor
    else if c.pllSrcCsi then c.csiFreq
    else if c.pllSrcHse then c.hseFreq
    else 0
  }

  /** get_pllsrc_frequency exactly as written: the HSI case returns the
      undivided HSI frequency. */
  function PllSrcFrequencyAsWritten(c: Config, s: PllSource): (r: u32)
    ensures s == PllSrcNone ==> r == 0
  {
    match s
    case PllSrcHsi => c.hsiFreq
    case PllSrcCsi => c.csiFreq
    case PllSrcHse => c.hseFreq
    case PllSrcNone => 0
  }

  /** The frequency that actually feeds the PLL for the multiplexer value s:
      the HSI reaches the PLL through its divider, as PLLSRC_FREQ has it. */
  function PllSrcFrequency(c: Config, s: PllSource): (r: u32)
    requires s == PllSrcHsi ==> c.hsiDivisor > 0
    ensures s == PllSrcNone ==> r == 0
  {
    match s
    case PllSrcHsi => c.hsiFreq / c.hsiDivisor
    case PllSrcCsi => c.csiFreq
    case PllSrcHse => c.hseFreq
    case PllSrcNone => 0
  }

  /** The two differ exactly for a running HSI behind a divider greater than 1. */
  lemma PllSrcAsWrittenIgnoresHsiDivisor(c: Config, s: PllSource)
    requires c.hsiDivisor > 0
    ensures PllSrcFrequencyAsWritten(c, s) != PllSrcFrequency(c, s)
        <==> s == PllSrcHsi && c.hsiDivisor > 1 && c.hsiFreq > 0
  {
    if s == PllSrcHsi && c.hsiDivisor > 1 && c.hsiFreq > 0 {
      var q := c.hsiFreq / c.hsiDivisor;
      DivBounds(c.hsiFreq, c.hsiDivisor);
      MulMono(q, 2, c.hsiDivisor);
      assert q * 2 == q + q;
    }
  }

  /** The switch of get_hclk_frequency: the frequency of the system clock
      source whose status the hardware reports. The PLL1 case exists only in
      a build with PLL1; without it the frequency stays 0. */
  function SysClkSourceFrequency(c: Config, status: SysClkSource, pllSrc: PllSource): (r: nat)
    requires c.hsiDivisor > 0
    requires status == SysClkPll1 && c.pll1.Some? ==> c.pll1.value.m > 0 && c.pll1.value.p > 0
    ensures status == SysClkPll1 && c.pll1.None? ==> r == 0
  {
    match status
    case SysClkHsi => c.hsiFreq / c.hsiDivisor
    case SysClkCsi => c.csiFreq
    case SysClkHse => c.hseFreq
    case SysClkPll1 =>
      if c.pll1.Some? then
        PllOutFrequency(PllSrcFrequency(c, pllSrc), c.pll1.value.m, c.pll1.value.n, c.pll1.value.p)
      else 0
  }

  /** get_hclk_frequency: the current system clock divided by HPRE. */
  function HclkFrequency(c: Config, status: SysClkSource, pllSrc: PllSource): (r: nat)
    requires c.hsiDivisor > 0 && c.pre.hpre > 0
    requires status == SysClkPll1 && c.pll1.Some? ==> c.pll1.value.m > 0 && c.pll1.value.p > 0
    ensures r <= SysClkSourceFrequency(c, status, pllSrc)
  {
    BusClock(SysClkSourceFrequency(c, status, pllSrc), c.pre.hpre)
  }

  /** The switch of get_hclk_frequency exactly as written: the PLL1 arm
      feeds the as-written get_pllsrc_frequency into the as-written
      get_pllout_frequency, so it inherits both the undivided HSI and the
      32-bit wrap. Every arm is a uint32_t. */
  function SysClkSourceFrequencyAsWritten(c: Config, status: SysClkSource, pllSrc: PllSource): (r: nat)
    requires c.hsiDivisor > 0
    requires status == SysClkPll1 && c.pll1.Some? ==> c.pll1.value.m > 0 && c.pll1.value.p > 0
    ensures r < U32_MODULUS
    ensures status == SysClkPll1 && c.pll1.None? ==> r == 0
  {
    match status
    case SysClkHsi => BusClock(c.hsiFreq, c.hsiDivisor)
    case SysClkCsi => c.csiFreq
    case SysClkHse => c.hseFreq
    case SysClkPll1 =>
      if c.pll1.Some? then
        PllOutFrequencyAsWritten(PllSrcFrequencyAsWritten(c, pllSrc), c.pll1.value.m, c.pll1.value.n, c.pll1.value.p)
      else 0
  }

  /** get_hclk_frequency exactly as written. */
  function HclkFrequencyAsWritten(c: Config, status: SysClkSource, pllSrc: PllSource): (r: nat)
    requires c.hsiDivisor > 0 && c.pre.hpre > 0
    requires status == SysClkPll1 && c.pll1.Some? ==> c.pll1.value.m > 0 && c.pll1.value.p > 0
    ensures r <= SysClkSourceFrequencyAsWritten(c, status, pllSrc) < U32_MODULUS
  {
    BusClock(SysClkSourceFrequencyAsWritten(c, status, pllSrc), c.pre.hpre)
  }

  /** The code reports the intended HCLK unless SYSCLK runs from PLL1 and
      either the PLL input is an HSI behind a divider or the 32-bit product
      of the PLL formula wraps. */
  lemma HclkAsWrittenAgrees(c: Config, status: SysClkSource, pllSrc: PllSource)
    requires c.hsiDivisor > 0 && c.pre.hpre > 0
    requires status == SysClkPll1 && c.pll1.Some? ==> c.pll1.value.m > 0 && c.pll1.value.p > 0
    requires status == SysClkPll1 && c.pll1.Some? ==>
      PllSrcFrequencyAsWritten(c, pllSrc) == PllSrcFrequency(c, pllSrc)
      && PllSrcFrequency(c, pllSrc) * c.pll1.value.n < U32_MODULUS
    ensures HclkFrequencyAsWritten(c, status, pllSrc) == HclkFrequency(c, status, pllSrc)
  {
    if status == SysClkPll1 && c.pll1.Some? {
      var pc := c.pll1.value;
      PllOutAsWrittenAgrees(PllSrcFrequencyAsWritten(c, pllSrc), pc.m, pc.n, pc.p);
    }
  }

  /** On the 480 MHz configuration (25 MHz HSE, M = 5, N = 192, P = 2,
      HPRE = 2) with SYSCLK already on PLL1, the code reports an HCLK of
      25 251 635 Hz where 240 MHz is running. */
  lemma HclkAsWrittenWrapsOnPll1(c: Config)
    requires c.hsiDivisor > 0 && c.hseFreq == 25_000_000 && c.pre.hpre == 2
    requires c.pll1.Some? && c.pll1.value.m == 5 && c.pll1.value.n == 192 && c.pll1.value.p == 2
    ensures HclkFrequencyAsWritten(c, SysClkPll1, PllSrcHse) == 25_251_635
    ensures HclkFrequency(c, SysClkPll1, PllSrcHse) == 240_000_000
  {
    PllOutAsWrittenWraps();
    assert BusClock(50_503_270, 2) == 25_251_635;
    assert BusClock(480_000_000, 2) == 240_000_000;
  }
}
