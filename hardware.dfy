/** The RCC block as the driver sees it: the peripheral clock-enable words,
    the clock-switch and PLL-source status, the CMSIS SystemCoreClock
    variable and the trace of every hardware action performed so far. */
module Hardware {
  import opened ClockTypes
  import opened Actions

  /** Offsets of the bus clock-enable registers (RCC_xxxENR) within RCC. */
  const BUS_AHB3: nat := 0xD4
  const BUS_AHB1: nat := 0xD8
  const BUS_AHB2: nat := 0xDC
  const BUS_AHB4: nat := 0xE0
  const BUS_APB3: nat := 0xE4
  const BUS_APB1: nat := 0xE8
  const BUS_APB1_2: nat := 0xEC
  const BUS_APB2: nat := 0xF0
  const BUS_APB4: nat := 0xF4

  const PERIPH_BUS_MIN: nat := BUS_AHB3
  const PERIPH_BUS_MAX: nat := BUS_APB4

  /** The M4 core reaches its bus clock registers 0x60 above the M7's. */
  const M4_BUS_REG_OFFSET: nat := 0x60

  /** IN_RANGE(bus, STM32_PERIPH_BUS_MIN, STM32_PERIPH_BUS_MAX). */
  predicate InBusRange(bus: nat)
  {
    PERIPH_BUS_MIN <= bus <= PERIPH_BUS_MAX
  }

  /** STM32H7_BUS_CLK_REG + bus. */
  function GateAddress(core: Core, rccBase: nat, bus: nat): (addr: nat)
    ensures addr == rccBase + bus + (if core == M4 then M4_BUS_REG_OFFSET else 0)
  {
    (if core == M7 then rccBase else rccBase + M4_BUS_REG_OFFSET) + bus
  }

  class Rcc {
    const core: Core
    const rccBase: nat
    /** The 32-bit words the clock gate reads and writes, by address. */
    var gates: map<nat, Word>
    var trace: seq<Action>
    /** What LL_RCC_GetSysClkSource reports. */
    var sysClkStatus: SysClkSource
    /** What LL_RCC_PLL_GetSource reports. */
    var pllSource: PllSource
    var systemCoreClock: u32

    /** Every bus offset the range check admits addresses a register. */
    ghost predicate Valid()
      reads this
    {
      forall bus :: InBusRange(bus) ==> GateAddress(core, rccBase, bus) in gates
    }

    constructor (core: Core, rccBase: nat, gates: map<nat, Word>, sysClkStatus: SysClkSource)
      requires forall bus :: InBusRange(bus) ==> GateAddress(core, rccBase, bus) in gates
      ensures Valid()
      ensures this.core == core && this.rccBase == rccBase && this.gates == gates
      ensures this.sysClkStatus == sysClkStatus && trace == []
    {
      this.core := core;
      this.rccBase := rccBase;
      this.gates := gates;
      this.sysClkStatus := sysClkStatus;
      pllSource := PllSrcNone;
      systemCoreClock := 0;
      trace := [];
    }

    /** A write-only LL call: it only appears in the trace. */
    method Emit(a: Action)
      modifies this`trace
      ensures trace == old(trace) + [a]
    {
      trace := trace + [a];
    }

    /** LL_RCC_PLL_SetSource. */
    method SetPllSource(s: PllSource)
      modifies this`trace, this`pllSource
      ensures trace == old(trace) + [PllSetSource(s)] && pllSource == s
    {
      trace := trace + [PllSetSource(s)];
      pllSource := s;
    }

    /** The busy-poll on LL_RCC_GetSysClkSource, once the hardware reports the switch. */
    method AwaitSysClkSwitch(s: SysClkSource)
      modifies this`trace, this`sysClkStatus
      ensures trace == old(trace) + [SysClkSwitched(s)] && sysClkStatus == s
    {
      trace := trace + [SysClkSwitched(s)];
      sysClkStatus := s;
    }

    method ReadGate(addr: nat) returns (v: Word)
      requires addr in gates
      modifies this`trace
      ensures v == gates[addr] && trace == old(trace) + [GateRead(addr, v)]
    {
      v := gates[addr];
      trace := trace + [GateRead(addr, v)];
    }

    method WriteGate(addr: nat, v: Word)
      requires addr in gates
      modifies this`trace, this`gates
      ensures gates == old(gates)[addr := v] && trace == old(trace) + [GateWrite(addr, v)]
    {
      gates := gates[addr := v];
      trace := trace + [GateWrite(addr, v)];
    }

    /** SystemCoreClock = ... */
    method SetSystemCoreClock(hz: u32)
      modifies this`systemCoreClock
      ensures systemCoreClock == hz
    {
      systemCoreClock := hz;
    }
  }
}
