/** The runtime clock-control API: gating one peripheral clock on or off by a
    locked read-modify-write of its bus clock-enable register, and the rate
    query that maps a bus to the AHB or APB clock feeding it. */
module ClockGate {
  import opened ClockTypes
  import opened Actions
  import opened Frequency
  import opened Feasibility
  import opened Hardware

  /** The stm32_pclken cell of a peripheral: the bus register offset and the
      enable bits of that peripheral within it. */
  datatype PClkEn = PClkEn(bus: nat, enr: Word)

  /** Status, new register contents and trace of one on/off call. */
  datatype GateOutcome = GateOutcome(status: int, gates: map<nat, Word>, steps: seq<Action>)

  /** stm32_clock_control_on (on) and stm32_clock_control_off (!on) on the
      register words `gates` of the core's view of RCC. */
  function Toggle(core: Core, rccBase: nat, gates: map<nat, Word>, p: PClkEn, on: bool): (r: GateOutcome)
    requires InBusRange(p.bus) ==> GateAddress(core, rccBase, p.bus) in gates
    ensures r.status == 0 || r.status == -ENOTSUP
    ensures r.status == -ENOTSUP <==> !InBusRange(p.bus)
    ensures r.status == -ENOTSUP ==> r.gates == gates && r.steps == []
    ensures r.gates.Keys == gates.Keys
    ensures r.status == 0 ==> forall a :: a in gates && a != GateAddress(core, rccBase, p.bus) ==> r.gates[a] == gates[a]
    ensures r.status == 0 ==> r.gates[GateAddress(core, rccBase, p.bus)] * p.enr == (if on then p.enr else {})
    ensures r.status == 0 ==> r.gates[GateAddress(core, rccBase, p.bus)] - p.enr == gates[GateAddress(core, rccBase, p.bus)] - p.enr
    ensures r.status == 0 ==> r.steps == [HsemLock, GateRead(GateAddress(core, rccBase, p.bus), gates[GateAddress(core, rccBase, p.bus)]),
                                          GateWrite(GateAddress(core, rccBase, p.bus), r.gates[GateAddress(core, rccBase, p.bus)]), HsemUnlock]
  {
    if !InBusRange(p.bus) then GateOutcome(-ENOTSUP, gates, [])
    else
      var addr := GateAddress(core, rccBase, p.bus);
      var old_ := gates[addr];
      var new_ := if on then old_ + p.enr else old_ - p.enr;
      GateOutcome(0, gates[addr := new_], [HsemLock, GateRead(addr, old_), GateWrite(addr, new_), HsemUnlock])
  }

  /** The on/off call performed on the RCC object. */
  method ClockControl(rcc: Rcc, p: PClkEn, on: bool) returns (status: int)
    requires rcc.Valid()
    modifies rcc`gates, rcc`trace
    ensures rcc.Valid()
    ensures var r := Toggle(rcc.core, rcc.rccBase, old(rcc.gates), p, on);
      status == r.status && rcc.gates == r.gates && rcc.trace == old(rcc.trace) + r.steps
  {
    if !InBusRange(p.bus) {
      return -ENOTSUP;
    }
    rcc.Emit(HsemLock);
    var addr := GateAddress(rcc.core, rcc.rccBase, p.bus);
    var v := rcc.ReadGate(addr);
    v := if on then v + p.enr else v - p.enr;
    rcc.WriteGate(addr, v);
    rcc.Emit(HsemUnlock);
    status := 0;
  }

  method ClockOn(rcc: Rcc, p: PClkEn) returns (status: int)
    requires rcc.Valid()
    modifies rcc`gates, rcc`trace
    ensures rcc.Valid()
    ensures var r := Toggle(rcc.core, rcc.rccBase, old(rcc.gates), p, true);
      status == r.status && rcc.gates == r.gates && rcc.trace == old(rcc.trace) + r.steps
  {
    status := ClockControl(rcc, p, true);
  }

  method ClockOff(rcc: Rcc, p: PClkEn) returns (status: int)
    requires rcc.Valid()
    modifies rcc`gates, rcc`trace
    ensures rcc.Valid()
    ensures var r := Toggle(rcc.core, rcc.rccBase, old(rcc.gates), p, false);
      status == r.status && rcc.gates == r.gates && rcc.trace == old(rcc.trace) + r.steps
  {
    status := ClockControl(rcc, p, false);
  }

  /** Turning a peripheral off after turning it on restores every register
      word, provided its enable bits were clear before. */
  lemma OffAfterOnRestores(core: Core, rccBase: nat, gates: map<nat, Word>, p: PClkEn)
    requires InBusRange(p.bus) ==> GateAddress(core, rccBase, p.bus) in gates
    requires InBusRange(p.bus) ==> gates[GateAddress(core, rccBase, p.bus)] * p.enr == {}
    ensures Toggle(core, rccBase, Toggle(core, rccBase, gates, p, true).gates, p, false).gates == gates
  {
    if InBusRange(p.bus) {
      var addr := GateAddress(core, rccBase, p.bus);
      var w := gates[addr];
      assert forall b :: b in w * p.enr <==> b in w && b in p.enr;
      assert forall b :: b in (w + p.enr) - p.enr <==> b in w;
      assert (w + p.enr) - p.enr == w;
      var after := Toggle(core, rccBase, Toggle(core, rccBase, gates, p, true).gates, p, false).gates;
      assert after == gates[addr := gates[addr]];
    }
  }

  /** Two peripherals gated on one after the other end in the same
      register contents in either order, whether or not they share a bus. */
  lemma OnCommutes(core: Core, rccBase: nat, gates: map<nat, Word>, p: PClkEn, q: PClkEn)
    requires InBusRange(p.bus) ==> GateAddress(core, rccBase, p.bus) in gates
    requires InBusRange(q.bus) ==> GateAddress(core, rccBase, q.bus) in gates
    ensures Toggle(core, rccBase, Toggle(core, rccBase, gates, p, true).gates, q, true).gates
         == Toggle(core, rccBase, Toggle(core, rccBase, gates, q, true).gates, p, true).gates
  {
    if InBusRange(p.bus) && InBusRange(q.bus) {
      var a, b := GateAddress(core, rccBase, p.bus), GateAddress(core, rccBase, q.bus);
      if a == b {
        var w := gates[a];
        assert (w + p.enr) + q.enr == (w + q.enr) + p.enr;
        assert Toggle(core, rccBase, Toggle(core, rccBase, gates, p, true).gates, q, true).gates
            == gates[a := (w + p.enr) + q.enr];
        assert Toggle(core, rccBase, Toggle(core, rccBase, gates, q, true).gates, p, true).gates
            == gates[a := (w + q.enr) + p.enr];
      } else {
        var both := gates[a := gates[a] + p.enr][b := gates[b] + q.enr];
        assert Toggle(core, rccBase, Toggle(core, rccBase, gates, p, true).gates, q, true).gates == both;
        assert Toggle(core, rccBase, Toggle(core, rccBase, gates, q, true).gates, p, true).gates == both;
      }
    }
  }

  /** Gating a peripheral on twice leaves the registers as gating it on once. */
  lemma OnIdempotent(core: Core, rccBase: nat, gates: map<nat, Word>, p: PClkEn)
    requires InBusRange(p.bus) ==> GateAddress(core, rccBase, p.bus) in gates
    ensures Toggle(core, rccBase, Toggle(core, rccBase, gates, p, true).gates, p, true).gates
         == Toggle(core, rccBase, gates, p, true).gates
  {
    if InBusRange(p.bus) {
      var a := GateAddress(core, rccBase, p.bus);
      var w := gates[a];
      assert (w + p.enr) + p.enr == w + p.enr;
      assert Toggle(core, rccBase, Toggle(core, rccBase, gates, p, true).gates, p, true).gates
          == gates[a := w + p.enr];
    }
  }

  /** The clock domain a bus identifier belongs to, for the rate query. */
  function BusDomain(bus: nat): (r: Option<Stage>)
    ensures r.Some? ==> InBusRange(bus) && r.value != SysStage
    ensures r == Some(AhbStage) <==> bus in {BUS_AHB1, BUS_AHB2, BUS_AHB3, BUS_AHB4}
    ensures r == Some(Apb1Stage) <==> bus in {BUS_APB1, BUS_APB1_2}
    ensures r == Some(Apb2Stage) <==> bus == BUS_APB2
    ensures r == Some(Apb3Stage) <==> bus == BUS_APB3
    ensures r == Some(Apb4Stage) <==> bus == BUS_APB4
    ensures r.None? <==> bus !in {BUS_AHB1, BUS_AHB2, BUS_AHB3, BUS_AHB4, BUS_APB1, BUS_APB1_2, BUS_APB2, BUS_APB3, BUS_APB4}
  {
    if bus == BUS_AHB1 || bus == BUS_AHB2 || bus == BUS_AHB3 || bus == BUS_AHB4 then Some(AhbStage)
    else if bus == BUS_APB1 || bus == BUS_APB1_2 then Some(Apb1Stage)
    else if bus == BUS_APB2 then Some(Apb2Stage)
    else if bus == BUS_APB3 then Some(Apb3Stage)
    else if bus == BUS_APB4 then Some(Apb4Stage)
    else None
  }

  /** The AHB clock the rate query starts from: SystemCoreClock / HPRE on
      the M7, SystemCoreClock itself on the M4. */
  function AhbClock(core: Core, systemCoreClock: u32, pre: Prescalers): (r: u32)
    requires core == M7 ==> pre.hpre > 0
    ensures r <= systemCoreClock
    ensures core == M4 ==> r == systemCoreClock
  {
    if core == M7 then BusClock(systemCoreClock, pre.hpre) else systemCoreClock
  }

  /** The prescaler between AHB and a stage below it (1 for AHB itself). */
  function StagePrescaler(pre: Prescalers, s: Stage): nat
  {
    match s
    case Apb1Stage => pre.d2ppre1
    case Apb2Stage => pre.d2ppre2
    case Apb3Stage => pre.d1ppre
    case Apb4Stage => pre.d3ppre
    case _ => 1
  }

  predicate ApbPrescalersNonZero(pre: Prescalers)
  {
    pre.d2ppre1 > 0 && pre.d2ppre2 > 0 && pre.d1ppre > 0 && pre.d3ppre > 0
  }

  /** stm32_clock_control_get_subsys_rate. */
  function GetSubsysRate(core: Core, systemCoreClock: u32, pre: Prescalers, bus: nat): (r: Result<u32>)
    requires core == M7 ==> pre.hpre > 0
    requires ApbPrescalersNonZero(pre)
    ensures r.Ok? <==> BusDomain(bus).Some?
    ensures r.Err? ==> r.code == -ENOTSUP
    ensures r.Ok? ==> r.value <= AhbClock(core, systemCoreClock, pre) <= systemCoreClock
    ensures r.Ok? && BusDomain(bus) == Some(AhbStage) ==> r.value == AhbClock(core, systemCoreClock, pre)
    ensures r.Ok? ==> var d := StagePrescaler(pre, BusDomain(bus).value);
      r.value * d <= AhbClock(core, systemCoreClock, pre) < (r.value + 1) * d
  {
    var ahb := AhbClock(core, systemCoreClock, pre);
    match BusDomain(bus)
    case None => Err(-ENOTSUP)
    case Some(s) =>
      if s == AhbStage then Ok(ahb)
      else Ok(BusClock(ahb, StagePrescaler(pre, s)))
  }

  /** After an M7 bring-up of a feasible configuration SystemCoreClock holds
      the configured cycles per second; the rate then reported for every bus
      is that bus's frequency in the build-time tree, within its ceiling. */
  lemma RateQueryMatchesFeasibleTree(c: Config, bus: nat)
    requires Feasible(c)
    requires BusDomain(bus).Some?
    ensures GetSubsysRate(M7, c.cyclesPerSec, c.pre, bus) == Ok(StageFreq(c, BusDomain(bus).value))
    ensures StageFreq(c, BusDomain(bus).value) <= StageCeiling(c.family, BusDomain(bus).value)
  {
    FeasibleChain(c);
    FeasibleBoundsEveryStage(c);
  }
}
