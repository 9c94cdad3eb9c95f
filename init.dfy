/** stm32_clock_control_init: the bring-up of the clock tree by the M7 core
    under the RCC hardware semaphore, and the M4 variant, which only
    publishes the configured frequency. */
module Init {
  import opened ClockTypes
  import opened Actions
  import opened Frequency
  import opened Feasibility
  import opened Hardware
  import opened FixedSources
  import opened Plls

  /** The bus gating the hardware-semaphore clock: AHB2 on H7A3/H7B3, AHB4 elsewhere. */
  function HsemBus(f: Family): HsemClockBus
  {
    if f == FamilyA3B3 then HsemOnAhb2 else HsemOnAhb4
  }

  /** The IS_ENABLED chain choosing the system clock: PLL1, then HSE, then
      HSI, then CSI. */
  function SysClkSelection(c: Config): (r: Option<SysClkSource>)
    ensures r.None? <==> !c.sysclkSrcPll && !c.sysclkSrcHse && !c.sysclkSrcHsi && !c.sysclkSrcCsi
    ensures r == Some(SysClkPll1) <==> c.sysclkSrcPll
    ensures r == Some(SysClkHse) <==> !c.sysclkSrcPll && c.sysclkSrcHse
    ensures r == Some(SysClkHsi) <==> !c.sysclkSrcPll && !c.sysclkSrcHse && c.sysclkSrcHsi
    ensures r == Some(SysClkCsi) <==> !c.sysclkSrcPll && !c.sysclkSrcHse && !c.sysclkSrcHsi && c.sysclkSrcCsi
  {
    if c.sysclkSrcPll then Some(SysClkPll1)
    else if c.sysclkSrcHse then Some(SysClkHse)
    else if c.sysclkSrcHsi then Some(SysClkHsi)
    else if c.sysclkSrcCsi then Some(SysClkCsi)
    else None
  }

  /** prepare_regulator_voltage_scale and optimize_regulator_voltage_scale
      perform the same two writes: the supply configuration, then SCALE0. */
  const RegulatorSteps: seq<Action> := [ConfigSupply, SetVoltageScale(Scale0)]

  /** The six prescaler writes, D1CPRE first. */
  function PrescalerSteps(pre: Prescalers): seq<Action>
  {
    [SetPrescaler(SysStage, pre.d1cpre), SetPrescaler(AhbStage, pre.hpre),
     SetPrescaler(Apb1Stage, pre.d2ppre1), SetPrescaler(Apb2Stage, pre.d2ppre2),
     SetPrescaler(Apb3Stage, pre.d1ppre), SetPrescaler(Apb4Stage, pre.d3ppre)]
  }

  /** The semaphore clock, the lock and the fixed oscillators. */
  function PrologueSteps(c: Config): seq<Action>
  {
    [HsemClockEnable(HsemBus(c.family)), HsemLock] + FixedSourceSteps(c)
  }

  /** new_hclk_freq: the configured cycles per second divided by HPRE. */
  function NewHclk(c: Config): nat
    requires c.pre.hpre > 0
  {
    BusClock(c.cyclesPerSec, c.pre.hpre)
  }

  /** old_hclk_freq: get_hclk_frequency as written, on the state set_up_plls
      leaves, the system-clock status still as found on entry. */
  function OldHclk(c: Config, status0: SysClkSource, pllSrc0: PllSource): nat
    requires RuntimeDivisorsNonZero(c)
  {
    HclkFrequencyAsWritten(c, status0, PllSourceAfter(c, pllSrc0))
  }

  function LatencyIf(write: bool, hclk: nat): seq<Action>
  {
    if write then [SetFlashLatency(hclk)] else []
  }

  /** Voltage scale, flash latency when the frequency rises, prescalers. */
  function ConfigureSteps(c: Config, raise: bool): seq<Action>
    requires c.pre.hpre > 0
  {
    RegulatorSteps + LatencyIf(raise, NewHclk(c)) + PrescalerSteps(c.pre)
  }

  /** The switch and the wait until the hardware reports it. */
  function SwitchSteps(s: SysClkSource): seq<Action>
  {
    [SetSysClkSource(s), SysClkSwitched(s)]
  }

  /** Flash latency when the frequency does not rise, voltage scale, unlock. */
  function TailSteps(c: Config, raise: bool): seq<Action>
    requires c.pre.hpre > 0
  {
    LatencyIf(!raise, NewHclk(c)) + RegulatorSteps + [HsemUnlock]
  }

  /** new_hclk_freq > old_hclk_freq: whether the latency is raised before
      the prescalers are preset. */
  predicate Raise(c: Config, status0: SysClkSource, pllSrc0: PllSource)
    requires RuntimeDivisorsNonZero(c)
  {
    NewHclk(c) > OldHclk(c, status0, pllSrc0)
  }

  /** The semaphore, the fixed oscillators and the PLL set-up. */
  function InitHead(c: Config): seq<Action>
    requires RuntimeDivisorsNonZero(c)
  {
    PrologueSteps(c) + SetUpPllsOutcome(c).steps
  }

  /** The switch to s and everything after it. */
  function CloseSteps(c: Config, s: SysClkSource, raise: bool): seq<Action>
    requires c.pre.hpre > 0
  {
    SwitchSteps(s) + TailSteps(c, raise)
  }

  /** Status and trace of the M7 stm32_clock_control_init once the latency
      decision is taken: raise is new_hclk_freq > old_hclk_freq. */
  function InitTrace(c: Config, raise: bool): Outcome
    requires RuntimeDivisorsNonZero(c)
  {
    var plls := SetUpPllsOutcome(c);
    if plls.status < 0 then Outcome(plls.status, InitHead(c))
    else
      var mid := InitHead(c) + ConfigureSteps(c, raise);
      match SysClkSelection(c)
      case None => Outcome(-ENOTSUP, mid)
      case Some(s) => Outcome(0, mid + CloseSteps(c, s, raise))
  }

  /** Status and trace of the M7 stm32_clock_control_init from a hardware
      reporting the system-clock status status0 and the PLL source pllSrc0. */
  function InitOutcome(c: Config, status0: SysClkSource, pllSrc0: PllSource): Outcome
    requires RuntimeDivisorsNonZero(c)
  {
    InitTrace(c, Raise(c, status0, pllSrc0))
  }

  /** The actions only the init routine itself performs. */
  predicate InitOwn(a: Action)
  {
    a.HsemLock? || a.HsemUnlock? || a.ConfigSupply? || a.SetVoltageScale? || a.SetFlashLatency?
    || a.SetPrescaler? || a.SetSysClkSource? || a.SysClkSwitched?
  }

  /** Oscillator and PLL actions are not init-own actions. */
  lemma ForeignActionsNotInitOwn(a: Action)
    requires Owner(a).Some? || a.PllSetSource? || UnitOf(a).Some?
    ensures !InitOwn(a)
  {
  }

  /** The oscillator and PLL set-up perform none of them. */
  lemma SetUpPerformsNoInitOwn(c: Config, a: Action)
    requires RuntimeDivisorsNonZero(c)
    requires a in FixedSourceSteps(c) + SetUpPllsOutcome(c).steps
    ensures !InitOwn(a)
  {
    if a in FixedSourceSteps(c) {
      OnlyOscillatorActions(c, a);
    } else {
      SetUpPllsActions(c, a);
    }
    ForeignActionsNotInitOwn(a);
  }

  /** The only init-own action before the configuration is the lock. */
  lemma HeadSelect(c: Config, keep: Action -> bool)
    requires RuntimeDivisorsNonZero(c)
    requires forall a :: keep(a) ==> InitOwn(a)
    ensures Select(InitHead(c), keep) == Select([HsemClockEnable(HsemBus(c.family)), HsemLock], keep)
  {
    var f, p := FixedSourceSteps(c), SetUpPllsOutcome(c).steps;
    var l := [HsemClockEnable(HsemBus(c.family)), HsemLock];
    forall a | a in f + p ensures !keep(a) {
      SetUpPerformsNoInitOwn(c, a);
    }
    SelectNone(f + p, keep);
    AppendAssoc(l, f, p);
    SelectAppend(l, f + p, keep);
  }

  /** Select over a two-action trace. */
  lemma SelectPair(a: Action, b: Action, keep: Action -> bool)
    ensures Select([a, b], keep) == Select([a], keep) + Select([b], keep)
  {
    assert [a, b] == [a] + [b];
    SelectAppend([a], [b], keep);
  }

  /** Every status the M7 init can return, and when. */
  lemma InitStatus(c: Config, raise: bool)
    requires RuntimeDivisorsNonZero(c)
    ensures var r := InitTrace(c, raise).status;
      (r == 0 || r == -ENOTSUP || r == -ERANGE)
      && (r == 0 <==> SetUpPllsOutcome(c).status == 0 && SysClkSelection(c).Some?)
  {
    SetUpPllsStatus(c);
  }

  /** With the PLLs set up and a system-clock source chosen, the bring-up
      succeeds: head, configuration, close. */
  lemma InitOnSuccess(c: Config, raise: bool)
    requires RuntimeDivisorsNonZero(c) && SetUpPllsOutcome(c).status >= 0 && SysClkSelection(c).Some?
    ensures InitTrace(c, raise)
         == Outcome(0, InitHead(c) + ConfigureSteps(c, raise) + CloseSteps(c, SysClkSelection(c).value, raise))
  {
  }

  /** A successful bring-up is one such run. */
  lemma InitSuccess(c: Config, raise: bool)
    requires RuntimeDivisorsNonZero(c)
    requires InitTrace(c, raise).status == 0
    ensures SetUpPllsOutcome(c).status == 0 && SysClkSelection(c).Some?
    ensures InitTrace(c, raise).steps
         == InitHead(c) + ConfigureSteps(c, raise) + CloseSteps(c, SysClkSelection(c).value, raise)
  {
    SetUpPllsStatus(c);
  }

  /** The head holds one lock event, the lock. */
  lemma HeadLockEvents(c: Config)
    requires RuntimeDivisorsNonZero(c)
    ensures Select(InitHead(c), IsLockEvent) == [HsemLock]
  {
    var l := [HsemClockEnable(HsemBus(c.family)), HsemLock];
    HeadSelect(c, IsLockEvent);
    SelectPair(l[0], l[1], IsLockEvent);
    SelectSingle(l[0], IsLockEvent);
    SelectSingle(l[1], IsLockEvent);
  }

  /** A PLL set-up error ends the bring-up after the head. */
  lemma InitOnPllError(c: Config, raise: bool)
    requires RuntimeDivisorsNonZero(c) && SetUpPllsOutcome(c).status < 0
    ensures InitTrace(c, raise) == Outcome(SetUpPllsOutcome(c).status, InitHead(c))
  {
  }

  /** Without a system-clock source the bring-up ends after the configuration. */
  lemma InitOnNoSysClk(c: Config, raise: bool)
    requires RuntimeDivisorsNonZero(c) && SetUpPllsOutcome(c).status >= 0 && SysClkSelection(c).None?
    ensures InitTrace(c, raise)
         == Outcome(-ENOTSUP, InitHead(c) + ConfigureSteps(c, raise))
  {
  }

  /** On every error return the semaphore stays taken: the only lock event
      is the lock itself. On success it is taken once and released once. */
  lemma LockEvents(c: Config, raise: bool)
    requires RuntimeDivisorsNonZero(c)
    ensures var o := InitTrace(c, raise);
      Select(o.steps, IsLockEvent) == if o.status == 0 then [HsemLock, HsemUnlock] else [HsemLock]
  {
    SetUpPllsStatus(c);
    if SetUpPllsOutcome(c).status < 0 {
      InitOnPllError(c, raise);
      HeadLockEvents(c);
    } else if SysClkSelection(c).None? {
      LockEventsWithoutSysClk(c, raise);
    } else {
      LockEventsOnSuccess(c, raise);
    }
  }

  lemma LockEventsWithoutSysClk(c: Config, raise: bool)
    requires RuntimeDivisorsNonZero(c) && SetUpPllsOutcome(c).status >= 0 && SysClkSelection(c).None?
    ensures InitTrace(c, raise).status == -ENOTSUP
    ensures Select(InitTrace(c, raise).steps, IsLockEvent) == [HsemLock]
  {
    InitOnNoSysClk(c, raise);
    HeadLockEvents(c);
    ConfigureHasNoLockEvent(c, raise);
    LockEventsOfPieces(InitHead(c), ConfigureSteps(c, raise), []);
  }

  lemma LockEventsOnSuccess(c: Config, raise: bool)
    requires RuntimeDivisorsNonZero(c) && SetUpPllsOutcome(c).status >= 0 && SysClkSelection(c).Some?
    ensures InitTrace(c, raise).status == 0
    ensures Select(InitTrace(c, raise).steps, IsLockEvent) == [HsemLock, HsemUnlock]
  {
    var s := SysClkSelection(c).value;
    InitOnSuccess(c, raise);
    HeadLockEvents(c);
    ConfigureHasNoLockEvent(c, raise);
    LockTail(c, s, raise);
    LockEventsOfPieces(InitHead(c), ConfigureSteps(c, raise), CloseSteps(c, s, raise));
  }

  /** The lock events of a trace in three pieces, the first holding only
      the lock, the second none and the third at most the unlock. */
  lemma LockEventsOfPieces(h: seq<Action>, m: seq<Action>, e: seq<Action>)
    requires Select(h, IsLockEvent) == [HsemLock] && Select(m, IsLockEvent) == []
    requires Select(e, IsLockEvent) == [] || Select(e, IsLockEvent) == [HsemUnlock]
    ensures Select(h + m, IsLockEvent) == [HsemLock]
    ensures Select(h + m + e, IsLockEvent) == [HsemLock] + Select(e, IsLockEvent)
  {
    SelectAppend(h, m, IsLockEvent);
    SelectAppend(h + m, e, IsLockEvent);
    assert [HsemLock] + [] == [HsemLock];
  }

  /** The configuration neither takes nor releases the semaphore. */
  lemma ConfigureHasNoLockEvent(c: Config, raise: bool)
    requires c.pre.hpre > 0
    ensures Select(ConfigureSteps(c, raise), IsLockEvent) == []
  {
    SelectNone(ConfigureSteps(c, raise), IsLockEvent);
  }

  /** The switch and the tail hold one lock event, the unlock. */
  lemma LockTail(c: Config, s: SysClkSource, raise: bool)
    requires c.pre.hpre > 0
    ensures Select(CloseSteps(c, s, raise), IsLockEvent) == [HsemUnlock]
  {
    var x := SwitchSteps(s) + LatencyIf(!raise, NewHclk(c)) + RegulatorSteps;
    assert CloseSteps(c, s, raise) == x + [HsemUnlock];
    SelectNone(x, IsLockEvent);
    SelectAppend(x, [HsemUnlock], IsLockEvent);
    SelectSingle(HsemUnlock, IsLockEvent);
  }

  /** On success the flash latency is written exactly once, for the new HCLK. */
  lemma LatencyWrittenOnce(c: Config, raise: bool)
    requires RuntimeDivisorsNonZero(c)
    requires InitTrace(c, raise).status == 0
    ensures Select(InitTrace(c, raise).steps, IsLatencyWrite) == [SetFlashLatency(NewHclk(c))]
  {
    InitSuccess(c, raise);
    var s := SysClkSelection(c).value;
    HeadSelect(c, IsLatencyWrite);
    SelectNone([HsemClockEnable(HsemBus(c.family)), HsemLock], IsLatencyWrite);
    LatencyInConfigure(c, raise);
    LatencyInClose(c, s, raise);
    SelectAppend3(InitHead(c), ConfigureSteps(c, raise), CloseSteps(c, s, raise), IsLatencyWrite);
  }

  /** The configuration holds the latency write when the frequency rises. */
  lemma LatencyInConfigure(c: Config, raise: bool)
    requires c.pre.hpre > 0
    ensures Select(ConfigureSteps(c, raise), IsLatencyWrite) == LatencyIf(raise, NewHclk(c))
  {
    SelectNone(RegulatorSteps, IsLatencyWrite);
    SelectNone(PrescalerSteps(c.pre), IsLatencyWrite);
    SelectLatencyIf(raise, NewHclk(c));
    SelectAppend3(RegulatorSteps, LatencyIf(raise, NewHclk(c)), PrescalerSteps(c.pre), IsLatencyWrite);
  }

  /** The close holds it when the frequency does not rise. */
  lemma LatencyInClose(c: Config, s: SysClkSource, raise: bool)
    requires c.pre.hpre > 0
    ensures Select(CloseSteps(c, s, raise), IsLatencyWrite) == LatencyIf(!raise, NewHclk(c))
  {
    var l, u := LatencyIf(!raise, NewHclk(c)), RegulatorSteps + [HsemUnlock];
    AppendAssoc(l, RegulatorSteps, [HsemUnlock]);
    AppendAssoc(SwitchSteps(s), l, u);
    SelectNone(SwitchSteps(s), IsLatencyWrite);
    SelectNone(u, IsLatencyWrite);
    SelectLatencyIf(!raise, NewHclk(c));
    SelectAppend3(SwitchSteps(s), l, u, IsLatencyWrite);
  }

  lemma SelectLatencyIf(write: bool, h: nat)
    ensures Select(LatencyIf(write, h), IsLatencyWrite) == LatencyIf(write, h)
  {
    if write {
      SelectSingle(SetFlashLatency(h), IsLatencyWrite);
    }
  }

  /** Flash latency is raised before the prescalers are preset exactly when
      the new HCLK is above the old one; otherwise it is written once the
      switch is confirmed. */
  lemma LatencyOrder(c: Config, raise: bool)
    requires RuntimeDivisorsNonZero(c)
    requires InitTrace(c, raise).status == 0
    ensures var t, s := InitTrace(c, raise).steps, SysClkSelection(c).value;
      SetFlashLatency(NewHclk(c)) in t && SetPrescaler(SysStage, c.pre.d1cpre) in t
      && SysClkSwitched(s) in t
      && (IndexOf(t, SetFlashLatency(NewHclk(c))) < IndexOf(t, SetPrescaler(SysStage, c.pre.d1cpre))
          <==> raise)
      && (raise ==>
            IndexOf(t, SetFlashLatency(NewHclk(c))) < IndexOf(t, SysClkSwitched(s)))
      && (!raise ==>
            IndexOf(t, SysClkSwitched(s)) < IndexOf(t, SetFlashLatency(NewHclk(c))))
  {
    InitSuccess(c, raise);
    var head := InitHead(c);
    var s := SysClkSelection(c).value;
    var lat, pre, sw := SetFlashLatency(NewHclk(c)), SetPrescaler(SysStage, c.pre.d1cpre), SysClkSwitched(s);
    var cfg, tail := ConfigureSteps(c, raise), CloseSteps(c, s, raise);
    AppendAssoc(head, cfg, tail);
    HeadLacks(c, lat);
    HeadLacks(c, pre);
    HeadLacks(c, sw);
    if raise {
      LatencyFirstInConfigure(c);
      IndexOfAppend(head, cfg + tail, lat);
      IndexOfAppend(head, cfg + tail, pre);
      IndexOfAppend(cfg, tail, lat);
      IndexOfAppend(cfg, tail, pre);
      SwitchInTail(c, s, raise);
      IndexOfAppend(head, cfg + tail, sw);
      SwitchNotInConfigure(c, s, raise);
      IndexOfAcross(head + cfg, tail, lat, sw);
    } else {
      PrescalerInConfigure(c);
      SwitchBeforeLateLatency(c, s);
      IndexOfAcross(head + cfg, tail, pre, lat);
      IndexOfAppend(head + cfg, tail, sw);
      IndexOfAppend(head + cfg, tail, lat);
    }
  }

  /** None of the init-own actions but the lock occurs before the configuration. */
  lemma HeadLacks(c: Config, a: Action)
    requires RuntimeDivisorsNonZero(c) && InitOwn(a) && !a.HsemLock?
    ensures a !in InitHead(c)
  {
    var f, p := FixedSourceSteps(c), SetUpPllsOutcome(c).steps;
    var l := [HsemClockEnable(HsemBus(c.family)), HsemLock];
    AppendAssoc(l, f, p);
    if a in f + p {
      SetUpPerformsNoInitOwn(c, a);
    }
  }

  /** With a rising frequency the latency write precedes the prescalers. */
  lemma LatencyFirstInConfigure(c: Config)
    requires c.pre.hpre > 0
    ensures var cfg, lat := ConfigureSteps(c, true), SetFlashLatency(NewHclk(c));
      lat in cfg && SetPrescaler(SysStage, c.pre.d1cpre) in cfg
      && IndexOf(cfg, lat) < IndexOf(cfg, SetPrescaler(SysStage, c.pre.d1cpre))
  {
    var cfg := ConfigureSteps(c, true);
    assert cfg[2] == SetFlashLatency(NewHclk(c)) && cfg[3] == SetPrescaler(SysStage, c.pre.d1cpre);
    assert cfg[..2] == RegulatorSteps;
    assert cfg[..3] == RegulatorSteps + [SetFlashLatency(NewHclk(c))];
    IndexOfUnique(cfg, cfg[2], 2);
    IndexOfUnique(cfg, cfg[3], 3);
  }

  /** The configuration writes D1CPRE and, without a rising frequency, no latency. */
  lemma PrescalerInConfigure(c: Config)
    requires c.pre.hpre > 0
    ensures SetPrescaler(SysStage, c.pre.d1cpre) in ConfigureSteps(c, false)
    ensures SetFlashLatency(NewHclk(c)) !in ConfigureSteps(c, false)
  {
    assert ConfigureSteps(c, false)[2] == SetPrescaler(SysStage, c.pre.d1cpre);
  }

  /** The configuration does not switch the system clock. */
  lemma SwitchNotInConfigure(c: Config, s: SysClkSource, raise: bool)
    requires c.pre.hpre > 0
    ensures SysClkSwitched(s) !in ConfigureSteps(c, raise)
  {
    var cfg := ConfigureSteps(c, raise);
    assert forall i :: 0 <= i < |cfg| ==> !cfg[i].SysClkSwitched?;
  }

  /** The close confirms the switch. */
  lemma SwitchInTail(c: Config, s: SysClkSource, raise: bool)
    requires c.pre.hpre > 0
    ensures SysClkSwitched(s) in CloseSteps(c, s, raise)
  {
    assert CloseSteps(c, s, raise)[1] == SysClkSwitched(s);
  }

  /** Without a rising frequency the latency write follows the confirmed switch. */
  lemma SwitchBeforeLateLatency(c: Config, s: SysClkSource)
    requires c.pre.hpre > 0
    ensures var tail, lat := CloseSteps(c, s, false), SetFlashLatency(NewHclk(c));
      SysClkSwitched(s) in tail && lat in tail && IndexOf(tail, SysClkSwitched(s)) < IndexOf(tail, lat)
  {
    var tail := CloseSteps(c, s, false);
    assert tail[1] == SysClkSwitched(s) && tail[2] == SetFlashLatency(NewHclk(c));
    assert tail[..1] == [SetSysClkSource(s)] && tail[..2] == SwitchSteps(s);
    IndexOfUnique(tail, tail[1], 1);
    IndexOfUnique(tail, tail[2], 2);
  }

  /** Every voltage-scale write selects SCALE0: the optimisation step never
      lowers the voltage. */
  lemma VoltageStaysScale0(c: Config, raise: bool, a: Action)
    requires RuntimeDivisorsNonZero(c)
    requires a in InitTrace(c, raise).steps && a.SetVoltageScale?
    ensures a.scale == Scale0
  {
    HeadLacks(c, a);
    SetUpPllsStatus(c);
    if SetUpPllsOutcome(c).status < 0 {
      InitOnPllError(c, raise);
    } else if SysClkSelection(c).None? {
      InitOnNoSysClk(c, raise);
      ScaleInConfigure(c, raise, a);
    } else {
      InitOnSuccess(c, raise);
      ScaleInConfigure(c, raise, a);
      ScaleInClose(c, SysClkSelection(c).value, raise, a);
    }
  }

  lemma ScaleInConfigure(c: Config, raise: bool, a: Action)
    requires c.pre.hpre > 0 && a in ConfigureSteps(c, raise) && a.SetVoltageScale?
    ensures a.scale == Scale0
  {
  }

  lemma ScaleInClose(c: Config, s: SysClkSource, raise: bool, a: Action)
    requires c.pre.hpre > 0 && a in CloseSteps(c, s, raise) && a.SetVoltageScale?
    ensures a.scale == Scale0
  {
  }

  /** The head opens with the semaphore clock and the lock, then the fixed
      oscillators. */
  lemma HeadFrame(c: Config)
    requires RuntimeDivisorsNonZero(c)
    ensures |InitHead(c)| >= 2 + |FixedSourceSteps(c)|
    ensures InitHead(c)[0] == HsemClockEnable(HsemBus(c.family)) && InitHead(c)[1] == HsemLock
    ensures InitHead(c)[2..2 + |FixedSourceSteps(c)|] == FixedSourceSteps(c)
  {
    var f, p := FixedSourceSteps(c), SetUpPllsOutcome(c).steps;
    var l := [HsemClockEnable(HsemBus(c.family)), HsemLock];
    SlicePrefix(l + f, p, 2, 2 + |f|);
    assert (l + f)[2..2 + |f|] == f;
  }

  /** The close ends with the regulator writes and the unlock. */
  lemma CloseFrame(c: Config, s: SysClkSource, raise: bool)
    requires c.pre.hpre > 0
    ensures var t := CloseSteps(c, s, raise);
      |t| >= 3 && t[|t| - 1] == HsemUnlock && t[|t| - 2] == SetVoltageScale(Scale0)
      && t[|t| - 3] == ConfigSupply
  {
  }

  /** On success the trace opens with the semaphore clock and the lock,
      then the fixed oscillators, before the PLL source is chosen. */
  lemma InitOpens(c: Config, raise: bool)
    requires RuntimeDivisorsNonZero(c)
    requires InitTrace(c, raise).status == 0
    ensures var t := InitTrace(c, raise).steps;
      |t| >= 2 + |FixedSourceSteps(c)| && t[0] == HsemClockEnable(HsemBus(c.family)) && t[1] == HsemLock
      && t[2..2 + |FixedSourceSteps(c)|] == FixedSourceSteps(c)
  {
    InitSuccess(c, raise);
    var s := SysClkSelection(c).value;
    var h, r := InitHead(c), ConfigureSteps(c, raise) + CloseSteps(c, s, raise);
    HeadFrame(c);
    AppendAssoc(h, ConfigureSteps(c, raise), CloseSteps(c, s, raise));
    SlicePrefix(h, r, 2, 2 + |FixedSourceSteps(c)|);
  }

  /** On success the trace closes with the regulator writes and the unlock. */
  lemma InitCloses(c: Config, raise: bool)
    requires RuntimeDivisorsNonZero(c)
    requires InitTrace(c, raise).status == 0
    ensures var t := InitTrace(c, raise).steps;
      |t| >= 3 && t[|t| - 1] == HsemUnlock && t[|t| - 2] == SetVoltageScale(Scale0)
      && t[|t| - 3] == ConfigSupply
  {
    InitSuccess(c, raise);
    CloseFrame(c, SysClkSelection(c).value, raise);
  }

  /** The intended behaviour: after a successful bring-up of a buildable
      configuration that names one source per selection, the corrected
      get_hclk_frequency reports exactly the new_hclk_freq the flash latency
      was programmed for. The code as written reports it only under the
      conditions of HclkAsWrittenAgrees. */
  lemma HclkAfterInitIsNewHclk(c: Config, status0: SysClkSource, pllSrc0: PllSource)
    requires RuntimeDivisorsNonZero(c) && SingleSelections(c) && Feasible(c)
    requires InitOutcome(c, status0, pllSrc0).status == 0
    ensures HclkFrequency(c, SysClkSelection(c).value, PllSourceAfter(c, pllSrc0)) == NewHclk(c)
  {
    FeasibleChain(c);
    SetUpPllsStatus(c);
    if c.sysclkSrcPll {
      SelectionMatchesBuildFrequency(c);
    }
  }

  /** What the code decides on the 480 MHz configuration (25 MHz HSE into
      PLL1 with M = 5, N = 192, P = 2, HPRE = 2) when SYSCLK already runs
      from PLL1: the wrapped old_hclk_freq is below new_hclk_freq, so the
      latency goes before the prescalers, although the intended old
      frequency equals the new one and would put it after the switch. */
  lemma LatencyDecisionAsWrittenOn480MHzPll(c: Config, pllSrc0: PllSource)
    requires RuntimeDivisorsNonZero(c) && c.pllSrcHse
    requires c.hseFreq == 25_000_000 && c.pre.hpre == 2 && c.cyclesPerSec == 480_000_000
    requires c.pll1.Some? && c.pll1.value.m == 5 && c.pll1.value.n == 192 && c.pll1.value.p == 2
    ensures OldHclk(c, SysClkPll1, pllSrc0) == 25_251_635 && NewHclk(c) == 240_000_000
    ensures Raise(c, SysClkPll1, pllSrc0)
    ensures !(NewHclk(c) > HclkFrequency(c, SysClkPll1, PllSourceAfter(c, pllSrc0)))
  {
    assert PllSourceAfter(c, pllSrc0) == PllSrcHse;
    HclkAsWrittenWrapsOnPll1(c);
    assert BusClock(480_000_000, 2) == 240_000_000;
  }

  /** The semaphore clock and lock. */
  method TakeLock(rcc: Rcc, c: Config)
    modifies rcc`trace
    ensures rcc.trace == old(rcc.trace) + [HsemClockEnable(HsemBus(c.family)), HsemLock]
  {
    rcc.Emit(HsemClockEnable(HsemBus(c.family)));
    rcc.Emit(HsemLock);
  }

  /** prepare_regulator_voltage_scale. */
  method PrepareRegulatorVoltageScale(rcc: Rcc) returns (r: int)
    modifies rcc`trace
    ensures r == 0 && rcc.trace == old(rcc.trace) + RegulatorSteps
  {
    rcc.Emit(ConfigSupply);
    rcc.Emit(SetVoltageScale(Scale0));
    r := 0;
  }

  /** optimize_regulator_voltage_scale: the frequency is not used, and the
      scale written is SCALE0 again. */
  method OptimizeRegulatorVoltageScale(rcc: Rcc, sysclkFreq: nat) returns (r: int)
    modifies rcc`trace
    ensures r == 0 && rcc.trace == old(rcc.trace) + RegulatorSteps
  {
    rcc.Emit(ConfigSupply);
    rcc.Emit(SetVoltageScale(Scale0));
    r := 0;
  }

  /** The six prescaler writes. */
  method SetPrescalers(rcc: Rcc, pre: Prescalers)
    modifies rcc`trace
    ensures rcc.trace == old(rcc.trace) + PrescalerSteps(pre)
  {
    rcc.Emit(SetPrescaler(SysStage, pre.d1cpre));
    rcc.Emit(SetPrescaler(AhbStage, pre.hpre));
    rcc.Emit(SetPrescaler(Apb1Stage, pre.d2ppre1));
    rcc.Emit(SetPrescaler(Apb2Stage, pre.d2ppre2));
    rcc.Emit(SetPrescaler(Apb3Stage, pre.d1ppre));
    rcc.Emit(SetPrescaler(Apb4Stage, pre.d3ppre));
  }

  /** The `if (new_hclk_freq > old_hclk_freq)` latency write and the prescalers. */
  method Configure(rcc: Rcc, c: Config, raise: bool)
    requires c.pre.hpre > 0
    modifies rcc`trace
    ensures rcc.trace == old(rcc.trace) + ConfigureSteps(c, raise)
  {
    ghost var t0 := rcc.trace;
    var _ := PrepareRegulatorVoltageScale(rcc);
    if raise {
      rcc.Emit(SetFlashLatency(NewHclk(c)));
    }
    assert rcc.trace == t0 + RegulatorSteps + LatencyIf(raise, NewHclk(c));
    SetPrescalers(rcc, c.pre);
    AppendAssoc(t0, RegulatorSteps + LatencyIf(raise, NewHclk(c)), PrescalerSteps(c.pre));
  }

  /** The system-clock switch chain: -ENOTSUP, with nothing written, when
      no source is selected. */
  method SwitchSysClk(rcc: Rcc, c: Config) returns (r: int)
    modifies rcc`trace, rcc`sysClkStatus
    ensures SysClkSelection(c).None? ==>
      r == -ENOTSUP && rcc.trace == old(rcc.trace) && rcc.sysClkStatus == old(rcc.sysClkStatus)
    ensures SysClkSelection(c).Some? ==>
      r == 0 && rcc.trace == old(rcc.trace) + SwitchSteps(SysClkSelection(c).value)
      && rcc.sysClkStatus == SysClkSelection(c).value
  {
    var s: SysClkSource;
    if c.sysclkSrcPll {
      s := SysClkPll1;
    } else if c.sysclkSrcHse {
      s := SysClkHse;
    } else if c.sysclkSrcHsi {
      s := SysClkHsi;
    } else if c.sysclkSrcCsi {
      s := SysClkCsi;
    } else {
      return -ENOTSUP;
    }
    rcc.Emit(SetSysClkSource(s));
    rcc.AwaitSysClkSwitch(s);
    r := 0;
  }

  /** The `if (new_hclk_freq <= old_hclk_freq)` latency write, the regulator and the unlock. */
  method Finish(rcc: Rcc, c: Config, raise: bool)
    requires c.pre.hpre > 0
    modifies rcc`trace
    ensures rcc.trace == old(rcc.trace) + TailSteps(c, raise)
  {
    ghost var t0 := rcc.trace;
    if !raise {
      rcc.Emit(SetFlashLatency(NewHclk(c)));
    }
    assert rcc.trace == t0 + LatencyIf(!raise, NewHclk(c));
    var _ := OptimizeRegulatorVoltageScale(rcc, c.cyclesPerSec);
    rcc.Emit(HsemUnlock);
    AppendAssoc3(t0, LatencyIf(!raise, NewHclk(c)), RegulatorSteps, [HsemUnlock]);
  }

  /** The M7 stm32_clock_control_init on the RCC. */
  method InitM7(rcc: Rcc, c: Config) returns (r: int)
    requires RuntimeDivisorsNonZero(c)
    modifies rcc`trace, rcc`pllSource, rcc`sysClkStatus, rcc`systemCoreClock
    ensures var o := InitOutcome(c, old(rcc.sysClkStatus), old(rcc.pllSource));
      r == o.status && rcc.trace == old(rcc.trace) + o.steps
    ensures rcc.pllSource == PllSourceAfter(c, old(rcc.pllSource))
    ensures r == 0 ==> rcc.sysClkStatus == SysClkSelection(c).value && rcc.systemCoreClock == c.cyclesPerSec
    ensures r != 0 ==> rcc.sysClkStatus == old(rcc.sysClkStatus) && rcc.systemCoreClock == old(rcc.systemCoreClock)
  {
    ghost var t0 := rcc.trace;
    TakeLock(rcc, c);
    SetUpFixedClockSources(rcc, c);
    ghost var t1 := rcc.trace;
    AppendAssoc(t0, [HsemClockEnable(HsemBus(c.family)), HsemLock], FixedSourceSteps(c));
    r := SetUpPlls(rcc, c);
    SetUpPllsStatus(c);
    AppendAssoc(t0, PrologueSteps(c), SetUpPllsOutcome(c).steps);
    if r < 0 {
      return r;
    }
    ghost var t2 := rcc.trace;
    var oldHclk := HclkFrequencyAsWritten(c, rcc.sysClkStatus, rcc.pllSource);
    var newHclk := BusClock(c.cyclesPerSec, c.pre.hpre);
    Configure(rcc, c, newHclk > oldHclk);
    ghost var head := InitHead(c);
    AppendAssoc(t0, head, ConfigureSteps(c, newHclk > oldHclk));
    var sw := SwitchSysClk(rcc, c);
    if sw < 0 {
      return sw;
    }
    Finish(rcc, c, newHclk > oldHclk);
    AppendAssoc(t0 + (head + ConfigureSteps(c, newHclk > oldHclk)), SwitchSteps(SysClkSelection(c).value),
      TailSteps(c, newHclk > oldHclk));
    AppendAssoc(t0, head + ConfigureSteps(c, newHclk > oldHclk),
      CloseSteps(c, SysClkSelection(c).value, newHclk > oldHclk));
    rcc.SetSystemCoreClock(c.cyclesPerSec);
  }

  /** The M4 stm32_clock_control_init: the M7 owns the clock tree, so the M4
      only publishes the configured frequency and succeeds. */
  method InitM4(rcc: Rcc, c: Config) returns (r: int)
    modifies rcc`systemCoreClock
    ensures r == 0 && rcc.systemCoreClock == c.cyclesPerSec
  {
    rcc.SetSystemCoreClock(c.cyclesPerSec);
    r := 0;
  }
}
