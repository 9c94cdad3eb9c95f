/** set_up_plls: the PLL input multiplexer is set, then PLL1 and PLL3 are
    each range-checked, programmed, enabled and waited for. */
module Plls {
  import opened ClockTypes
  import opened Actions
  import opened Frequency
  import opened Vco
  import opened Hardware

  /** The IS_ENABLED chain choosing the PLL input: HSE, then CSI, then HSI. */
  function PllSourceSelection(c: Config): (r: Option<PllSource>)
    ensures r.None? <==> !c.pllSrcHse && !c.pllSrcCsi && !c.pllSrcHsi
    ensures r.Some? ==> r.value != PllSrcNone
    ensures c.pllSrcHse ==> r == Some(PllSrcHse)
    ensures r == Some(PllSrcCsi) <==> !c.pllSrcHse && c.pllSrcCsi
    ensures r == Some(PllSrcHsi) <==> !c.pllSrcHse && !c.pllSrcCsi && c.pllSrcHsi
  {
    if c.pllSrcHse then Some(PllSrcHse)
    else if c.pllSrcCsi then Some(PllSrcCsi)
    else if c.pllSrcHsi then Some(PllSrcHsi)
    else None
  }

  /** With the single source the devicetree names, the input the code selects
      at run time has the frequency PLLSRC_FREQ fixed at build time, although
      the two chains test the flags in opposite orders. */
  lemma SelectionMatchesBuildFrequency(c: Config)
    requires SingleSelections(c) && c.hsiDivisor > 0
    requires PllSourceSelection(c).Some?
    ensures PllSrcFrequency(c, PllSourceSelection(c).value) == BuildPllSrcFreq(c)
  {
  }

  /** With two sources named the chains disagree: HSE and HSI both set make
      the code select HSE while PLLSRC_FREQ is the HSI frequency. */
  lemma PrecedencesDisagree(c: Config)
    requires c.pllSrcHse && c.pllSrcHsi && c.hsiDivisor > 0
    ensures PllSourceSelection(c) == Some(PllSrcHse)
    ensures BuildPllSrcFreq(c) == c.hsiFreq / c.hsiDivisor
  {
  }

  /** The divisors set_up_plls divides by: M of each configured PLL, and the
      HSI divisor when PLLSRC_FREQ is the divided HSI. */
  predicate PllDivisorsNonZero(c: Config)
  {
    (c.pll1.Some? ==> c.pll1.value.m > 0)
    && (c.pll3.Some? ==> c.pll3.value.m > 0)
    && (c.pllSrcHsi ==> c.hsiDivisor > 0)
  }

  /** One optional output: its divider, then its enable. */
  function OutputSteps(u: PllUnit, o: PllOutput, enabled: bool, div: nat): seq<Action>
  {
    if enabled then [PllSetDivider(u, o, div), PllOutputEnable(u, o)] else []
  }

  /** The P, Q and R outputs in that order. */
  function OutputsSteps(u: PllUnit, pc: PllConfig): seq<Action>
  {
    OutputSteps(u, OutP, pc.pEnabled, pc.p) + OutputSteps(u, OutQ, pc.qEnabled, pc.q)
      + OutputSteps(u, OutR, pc.rEnabled, pc.r)
  }

  /** The writes before the outputs: M, the VCO ranges, N and FRACN off. */
  function ProgramHead(u: PllUnit, pc: PllConfig, band: VcoInputRange): seq<Action>
  {
    [PllSetM(u, pc.m), PllSetVcoInput(u, band), PllSetVcoOutput(u, GetVcoOutputRange(band)),
     PllSetN(u, pc.n), PllFracnDisable(u)]
  }

  /** Everything done to one PLL once its input range is known. */
  function ProgramSteps(u: PllUnit, pc: PllConfig, band: VcoInputRange): seq<Action>
  {
    ProgramHead(u, pc, band) + OutputsSteps(u, pc) + [PllEnable(u), PllReady(u)]
  }

  /** One PLL block of set_up_plls once the source is set. */
  function UnitOutcome(src: nat, u: PllUnit, pc: PllConfig): Result<seq<Action>>
    requires pc.m > 0
  {
    match GetVcoInputRange(src, pc.m)
    case Err(e) => Err(e)
    case Ok(band) => Ok(ProgramSteps(u, pc, band))
  }

  /** A PLL block returns -ERANGE before any write exactly when the VCO input
      frequency PLLSRC_FREQ / M is outside 1-16 MHz; otherwise it programs
      the band that frequency lies in. */
  lemma UnitOutcomeChecksRange(src: nat, u: PllUnit, pc: PllConfig)
    requires pc.m > 0
    ensures UnitOutcome(src, u, pc).Err? <==> !(1 * MHZ <= src / pc.m <= 16 * MHZ)
    ensures UnitOutcome(src, u, pc).Err? ==> UnitOutcome(src, u, pc).code == -ERANGE
    ensures UnitOutcome(src, u, pc).Ok? ==>
      InBand(src / pc.m, VcoInputBand(src / pc.m).value)
      && UnitOutcome(src, u, pc).value == ProgramSteps(u, pc, VcoInputBand(src / pc.m).value)
  {
  }

  /** The `#if defined(STM32_PLLx_ENABLED)` block: nothing for an absent PLL. */
  function UnitIfConfigured(src: nat, u: PllUnit, pc: Option<PllConfig>): (r: Result<seq<Action>>)
    requires pc.Some? ==> pc.value.m > 0
    ensures pc.None? ==> r == Ok([])
    ensures pc.Some? ==> r == UnitOutcome(src, u, pc.value)
  {
    if pc.Some? then UnitOutcome(src, u, pc.value) else Ok([])
  }

  /** The PLL1 then PLL3 blocks: the first range error is returned with
      the writes made before it. */
  function PllBlocksOutcome(src: nat, pll1: Option<PllConfig>, pll3: Option<PllConfig>): (r: Outcome)
    requires pll1.Some? ==> pll1.value.m > 0
    requires pll3.Some? ==> pll3.value.m > 0
  {
    var one := UnitIfConfigured(src, PLL1, pll1);
    if one.Err? then Outcome(one.code, [])
    else
      var three := UnitIfConfigured(src, PLL3, pll3);
      if three.Err? then Outcome(three.code, one.value)
      else Outcome(0, one.value + three.value)
  }

  /** Status and trace of set_up_plls. */
  function SetUpPllsOutcome(c: Config): Outcome
    requires PllDivisorsNonZero(c)
  {
    if c.pll1.None? && c.pll3.None? then Outcome(0, [PllSetSource(PllSrcNone)])
    else match PllSourceSelection(c)
      case None => Outcome(-ENOTSUP, [])
      case Some(s) =>
        var b := PllBlocksOutcome(BuildPllSrcFreq(c), c.pll1, c.pll3);
        Outcome(b.status, [PllSetSource(s)] + b.steps)
  }

  /** What LL_RCC_PLL_GetSource reports after set_up_plls. */
  function PllSourceAfter(c: Config, before: PllSource): PllSource
  {
    if c.pll1.None? && c.pll3.None? then PllSrcNone
    else match PllSourceSelection(c)
      case None => before
      case Some(s) => s
  }

  /** Every status set_up_plls can return, and when. */
  lemma SetUpPllsStatus(c: Config)
    requires PllDivisorsNonZero(c)
    ensures var r := SetUpPllsOutcome(c);
      (r.status == 0 || r.status == -ENOTSUP || r.status == -ERANGE)
      && (r.status == -ENOTSUP <==> (c.pll1.Some? || c.pll3.Some?) && PllSourceSelection(c).None?)
  {
  }

  /** With no PLL configured the input multiplexer is set to none and
      nothing else happens. */
  lemma NoPllSetsSourceNone(c: Config)
    requires PllDivisorsNonZero(c)
    requires c.pll1.None? && c.pll3.None?
    ensures SetUpPllsOutcome(c) == Outcome(0, [PllSetSource(PllSrcNone)])
    ensures PllSourceAfter(c, PllSrcHse) == PllSrcNone
  {
  }

  /** With a PLL configured but no input selected, -ENOTSUP comes before
      any register is written. */
  lemma NoSourceNoWrites(c: Config)
    requires PllDivisorsNonZero(c)
    requires c.pll1.Some? || c.pll3.Some?
    requires !c.pllSrcHse && !c.pllSrcCsi && !c.pllSrcHsi
    ensures SetUpPllsOutcome(c) == Outcome(-ENOTSUP, [])
  {
  }

  /** A range error of PLL1 returns with only the source written: PLL3 is
      not touched. */
  lemma Pll1RangeErrorStopsEarly(c: Config)
    requires PllDivisorsNonZero(c) && c.pll1.Some? && PllSourceSelection(c).Some?
    requires !(1 * MHZ <= BuildPllSrcFreq(c) / c.pll1.value.m <= 16 * MHZ)
    ensures SetUpPllsOutcome(c) == Outcome(-ERANGE, [PllSetSource(PllSourceSelection(c).value)])
  {
  }

  /** Both PLLs are range-checked against the one build-time input
      frequency: set_up_plls succeeds exactly when every configured PLL's
      PLLSRC_FREQ / M lies in 1-16 MHz. */
  lemma SuccessIffInputsInRange(c: Config)
    requires PllDivisorsNonZero(c) && PllSourceSelection(c).Some?
    ensures SetUpPllsOutcome(c).status == 0
        <==> ((c.pll1.Some? ==> 1 * MHZ <= BuildPllSrcFreq(c) / c.pll1.value.m <= 16 * MHZ)
          && (c.pll3.Some? ==> 1 * MHZ <= BuildPllSrcFreq(c) / c.pll3.value.m <= 16 * MHZ))
  {
  }

  /** Within one PLL: M, input range, output range, N and FRACN off come
      first, the enable and the wait for lock come last. */
  lemma ProgramOrder(u: PllUnit, pc: PllConfig, band: VcoInputRange)
    ensures var t := ProgramSteps(u, pc, band);
      |t| >= 7 && t[..5] == ProgramHead(u, pc, band)
      && t[|t| - 2] == PllEnable(u) && t[|t| - 1] == PllReady(u)
      && t[5..|t| - 2] == OutputsSteps(u, pc)
  {
    var h, m := ProgramHead(u, pc, band), OutputsSteps(u, pc);
    var t := ProgramSteps(u, pc, band);
    assert t == h + m + [PllEnable(u), PllReady(u)];
    assert t[..5] == h;
    assert t[5..|t| - 2] == m;
  }

  /** The VCO ranges written match the input band of PLLSRC_FREQ / M, and
      the output range is MEDIUM exactly for the 1-2 MHz band. */
  lemma ProgrammedRanges(src: nat, u: PllUnit, pc: PllConfig)
    requires pc.m > 0 && UnitOutcome(src, u, pc).Ok?
    ensures var t := UnitOutcome(src, u, pc).value;
      |t| >= 7 && t[1].PllSetVcoInput? && t[2].PllSetVcoOutput?
      && InBand(src / pc.m, t[1].inRange)
      && (t[2].outRange == VcoMedium <==> src / pc.m <= 2 * MHZ)
  {
    UnitOutcomeChecksRange(src, u, pc);
    var band := VcoInputBand(src / pc.m).value;
    BandsPartition(src / pc.m);
    ProgramOrder(u, pc, band);
  }

  /** An output's divider and enable are written exactly when the output is
      enabled, the divider first. */
  lemma OutputWrittenIffEnabled(u: PllUnit, pc: PllConfig, o: PllOutput, div: nat)
    ensures var en := match o case OutP => pc.pEnabled case OutQ => pc.qEnabled case OutR => pc.rEnabled;
      var d := match o case OutP => pc.p case OutQ => pc.q case OutR => pc.r;
      (PllSetDivider(u, o, div) in OutputsSteps(u, pc) <==> en && div == d)
      && (PllOutputEnable(u, o) in OutputsSteps(u, pc) <==> en)
  {
    var sp, sq, sr := OutputSteps(u, OutP, pc.pEnabled, pc.p), OutputSteps(u, OutQ, pc.qEnabled, pc.q),
      OutputSteps(u, OutR, pc.rEnabled, pc.r);
    assert OutputsSteps(u, pc) == sp + sq + sr;
    assert forall a :: a in OutputsSteps(u, pc) <==> a in sp || a in sq || a in sr;
  }

  /** On success the source is written first, and PLL1 is locked before
      PLL3 is programmed. */
  lemma SourceFirstThenPll1ThenPll3(c: Config)
    requires PllDivisorsNonZero(c) && PllSourceSelection(c).Some?
    requires c.pll1.Some? && c.pll3.Some? && SetUpPllsOutcome(c).status == 0
    ensures var t := SetUpPllsOutcome(c).steps;
      t[0] == PllSetSource(PllSourceSelection(c).value)
      && PllReady(PLL1) in t && PllSetM(PLL3, c.pll3.value.m) in t
      && IndexOf(t, PllReady(PLL1)) < IndexOf(t, PllSetM(PLL3, c.pll3.value.m))
  {
    var src, pc1, pc3 := BuildPllSrcFreq(c), c.pll1.value, c.pll3.value;
    UnitOutcomeChecksRange(src, PLL1, pc1);
    UnitOutcomeChecksRange(src, PLL3, pc3);
    var b1, b3 := VcoInputBand(src / pc1.m).value, VcoInputBand(src / pc3.m).value;
    var one, three := ProgramSteps(PLL1, pc1, b1), ProgramSteps(PLL3, pc3, b3);
    ProgramOrder(PLL1, pc1, b1);
    ProgramOrder(PLL3, pc3, b3);
    var x := [PllSetSource(PllSourceSelection(c).value)] + one;
    AppendAssoc([PllSetSource(PllSourceSelection(c).value)], one, three);
    assert SetUpPllsOutcome(c).steps == x + three;
    SourceThenPll1(PllSourceSelection(c).value, pc1, b1, pc3.m);
    IndexOfAcross(x, three, PllReady(PLL1), PllSetM(PLL3, pc3.m));
  }

  /** The source write followed by the PLL1 block ends with the wait for
      PLL1 and writes nothing of PLL3. */
  lemma SourceThenPll1(s: PllSource, pc1: PllConfig, b1: VcoInputRange, m3: nat)
    ensures var x := [PllSetSource(s)] + ProgramSteps(PLL1, pc1, b1);
      PllReady(PLL1) in x && PllSetM(PLL3, m3) !in x
  {
    var one := ProgramSteps(PLL1, pc1, b1);
    var x := [PllSetSource(s)] + one;
    ProgramOrder(PLL1, pc1, b1);
    assert x[|x| - 1] == PllReady(PLL1);
    if PllSetM(PLL3, m3) in one {
      ProgramStepsUnit(PLL1, pc1, b1, PllSetM(PLL3, m3));
    }
  }

  /** The PLL an action programs. */
  function UnitOf(a: Action): Option<PllUnit>
  {
    match a
    case PllSetM(u, _) => Some(u)
    case PllSetVcoInput(u, _) => Some(u)
    case PllSetVcoOutput(u, _) => Some(u)
    case PllSetN(u, _) => Some(u)
    case PllFracnDisable(u) => Some(u)
    case PllSetDivider(u, _, _) => Some(u)
    case PllOutputEnable(u, _) => Some(u)
    case PllEnable(u) => Some(u)
    case PllReady(u) => Some(u)
    case _ => None
  }

  /** Every action of a PLL's block programs that PLL. */
  lemma ProgramStepsUnit(u: PllUnit, pc: PllConfig, band: VcoInputRange, a: Action)
    requires a in ProgramSteps(u, pc, band)
    ensures UnitOf(a) == Some(u)
  {
    if a in OutputsSteps(u, pc) {
      OutputsStepsUnit(u, pc, a);
    }
  }

  lemma OutputsStepsUnit(u: PllUnit, pc: PllConfig, a: Action)
    requires a in OutputsSteps(u, pc)
    ensures UnitOf(a) == Some(u)
  {
    if a in OutputSteps(u, OutP, pc.pEnabled, pc.p) {
      OutputStepsUnit(u, OutP, pc.pEnabled, pc.p, a);
    } else if a in OutputSteps(u, OutQ, pc.qEnabled, pc.q) {
      OutputStepsUnit(u, OutQ, pc.qEnabled, pc.q, a);
    } else {
      OutputStepsUnit(u, OutR, pc.rEnabled, pc.r, a);
    }
  }

  lemma OutputStepsUnit(u: PllUnit, o: PllOutput, enabled: bool, div: nat, a: Action)
    requires a in OutputSteps(u, o, enabled, div)
    ensures UnitOf(a) == Some(u)
  {
  }

  /** M, the VCO ranges, N and FRACN off. */
  method WriteHead(rcc: Rcc, u: PllUnit, pc: PllConfig, band: VcoInputRange)
    modifies rcc`trace
    ensures rcc.trace == old(rcc.trace) + ProgramHead(u, pc, band)
  {
    rcc.Emit(PllSetM(u, pc.m));
    rcc.Emit(PllSetVcoInput(u, band));
    rcc.Emit(PllSetVcoOutput(u, GetVcoOutputRange(band)));
    rcc.Emit(PllSetN(u, pc.n));
    rcc.Emit(PllFracnDisable(u));
  }

  /** The three output blocks, P, Q and R. */
  method WriteOutputs(rcc: Rcc, u: PllUnit, pc: PllConfig)
    modifies rcc`trace
    ensures rcc.trace == old(rcc.trace) + OutputsSteps(u, pc)
  {
    ghost var t0 := rcc.trace;
    EnableOutput(rcc, u, OutP, pc.pEnabled, pc.p);
    EnableOutput(rcc, u, OutQ, pc.qEnabled, pc.q);
    EnableOutput(rcc, u, OutR, pc.rEnabled, pc.r);
    AppendAssoc3(t0, OutputSteps(u, OutP, pc.pEnabled, pc.p), OutputSteps(u, OutQ, pc.qEnabled, pc.q),
      OutputSteps(u, OutR, pc.rEnabled, pc.r));
  }

  /** The writes of one PLL block after its range check; the busy-poll
      returns once the hardware reports the PLL locked. */
  method WriteProgram(rcc: Rcc, u: PllUnit, pc: PllConfig, band: VcoInputRange)
    modifies rcc`trace
    ensures rcc.trace == old(rcc.trace) + ProgramSteps(u, pc, band)
  {
    ghost var t0 := rcc.trace;
    WriteHead(rcc, u, pc, band);
    WriteOutputs(rcc, u, pc);
    rcc.Emit(PllEnable(u));
    rcc.Emit(PllReady(u));
    assert rcc.trace == t0 + ProgramHead(u, pc, band) + OutputsSteps(u, pc) + [PllEnable(u), PllReady(u)];
    AppendAssoc3(t0, ProgramHead(u, pc, band), OutputsSteps(u, pc), [PllEnable(u), PllReady(u)]);
  }

  /** One `if (IS_ENABLED(..._x_ENABLED))` output block. */
  method EnableOutput(rcc: Rcc, u: PllUnit, o: PllOutput, enabled: bool, div: nat)
    modifies rcc`trace
    ensures rcc.trace == old(rcc.trace) + OutputSteps(u, o, enabled, div)
  {
    if enabled {
      rcc.Emit(PllSetDivider(u, o, div));
      rcc.Emit(PllOutputEnable(u, o));
    } else {
      assert rcc.trace == rcc.trace + [];
    }
  }

  /** Every action of a configured PLL's block programs that PLL. */
  lemma UnitActions(src: nat, u: PllUnit, pc: Option<PllConfig>, a: Action)
    requires pc.Some? ==> pc.value.m > 0
    requires UnitIfConfigured(src, u, pc).Ok? && a in UnitIfConfigured(src, u, pc).value
    ensures UnitOf(a) == Some(u)
  {
    UnitOutcomeChecksRange(src, u, pc.value);
    ProgramStepsUnit(u, pc.value, VcoInputBand(src / pc.value.m).value, a);
  }

  /** set_up_plls does nothing but set the PLL source and program PLLs. */
  lemma SetUpPllsActions(c: Config, a: Action)
    requires PllDivisorsNonZero(c) && a in SetUpPllsOutcome(c).steps
    ensures a.PllSetSource? || UnitOf(a).Some?
  {
    if (c.pll1.Some? || c.pll3.Some?) && PllSourceSelection(c).Some? {
      var src := BuildPllSrcFreq(c);
      var one, three := UnitIfConfigured(src, PLL1, c.pll1), UnitIfConfigured(src, PLL3, c.pll3);
      if a in PllBlocksOutcome(src, c.pll1, c.pll3).steps {
        if one.Ok? && a in one.value {
          UnitActions(src, PLL1, c.pll1, a);
        } else {
          UnitActions(src, PLL3, c.pll3, a);
        }
      }
    }
  }

  /** One PLL block of set_up_plls on the RCC; an absent PLL does nothing. */
  method ProgramPll(rcc: Rcc, src: nat, u: PllUnit, pc: Option<PllConfig>) returns (r: int)
    requires pc.Some? ==> pc.value.m > 0
    modifies rcc`trace
    ensures var o := UnitIfConfigured(src, u, pc);
      (o.Err? ==> r == o.code && r < 0 && rcc.trace == old(rcc.trace))
      && (o.Ok? ==> r == 0 && rcc.trace == old(rcc.trace) + o.value)
  {
    if pc.None? {
      assert rcc.trace == rcc.trace + [];
      return 0;
    }
    var range := GetVcoInputRange(src, pc.value.m);
    if range.Err? {
      return range.code;
    }
    WriteProgram(rcc, u, pc.value, range.value);
    r := 0;
  }

  /** The PLL1 and PLL3 blocks of set_up_plls on the RCC. */
  method ProgramPlls(rcc: Rcc, src: nat, pll1: Option<PllConfig>, pll3: Option<PllConfig>) returns (r: int)
    requires pll1.Some? ==> pll1.value.m > 0
    requires pll3.Some? ==> pll3.value.m > 0
    modifies rcc`trace
    ensures r == PllBlocksOutcome(src, pll1, pll3).status
    ensures rcc.trace == old(rcc.trace) + PllBlocksOutcome(src, pll1, pll3).steps
  {
    r := ProgramPll(rcc, src, PLL1, pll1);
    if r < 0 {
      return r;
    }
    ghost var one := UnitIfConfigured(src, PLL1, pll1).value;
    r := ProgramPll(rcc, src, PLL3, pll3);
    if r < 0 {
      return r;
    }
    AppendAssoc(old(rcc.trace), one, UnitIfConfigured(src, PLL3, pll3).value);
  }

  /** set_up_plls on the RCC. */
  method SetUpPlls(rcc: Rcc, c: Config) returns (r: int)
    requires PllDivisorsNonZero(c)
    modifies rcc`trace, rcc`pllSource
    ensures r == SetUpPllsOutcome(c).status
    ensures rcc.trace == old(rcc.trace) + SetUpPllsOutcome(c).steps
    ensures rcc.pllSource == PllSourceAfter(c, old(rcc.pllSource))
  {
    if c.pll1.None? && c.pll3.None? {
      rcc.SetPllSource(PllSrcNone);
      return 0;
    }
    var s: PllSource;
    if c.pllSrcHse {
      s := PllSrcHse;
    } else if c.pllSrcCsi {
      s := PllSrcCsi;
    } else if c.pllSrcHsi {
      s := PllSrcHsi;
    } else {
      assert rcc.trace == old(rcc.trace) + [];
      return -ENOTSUP;
    }
    rcc.SetPllSource(s);
    r := ProgramPlls(rcc, BuildPllSrcFreq(c), c.pll1, c.pll3);
    AppendAssoc(old(rcc.trace), [PllSetSource(s)], PllBlocksOutcome(BuildPllSrcFreq(c), c.pll1, c.pll3).steps);
  }
}
