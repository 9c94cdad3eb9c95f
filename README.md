# STM32H7 clock control, modelled in Dafny

This project models the Zephyr clock-control driver for the STM32H7 family,
`drivers/clock_control/clock_stm32_ll_h7.c`. The driver does three things:

- **Build-time feasibility.** The preprocessor computes the frequency of every
  stage of the clock tree (PLL source, PLL1 P output, SYSCLK, AHB and the four
  APB buses). The build is refused when any stage exceeds the ceiling of its
  SoC family, when D1CPRE is above 1, or when SYSCLK differs from the
  configured cycles per second.
- **Bring-up (`stm32_clock_control_init`).** On the Cortex-M7, under the RCC
  hardware semaphore, the driver does the following in order:
  1. starts the fixed oscillators (HSE, HSI, CSI, LSI, LSE);
  2. selects the PLL input and programs PLL1 and PLL3, with a VCO range check;
  3. raises the regulator to SCALE0;
  4. programs the flash latency before or after the prescalers, depending on
     whether HCLK rises;
  5. switches SYSCLK;
  6. releases the semaphore and publishes `SystemCoreClock`.

  The Cortex-M4 variant only publishes the frequency.
- **Runtime API.** `on`/`off` set or clear a peripheral's enable bits by a
  locked read-modify-write of its bus enable register, and
  `get_subsys_rate` reports the AHB or APB clock of a bus.

## How the model is built

- **Configuration.** The build-time configuration (devicetree and Kconfig
  values) is one `Config` value (`ClockTypes`). Each `#if defined(...)`
  selection is a boolean field, and each optional PLL is an `Option<PllConfig>`.
- **Hardware.** The RCC block is the class `Hardware.Rcc`. Its fields are:
  - the bus clock-enable words, as a map from address to word;
  - what `LL_RCC_GetSysClkSource` and `LL_RCC_PLL_GetSource` report;
  - `SystemCoreClock`;
  - a `trace` of every LL call made, one `Actions.Action` value per call.
- **Specification functions.** Every imperative routine is a method that
  appends to `trace`. Its `ensures` ties the new trace and status to a pure
  function of the configuration:
  - `FixedSourceSteps` and `SetUpPllsOutcome`;
  - `InitTrace` for the M7 init, with `InitOutcome` as the entry point.
- **Stated properties.** The properties of the source are lemmas about those
  functions. They cover ordering (via `IndexOf`), which actions occur
  (via `Select`), error returns, and what is left written.
- **The `raise` flag.** The M7 bring-up depends on the hardware's state
  before the call only through one boolean: `raise` =
  `new_hclk_freq > old_hclk_freq`. `InitTrace(c, raise)` is parameterised by
  that boolean. `InitOutcome(c, status0, pllSrc0)` computes it from the
  reported SYSCLK and PLL sources. As in the code, `old_hclk_freq` comes
  from get_hclk_frequency as written (`Frequency.HclkFrequencyAsWritten`),
  which carries both findings below. The corrected `Frequency.HclkFrequency`
  states the intended value.

Module layout:

- `types.dfy`: configuration and value types.
- `actions.dfy`: LL calls and trace utilities.
- `frequency.dfy`: the frequency helpers and macros.
- `vco.dfy`: the VCO range helpers.
- `feasibility.dfy`: the build-time checks.
- `hardware.dfy`: the RCC object.
- `clock_gate.dfy`: the runtime API.
- `fixed_sources.dfy`: `set_up_fixed_clock_sources`.
- `plls.dfy`: `set_up_plls`.
- `init.dfy`: the regulator helpers and both init variants.

## Model

| member | source | states |
|---|---|---|
| Frequency.BusClock | drivers/clock_control/clock_stm32_ll_h7.c:164-167 | get_bus_clock is the floor of clock / prescaler: r·p ≤ clock < (r+1)·p, and never above the clock |
| Frequency.PllOutFrequencyAsWritten | drivers/clock_control/clock_stm32_ll_h7.c:170-179 | the 32-bit computation is the floor of src·n / (m·div) whenever src·n does not wrap |
| Frequency.PllOutFrequency | drivers/clock_control/clock_stm32_ll_h7.c:170-179 | the intended PLL output is the floor of src·n / (m·div), in unbounded arithmetic (the corrected half of finding 1) |
| Frequency.PllOutAsWrittenAgrees | drivers/clock_control/clock_stm32_ll_h7.c:170-179 | whenever the product src·n fits in 32 bits, the 32-bit computation equals the unbounded one |
| Frequency.PllOutWrapChangesResult | drivers/clock_control/clock_stm32_ll_h7.c:170-179 | conversely, with M·div in the range of a C int, any wrap of src·n changes the result; with PllOutAsWrittenAgrees, the two agree exactly when the product fits |
| Frequency.PllOutAsWrittenWraps | drivers/clock_control/clock_stm32_ll_h7.c:175-178 | a 25 MHz input with M=5, N=192, P=2 should give 480 MHz, but the 32-bit product wraps and gives 50,503,270 Hz |
| Frequency.BuildPllSrcFreq | drivers/clock_control/clock_stm32_ll_h7.c:48-56 | the PLLSRC_FREQ macro: HSI/divisor, CSI or HSE, in this precedence, or 0; it always fits in 32 bits |
| Frequency.PllSrcFrequencyAsWritten | drivers/clock_control/clock_stm32_ll_h7.c:182-195 | get_pllsrc_frequency as written; no source gives 0 |
| Frequency.PllSrcFrequency | drivers/clock_control/clock_stm32_ll_h7.c:182-195 | the corrected get_pllsrc_frequency with the HSI divider applied; no source gives 0 |
| Frequency.PllSrcAsWrittenIgnoresHsiDivisor | drivers/clock_control/clock_stm32_ll_h7.c:184-187 | the as-written and corrected source frequencies differ exactly when the source is HSI with a divisor above 1 and a nonzero HSI frequency |
| Frequency.SysClkSourceFrequency | drivers/clock_control/clock_stm32_ll_h7.c:198-216 | the intended SYSCLK source frequency for the reported source, using the corrected PLL helpers; PLL1 reported but not configured gives 0 |
| Frequency.HclkFrequency | drivers/clock_control/clock_stm32_ll_h7.c:198-224 | the intended get_hclk_frequency (the corrected half of finding 3); it never exceeds the SYSCLK source frequency it divides |
| Frequency.SysClkSourceFrequencyAsWritten | drivers/clock_control/clock_stm32_ll_h7.c:201-219 | the switch of get_hclk_frequency as written: its PLL1 arm uses the as-written get_pllsrc_frequency and get_pllout_frequency; every arm is a uint32_t, and PLL1 without a PLL1 build gives 0 |
| Frequency.HclkFrequencyAsWritten | drivers/clock_control/clock_stm32_ll_h7.c:198-224 | get_hclk_frequency as written: a uint32_t no larger than the SYSCLK source value it divides by HPRE |
| Frequency.HclkAsWrittenAgrees | drivers/clock_control/clock_stm32_ll_h7.c:198-224 | the code reports the intended HCLK in the following cases: outside the PLL1 arm, and in the PLL1 arm when the source frequency needs no HSI divider and src·N fits in 32 bits |
| Frequency.HclkAsWrittenWrapsOnPll1 | drivers/clock_control/clock_stm32_ll_h7.c:214-218 | on a 25 MHz HSE with M=5, N=192, P=2 and HPRE=2, the code reports 25,251,635 Hz where the intended HCLK is 240 MHz |
| Vco.VcoInputBand | drivers/clock_control/clock_stm32_ll_h7.c:291-310 | succeeds exactly when the VCO input is in 1-16 MHz, returns the band containing it, and otherwise returns -ERANGE |
| Vco.GetVcoInputRange | drivers/clock_control/clock_stm32_ll_h7.c:291-310 | the same, applied to PLLSRC_FREQ / M |
| Vco.GetVcoOutputRange | drivers/clock_control/clock_stm32_ll_h7.c:313-320 | the output range is MEDIUM exactly for the 1-2 MHz input band, otherwise WIDE |
| Vco.BandsPartition | drivers/clock_control/clock_stm32_ll_h7.c:296-309 | the four input bands are disjoint and together cover exactly 1-16 MHz; the band returned is the one containing the frequency; a boundary value (2 MHz) goes to the lower band |
| Vco.OutputMediumIffLowestBand | drivers/clock_control/clock_stm32_ll_h7.c:291-320 | for an in-range input, the output range chosen is MEDIUM exactly when the input is at most 2 MHz |
| Feasibility.CeilingsOf | drivers/clock_control/clock_stm32_ll_h7.c:88-115 | the datasheet ceilings per family: AHB is at most SYSCLK, which is at most 550 MHz, and the APB ceiling is half the AHB ceiling in every family |
| Feasibility.Evaluable | drivers/clock_control/clock_stm32_ll_h7.c:47-86 | the configurations whose #if arithmetic is defined. Every prescaler is nonzero. With SYSCLK on PLL, PLL1 is configured with nonzero M and P, and the HSI divisor is nonzero if HSI feeds the PLL. With SYSCLK on HSI, the HSI divisor is nonzero (predicate, no contract) |
| Feasibility.SysclkSrcFreq | drivers/clock_control/clock_stm32_ll_h7.c:70-79 | SYSCLKSRC_FREQ with the precedence PLL, HSI, CSI, HSE, and 0 when no source is selected (definition; its properties are in FeasibleChain) |
| Feasibility.StageFreq | drivers/clock_control/clock_stm32_ll_h7.c:81-86 | SYSCLK_FREQ, AHB_FREQ and APB1-APB4_FREQ as floors of successive divisions; no stage exceeds the SYSCLK source frequency |
| Feasibility.Feasible | drivers/clock_control/clock_stm32_ll_h7.c:117-153 | the build succeeds exactly when no #error fires: every stage is within its family ceiling, SYSCLK equals the configured cycles per second, and D1CPRE is at most 1 (predicate, no contract) |
| Feasibility.FeasibleBoundsEveryStage | drivers/clock_control/clock_stm32_ll_h7.c:117-134 | the build checks read stage by stage: a buildable configuration keeps each stage under its ceiling, and a stage over its ceiling fails the build. This only unfolds `Feasible`; it is the form the rate-query lemma uses |
| Feasibility.FeasibleChain | drivers/clock_control/clock_stm32_ll_h7.c:70-153 | the following hold for a buildable configuration: D1CPRE is 1; SYSCLK equals both the source frequency and the configured cycles per second; AHB is SYSCLK/HPRE; each APB is at most AHB, which is at most SYSCLK |
| Hardware.GateAddress | drivers/clock_control/clock_stm32_ll_h7.c:156-162 | a bus register lies at the RCC base plus the bus offset, plus 0x60 on the M4 |
| Hardware.InBusRange | drivers/clock_control/clock_stm32_ll_h7.c:333 | the IN_RANGE test of on/off: an offset between STM32_PERIPH_BUS_MIN and STM32_PERIPH_BUS_MAX inclusive (predicate, no contract) |
| Hardware.Rcc.constructor | drivers/clock_control/clock_stm32_ll_h7.c:156-162 | a fresh RCC view with every in-range bus register present and an empty trace |
| Hardware.Rcc.Emit | drivers/clock_control/clock_stm32_ll_h7.c:433-481 | a write-only LL call appends exactly its action to the trace |
| Hardware.Rcc.SetPllSource | drivers/clock_control/clock_stm32_ll_h7.c:493-505 | LL_RCC_PLL_SetSource is recorded, and the source reported afterwards is the one written |
| Hardware.Rcc.AwaitSysClkSwitch | drivers/clock_control/clock_stm32_ll_h7.c:648-673 | once the busy-poll ends, the reported SYSCLK source is the one requested |
| Hardware.Rcc.ReadGate | drivers/clock_control/clock_stm32_ll_h7.c:340-341 | reading an enable register returns its word and records the read |
| Hardware.Rcc.WriteGate | drivers/clock_control/clock_stm32_ll_h7.c:342-343 | writing an enable register changes that word only and records the write |
| Hardware.Rcc.SetSystemCoreClock | drivers/clock_control/clock_stm32_ll_h7.c:687 | SystemCoreClock holds the published value |
| ClockGate.Toggle | drivers/clock_control/clock_stm32_ll_h7.c:324-374 | **no change on error:** a bus outside the range gives -ENOTSUP with nothing written. **Bits:** otherwise on sets and off clears exactly the enable bits, leaving the other bits of that word and every other word unchanged. **Trace:** lock, read, write, unlock |
| ClockGate.ClockControl | drivers/clock_control/clock_stm32_ll_h7.c:324-374 | the on/off method on the RCC object has Toggle's status, register contents and trace |
| ClockGate.ClockOn | drivers/clock_control/clock_stm32_ll_h7.c:324-348 | stm32_clock_control_on is Toggle with on set |
| ClockGate.ClockOff | drivers/clock_control/clock_stm32_ll_h7.c:350-374 | stm32_clock_control_off is Toggle with on cleared |
| ClockGate.OffAfterOnRestores | drivers/clock_control/clock_stm32_ll_h7.c:324-374 | off after on restores every register, if the bits were clear before |
| ClockGate.OnCommutes | drivers/clock_control/clock_stm32_ll_h7.c:324-348 | gating two peripherals on gives the same registers in either order, whether or not they share a bus |
| ClockGate.OnIdempotent | drivers/clock_control/clock_stm32_ll_h7.c:324-348 | gating on twice equals gating on once |
| ClockGate.BusDomain | drivers/clock_control/clock_stm32_ll_h7.c:399-421 | each of the nine bus offsets maps to its stage, and only those: the four AHB buses to AHB, APB1/APB1_2 to APB1, and APB2, APB3 and APB4 each to their own stage. Every other offset gives none, and every mapped bus is in range |
| ClockGate.AhbClock | drivers/clock_control/clock_stm32_ll_h7.c:387-391 | the AHB clock is SystemCoreClock/HPRE on the M7 and SystemCoreClock on the M4, never above SystemCoreClock |
| ClockGate.StagePrescaler | drivers/clock_control/clock_stm32_ll_h7.c:392-395 | the prescaler between AHB and each APB stage: D2PPRE1 for APB1, D2PPRE2 for APB2, D1PPRE for APB3, D3PPRE for APB4 (definition, used by GetSubsysRate) |
| ClockGate.GetSubsysRate | drivers/clock_control/clock_stm32_ll_h7.c:376-424 | **success:** exactly for a known bus, with the AHB clock for AHB buses and the floor of AHB / prescaler for APB buses. **Error:** -ENOTSUP otherwise |
| ClockGate.RateQueryMatchesFeasibleTree | drivers/clock_control/clock_stm32_ll_h7.c:376-424 | after an M7 bring-up of a buildable configuration, the rate reported for each bus equals that stage's build-time frequency, within its ceiling |
| FixedSources.Rank | drivers/clock_control/clock_stm32_ll_h7.c:433-481 | every oscillator has one position in the start order HSE, HSI, CSI, LSI, LSE |
| FixedSources.OscSteps | drivers/clock_control/clock_stm32_ll_h7.c:433-481 | an oscillator's block holds its enable, then right after it the ready wait |
| FixedSources.OrderedByRank | drivers/clock_control/clock_stm32_ll_h7.c:433-481 | actions of an earlier oscillator come before those of a later one |
| FixedSources.OnlyOscillatorActions | drivers/clock_control/clock_stm32_ll_h7.c:433-481 | every action belongs to an enabled oscillator |
| FixedSources.EnabledExactlyWhenConfigured | drivers/clock_control/clock_stm32_ll_h7.c:433-481 | an oscillator is enabled and awaited exactly when it is configured |
| FixedSources.StartActionIffEnabled | drivers/clock_control/clock_stm32_ll_h7.c:433-481 | the same, for either start action |
| FixedSources.ReadyRightAfterEnable | drivers/clock_control/clock_stm32_ll_h7.c:438-479 | the ready wait follows the enable immediately |
| FixedSources.StartedInOrder | drivers/clock_control/clock_stm32_ll_h7.c:433-481 | an earlier oscillator is ready before a later one is enabled |
| FixedSources.BypassBeforeHse | drivers/clock_control/clock_stm32_ll_h7.c:436-447 | the HSE bypass setting is written immediately before HSE is enabled |
| FixedSources.BypassOnlyForHse | drivers/clock_control/clock_stm32_ll_h7.c:436-447 | a bypass write happens exactly when HSE is enabled, with the configured value |
| FixedSources.BypassFromHseSteps | drivers/clock_control/clock_stm32_ll_h7.c:436-447 | any bypass write comes from the HSE block, with its configured value |
| FixedSources.HsiDividerAfterReady | drivers/clock_control/clock_stm32_ll_h7.c:449-456 | the HSI divider is written right after HSI is ready |
| FixedSources.HsiDividerOnlyForHsi | drivers/clock_control/clock_stm32_ll_h7.c:449-456 | a divider write happens exactly when HSI is enabled, with the configured divisor |
| FixedSources.HsiDividerFromHsiSteps | drivers/clock_control/clock_stm32_ll_h7.c:449-456 | any divider write comes from the HSI block |
| FixedSources.BackupAccessBeforeLse | drivers/clock_control/clock_stm32_ll_h7.c:472-480 | backup-domain access is enabled immediately before LSE |
| FixedSources.BackupAccessOnlyForLse | drivers/clock_control/clock_stm32_ll_h7.c:472-480 | backup-domain access is enabled exactly when LSE is |
| FixedSources.StartOscillator | drivers/clock_control/clock_stm32_ll_h7.c:436-480 | starting one oscillator appends exactly its block |
| FixedSources.StartIfEnabled | drivers/clock_control/clock_stm32_ll_h7.c:436-480 | the `#if` around an oscillator: its block when enabled, nothing otherwise |
| FixedSources.SetUpFixedClockSources | drivers/clock_control/clock_stm32_ll_h7.c:433-481 | set_up_fixed_clock_sources appends exactly FixedSourceSteps |
| FixedSources.FixedSourceSteps | drivers/clock_control/clock_stm32_ll_h7.c:433-481 | the trace of set_up_fixed_clock_sources: the blocks of the five oscillators in source order, each present only when configured (definition; its properties are the FixedSources lemmas above) |
| Plls.PllSourceSelection | drivers/clock_control/clock_stm32_ll_h7.c:493-505 | the runtime chain, one iff per outcome: HSE whenever it is selected; CSI exactly when CSI is selected and HSE is not; HSI exactly when HSI is the only one of the three selected. It finds none exactly when none is selected |
| Plls.SelectionMatchesBuildFrequency | drivers/clock_control/clock_stm32_ll_h7.c:48-56 | with one source selected, the source programmed at run time has the frequency PLLSRC_FREQ assumed |
| Plls.PrecedencesDisagree | drivers/clock_control/clock_stm32_ll_h7.c:48-56 | with HSE and HSI both selected, HSE is programmed while PLLSRC_FREQ uses HSI |
| Plls.UnitOutcomeChecksRange | drivers/clock_control/clock_stm32_ll_h7.c:507-544 | a PLL block returns -ERANGE before writing anything exactly when PLLSRC_FREQ/M is outside 1-16 MHz; otherwise it programs that band |
| Plls.UnitIfConfigured | drivers/clock_control/clock_stm32_ll_h7.c:507-583 | an absent PLL writes nothing and succeeds |
| Plls.ProgramSteps | drivers/clock_control/clock_stm32_ll_h7.c:513-544 | the writes of one PLL block with the band already chosen: M, the VCO input and output ranges, N, FRACN off, each enabled output, the enable and the lock wait (definition; see ProgramOrder) |
| Plls.UnitOutcome | drivers/clock_control/clock_stm32_ll_h7.c:507-544 | one PLL block: the VCO range check and, on success, ProgramSteps for the band found (definition; see UnitOutcomeChecksRange) |
| Plls.PllBlocksOutcome | drivers/clock_control/clock_stm32_ll_h7.c:507-583 | PLL1 then PLL3: the first range error is returned with only the writes made before it (definition; see Pll1RangeErrorStopsEarly and SuccessIffInputsInRange) |
| Plls.SetUpPllsOutcome | drivers/clock_control/clock_stm32_ll_h7.c:484-591 | status and trace of set_up_plls, covering the no-PLL, no-source and range-error paths (definition; see SetUpPllsStatus and the lemmas after it) |
| Plls.PllSourceAfter | drivers/clock_control/clock_stm32_ll_h7.c:484-591 | the source LL_RCC_PLL_GetSource reports afterwards: none with no PLL, unchanged when no source is selected, otherwise the selected one (definition) |
| Plls.SetUpPllsStatus | drivers/clock_control/clock_stm32_ll_h7.c:484-591 | **Statuses:** 0, -ENOTSUP or -ERANGE. **-ENOTSUP:** returned exactly when a PLL is configured but no source is selected |
| Plls.NoPllSetsSourceNone | drivers/clock_control/clock_stm32_ll_h7.c:585-588 | with no PLL configured, the only write sets the PLL source to none |
| Plls.NoSourceNoWrites | drivers/clock_control/clock_stm32_ll_h7.c:503-505 | a configured PLL with no source returns -ENOTSUP with nothing written |
| Plls.Pll1RangeErrorStopsEarly | drivers/clock_control/clock_stm32_ll_h7.c:507-511 | a PLL1 range error returns with only the source written, and PLL3 is untouched |
| Plls.SuccessIffInputsInRange | drivers/clock_control/clock_stm32_ll_h7.c:507-583 | set_up_plls succeeds exactly when every configured PLL has its VCO input in 1-16 MHz |
| Plls.ProgramOrder | drivers/clock_control/clock_stm32_ll_h7.c:513-544 | a PLL is programmed in this order: M, ranges, N and FRACN; then its outputs; then the enable and the wait for lock |
| Plls.ProgrammedRanges | drivers/clock_control/clock_stm32_ll_h7.c:513-521 | the input range written contains PLLSRC_FREQ/M, and the output range is MEDIUM exactly up to 2 MHz |
| Plls.OutputWrittenIffEnabled | drivers/clock_control/clock_stm32_ll_h7.c:523-539 | an output's divider and enable are written exactly when it is enabled, the divider with its configured value |
| Plls.SourceFirstThenPll1ThenPll3 | drivers/clock_control/clock_stm32_ll_h7.c:493-583 | the source is written first, and PLL1 is locked before PLL3 is programmed |
| Plls.SetUpPllsActions | drivers/clock_control/clock_stm32_ll_h7.c:484-591 | set_up_plls performs only source writes and PLL-unit actions |
| Plls.WriteProgram | drivers/clock_control/clock_stm32_ll_h7.c:513-544 | programming one PLL appends ProgramSteps |
| Plls.WriteHead | drivers/clock_control/clock_stm32_ll_h7.c:513-523 | appends the M, range, N and FRACN writes of one PLL |
| Plls.WriteOutputs | drivers/clock_control/clock_stm32_ll_h7.c:525-538 | appends the divider and enable writes of the P, Q and R outputs |
| Plls.EnableOutput | drivers/clock_control/clock_stm32_ll_h7.c:525-528 | one `if (IS_ENABLED(...))` output block: the divider and the enable when the output is enabled, nothing otherwise |
| Plls.ProgramPll | drivers/clock_control/clock_stm32_ll_h7.c:507-583 | one PLL block on the RCC, with the status and trace of UnitIfConfigured |
| Plls.ProgramPlls | drivers/clock_control/clock_stm32_ll_h7.c:507-583 | the PLL1 then PLL3 blocks, stopping at the first error |
| Plls.SetUpPlls | drivers/clock_control/clock_stm32_ll_h7.c:484-591 | set_up_plls returns SetUpPllsOutcome's status and trace, and leaves the PLL source that was selected |
| Init.SysClkSelection | drivers/clock_control/clock_stm32_ll_h7.c:648-673 | the switch chain, one iff per outcome: PLL1 exactly when selected. HSE exactly when selected without PLL1. HSI exactly when selected without PLL1 or HSE. CSI exactly when it alone is selected. No source exactly when none is selected |
| Init.HsemBus | drivers/clock_control/clock_stm32_ll_h7.c:602-608 | the semaphore clock is on AHB2 for the H7A3/H7B3 family and on AHB4 otherwise (definition) |
| Init.PrescalerSteps | drivers/clock_control/clock_stm32_ll_h7.c:640-645 | the six prescaler writes in source order, D1CPRE first (definition) |
| Init.PrologueSteps | drivers/clock_control/clock_stm32_ll_h7.c:602-613 | the semaphore clock, the lock and the fixed oscillators (definition; see InitOpens) |
| Init.NewHclk | drivers/clock_control/clock_stm32_ll_h7.c:627-628 | new_hclk_freq: the configured cycles per second divided by HPRE (definition) |
| Init.OldHclk | drivers/clock_control/clock_stm32_ll_h7.c:625 | old_hclk_freq: get_hclk_frequency as written, on the SYSCLK status found on entry and the PLL source set_up_plls leaves (definition) |
| Init.Raise | drivers/clock_control/clock_stm32_ll_h7.c:633 | the latency decision new_hclk_freq > old_hclk_freq (predicate) |
| Init.InitTrace | drivers/clock_control/clock_stm32_ll_h7.c:594-690 | status and trace of the M7 init once the latency decision is taken. It covers the PLL-error, no-SYSCLK and success exits (definition; see InitStatus and the lemmas after it) |
| Init.InitOutcome | drivers/clock_control/clock_stm32_ll_h7.c:594-690 | InitTrace with the latency decision that the code takes from the hardware state on entry (definition; see InitM7) |
| Init.InitStatus | drivers/clock_control/clock_stm32_ll_h7.c:594-690 | **Statuses:** 0, -ENOTSUP or -ERANGE. **Success:** exactly when set_up_plls succeeds and a SYSCLK source is selected |
| Init.InitOnPllError | drivers/clock_control/clock_stm32_ll_h7.c:616-619 | a set_up_plls error is returned at once, after only the semaphore, the oscillators and the PLL writes |
| Init.InitOnNoSysClk | drivers/clock_control/clock_stm32_ll_h7.c:670-673 | with no SYSCLK source, -ENOTSUP comes after the prescalers, before any switch |
| Init.InitSuccess | drivers/clock_control/clock_stm32_ll_h7.c:594-690 | a successful bring-up is head, configuration and close, in that order |
| Init.LockEvents | drivers/clock_control/clock_stm32_ll_h7.c:610-684 | on success the semaphore is taken once and released once; on every error return it stays taken |
| Init.LatencyWrittenOnce | drivers/clock_control/clock_stm32_ll_h7.c:631-680 | on success, the flash latency is written exactly once, for the new HCLK |
| Init.LatencyOrder | drivers/clock_control/clock_stm32_ll_h7.c:631-680 | if HCLK rises, the latency is programmed before both the prescalers and the confirmed SYSCLK switch. The "before the prescalers" part holds only then. Otherwise it is programmed after the confirmed switch |
| Init.VoltageStaysScale0 | drivers/clock_control/clock_stm32_ll_h7.c:228-288 | every voltage-scale write of the bring-up selects SCALE0 |
| Init.InitOpens | drivers/clock_control/clock_stm32_ll_h7.c:602-613 | the trace opens with the semaphore clock, the lock, and the fixed oscillators |
| Init.InitCloses | drivers/clock_control/clock_stm32_ll_h7.c:682-684 | on success the trace closes with the supply configuration, SCALE0 and the unlock |
| Init.HclkAfterInitIsNewHclk | drivers/clock_control/clock_stm32_ll_h7.c:625-628 | the intended behaviour: after a successful bring-up of a buildable configuration with one source per selection, the corrected get_hclk_frequency returns the new_hclk_freq the latency was set for. The code reaches this only under HclkAsWrittenAgrees |
| Init.LatencyDecisionAsWrittenOn480MHzPll | drivers/clock_control/clock_stm32_ll_h7.c:625-635 | on the 480 MHz PLL1 configuration with SYSCLK already on PLL1, old_hclk_freq as written is 25,251,635 Hz, below the new 240 MHz. The code therefore raises the latency early, although the intended old HCLK equals the new one |
| Init.TakeLock | drivers/clock_control/clock_stm32_ll_h7.c:602-610 | the semaphore clock is enabled on the family's bus, then the semaphore is taken |
| Init.PrepareRegulatorVoltageScale | drivers/clock_control/clock_stm32_ll_h7.c:228-255 | succeeds after the supply configuration and SCALE0 writes |
| Init.OptimizeRegulatorVoltageScale | drivers/clock_control/clock_stm32_ll_h7.c:257-288 | succeeds after the same two writes, whatever the frequency |
| Init.SetPrescalers | drivers/clock_control/clock_stm32_ll_h7.c:640-645 | the six prescalers are written, D1CPRE first |
| Init.Configure | drivers/clock_control/clock_stm32_ll_h7.c:622-645 | regulator, early latency if HCLK rises, then prescalers |
| Init.SwitchSysClk | drivers/clock_control/clock_stm32_ll_h7.c:648-673 | **no source:** -ENOTSUP with nothing written. **Otherwise:** the selected source is set, awaited, and then reported |
| Init.Finish | drivers/clock_control/clock_stm32_ll_h7.c:678-684 | late latency if HCLK did not rise, the regulator and the unlock |
| Init.InitM7 | drivers/clock_control/clock_stm32_ll_h7.c:594-690 | **Status and trace:** the M7 init has InitOutcome's, taking old_hclk_freq from get_hclk_frequency as written on the reported sources before the call. **PLL source:** the one set_up_plls leaves. **Success:** the SYSCLK source is the selected one and SystemCoreClock holds the cycles per second. **Error:** both are left as before |
| Init.InitM4 | drivers/clock_control/clock_stm32_ll_h7.c:692-700 | the M4 init succeeds and only publishes the cycles per second |

## Left out

- LL calls: each is a trace action. Register bit layouts and the LL library's behaviour are not part of this model.
- Register words: modelled as sets of bit positions, not 32-bit integers; the gate only sets and clears bits.
- Busy-waits: the ready polls and the SYSCLK switch poll are single actions that mean "the hardware reported ready". Whether the hardware ever answers (liveness) is not modelled.
- Semaphores: the hardware semaphore's bounded retry and concurrency between the two cores are not modelled. Lock and unlock are actions.
- Power supply: the supply-configuration macros choose an `LL_PWR_ConfigSupply` argument by SoC variant. This is one `ConfigSupply` action without the variant.
- Flash latency: `LL_SetFlashLatency` is one action carrying the HCLK it is computed for. Its table lookup is not modelled.
- Headers: the bus identifiers (`STM32_CLOCK_BUS_*`, `STM32_PERIPH_BUS_MIN/MAX`) and the errno values come from headers that are not part of this model. They are stated as constants in `Hardware` and `ClockTypes`, using the values those headers define. The devicetree macros of `include/zephyr/drivers/clock_control/stm32_clock_control.h` become fields of `Config`.
- Registration: `DEVICE_DT_DEFINE` and the driver API table are plumbing and are not modelled.
- Init.InitM7: the M7 init's final `return r` returns the last status, which is 0 on every path that reaches it. The model returns that value.
- Frequency.PllOutFrequencyAsWritten: the signed `int` product `pllm_div * pllout_div` in the divisor is taken as unbounded. Only the 32-bit wrap of the numerator is modelled.
- ClockGate.GetSubsysRate: takes SystemCoreClock as a parameter instead of reading the global.
- Init.InitM7: the HSEM clock enable (LL_AHB4_GRP1_EnableClock, or LL_AHB2_GRP1_EnableClock on H7A3/H7B3) sets the HSEM bit in RCC_AHB4ENR (RCC_AHB2ENR). That is a word the model holds in `gates`. The model records the enable only as the trace action `HsemClockEnable`, and `gates` lacks that bit. InitM7 and TakeLock therefore leave `gates` unchanged, because the HSEM bit position and the register alias used on each core are LL header constants that are not part of this model. A gate query on AHB4 (AHB2) after bring-up misses that one bit.
- ClockGate.Toggle: treats every offset admitted by IN_RANGE (0xD4-0xF4) as its own register word, and `Hardware.Rcc.Valid` holds one word per such offset. Only the nine `STM32_CLOCK_BUS_*` offsets address real enable registers. For an unaligned offset such as 0xD5 the code makes a 32-bit access that overlaps two registers, or faults. The model does not capture that overlap, so OnCommutes and the "other words unchanged" clause hold there only in the model.

## Findings

| source | as written | input that shows it | evidently intended | confidence | as-written member | corrected member |
|---|---|---|---|---|---|---|
| drivers/clock_control/clock_stm32_ll_h7.c:170-179 | get_pllout_frequency multiplies the source frequency by N in `uint32_t` before dividing by M·P, so the product wraps above 2^32 | 25 MHz source, M=5, N=192, P=2: gives 50,503,270 Hz instead of 480,000,000 Hz | divide by M first, or multiply in 64 bits, so the result is src·N/(M·P) | not executed | Frequency.PllOutAsWrittenWraps | Frequency.PllOutFrequency |
| drivers/clock_control/clock_stm32_ll_h7.c:182-195 | get_pllsrc_frequency returns the HSI frequency without the HSI divider, whereas the PLLSRC_FREQ macro (lines 48-49) divides it | HSI as PLL source, HSI 64 MHz, divisor 4: gives 64 MHz instead of 16 MHz. With PLL1 as SYSCLK, get_hclk_frequency then overstates old_hclk_freq fourfold | return the HSI frequency divided by the HSI divisor, as PLLSRC_FREQ does | not executed | Frequency.PllSrcAsWrittenIgnoresHsiDivisor | Frequency.PllSrcFrequency |
| drivers/clock_control/clock_stm32_ll_h7.c:198-224 | get_hclk_frequency's PLL1 arm (lines 214-218) composes the two helpers above, so old_hclk_freq at line 625 inherits the wrap and the undivided HSI. An old frequency that is too low makes line 633 treat HCLK as rising | 25 MHz HSE into PLL1 with M=5, N=192, P=2, HPRE=2, SYSCLK already on PLL1 at entry: old_hclk_freq is 25,251,635 Hz instead of 240,000,000 Hz, so the latency is written before the prescalers although HCLK does not change | old_hclk_freq is the HCLK actually running, so the latency is raised early only when HCLK rises | not executed | Init.LatencyDecisionAsWrittenOn480MHzPll | Frequency.HclkFrequency |
