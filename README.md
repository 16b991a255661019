# STM32G4 clock-tree initialisation, modelled in Dafny

This project models the clock initialisation of the STM32G4 family in the
embassy-stm32 HAL (`embassy-stm32/src/rcc/g4.rs`). Given a `Config` that
names the system clock source (HSI16, HSE at a given frequency, or the PLL fed
by either towards a target frequency), the AHB prescaler, the two APB
prescalers and the low-power-run flag, the routine

1. starts the selected oscillator and waits for its ready flag, or plans the
   PLL at a fixed design point (M = 4, R = 2, Q chosen for an exact 48 MHz
   tap), writes PLLCFGR, starts HSE when it feeds the PLL, starts the PLL,
   waits for lock and routes the Q tap to the 48 MHz clock mux;
2. writes the SW code and the three prescaler codes to CFGR and waits until
   SWS reports the switch;
3. derives the AHB, APB and APB-timer frequencies;
4. checks low-power run (at most 2 MHz) and sets PWR_CR1.LPR;
5. returns the resulting `Clocks` record.

Files and modules:

- `types.dfy` (`ClockTypes`): u32/u8 value types, the error kinds (one per
  distinct panic of the source), `Result`, `Option`, `Pow2` for `1 << n`.
- `prescalers.dfy` (`Prescalers`): the AHB and APB prescaler enums, their
  field codes with decoders, and the PLLR/PLLQ divisor codes.
- `pll.dfy` (`Pll`): the PLL plan as a pure function and what is proved about
  it (windows, the three possible VCO outputs, truncation, examples).
- `bus.dfy` (`Bus`): AHB/APB frequency derivation and the `Clocks` record.
- `rcc.dfy` (`Rcc`): `Config`, the source selection and `Configure`, the pure
  outcome of the whole routine, with its lemmas.
- `registers.dfy` (`RccHardware`): class `Peripherals` holding the RCC and PWR
  registers the routine touches (CR, PLLCFGR, CFGR, CCIPR, PWR_CR1) plus a
  model of the hardware behind the polled flags; its method `Init` is the
  routine, proved to return `Configure(config)` and to leave exactly the stated
  register image.

Panics become `Err` results. The routine's busy-wait loops are real loops: each
oscillator has a start-up count (polls of its ready flag still needed once it is
switched on) and the clock switch a latency (polls of SWS still needed once its
source is ready), so every loop terminates on a decreasing count. The switch is
reported only when the selected source is ready, and `Init` proves that it is.

Register access follows the source's two forms. `modify` (CCIPR, CFGR, PWR_CR1)
changes only the named fields. `write` (CR, PLLCFGR) replaces the register; the
model takes the unnamed fields of a written value to be clear. This is an
assumption about the register-access layer, which is not part of this model.
One consequence: `CrFor` has HSION clear after the HSE path and both PLL paths,
because those paths write CR without naming HSION.

## Model

| member | source | states |
|---|---|---|
| `Prescalers.AhbCode` | embassy-stm32/src/rcc/g4.rs:61-75 | NotDivided is code 1 and nothing else is; Div2..Div512 get codes in 8..15; every code decodes back to its prescaler |
| `Prescalers.AhbFromCode` | embassy-stm32/src/rcc/g4.rs:61-75 | exactly the codes 1 and 8..15 belong to an AHB prescaler |
| `Prescalers.AhbCodeOfDecoded` | embassy-stm32/src/rcc/g4.rs:61-75 | each decodable code is the code of the prescaler it decodes to (the other direction of the round trip) |
| `Prescalers.AhbCodeInjective` | embassy-stm32/src/rcc/g4.rs:61-75 | distinct AHB prescalers have distinct codes |
| `Prescalers.ApbCode` | embassy-stm32/src/rcc/g4.rs:49-59 | NotDivided is code 1 and nothing else is; Div2..Div16 get codes in 4..7; every code decodes back to its prescaler |
| `Prescalers.ApbFromCode` | embassy-stm32/src/rcc/g4.rs:49-59 | exactly the codes 1 and 4..7 belong to an APB prescaler |
| `Prescalers.ApbCodeOfDecoded` | embassy-stm32/src/rcc/g4.rs:49-59 | each decodable code is the code of the prescaler it decodes to |
| `Prescalers.ApbCodeInjective` | embassy-stm32/src/rcc/g4.rs:49-59 | distinct APB prescalers have distinct codes |
| `Prescalers.PllrFlag` | embassy-stm32/src/rcc/g4.rs:99-107 | succeeds exactly for 2, 4, 6, 8; the code is below 4 and selects that divisor; every other input is the InvalidPllr error |
| `Prescalers.PllqFlag` | embassy-stm32/src/rcc/g4.rs:109-117 | succeeds exactly for 2, 4, 6, 8; the code is below 4 and selects that divisor; every other input is the InvalidPllq error |
| `Prescalers.FlagRoundTrip` | embassy-stm32/src/rcc/g4.rs:99-117 | each 2-bit code is the PLLR and the PLLQ code of the divisor it selects |
| `Pll.PllInput` | embassy-stm32/src/rcc/g4.rs:136-139 | the PLL input is the HSE frequency for an HSE source and 16 MHz for HSI16 |
| `Pll.PlanPll` | embassy-stm32/src/rcc/g4.rs:135-183 | on success: VCO input = input/4 inside [2.66, 16] MHz, N = target*2/VCO input, VCO output = VCO input * N inside [96, 344] MHz, main output * 2 = VCO output, Q * 48 MHz = VCO output, the R and Q codes select 2 and Q, N fits the u8 setter; the R code never fails. On failure, the error of the first failing check: VCO input above 16 MHz or below 2.66 MHz, VCO output above 344 MHz or below 96 MHz, no exact 48 MHz tap, and InvalidPllq for a VCO output of 144, 240 or 336 MHz |
| `Pll.PlanVcoOutput` | embassy-stm32/src/rcc/g4.rs:160-183 | with N fixed: the output window, the exact 48 MHz tap and the divisor codes, as above; each failing check returns its own error, and a VCO output in the window on a 48 MHz multiple fails exactly when the Q code does, with InvalidPllq |
| `Pll.PllnBound` | embassy-stm32/src/rcc/g4.rs:183 | inside both VCO windows N is below 256, so the conversion to u8 cannot fail |
| `Pll.PlanOutputsAreFixed` | embassy-stm32/src/rcc/g4.rs:163-181 | a successful plan has Q in {2, 4, 6}, VCO output in {96, 192, 288} MHz and main output in {48, 96, 144} MHz |
| `Pll.PlanSucceedsIff` | embassy-stm32/src/rcc/g4.rs:141-181 | the plan succeeds if and only if the VCO input is inside its window and VCO input * N is 96, 192 or 288 MHz |
| `Pll.PlanUndershootsTarget` | embassy-stm32/src/rcc/g4.rs:157-161 | the truncated N never overshoots: main output <= target, and twice the shortfall is below the VCO input |
| `Pll.PlanHsi48MHz` | embassy-stm32/src/rcc/g4.rs:135-183 | HSI16 with a 48 MHz target: VCO input 4 MHz, N 24, VCO 96 MHz, main 48 MHz, Q 2, codes 0 and 0 |
| `Pll.PlanHsi1MHzFails` | embassy-stm32/src/rcc/g4.rs:157-168 | HSI16 with a 1 MHz target: N truncates to 0 and the plan fails with VCO output too low |
| `Pll.PlanHsi72MHzFails` | embassy-stm32/src/rcc/g4.rs:170-181 | HSI16 with a 72 MHz target: Q would be 3 and the plan fails with InvalidPllq |
| `Pll.PlanHse8MHzFails` | embassy-stm32/src/rcc/g4.rs:141-152 | an 8 MHz input gives a 2 MHz VCO input and fails with VCO input too low |
| `Bus.AhbFreqAsWritten` | embassy-stm32/src/rcc/g4.rs:246-253 | the source's AHB formula: NotDivided gives the system clock, every result is at most the system clock |
| `Bus.AhbAsWrittenMatchesNameUpToDiv16` | embassy-stm32/src/rcc/g4.rs:246-253 | for Div2..Div16 the source's shift divides by the named divisor |
| `Bus.AhbAsWrittenHalvesLargeDivisors` | embassy-stm32/src/rcc/g4.rs:246-253 | for Div64..Div512 the source's shift divides by half the named divisor |
| `Bus.AhbAsWrittenDiv64Counterexample` | embassy-stm32/src/rcc/g4.rs:246-253 | 64 MHz with Div64: the named divisor gives 1 MHz, the source's formula 2 MHz |
| `Bus.AhbFreq` | embassy-stm32/src/rcc/g4.rs:246-253 | corrected AHB frequency: the system clock over the named divisor for every prescaler, equal to the source's formula up to Div16 |
| `Bus.ApbFreqs` | embassy-stm32/src/rcc/g4.rs:255-263 | NotDivided gives (ahb, ahb); otherwise the peripheral clock is ahb over the named divisor and the timer clock twice it; always freq <= tim <= ahb |
| `Bus.BusClocks` | embassy-stm32/src/rcc/g4.rs:246-288 | the record: sys is the system clock, ahb1 = ahb2 = sys over the AHB divisor, APB1 and APB2 derived independently from ahb1, and no domain faster than the one above it |
| `Bus.BusClocksUndivided` | embassy-stm32/src/rcc/g4.rs:246-273 | with no prescaler every domain runs at the system clock |
| `Bus.BusClocksHsiExample` | embassy-stm32/src/rcc/g4.rs:246-273 | 16 MHz, AHB /2, APB1 /4: AHB 8 MHz, APB1 2 MHz, APB1 timers 4 MHz, APB2 8 MHz |
| `Rcc.DefaultConfig` | embassy-stm32/src/rcc/g4.rs:86-97 | the default is HSI16, every prescaler dividing by 1, low-power run off |
| `Rcc.SwCode` | embassy-stm32/src/rcc/g4.rs:120-219 | HSI16, HSE and PLL get SW codes 1, 2 and 3 (lines 126, 133, 218), each code belonging to exactly one source |
| `Rcc.SelectSource` | embassy-stm32/src/rcc/g4.rs:120-219 | HSI16 gives (16 MHz, 1), HSE(f) gives (f, 2), the PLL gives (main output, 3) with the plan; only a failing PLL plan fails, with its error; a PLL system clock is 48, 96 or 144 MHz |
| `Rcc.Configure` | embassy-stm32/src/rcc/g4.rs:119-289 | success implies the selection succeeded and sys is its clock; a successful low-power request has sys <= 2 MHz; the low-power error happens exactly when the selection succeeded, the flag is set and sys > 2 MHz; with the flag clear only the selection can fail; a failing selection's error is the error returned |
| `Rcc.ConfigureClocks` | embassy-stm32/src/rcc/g4.rs:280-288 | the returned record has ahb1 = ahb2 = sys over the AHB divisor and each APB pair derived from ahb1 by its prescaler |
| `Rcc.LowPowerRunNeedsSlowHse` | embassy-stm32/src/rcc/g4.rs:275-278 | with low-power run requested, the routine succeeds if and only if the source is HSE at 2 MHz or less |
| `Rcc.DefaultConfigClocks` | embassy-stm32/src/rcc/g4.rs:86-97 | the default configuration publishes 16 MHz on every domain |
| `Rcc.HsiDividedExample` | embassy-stm32/src/rcc/g4.rs:120-273 | HSI16 with AHB /2 and APB1 /4 publishes AHB 8 MHz, APB1 2 MHz, APB1 timers 4 MHz |
| `Rcc.PllHsi48Example` | embassy-stm32/src/rcc/g4.rs:135-288 | the PLL from HSI16 towards 48 MHz publishes 48 MHz everywhere |
| `Rcc.LowPowerRunExamples` | embassy-stm32/src/rcc/g4.rs:275-278 | low-power run from a 1 MHz HSE succeeds, from a 4 MHz HSE fails with LowPowerRunTooFast |
| `RccHardware.CrFor` | embassy-stm32/src/rcc/g4.rs:123-203 | the CR value last written (lines 123, 130, 193, 198-203): HSION exactly for HSI16, PLLON exactly for the PLL, HSEON exactly for HSE and for the PLL fed by HSE |
| `RccHardware.PllCfgrFor` | embassy-stm32/src/rcc/g4.rs:178-189 | the PLLCFGR value written: source code 3 exactly for HSE (2 otherwise), M field 3 for divide-by-4, both taps enabled, the plan's N and the R and Q codes selecting the plan's divisors |
| `RccHardware.Peripherals.ReadCr` | embassy-stm32/src/rcc/g4.rs:124 | one read of CR: every enabled oscillator comes one poll closer to ready; the flags returned are the ready states after it |
| `RccHardware.Peripherals.ReadSws` | embassy-stm32/src/rcc/g4.rs:244 | one read of SWS: a pending switch comes one poll closer to being reported; nothing but SWS changes in CFGR |
| `RccHardware.Peripherals.WaitHsiReady` | embassy-stm32/src/rcc/g4.rs:124 | the spin ends with HSI16 ready and keeps HSE and PLL readiness |
| `RccHardware.Peripherals.WaitHseReady` | embassy-stm32/src/rcc/g4.rs:131 | the spin (also at lines 194 and 207) ends with HSE ready and keeps HSI16 and PLL readiness |
| `RccHardware.Peripherals.WaitPllReady` | embassy-stm32/src/rcc/g4.rs:211 | the spin ends with the PLL locked and keeps HSI16 and HSE readiness |
| `RccHardware.Peripherals.WaitSwitch` | embassy-stm32/src/rcc/g4.rs:243-244 | the spin ends with SWS equal to the requested SW and nothing else in CFGR changed |
| `RccHardware.Peripherals.Init` | embassy-stm32/src/rcc/g4.rs:119-289 | returns Configure(config); a failing PLL plan changes nothing; otherwise CR, PLLCFGR, CCIPR and CFGR hold exactly the stated image, SWS equals SW, the selected source is ready, and LPR is set exactly when low-power run was requested and accepted |

## Findings

| source | as written | input that shows it | evidently intended | confidence | as-written member | corrected member |
|---|---|---|---|---|---|---|
| embassy-stm32/src/rcc/g4.rs:250 | the AHB divisor is `1 << (code - 7)` for every divided HPRE code | system clock 64 MHz with Div64 (code 0x0c): the formula divides by 32 and reports 2 MHz | divide by the named divisor, 64, giving 1 MHz; the code table skips divide-by-32, so from code 0x0c on the shift is `code - 6` | high; not executed | `Bus.AhbFreqAsWritten` (shown by `Bus.AhbAsWrittenDiv64Counterexample`) | `Bus.AhbFreq` |

`Bus.BusClocks`, `Rcc.Configure` and `Init` use the corrected `Bus.AhbFreq`.
For Div2..Div16 the two agree (`Bus.AhbFreq` states this). So the published
record differs from the source's only when the AHB prescaler is Div64 or
higher.

Three behaviours of the routine worth stating:

- The code has one panic per check, so the model has one error kind per
  panic: VCO input too high or too low, VCO output too high or too low, no
  exact 48 MHz tap, invalid PLLR, invalid PLLQ, low-power run too fast.
  InvalidPllr can never occur, because R is fixed at 2 (`Pll.PlanPll` states
  this).
- The low-power check runs after CFGR has been written and the switch
  confirmed. It does not validate before the commit. `Init` states that a
  rejected low-power request leaves the new clock configuration in place and
  PWR untouched.
- The PLL path fed by HSI16 does not enable HSI16 itself.

## Left out

- Memory-mapped I/O and the register-access layer: registers are fields of
  `Peripherals`. Only the fields the routine names are modelled. A `write` is
  taken to clear every field it does not name, which is an assumption about
  code that is not part of this model.
- Hardware protections are left out, for example the chip keeping HSI16
  running while it drives the system clock even though a CR write clears
  HSION. In the model, PLL lock does not depend on the PLL's input oscillator.
- Hanging forever: each oscillator and the switch become ready after a finite
  number of polls, fixed by the hardware-state fields. A source that never
  becomes ready, which the routine would wait on forever, is not modelled.
- Publication through the process-wide `set_freqs` (line 280): `Init` returns
  the record. The write-once global and its single-initialisation contract
  are not modelled.
- Flash wait states (the commented-out block at lines 222-234) and the
  unused LSI frequency constant (line 9).
- `Pll.PlanPll`: requires `target * 2 < 2^32` (`Pll.TargetFits`, and
  `Rcc.MuxFits` for `Rcc.SelectSource`, `Rcc.Configure` and `Init`)
  instead of modelling the u32 wrap-around of `target_freq.0 * pllr` at
  line 158. No other u32 operation of the routine can overflow, and the
  model's subset types prove this.
- `embassy-lora/src/lib.rs`: a timer adapter over an async time library,
  which is not part of this model.
- `examples/stm32wl/src/bin/lorawan.rs`: application code (GPIO, radio, LoRaWAN
  join and send) on external crates.
