/**
 * The configuration of the STM32G4 clock initialisation and the outcome it
 * computes, as values: which source drives the system clock and at what
 * frequency, the published bus frequencies, and the errors.
 */
module Rcc {
  import opened ClockTypes
  import opened Prescalers
  import opened Pll
  import opened Bus

  /** Highest system clock allowed in low-power run mode. */
  const LOW_POWER_RUN_MAX: nat := 2_000_000

  /** The system clock mux source. */
  datatype ClockSrc = Hse(freq: Hertz) | Hsi16 | Pll(source: PllSource, target: Hertz)

  /** The clock configuration the caller passes to the initialisation. */
  datatype Config = Config(
    mux: ClockSrc,
    ahbPre: AhbPrescaler,
    apb1Pre: ApbPrescaler,
    apb2Pre: ApbPrescaler,
    lowPowerRun: bool)

  /** The default configuration: HSI16, no prescaler, no low-power run. */
  function DefaultConfig(): (c: Config)
    ensures c.mux.Hsi16? && !c.lowPowerRun
    ensures AhbDivisor(c.ahbPre) == 1 && ApbDivisor(c.apb1Pre) == 1 && ApbDivisor(c.apb2Pre) == 1
  {
    Config(ClockSrc.Hsi16, AhbPrescaler.NotDivided, ApbPrescaler.NotDivided,
           ApbPrescaler.NotDivided, false)
  }

  /** The only bound the model puts on callers: a PLL target whose doubling fits u32. */
  predicate MuxFits(mux: ClockSrc)
  {
    mux.Pll? ==> TargetFits(mux.target)
  }

  /** What the source stage settles: the system clock, its SW code and, for the PLL, the plan. */
  datatype Selection = Selection(sysClk: Hertz, sw: Byte, plan: Option<PllPlan>)

  /** The SW code of each system clock source: distinct codes 1, 2, 3. */
  function SwCode(mux: ClockSrc): (c: Byte)
    ensures c == 1 <==> mux.Hsi16?
    ensures c == 2 <==> mux.Hse?
    ensures c == 3 <==> mux.Pll?
  {
    match mux
    case Hsi16 => 1
    case Hse(_) => 2
    case Pll(_, _) => 3
  }

  /**
   * The source stage: HSI16 runs the system at 16 MHz, HSE at its own
   * frequency, the PLL at the main output of its plan; only a failing PLL
   * plan is an error, and with the PLL the system runs at 48, 96 or 144 MHz.
   */
  function SelectSource(mux: ClockSrc): (r: Result<Selection>)
    requires MuxFits(mux)
    ensures r.Err? <==> mux.Pll? && PlanPll(PllInput(mux.source), mux.target).Err?
    ensures r.Err? ==> r.error == PlanPll(PllInput(mux.source), mux.target).error
    ensures r.Ok? ==> r.value.sw == SwCode(mux)
    ensures r.Ok? && mux.Hsi16? ==> r.value.sysClk == HSI_FREQ && r.value.plan.None?
    ensures r.Ok? && mux.Hse? ==> r.value.sysClk == mux.freq && r.value.plan.None?
    ensures r.Ok? && mux.Pll? ==>
      r.value.plan == Some(PlanPll(PllInput(mux.source), mux.target).value) &&
      r.value.sysClk == r.value.plan.value.rOutput &&
      r.value.sysClk in {48_000_000, 96_000_000, 144_000_000}
  {
    match mux
    case Hsi16 => Ok(Selection(HSI_FREQ, 1, None))
    case Hse(freq) => Ok(Selection(freq, 2, None))
    case Pll(source, target) =>
      match PlanPll(PllInput(source), target)
      case Err(e) => Err(e)
      case Ok(plan) =>
        PlanOutputsAreFixed(PllInput(source), target);
        Ok(Selection(plan.rOutput, 3, Some(plan)))
  }

  /**
   * The value the initialisation returns: the bus frequencies of the selected
   * system clock, unless the PLL plan fails or low-power run is requested
   * above 2 MHz.
   */
  function Configure(config: Config): (r: Result<Clocks>)
    requires MuxFits(config.mux)
    ensures r.Ok? ==> SelectSource(config.mux).Ok? && r.value.sys == SelectSource(config.mux).value.sysClk
    ensures r.Ok? && config.lowPowerRun ==> r.value.sys <= LOW_POWER_RUN_MAX
    ensures r.Err? && r.error == LowPowerRunTooFast <==>
      SelectSource(config.mux).Ok? && config.lowPowerRun &&
      SelectSource(config.mux).value.sysClk > LOW_POWER_RUN_MAX
    ensures !config.lowPowerRun ==> (r.Ok? <==> SelectSource(config.mux).Ok?)
    ensures SelectSource(config.mux).Err? ==> r == Err(SelectSource(config.mux).error)
  {
    match SelectSource(config.mux)
    case Err(e) => Err(e)
    case Ok(sel) =>
      var clocks := BusClocks(sel.sysClk, config.ahbPre, config.apb1Pre, config.apb2Pre);
      if config.lowPowerRun && sel.sysClk > LOW_POWER_RUN_MAX then Err(LowPowerRunTooFast)
      else Ok(clocks)
  }

  /**
   * The record a successful initialisation returns: the system clock, both
   * AHB domains at the system clock over the AHB divisor, and each APB
   * domain derived from the AHB frequency by its own prescaler.
   */
  lemma ConfigureClocks(config: Config)
    requires MuxFits(config.mux)
    requires Configure(config).Ok?
    ensures var c := Configure(config).value;
      c.ahb1 == c.ahb2 == c.sys / AhbDivisor(config.ahbPre) &&
      ApbClocks(c.apb1, c.apb1Tim) == ApbFreqs(c.ahb1, config.apb1Pre) &&
      ApbClocks(c.apb2, c.apb2Tim) == ApbFreqs(c.ahb1, config.apb2Pre)
  {
  }

  /**
   * Low-power run succeeds exactly with an external oscillator of at most
   * 2 MHz used directly: HSI16 runs at 16 MHz and the PLL at 48 MHz or more.
   */
  lemma LowPowerRunNeedsSlowHse(config: Config)
    requires MuxFits(config.mux)
    requires config.lowPowerRun
    ensures Configure(config).Ok? <==> config.mux.Hse? && config.mux.freq <= LOW_POWER_RUN_MAX
  {
  }

  /** The default configuration publishes 16 MHz on every domain. */
  lemma DefaultConfigClocks()
    ensures Configure(DefaultConfig()) ==
      Ok(Clocks(16_000_000, 16_000_000, 16_000_000, 16_000_000, 16_000_000, 16_000_000, 16_000_000))
  {
  }

  /** HSI16 with AHB divided by 2 and APB1 by 4: AHB 8 MHz, APB1 2 MHz, APB1 timers 4 MHz. */
  lemma HsiDividedExample()
    ensures Configure(Config(ClockSrc.Hsi16, AhbPrescaler.Div2, ApbPrescaler.Div4,
                             ApbPrescaler.NotDivided, false)) ==
      Ok(Clocks(16_000_000, 8_000_000, 8_000_000, 2_000_000, 4_000_000, 8_000_000, 8_000_000))
  {
    BusClocksHsiExample();
  }

  /** The PLL from HSI16 with a 48 MHz target publishes 48 MHz. */
  lemma PllHsi48Example()
    ensures Configure(Config(ClockSrc.Pll(PllSource.Hsi16, 48_000_000), AhbPrescaler.NotDivided,
                             ApbPrescaler.NotDivided, ApbPrescaler.NotDivided, false)) ==
      Ok(Clocks(48_000_000, 48_000_000, 48_000_000, 48_000_000, 48_000_000, 48_000_000, 48_000_000))
  {
    PlanHsi48MHz();
  }

  /** Low-power run from a 1 MHz external clock succeeds; from a 4 MHz one it fails. */
  lemma LowPowerRunExamples()
    ensures Configure(Config(ClockSrc.Hse(1_000_000), AhbPrescaler.NotDivided,
                             ApbPrescaler.NotDivided, ApbPrescaler.NotDivided, true)).Ok?
    ensures Configure(Config(ClockSrc.Hse(4_000_000), AhbPrescaler.NotDivided,
                             ApbPrescaler.NotDivided, ApbPrescaler.NotDivided, true)) ==
      Err(LowPowerRunTooFast)
  {
  }
}
