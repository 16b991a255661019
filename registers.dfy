/**
 * The register-level STM32G4 clock initialisation: the RCC and PWR fields it
 * writes, a model of the hardware behind the ready and switch-status flags it
 * polls, and the initialisation routine itself as a method over them.
 *
 * Register access follows the two forms the source uses: a `write` replaces
 * the register with a value whose unnamed fields are clear (CR is modelled
 * this way), a `modify` changes the named fields and keeps the others.
 */
module RccHardware {
  import opened ClockTypes
  import opened Prescalers
  import opened Pll
  import opened Bus
  import opened Rcc

  /** The enable bits of RCC_CR. */
  datatype Cr = Cr(hsion: bool, hseon: bool, pllon: bool)

  /** The fields of RCC_PLLCFGR that the initialisation sets. */
  datatype PllCfgr = PllCfgr(
    pllsrc: nat, pllm: nat, plln: nat, pllren: bool, pllr: nat, pllqen: bool, pllq: nat)

  /** RCC_CFGR: the switch and the three prescaler fields, and the switch status SWS. */
  datatype Cfgr = Cfgr(sw: nat, hpre: nat, ppre1: nat, ppre2: nat, sws: nat)

  /** RCC_CCIPR: the 48 MHz clock selection. */
  datatype Ccipr = Ccipr(clk48sel: nat)

  /** PWR_CR1: the low-power run bit. */
  datatype PwrCr1 = PwrCr1(lpr: bool)

  /** The value a `write` of RCC_CR starts from. */
  const CR_CLEAR: Cr := Cr(false, false, false)

  /** The CLK48SEL code that routes the PLL Q tap to the 48 MHz peripherals. */
  const CLK48SEL_PLLQ: nat := 2

  /** RCC_CR as the initialisation leaves it for each source. */
  function CrFor(mux: ClockSrc): (c: Cr)
    ensures c.hsion <==> mux.Hsi16?
    ensures c.hseon <==> mux.Hse? || (mux.Pll? && mux.source.Hse?)
    ensures c.pllon <==> mux.Pll?
  {
    match mux
    case Hsi16 => CR_CLEAR.(hsion := true)
    case Hse(_) => CR_CLEAR.(hseon := true)
    case Pll(source, _) => CR_CLEAR.(pllon := true, hseon := source.Hse?)
  }

  /**
   * The PLLCFGR value written for `plan`: source code 3 for HSE and 2 for
   * HSI16, M field 3 (divide by 4), the multiplier, both taps enabled with
   * their divisor codes.
   */
  function PllCfgrFor(source: PllSource, plan: PllPlan): (c: PllCfgr)
    ensures c.pllsrc == 3 <==> source.Hse?
    ensures c.pllsrc in {2, 3} && c.pllm + 1 == 4
    ensures c.pllren && c.pllqen
    ensures DividerOfFlag(c.pllr) == DividerOfFlag(plan.pllrFlag)
    ensures DividerOfFlag(c.pllq) == DividerOfFlag(plan.pllqFlag) && c.plln == plan.plln
  {
    PllCfgr(pllsrc := if source.Hse? then 3 else 2, pllm := 3, plln := plan.plln,
            pllren := true, pllr := plan.pllrFlag, pllqen := true, pllq := plan.pllqFlag)
  }

  /** The ready flags of RCC_CR as one read returns them. */
  datatype CrStatus = CrStatus(hsirdy: bool, hserdy: bool, pllrdy: bool)

  class Peripherals {
    var cr: Cr
    var pllcfgr: PllCfgr
    var cfgr: Cfgr
    var ccipr: Ccipr
    var pwrCr1: PwrCr1

    // The hardware behind the status flags: how many more polls each
    // oscillator needs, once switched on, before it reports ready, and how
    // many polls of SWS a requested switch takes once its source is ready.
    var hsiStartup: nat
    var hseStartup: nat
    var pllLock: nat
    var switchLatency: nat

    predicate HsiReady() reads this { cr.hsion && hsiStartup == 0 }
    predicate HseReady() reads this { cr.hseon && hseStartup == 0 }
    predicate PllReady() reads this { cr.pllon && pllLock == 0 }

    /** The oscillator selected by SW code `sw` is running and ready. */
    predicate SourceReady(sw: nat) reads this
    {
      (sw == 1 && HsiReady()) || (sw == 2 && HseReady()) || (sw == 3 && PllReady())
    }

    /** A requested switch has not yet been reported and its source is ready. */
    predicate SwitchPending() reads this
    {
      cfgr.sws != cfgr.sw && SourceReady(cfgr.sw)
    }

    /** Reads RCC_CR: every oscillator that is on comes one poll closer to ready. */
    method ReadCr() returns (status: CrStatus)
      modifies this`hsiStartup, this`hseStartup, this`pllLock
      ensures hsiStartup == if cr.hsion && old(hsiStartup) > 0 then old(hsiStartup) - 1 else old(hsiStartup)
      ensures hseStartup == if cr.hseon && old(hseStartup) > 0 then old(hseStartup) - 1 else old(hseStartup)
      ensures pllLock == if cr.pllon && old(pllLock) > 0 then old(pllLock) - 1 else old(pllLock)
      ensures status == CrStatus(HsiReady(), HseReady(), PllReady())
    {
      if cr.hsion && hsiStartup > 0 { hsiStartup := hsiStartup - 1; }
      if cr.hseon && hseStartup > 0 { hseStartup := hseStartup - 1; }
      if cr.pllon && pllLock > 0 { pllLock := pllLock - 1; }
      status := CrStatus(HsiReady(), HseReady(), PllReady());
    }

    /** Reads SWS of RCC_CFGR: a pending switch comes one poll closer to being reported. */
    method ReadSws() returns (sws: nat)
      modifies this`cfgr, this`switchLatency
      ensures cfgr == old(cfgr).(sws := cfgr.sws)
      ensures old(SwitchPending()) && old(switchLatency) > 0 ==>
        cfgr.sws == old(cfgr.sws) && switchLatency == old(switchLatency) - 1
      ensures old(SwitchPending()) && old(switchLatency) == 0 ==>
        cfgr.sws == cfgr.sw && switchLatency == 0
      ensures !old(SwitchPending()) ==> cfgr == old(cfgr) && switchLatency == old(switchLatency)
      ensures sws == cfgr.sws
    {
      if SwitchPending() {
        if switchLatency > 0 {
          switchLatency := switchLatency - 1;
        } else {
          cfgr := cfgr.(sws := cfgr.sw);
        }
      }
      sws := cfgr.sws;
    }

    /** Spins until HSIRDY is set. */
    method WaitHsiReady()
      requires cr.hsion
      modifies this`hsiStartup, this`hseStartup, this`pllLock
      ensures HsiReady()
      ensures old(HseReady()) ==> HseReady()
      ensures old(PllReady()) ==> PllReady()
    {
      var status := ReadCr();
      while !status.hsirdy
        invariant status.hsirdy == HsiReady()
        invariant old(HseReady()) ==> HseReady()
        invariant old(PllReady()) ==> PllReady()
        decreases hsiStartup
      {
        status := ReadCr();
      }
    }

    /** Spins until HSERDY is set. */
    method WaitHseReady()
      requires cr.hseon
      modifies this`hsiStartup, this`hseStartup, this`pllLock
      ensures HseReady()
      ensures old(HsiReady()) ==> HsiReady()
      ensures old(PllReady()) ==> PllReady()
    {
      var status := ReadCr();
      while !status.hserdy
        invariant status.hserdy == HseReady()
        invariant old(HsiReady()) ==> HsiReady()
        invariant old(PllReady()) ==> PllReady()
        decreases hseStartup
      {
        status := ReadCr();
      }
    }

    /** Spins until PLLRDY is set. */
    method WaitPllReady()
      requires cr.pllon
      modifies this`hsiStartup, this`hseStartup, this`pllLock
      ensures PllReady()
      ensures old(HsiReady()) ==> HsiReady()
      ensures old(HseReady()) ==> HseReady()
    {
      var status := ReadCr();
      while !status.pllrdy
        invariant status.pllrdy == PllReady()
        invariant old(HsiReady()) ==> HsiReady()
        invariant old(HseReady()) ==> HseReady()
        decreases pllLock
      {
        status := ReadCr();
      }
    }

    /** Spins until SWS reports the requested source `sw`. */
    method WaitSwitch(sw: nat)
      requires cfgr.sw == sw && SourceReady(sw)
      modifies this`cfgr, this`switchLatency
      ensures cfgr == old(cfgr).(sws := sw)
    {
      var sws := ReadSws();
      while sws != sw
        invariant cfgr == old(cfgr).(sws := sws)
        invariant SourceReady(sw)
        decreases switchLatency + (if cfgr.sws == cfgr.sw then 0 else 1)
      {
        sws := ReadSws();
      }
    }

    /**
     * The clock initialisation. It returns what Configure computes. A
     * failing PLL plan is reported before any register is touched. Otherwise
     * the selected oscillator (and for the PLL its input and the PLL itself)
     * is started and ready, CFGR holds the SW code and the three prescaler
     * codes and reports the switch, and only then is low-power run checked:
     * a rejected low-power request leaves the clock switch committed and
     * PWR untouched, an accepted one sets LPR.
     */
    method Init(config: Config) returns (r: Result<Clocks>)
      requires MuxFits(config.mux)
      modifies this
      ensures r == Configure(config)
      ensures SelectSource(config.mux).Err? ==> unchanged(this)
      ensures SelectSource(config.mux).Ok? ==>
        var sel := SelectSource(config.mux).value;
        && cr == CrFor(config.mux)
        && pllcfgr == (if config.mux.Pll? then PllCfgrFor(config.mux.source, sel.plan.value) else old(pllcfgr))
        && ccipr == (if config.mux.Pll? then old(ccipr).(clk48sel := CLK48SEL_PLLQ) else old(ccipr))
        && cfgr == old(cfgr).(sw := sel.sw, hpre := AhbCode(config.ahbPre),
                               ppre1 := ApbCode(config.apb1Pre), ppre2 := ApbCode(config.apb2Pre),
                               sws := sel.sw)
        && SourceReady(sel.sw)
        && (config.mux.Pll? && config.mux.source.Hse? ==> HseReady())
        && pwrCr1 == (if config.lowPowerRun && r.Ok? then old(pwrCr1).(lpr := true) else old(pwrCr1))
    {
      var sysClk: Hertz, sw: Byte;
      match config.mux {
        case Hsi16 =>
          cr := CR_CLEAR.(hsion := true);
          WaitHsiReady();
          sysClk, sw := HSI_FREQ, 1;
        case Hse(freq) =>
          cr := CR_CLEAR.(hseon := true);
          WaitHseReady();
          sysClk, sw := freq, 2;
        case Pll(source, target) =>
          var plan := PlanPll(PllInput(source), target);
          if plan.Err? {
            return Err(plan.error);
          }
          pllcfgr := PllCfgrFor(source, plan.value);
          if source.Hse? {
            cr := CR_CLEAR.(hseon := true);
            WaitHseReady();
          }
          cr := CR_CLEAR.(pllon := true, hseon := source.Hse?);
          if source.Hse? {
            WaitHseReady();
          }
          WaitPllReady();
          ccipr := ccipr.(clk48sel := CLK48SEL_PLLQ);
          sysClk, sw := plan.value.rOutput, 3;
      }

      cfgr := cfgr.(sw := sw, hpre := AhbCode(config.ahbPre),
                    ppre1 := ApbCode(config.apb1Pre), ppre2 := ApbCode(config.apb2Pre));
      WaitSwitch(sw);

      var clocks := BusClocks(sysClk, config.ahbPre, config.apb1Pre, config.apb2Pre);
      if config.lowPowerRun {
        if sysClk > LOW_POWER_RUN_MAX {
          return Err(LowPowerRunTooFast);
        }
        pwrCr1 := pwrCr1.(lpr := true);
      }
      r := Ok(clocks);
    }
  }
}
