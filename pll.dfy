/**
 * The PLL frequency plan of the STM32G4 clock initialisation: a fixed design
 * point (M = 4, R = 2) in exact u32 arithmetic, checked against the VCO
 * input and output windows and against an exact 48 MHz Q tap.
 */
module Pll {
  import opened ClockTypes
  import opened Prescalers

  /** Frequency of the internal 16 MHz oscillator. */
  const HSI_FREQ: Hertz := 16_000_000

  // The design point and its limits are written as literals, not named
  // constants, so that the solver sees linear arithmetic: input divider M = 4,
  // main-output divider R = 2, VCO input window [2_660_000, 16_000_000] Hz,
  // VCO output window [96_000_000, 344_000_000] Hz, Q tap 48_000_000 Hz.

  /** The oscillator feeding the PLL. */
  datatype PllSource = Hse(freq: Hertz) | Hsi16

  /** The frequency entering the PLL from `source`: the crystal's, or 16 MHz. */
  function PllInput(source: PllSource): (f: Hertz)
    ensures source.Hse? ==> f == source.freq
    ensures source.Hsi16? ==> f == HSI_FREQ
  {
    match source
    case Hse(freq) => freq
    case Hsi16 => HSI_FREQ
  }

  /** The computed plan: derived frequencies, multiplier, Q divisor and the field codes. */
  datatype PllPlan = PllPlan(
    vcoInput: Hertz,
    plln: U32,
    vcoOutput: Hertz,
    rOutput: Hertz,
    pllq: U32,
    pllrFlag: Byte,
    pllqFlag: Byte)

  /**
   * The model's bound on the target: `target * 2` (the R divisor) must not
   * wrap in u32. The source multiplies without checking.
   */
  predicate TargetFits(target: nat)
  {
    target * 2 < 0x1_0000_0000
  }

  lemma MulDivLe(a: nat, b: nat)
    requires a > 0
    ensures a * (b / a) <= b
    ensures b - a * (b / a) < a
  {
  }

  /**
   * Plans the PLL for input frequency `input` and requested output `target`.
   * The checks fail in the order the source performs them; on success both
   * VCO frequencies are inside their windows, the Q tap is exactly 48 MHz,
   * the main output is half the VCO output, and the field codes decode to
   * the divisors used.
   */
  function PlanPll(input: Hertz, target: Hertz): (r: Result<PllPlan>)
    requires TargetFits(target)
    ensures r.Ok? ==> 2_660_000 <= r.value.vcoInput <= 16_000_000
    ensures r.Ok? ==> 96_000_000 <= r.value.vcoOutput <= 344_000_000
    ensures r.Ok? ==> r.value.vcoInput == input / 4
    ensures r.Ok? ==> r.value.plln == target * 2 / r.value.vcoInput
    ensures r.Ok? ==> r.value.vcoOutput == r.value.vcoInput * r.value.plln
    ensures r.Ok? ==> r.value.rOutput * 2 == r.value.vcoOutput
    ensures r.Ok? ==> r.value.pllq * 48_000_000 == r.value.vcoOutput
    ensures r.Ok? ==> DividerOfFlag(r.value.pllrFlag) == 2
    ensures r.Ok? ==> DividerOfFlag(r.value.pllqFlag) == r.value.pllq
    ensures r.Ok? ==> r.value.plln < 0x100
    ensures r.Err? ==> r.error != InvalidPllr
    ensures input / 4 > 16_000_000 ==> r == Err(VcoInputTooHigh)
    ensures input / 4 < 2_660_000 ==> r == Err(VcoInputTooLow)
    ensures 2_660_000 <= input / 4 <= 16_000_000 ==>
      var o := input / 4 * (target * 2 / (input / 4));
      && (o > 344_000_000 ==> r == Err(VcoOutputTooHigh))
      && (o < 96_000_000 ==> r == Err(VcoOutputTooLow))
      && (96_000_000 <= o <= 344_000_000 && o % 48_000_000 != 0 ==> r == Err(VcoOutputNot48MHzMultiple))
      && (o in {144_000_000, 240_000_000, 336_000_000} ==> r == Err(InvalidPllq))
  {
    var vcoInput := input / 4;
    if vcoInput > 16_000_000 then Err(VcoInputTooHigh)
    else if vcoInput < 2_660_000 then Err(VcoInputTooLow)
    else
      var plln := target * 2 / vcoInput;
      MulDivLe(vcoInput, target * 2);
      PlanVcoOutput(vcoInput, plln, vcoInput * plln)
  }

  /**
   * The second half of the plan, once the multiplier `plln` is fixed: the
   * VCO output window, the 48 MHz Q tap and the two divisor codes.
   */
  function PlanVcoOutput(vcoInput: Hertz, plln: U32, vcoOutput: Hertz): (r: Result<PllPlan>)
    requires 2_660_000 <= vcoInput <= 16_000_000
    requires vcoOutput == vcoInput * plln
    ensures r.Ok? ==> r.value.vcoInput == vcoInput && r.value.plln == plln
    ensures r.Ok? ==> r.value.vcoOutput == vcoOutput && 96_000_000 <= vcoOutput <= 344_000_000
    ensures r.Ok? ==> r.value.rOutput * 2 == vcoOutput
    ensures r.Ok? ==> r.value.pllq * 48_000_000 == vcoOutput
    ensures r.Ok? ==> DividerOfFlag(r.value.pllrFlag) == 2
    ensures r.Ok? ==> DividerOfFlag(r.value.pllqFlag) == r.value.pllq
    ensures r.Ok? ==> plln < 0x100
    ensures r.Err? ==> r.error != InvalidPllr
    ensures vcoOutput > 344_000_000 ==> r == Err(VcoOutputTooHigh)
    ensures vcoOutput < 96_000_000 ==> r == Err(VcoOutputTooLow)
    ensures 96_000_000 <= vcoOutput <= 344_000_000 && vcoOutput % 48_000_000 != 0 ==>
      r == Err(VcoOutputNot48MHzMultiple)
    ensures 96_000_000 <= vcoOutput <= 344_000_000 && vcoOutput % 48_000_000 == 0 ==>
      (r.Err? <==> PllqFlag(vcoOutput / 48_000_000).Err?) && (r.Err? ==> r.error == InvalidPllq)
  {
    var rOutput: Hertz := vcoOutput / 2;
    if vcoOutput > 344_000_000 then Err(VcoOutputTooHigh)
    else if vcoOutput < 96_000_000 then Err(VcoOutputTooLow)
    else if vcoOutput % 48_000_000 != 0 then Err(VcoOutputNot48MHzMultiple)
    else
      var pllq := vcoOutput / 48_000_000;
      PllnBound(vcoInput, plln);
      match PllrFlag(2)
      case Err(e) => Err(e)
      case Ok(rFlag) =>
        match PllqFlag(pllq)
        case Err(e) => Err(e)
        case Ok(qFlag) => Ok(PllPlan(vcoInput, plln, vcoOutput, rOutput, pllq, rFlag, qFlag))
  }

  /** Inside both VCO windows the multiplier fits the u8 PLLN setter. */
  lemma PllnBound(vcoInput: nat, plln: nat)
    requires 2_660_000 <= vcoInput
    requires vcoInput * plln <= 344_000_000
    ensures plln < 0x100
  {
  }

  /**
   * Because the Q divisor must be one of 2, 4, 6, 8 and the VCO output lies
   * in [96 MHz, 344 MHz], a successful plan runs the VCO at 96, 192 or
   * 288 MHz and the system at 48, 96 or 144 MHz.
   */
  lemma PlanOutputsAreFixed(input: Hertz, target: Hertz)
    requires TargetFits(target)
    requires PlanPll(input, target).Ok?
    ensures PlanPll(input, target).value.pllq in {2, 4, 6}
    ensures PlanPll(input, target).value.vcoOutput in {96_000_000, 192_000_000, 288_000_000}
    ensures PlanPll(input, target).value.rOutput in {48_000_000, 96_000_000, 144_000_000}
  {
    var p := PlanPll(input, target).value;
    assert p.pllq in {2, 4, 6, 8} by {
      assert DividerOfFlag(p.pllqFlag) == p.pllq && p.pllqFlag < 4;
    }
  }

  /**
   * Exactly when the plan succeeds: the VCO input is inside its window and
   * the truncated multiplier lands the VCO on 96, 192 or 288 MHz.
   */
  lemma PlanSucceedsIff(input: Hertz, target: Hertz)
    requires TargetFits(target)
    ensures PlanPll(input, target).Ok? <==>
      var vcoInput := input / 4;
      2_660_000 <= vcoInput <= 16_000_000 &&
      vcoInput * (target * 2 / vcoInput) in {96_000_000, 192_000_000, 288_000_000}
  {
    var vcoInput := input / 4;
    if PlanPll(input, target).Ok? {
      PlanOutputsAreFixed(input, target);
    }
  }

  /**
   * The truncating multiplier never overshoots: the achieved main output is
   * at most the target and misses it by less than half the VCO input.
   */
  lemma PlanUndershootsTarget(input: Hertz, target: Hertz)
    requires TargetFits(target)
    requires PlanPll(input, target).Ok?
    ensures PlanPll(input, target).value.rOutput <= target
    ensures 2 * (target - PlanPll(input, target).value.rOutput) < PlanPll(input, target).value.vcoInput
  {
    var p := PlanPll(input, target).value;
    MulDivLe(p.vcoInput, target * 2);
  }

  /** From HSI16, a 48 MHz target gives M = 4, N = 24, VCO 96 MHz, Q = 2 and 48 MHz. */
  lemma PlanHsi48MHz()
    ensures PlanPll(HSI_FREQ, 48_000_000) ==
      Ok(PllPlan(4_000_000, 24, 96_000_000, 48_000_000, 2, 0, 0))
  {
    assert 96_000_000 / 4_000_000 == 24;
    assert PlanPll(HSI_FREQ, 48_000_000) == PlanVcoOutput(4_000_000, 24, 96_000_000);
  }

  /** From HSI16, a 1 MHz target truncates N to 0 and the VCO output is too low. */
  lemma PlanHsi1MHzFails()
    ensures PlanPll(HSI_FREQ, 1_000_000) == Err(VcoOutputTooLow)
  {
    assert 2_000_000 / 4_000_000 == 0;
    assert PlanPll(HSI_FREQ, 1_000_000) == PlanVcoOutput(4_000_000, 0, 0);
  }

  /** From HSI16, a 72 MHz target needs Q = 3, which the PLLQ field cannot hold. */
  lemma PlanHsi72MHzFails()
    ensures PlanPll(HSI_FREQ, 72_000_000) == Err(InvalidPllq)
  {
    assert 144_000_000 / 4_000_000 == 36;
    assert PlanPll(HSI_FREQ, 72_000_000) == PlanVcoOutput(4_000_000, 36, 144_000_000);
    assert PllqFlag(144_000_000 / 48_000_000) == Err(InvalidPllq);
  }

  /** An 8 MHz crystal gives a 2 MHz VCO input, below the window. */
  lemma PlanHse8MHzFails()
    ensures PlanPll(8_000_000, 48_000_000) == Err(VcoInputTooLow)
  {
  }
}
