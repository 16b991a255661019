/**
 * Bus-frequency derivation of the STM32G4 clock initialisation: the AHB
 * frequency from the system clock and the HPRE code, each APB frequency and
 * its timer clock from the AHB frequency and a PPRE code, and the record of
 * all of them that the initialisation publishes.
 */
module Bus {
  import opened ClockTypes
  import opened Prescalers

  /** The published frequency plan. */
  datatype Clocks = Clocks(
    sys: Hertz,
    ahb1: Hertz,
    ahb2: Hertz,
    apb1: Hertz,
    apb1Tim: Hertz,
    apb2: Hertz,
    apb2Tim: Hertz)

  /** One APB domain: its peripheral clock and its timer clock. */
  datatype ApbClocks = ApbClocks(freq: Hertz, tim: Hertz)

  /**
   * The AHB frequency as the source computes it: the system clock divided by
   * `1 << (code - 7)` for every divided setting. This matches the named
   * divisor only up to Div16 (see AhbAsWrittenMatchesNameUpToDiv16) and is
   * half of it from Div64 on (see AhbAsWrittenHalvesLargeDivisors).
   */
  function AhbFreqAsWritten(sysClk: Hertz, pre: AhbPrescaler): (f: Hertz)
    ensures pre.NotDivided? ==> f == sysClk
    ensures f <= sysClk
  {
    assert Pow2(1) == 2 && Pow2(2) == 4 && Pow2(3) == 8 && Pow2(4) == 16;
    assert Pow2(5) == 32 && Pow2(6) == 64 && Pow2(7) == 128 && Pow2(8) == 256;
    match pre
    case NotDivided => sysClk
    case _ => sysClk / Pow2(AhbCode(pre) - 7)
  }

  /** For Div2 to Div16 the source's shift yields the named divisor. */
  lemma AhbAsWrittenMatchesNameUpToDiv16(sysClk: Hertz, pre: AhbPrescaler)
    requires !pre.NotDivided? && AhbDivisor(pre) <= 16
    ensures AhbFreqAsWritten(sysClk, pre) == sysClk / AhbDivisor(pre)
  {
    assert Pow2(1) == 2 && Pow2(2) == 4 && Pow2(3) == 8 && Pow2(4) == 16;
  }

  /** For Div64 to Div512 the source's shift yields half the named divisor. */
  lemma AhbAsWrittenHalvesLargeDivisors(sysClk: Hertz, pre: AhbPrescaler)
    requires AhbDivisor(pre) >= 64
    ensures AhbFreqAsWritten(sysClk, pre) == sysClk / (AhbDivisor(pre) / 2)
  {
    assert Pow2(5) == 32 && Pow2(6) == 64 && Pow2(7) == 128 && Pow2(8) == 256;
  }

  /**
   * A system clock of 64 MHz with the Div64 setting: the hardware delivers
   * 1 MHz on AHB, the source's formula reports 2 MHz.
   */
  lemma AhbAsWrittenDiv64Counterexample()
    ensures 64_000_000 / AhbDivisor(AhbPrescaler.Div64) == 1_000_000
    ensures AhbFreqAsWritten(64_000_000, AhbPrescaler.Div64) == 2_000_000
  {
    assert Pow2(5) == 32;
  }

  /**
   * The shift exponent that HPRE code `code` (8..15) stands for: the
   * source's `code - 7` up to code 0x0b, one more from code 0x0c on, where
   * the table skips divide-by-32.
   */
  function HpreShift(code: nat): nat
    requires 8 <= code
  {
    if code < 0x0c then code - 7 else code - 6
  }

  /**
   * The AHB frequency: the system clock divided by the divisor the
   * prescaler is named after (the corrected form of AhbFreqAsWritten, equal
   * to it up to Div16).
   */
  function AhbFreq(sysClk: Hertz, pre: AhbPrescaler): (f: Hertz)
    ensures f == sysClk / AhbDivisor(pre)
    ensures AhbDivisor(pre) <= 16 ==> f == AhbFreqAsWritten(sysClk, pre)
    ensures f <= sysClk
  {
    assert Pow2(1) == 2 && Pow2(2) == 4 && Pow2(3) == 8 && Pow2(4) == 16;
    assert Pow2(6) == 64 && Pow2(7) == 128 && Pow2(8) == 256 && Pow2(9) == 512;
    match pre
    case NotDivided => sysClk
    case _ => sysClk / Pow2(HpreShift(AhbCode(pre)))
  }

  /**
   * One APB domain: not divided, both clocks equal the AHB frequency;
   * divided by `1 << (code - 3)`, the peripheral clock is the AHB frequency
   * over the named divisor and the timer clock is twice that.
   */
  function ApbFreqs(ahbFreq: Hertz, pre: ApbPrescaler): (r: ApbClocks)
    ensures pre.NotDivided? ==> r == ApbClocks(ahbFreq, ahbFreq)
    ensures !pre.NotDivided? ==> r.freq == ahbFreq / ApbDivisor(pre) && r.tim == 2 * r.freq
    ensures r.freq <= r.tim <= ahbFreq
  {
    assert Pow2(1) == 2 && Pow2(2) == 4 && Pow2(3) == 8 && Pow2(4) == 16;
    match pre
    case NotDivided => ApbClocks(ahbFreq, ahbFreq)
    case _ =>
      var freq := ahbFreq / Pow2(ApbCode(pre) - 3);
      ApbClocks(freq, freq * 2)
  }

  /**
   * The published record for system clock `sysClk`: both AHB domains carry
   * the AHB frequency, each APB domain is derived from it independently,
   * and no bus runs faster than the bus it hangs from.
   */
  function BusClocks(sysClk: Hertz, ahbPre: AhbPrescaler, apb1Pre: ApbPrescaler, apb2Pre: ApbPrescaler)
    : (c: Clocks)
    ensures c.sys == sysClk
    ensures c.ahb1 == c.ahb2 == sysClk / AhbDivisor(ahbPre)
    ensures ApbClocks(c.apb1, c.apb1Tim) == ApbFreqs(c.ahb1, apb1Pre)
    ensures ApbClocks(c.apb2, c.apb2Tim) == ApbFreqs(c.ahb1, apb2Pre)
    ensures c.apb1 <= c.apb1Tim <= c.ahb1 <= c.sys
    ensures c.apb2 <= c.apb2Tim <= c.ahb1
  {
    var ahb := AhbFreq(sysClk, ahbPre);
    var apb1 := ApbFreqs(ahb, apb1Pre);
    var apb2 := ApbFreqs(ahb, apb2Pre);
    Clocks(sysClk, ahb, ahb, apb1.freq, apb1.tim, apb2.freq, apb2.tim)
  }

  /** With no prescaler active every domain runs at the system clock. */
  lemma BusClocksUndivided(sysClk: Hertz)
    ensures BusClocks(sysClk, AhbPrescaler.NotDivided, ApbPrescaler.NotDivided, ApbPrescaler.NotDivided)
      == Clocks(sysClk, sysClk, sysClk, sysClk, sysClk, sysClk, sysClk)
  {
  }

  /** 16 MHz with AHB divided by 2 and APB1 by 4: AHB 8 MHz, APB1 2 MHz, its timers 4 MHz. */
  lemma BusClocksHsiExample()
    ensures BusClocks(16_000_000, AhbPrescaler.Div2, ApbPrescaler.Div4, ApbPrescaler.NotDivided)
      == Clocks(16_000_000, 8_000_000, 8_000_000, 2_000_000, 4_000_000, 8_000_000, 8_000_000)
  {
  }
}
