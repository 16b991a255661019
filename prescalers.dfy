/**
 * The bus prescalers and PLL output dividers of the STM32G4 clock tree, and
 * the register-field codes the initialisation writes for them.
 */
module Prescalers {
  import opened ClockTypes

  /** Divider between the system clock and the AHB bus (HPRE field). */
  datatype AhbPrescaler =
    NotDivided | Div2 | Div4 | Div8 | Div16 | Div64 | Div128 | Div256 | Div512

  /** Divider between the AHB bus and one APB bus (PPRE1 or PPRE2 field). */
  datatype ApbPrescaler = NotDivided | Div2 | Div4 | Div8 | Div16

  /** The division ratio an AHB prescaler is named after. */
  function AhbDivisor(p: AhbPrescaler): nat
  {
    match p
    case NotDivided => 1
    case Div2 => 2
    case Div4 => 4
    case Div8 => 8
    case Div16 => 16
    case Div64 => 64
    case Div128 => 128
    case Div256 => 256
    case Div512 => 512
  }

  /** The division ratio an APB prescaler is named after. */
  function ApbDivisor(p: ApbPrescaler): nat
  {
    match p
    case NotDivided => 1
    case Div2 => 2
    case Div4 => 4
    case Div8 => 8
    case Div16 => 16
  }

  /**
   * The HPRE code of an AHB prescaler: 1 for "not divided", one code of
   * 8..15 per divider, each code decoding back to its prescaler.
   */
  function AhbCode(p: AhbPrescaler): (code: Byte)
    ensures code == 1 <==> p.NotDivided?
    ensures !p.NotDivided? ==> 8 <= code <= 15
    ensures AhbFromCode(code) == Some(p)
  {
    match p
    case NotDivided => 1
    case Div2 => 0x08
    case Div4 => 0x09
    case Div8 => 0x0a
    case Div16 => 0x0b
    case Div64 => 0x0c
    case Div128 => 0x0d
    case Div256 => 0x0e
    case Div512 => 0x0f
  }

  /** The AHB prescaler the code table assigns to `code`, if any. */
  function AhbFromCode(code: nat): (p: Option<AhbPrescaler>)
    ensures p.Some? <==> code == 1 || 8 <= code <= 15
  {
    if code == 1 then Some(AhbPrescaler.NotDivided)
    else if code == 0x08 then Some(AhbPrescaler.Div2)
    else if code == 0x09 then Some(AhbPrescaler.Div4)
    else if code == 0x0a then Some(AhbPrescaler.Div8)
    else if code == 0x0b then Some(AhbPrescaler.Div16)
    else if code == 0x0c then Some(AhbPrescaler.Div64)
    else if code == 0x0d then Some(AhbPrescaler.Div128)
    else if code == 0x0e then Some(AhbPrescaler.Div256)
    else if code == 0x0f then Some(AhbPrescaler.Div512)
    else None
  }

  /**
   * The PPRE code of an APB prescaler: 1 for "not divided", one code of
   * 4..7 per divider, each code decoding back to its prescaler.
   */
  function ApbCode(p: ApbPrescaler): (code: Byte)
    ensures code == 1 <==> p.NotDivided?
    ensures !p.NotDivided? ==> 4 <= code <= 7
    ensures ApbFromCode(code) == Some(p)
  {
    match p
    case NotDivided => 1
    case Div2 => 0x04
    case Div4 => 0x05
    case Div8 => 0x06
    case Div16 => 0x07
  }

  /** The APB prescaler the code table assigns to `code`, if any. */
  function ApbFromCode(code: nat): (p: Option<ApbPrescaler>)
    ensures p.Some? <==> code == 1 || 4 <= code <= 7
  {
    if code == 1 then Some(ApbPrescaler.NotDivided)
    else if code == 0x04 then Some(ApbPrescaler.Div2)
    else if code == 0x05 then Some(ApbPrescaler.Div4)
    else if code == 0x06 then Some(ApbPrescaler.Div8)
    else if code == 0x07 then Some(ApbPrescaler.Div16)
    else None
  }

  /** Every code the AHB table decodes is the code of what it decodes to. */
  lemma AhbCodeOfDecoded(code: nat)
    requires AhbFromCode(code).Some?
    ensures AhbCode(AhbFromCode(code).value) == code
  {
  }

  /** Every code the APB table decodes is the code of what it decodes to. */
  lemma ApbCodeOfDecoded(code: nat)
    requires ApbFromCode(code).Some?
    ensures ApbCode(ApbFromCode(code).value) == code
  {
  }

  /** Distinct AHB prescalers get distinct codes. */
  lemma AhbCodeInjective(p: AhbPrescaler, q: AhbPrescaler)
    requires AhbCode(p) == AhbCode(q)
    ensures p == q
  {
    assert Some(p) == AhbFromCode(AhbCode(q)) == Some(q);
  }

  /** Distinct APB prescalers get distinct codes. */
  lemma ApbCodeInjective(p: ApbPrescaler, q: ApbPrescaler)
    requires ApbCode(p) == ApbCode(q)
    ensures p == q
  {
    assert Some(p) == ApbFromCode(ApbCode(q)) == Some(q);
  }

  /** The division ratio a 2-bit PLLR or PLLQ field code selects. */
  function DividerOfFlag(flag: nat): nat
  {
    2 * (flag + 1)
  }

  /**
   * The 2-bit PLLR code of an R divisor; every divisor other than 2, 4, 6
   * and 8 is refused.
   */
  function PllrFlag(pllr: nat): (r: Result<Byte>)
    ensures r.Ok? <==> pllr in {2, 4, 6, 8}
    ensures r.Ok? ==> r.value < 4 && DividerOfFlag(r.value) == pllr
    ensures r.Err? ==> r.error == InvalidPllr
  {
    match pllr
    case 2 => Ok(0)
    case 4 => Ok(1)
    case 6 => Ok(2)
    case 8 => Ok(3)
    case _ => Err(InvalidPllr)
  }

  /**
   * The 2-bit PLLQ code of a Q divisor; every divisor other than 2, 4, 6
   * and 8 is refused.
   */
  function PllqFlag(pllq: nat): (r: Result<Byte>)
    ensures r.Ok? <==> pllq in {2, 4, 6, 8}
    ensures r.Ok? ==> r.value < 4 && DividerOfFlag(r.value) == pllq
    ensures r.Err? ==> r.error == InvalidPllq
  {
    match pllq
    case 2 => Ok(0)
    case 4 => Ok(1)
    case 6 => Ok(2)
    case 8 => Ok(3)
    case _ => Err(InvalidPllq)
  }

  /** Every 2-bit code is the PLLR and the PLLQ code of the divider it selects. */
  lemma FlagRoundTrip(flag: nat)
    requires flag < 4
    ensures PllrFlag(DividerOfFlag(flag)) == Ok(flag)
    ensures PllqFlag(DividerOfFlag(flag)) == Ok(flag)
  {
  }
}
