/**
 * The 8-bit I/O registers of the ATtiny24/44/84 that the gauge touches, as
 * plain `bv8` values, with the read-modify-write operations the firmware
 * applies to them (`reg |= mask` and `reg &= ~mask`).
 *
 * Bit positions are those of the ATtiny24/44/84 datasheet; the AVR C
 * library header that defines them is not part of this model.
 */
module Registers {

  /** A bit position inside an 8-bit register. */
  type BitIndex = i: nat | i < 8

  // ADCSRA: ADC control and status register A.
  const ADEN: BitIndex := 7
  const ADSC: BitIndex := 6
  const ADATE: BitIndex := 5
  const ADIF: BitIndex := 4
  const ADIE: BitIndex := 3
  const ADPS2: BitIndex := 2
  const ADPS1: BitIndex := 1
  const ADPS0: BitIndex := 0

  // PORTA / DDRA: the bit of pin PA7, which drives the LED.
  const PORTA7: BitIndex := 7

  /** ADMUX = 0b00100001: REFS1:0 = 00 (Vcc is the reference), MUX5:0 = 100001 (1.1 V band-gap is the input). */
  const ADMUX_VCC_REF_BANDGAP_IN: bv8 := 0x21

  /** The system clock after reset: 8 MHz internal oscillator with CKDIV8 programmed. */
  const F_CPU: nat := 1_000_000

  /** Whether bit `i` of register value `r` is set. */
  predicate IsSet(r: bv8, i: BitIndex) {
    r & (1 << i) != 0
  }

  /** `_BV(bit)`: the byte with exactly bit `bit` set. */
  function BV(bit: BitIndex): (m: bv8)
    ensures forall i: BitIndex :: IsSet(m, i) <==> i == bit
  {
    1 << bit
  }

  /** `reg |= mask`: every bit of `mask` becomes set, every other bit keeps its value. */
  function SetBits(reg: bv8, mask: bv8): (r: bv8)
    ensures forall i: BitIndex :: IsSet(r, i) <==> IsSet(reg, i) || IsSet(mask, i)
  {
    reg | mask
  }

  /** `reg &= ~mask`: every bit of `mask` becomes clear, every other bit keeps its value. */
  function ClearBits(reg: bv8, mask: bv8): (r: bv8)
    ensures forall i: BitIndex :: IsSet(r, i) <==> IsSet(reg, i) && !IsSet(mask, i)
  {
    reg & !mask
  }

  /** The mask written when the converter is enabled: `_BV(ADEN) | _BV(ADSC) | _BV(ADPS1) | _BV(ADPS0)`. */
  function AdcEnableMask(): (m: bv8)
    ensures forall i: BitIndex :: IsSet(m, i) <==> i == ADEN || i == ADSC || i == ADPS1 || i == ADPS0
  {
    BV(ADEN) | BV(ADSC) | BV(ADPS1) | BV(ADPS0)
  }

  /** The ADC clock division factor that ADPS2:0 in ADCSRA select (datasheet table). */
  function PrescalerDivisor(adcsra: bv8): (d: nat)
    ensures d in {2, 4, 8, 16, 32, 64, 128}
  {
    var adps := adcsra & 0x07;
    if adps <= 1 then 2
    else if adps == 2 then 4
    else if adps == 3 then 8
    else if adps == 4 then 16
    else if adps == 5 then 32
    else if adps == 6 then 64
    else 128
  }

  /** The ADC input clock in Hz for a given ADCSRA value. */
  function AdcClockHz(adcsra: bv8): nat {
    F_CPU / PrescalerDivisor(adcsra)
  }

  /** The 50 kHz .. 200 kHz band in which the successive-approximation circuit reaches full resolution. */
  predicate FullResolutionClock(hz: nat) {
    50_000 <= hz <= 200_000
  }

  /**
   * Enabling the converter sets ADEN, ADSC, ADPS1 and ADPS0 and leaves every
   * other bit as it was.
   */
  lemma EnableSetsExactlyItsBits(reg: bv8)
    ensures forall i: BitIndex :: IsSet(SetBits(reg, AdcEnableMask()), i) <==>
      (i == ADEN || i == ADSC || i == ADPS1 || i == ADPS0 || IsSet(reg, i))
  {
  }

  /**
   * With ADPS2 clear beforehand, enabling selects the /8 prescaler, so the
   * converter runs at 1 MHz / 8 = 125 kHz, inside the full-resolution band.
   */
  lemma EnableSelectsDivideBy8(reg: bv8)
    requires !IsSet(reg, ADPS2)
    ensures PrescalerDivisor(SetBits(reg, AdcEnableMask())) == 8
    ensures AdcClockHz(SetBits(reg, AdcEnableMask())) == 125_000
    ensures FullResolutionClock(AdcClockHz(SetBits(reg, AdcEnableMask())))
  {
  }

  /**
   * The enable write never clears ADPS2: if it was left set, the prescaler is
   * /128 and the ADC clock (7812 Hz) falls below the full-resolution band.
   */
  lemma EnableKeepsStaleAdps2(reg: bv8)
    requires IsSet(reg, ADPS2)
    ensures PrescalerDivisor(SetBits(reg, AdcEnableMask())) == 128
    ensures !FullResolutionClock(AdcClockHz(SetBits(reg, AdcEnableMask())))
  {
  }

  /** `ADCSRA &= ~_BV(ADEN)` clears only ADEN and so keeps the prescaler selection. */
  lemma DisableKeepsPrescaler(reg: bv8)
    ensures !IsSet(ClearBits(reg, BV(ADEN)), ADEN)
    ensures forall i: BitIndex :: i != ADEN ==> (IsSet(ClearBits(reg, BV(ADEN)), i) <==> IsSet(reg, i))
    ensures PrescalerDivisor(ClearBits(reg, BV(ADEN))) == PrescalerDivisor(reg)
  {
  }
}
