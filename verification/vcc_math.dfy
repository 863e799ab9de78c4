/**
 * The integer arithmetic of the gauge: assembling the two ADC result bytes
 * into a sample, turning the sample into supply voltage in tenths of a volt
 * with 16-bit unsigned division and an 8-bit narrowing cast, and turning
 * that into the number of whole volts the LED blinks.
 */
module VccMath {

  /** A `uint8_t` value. */
  type Byte = x: int | 0 <= x < 0x100
  /** A `uint16_t` value. */
  type Word = x: int | 0 <= x < 0x1_0000

  /** `11 * 1024`: 1.1 V times the 1024 steps of the converter, times 10 for one decimal place. */
  const BANDGAP_X10_X1024: nat := 11 * 1024

  /** The voltage the sample stands for, exactly: Vcc = 1.1 V * 1024 / sample. */
  ghost function IdealVcc(adc: Word): real
    requires adc != 0
  {
    1.1 * 1024.0 / (adc as real)
  }

  /** `(high << 8) | low`, stored in a `uint16_t`. */
  function Combine(low: bv8, high: bv8): (adc: Word)
    ensures adc == 256 * (high as int) + (low as int)
  {
    (((high as bv16) << 8) | (low as bv16)) as int
  }

  /** `(uint8_t)((11 * 1024) / adc)`: truncating division, then keeping the low 8 bits. */
  function VccX10(adc: Word): (r: Byte)
    requires adc != 0
    ensures r * adc <= BANDGAP_X10_X1024
  {
    TruncatedTimesSampleBound(adc);
    (BANDGAP_X10_X1024 / adc) % 0x100
  }

  /** `vccx10 / 10`: whole volts, rounded down. */
  function BlinkCount(vccx10: Byte): (vcc: nat)
    ensures 10 * vcc <= vccx10 < 10 * (vcc + 1)
    ensures vcc <= 25
  {
    vccx10 / 10
  }

  // ----- Byte assembly -----

  /** Splitting the assembled sample gives back the bytes it was built from. */
  lemma CombineSplits(low: bv8, high: bv8)
    ensures Combine(low, high) % 256 == low as int
    ensures Combine(low, high) / 256 == high as int
  {
  }

  /** With the 10-bit converter's high byte (at most 3) the sample lies in 0..1023. */
  lemma CombineTenBit(low: bv8, high: bv8)
    requires high < 4
    ensures Combine(low, high) <= 1023
  {
  }

  // ----- Integer division facts -----

  /** The quotient `n / d` is the largest `q` with `q * d <= n`. */
  lemma DivBracket(n: nat, d: nat)
    requires d > 0
    ensures (n / d) * d <= n < (n / d + 1) * d
  {
  }

  /** Multiplying by a larger factor gives no smaller product. */
  lemma MulMonotone(x: nat, a: nat, b: nat)
    requires a <= b
    ensures x * a <= x * b
  {
    assert x * b == x * a + x * (b - a);
  }

  /** A strict inequality between multiples of a positive factor holds between the multipliers. */
  lemma MulCancelLess(x: nat, y: nat, a: nat)
    requires a > 0 && x * a < y * a
    ensures x < y
  {
    if y <= x {
      MulMonotone(a, y, x);
      assert false;
    }
  }

  /** Dividing by a larger divisor never gives a larger quotient. */
  lemma DivAntitone(n: nat, a: nat, b: nat)
    requires 0 < a <= b
    ensures n / b <= n / a
  {
    var qa, qb := n / a, n / b;
    DivBracket(n, a);
    DivBracket(n, b);
    MulMonotone(qb, a, b);
    assert qb * a < (qa + 1) * a;
    MulCancelLess(qb, qa + 1, a);
  }

  // ----- Conversion -----

  /** The narrowed quotient times the sample never exceeds 11264: truncation and the cast only lose. */
  lemma TruncatedTimesSampleBound(adc: Word)
    requires adc != 0
    ensures ((BANDGAP_X10_X1024 / adc) % 0x100) * adc <= BANDGAP_X10_X1024
  {
    var q: nat := BANDGAP_X10_X1024 / adc;
    var r: nat := q % 0x100;
    assert r <= q;
    DivBracket(BANDGAP_X10_X1024, adc);
    MulMonotone(adc, r, q);
  }

  /** For samples of 45 and above the quotient fits in 8 bits, so the cast loses nothing; the reading lies in 11..250 for 45..1023. */
  lemma ConversionLossless(adc: Word)
    requires 45 <= adc
    ensures VccX10(adc) == BANDGAP_X10_X1024 / adc
    ensures VccX10(adc) <= 250
    ensures adc <= 1023 ==> 11 <= VccX10(adc)
  {
    var q := BANDGAP_X10_X1024 / adc;
    DivAntitone(BANDGAP_X10_X1024, 45, adc);
    assert BANDGAP_X10_X1024 / 45 == 250;
    assert q % 0x100 == q;
    if adc <= 1023 {
      DivAntitone(BANDGAP_X10_X1024, adc, 1023);
      assert BANDGAP_X10_X1024 / 1023 == 11;
    }
  }

  /** Above the wrap-around, the reading is the truncated ideal: r * adc <= 11264 < (r + 1) * adc. */
  lemma ConversionBracket(adc: Word)
    requires 45 <= adc
    ensures VccX10(adc) * adc <= BANDGAP_X10_X1024 < (VccX10(adc) + 1) * adc
  {
    ConversionLossless(adc);
    DivBracket(BANDGAP_X10_X1024, adc);
  }

  /** A larger sample never reports a higher voltage, over 45 and above. */
  lemma ConversionAntitone(a: Word, b: Word)
    requires 45 <= a <= b
    ensures VccX10(b) <= VccX10(a)
  {
    ConversionLossless(a);
    ConversionLossless(b);
    DivAntitone(BANDGAP_X10_X1024, a, b);
  }

  /** For samples 1..44 the quotient is at least 256, so the cast wraps it and the reading is too low. */
  lemma ConversionWraps(adc: Word)
    requires 1 <= adc <= 44
    ensures BANDGAP_X10_X1024 / adc >= 256
    ensures VccX10(adc) == BANDGAP_X10_X1024 / adc - 256 * (BANDGAP_X10_X1024 / adc / 256)
    ensures VccX10(adc) < BANDGAP_X10_X1024 / adc
  {
    DivAntitone(BANDGAP_X10_X1024, adc, 44);
  }

  /** The wrap-around breaks monotonicity: 44 reports 0.0 V while 45 reports 25.0 V. */
  lemma WrapBreaksAntitone()
    ensures VccX10(44) == 0 && VccX10(45) == 250
    ensures VccX10(44) < VccX10(45)
  {
  }

  /** The readings quoted with the routine and a few more. */
  lemma ConversionExamples()
    ensures VccX10(225) == 50
    ensures VccX10(375) == 30
    ensures VccX10(1023) == 11
    ensures VccX10(1) == 0
  {
  }

  // ----- Blink count -----

  /** `BlinkCount(x) == k` exactly when x lies in k.0 V .. k.9 V. */
  lemma BlinkCountBand(vccx10: Byte, k: nat)
    ensures BlinkCount(vccx10) == k <==> 10 * k <= vccx10 < 10 * (k + 1)
  {
  }

  /** The count steps up by one exactly when the reading reaches a multiple of 10, and stays put otherwise. */
  lemma BlinkCountSteps(vccx10: Byte)
    requires vccx10 < 255
    ensures BlinkCount(vccx10 + 1) == BlinkCount(vccx10) + (if (vccx10 + 1) % 10 == 0 then 1 else 0)
  {
  }

  /** Boundary examples: 2.9 V blinks twice, 3.0 V three times, 5.0 V five times. */
  lemma BlinkCountExamples()
    ensures BlinkCount(29) == 2 && BlinkCount(30) == 3 && BlinkCount(50) == 5
  {
  }

  /** Integer bounds on k * 10 * adc carry over to k V <= 1.1 V * 1024 / adc < k + 1 V. */
  lemma IdealVccBetween(k: nat, adc: Word)
    requires adc != 0
    requires 10 * k * adc <= BANDGAP_X10_X1024 < 10 * (k + 1) * adc
    ensures (k as real) <= IdealVcc(adc) < (k + 1) as real
  {
    var a, v := adc as real, IdealVcc(adc);
    assert v * a == 1126.4;
    assert (10 * k * adc) as real == 10.0 * (k as real) * a;
    assert (10 * (k + 1) * adc) as real == 10.0 * ((k + 1) as real) * a;
    assert (k as real) * a <= v * a;
    assert v * a < ((k + 1) as real) * a;
  }

  /**
   * Above the wrap-around, k blinks mean k V <= Vcc < k + 1 V for the voltage
   * Vcc = 1.1 V * 1024 / sample the sample stands for.
   */
  lemma BlinksBracketIdealVcc(adc: Word)
    requires 45 <= adc
    ensures 10 * BlinkCount(VccX10(adc)) * adc <= BANDGAP_X10_X1024 < 10 * (BlinkCount(VccX10(adc)) + 1) * adc
    ensures (BlinkCount(VccX10(adc)) as real) <= IdealVcc(adc) < (BlinkCount(VccX10(adc)) + 1) as real
  {
    var r, k := VccX10(adc), BlinkCount(VccX10(adc));
    ConversionBracket(adc);
    MulMonotone(adc, 10 * k, r);
    MulMonotone(adc, r + 1, 10 * (k + 1));
    assert 10 * k * adc <= r * adc;
    assert (r + 1) * adc <= 10 * (k + 1) * adc;
    IdealVccBetween(k, adc);
  }
}
