# NoPartsBatteryGaugeAVR in Dafny

This project models the firmware of a zero-parts battery gauge for the
ATtiny24/44/84. The firmware measures the internal 1.1 V band-gap reference
with the ADC, using the supply rail Vcc as the ADC reference. From that it
works out Vcc in tenths of a volt and blinks an LED on PA7 once per whole volt.

The model has three modules:

- `Registers` (`registers.dfy`) covers the 8-bit registers as `bv8` values.
  It models the read-modify-write operations `reg |= mask` (`SetBits`) and
  `reg &= ~mask` (`ClearBits`) and `_BV`. It also covers the ADC enable mask
  and the ADPS2:0 prescaler table. The bit numbers (ADEN = 7, ADSC = 6,
  ADPS1 = 1, ADPS0 = 0, PA7 = 7) are those of the ATtiny24/44/84 datasheet.
- `VccMath` (`vcc_math.dfy`) holds the pure arithmetic:
  - `Combine` builds the 16-bit sample as `(high << 8) | low`.
  - `VccX10` is `(uint8_t)((11 * 1024) / adc)`. The division truncates, and
    the narrowing cast is written out as `% 0x100`.
  - `BlinkCount` is `vccx10 / 10`.
  - The module also has the lemmas about these three.
- `BatteryGauge` (`gauge.dfy`) is the imperative part. A class `Tiny84`
  holds the registers ADMUX, ADCSRA, ADCL, ADCH, DDRA and PORTA as fields.
  It also holds `trace`, the LED level after each PORTA write.
  - `ReadVccVoltage` is `readVccVoltage`.
  - `BlinkLed` is the blink `for` loop, with its loop invariants.
  - `MainLoopPass` is one pass of `main`'s `while (1)`.
  - The converter finishing a conversion is the step `CompleteConversion`.
    The hardware does this step: it clears ADSC and loads the result
    registers. The result bytes come in as parameters.

Facts about the code that its comments do not state:

- The reading only goes down as the sample goes up from 45 upward
  (line 115). For samples 1..44 the quotient 11264 / adc is 256 or more, and
  the `uint8_t` cast wraps it. For example, 44 gives 0 and 45 gives 250
  (`WrapBreaksAntitone`).
- The 10-bit converter's largest sample is 1023 (line 107). For 45..1023
  the reading lies in 11..250 (line 115).
- The enable write at line 66 already sets ADSC, so it starts a conversion
  as well. With the /8 prescaler, that conversion takes 25 ADC clocks
  (200 us) and ends within the 1 ms delay at line 74. So each call runs three
  conversions: the one started at line 66, the discarded one started at
  line 81, and the one started at line 87 that is used.
- The header comment (lines 9-16) stops at "5 blinks = 5 volts <= Vcc". The
  code at line 147 blinks `vccx10 / 10` times, which can be up to 25
  (`BlinkCount`).

## Model

| member | source | states |
|---|---|---|
| `Registers.BV` | NoPartsBatteryGuageAVR.c:66 | `_BV(bit)` has exactly the one bit `bit` set |
| `Registers.SetBits` | NoPartsBatteryGuageAVR.c:66 | setting bits (line 66's or-assign): a bit is set afterwards iff it was set before or is in the mask |
| `Registers.ClearBits` | NoPartsBatteryGuageAVR.c:123 | `reg &= ~mask`: a bit is set afterwards iff it was set before and is not in the mask |
| `Registers.AdcEnableMask` | NoPartsBatteryGuageAVR.c:66 | the enable mask has exactly ADEN, ADSC, ADPS1 and ADPS0 set |
| `Registers.PrescalerDivisor` | NoPartsBatteryGuageAVR.c:59-66 | ADPS2:0 selects one of the divisors 2, 4, 8, 16, 32, 64, 128 |
| `Registers.EnableSetsExactlyItsBits` | NoPartsBatteryGuageAVR.c:66 | the enable write sets ADEN, ADSC, ADPS1 and ADPS0 and leaves every other ADCSRA bit as it was |
| `Registers.EnableSelectsDivideBy8` | NoPartsBatteryGuageAVR.c:59-66 | with ADPS2 clear, the enable write selects /8, so the ADC clock is 1 MHz / 8 = 125 kHz, inside 50..200 kHz |
| `Registers.EnableKeepsStaleAdps2` | NoPartsBatteryGuageAVR.c:64-66 | the or-assign never clears ADPS2: if it is already set, the prescaler is /128 and the clock is below 50 kHz |
| `Registers.DisableKeepsPrescaler` | NoPartsBatteryGuageAVR.c:123 | `ADCSRA &= ~_BV(ADEN)` clears ADEN, keeps every other bit and so keeps the prescaler |
| `VccMath.Combine` | NoPartsBatteryGuageAVR.c:104-107 | the sample is 256 * high + low |
| `VccMath.CombineSplits` | NoPartsBatteryGuageAVR.c:104-107 | splitting the sample gives the bytes back: `adc % 256 == low`, `adc / 256 == high` |
| `VccMath.CombineTenBit` | NoPartsBatteryGuageAVR.c:107 | with the converter's high byte below 4 the sample lies in 0..1023 |
| `VccMath.VccX10` | NoPartsBatteryGuageAVR.c:109-115 | needs a nonzero sample (the division is unguarded); the reading is a byte with reading * adc <= 11264, so truncation never reports too much |
| `VccMath.TruncatedTimesSampleBound` | NoPartsBatteryGuageAVR.c:115 | the quotient narrowed to 8 bits, times the sample, is at most 11264: truncation and the cast can only lose |
| `VccMath.ConversionLossless` | NoPartsBatteryGuageAVR.c:115 | for adc >= 45 the cast loses nothing (reading == 11264 / adc), the reading is at most 250, and at least 11 up to adc 1023 |
| `VccMath.ConversionBracket` | NoPartsBatteryGuageAVR.c:111-115 | for adc >= 45 the reading r is the truncated ideal: r * adc <= 11264 < (r + 1) * adc |
| `VccMath.ConversionAntitone` | NoPartsBatteryGuageAVR.c:111-115 | for 45 <= a <= b, a larger sample never reports a higher voltage |
| `VccMath.ConversionWraps` | NoPartsBatteryGuageAVR.c:115 | for adc in 1..44 the quotient is >= 256, the reading is the quotient mod 256, and it is strictly less than the quotient |
| `VccMath.WrapBreaksAntitone` | NoPartsBatteryGuageAVR.c:115 | adc 44 reads 0 while adc 45 reads 250 |
| `VccMath.ConversionExamples` | NoPartsBatteryGuageAVR.c:42-43 | 225 reads 50 (5.0 V), 375 reads 30, 1023 reads 11, 1 wraps to 0 |
| `VccMath.BlinkCount` | NoPartsBatteryGuageAVR.c:145-147 | the count k satisfies 10k <= vccx10 < 10(k + 1) and is at most 25 |
| `VccMath.BlinkCountBand` | NoPartsBatteryGuageAVR.c:9-16 | k blinks exactly when the reading lies in k.0 V .. k.9 V (both directions) |
| `VccMath.BlinkCountSteps` | NoPartsBatteryGuageAVR.c:145-147 | the count goes up by one exactly when the reading reaches a multiple of 10 |
| `VccMath.BlinkCountExamples` | NoPartsBatteryGuageAVR.c:9-16 | 29 gives 2 blinks, 30 gives 3, 50 gives 5 |
| `VccMath.BlinksBracketIdealVcc` | NoPartsBatteryGuageAVR.c:9-16 | for adc >= 45, k blinks mean k V <= 1.1 V * 1024 / adc < k + 1 V |
| `BatteryGauge.BlinkTrace` | NoPartsBatteryGuageAVR.c:151-161 | n passes of the blink loop show 2n LED events |
| `BatteryGauge.BlinkTraceAlternates` | NoPartsBatteryGuageAVR.c:151-161 | the events alternate strictly: on at even positions, off at odd ones |
| `BatteryGauge.BlinkTraceAdds` | NoPartsBatteryGuageAVR.c:138-165 | blinks of successive passes concatenate into the blinks of their sum |
| `BatteryGauge.Tiny84.EnableLedOutput` | NoPartsBatteryGuageAVR.c:135 | DDRA gets bit PA7 set and every other bit kept; nothing else changes |
| `BatteryGauge.Tiny84.WritePorta` | NoPartsBatteryGuageAVR.c:153-157 | a PORTA write stores the value and the LED shows its PA7 bit |
| `BatteryGauge.Tiny84.StartConversion` | NoPartsBatteryGuageAVR.c:81 | the or-assign of `_BV(ADSC)` sets ADSC; nothing else changes |
| `BatteryGauge.Tiny84.CompleteConversion` | NoPartsBatteryGuageAVR.c:83-90 | the end of a busy-wait: ADSC is clear and ADCL/ADCH hold the result |
| `BatteryGauge.Tiny84.ReadVccVoltage` | NoPartsBatteryGuageAVR.c:50-127 | returns `VccX10` of the used conversion, sets ADMUX to 0b00100001, and leaves the ADC off with ADSC clear and ADPS1:0 set. Every other ADCSRA bit is kept; DDRA, PORTA and the LED trace are untouched |
| `BatteryGauge.Tiny84.BlinkLed` | NoPartsBatteryGuageAVR.c:151-161 | the trace grows by exactly `BlinkTrace(vcc)`. PORTA ends as the old value with PA7 cleared when vcc > 0, and is untouched when vcc = 0 |
| `BatteryGauge.Tiny84.MainLoopPass` | NoPartsBatteryGuageAVR.c:138-165 | the LED shows `BlinkTrace(BlinkCount(VccX10(sample)))`. PORTA ends with PA7 cleared after any blink, and every other PORTA bit is kept. ADMUX, ADCL, ADCH and ADCSRA end as after `ReadVccVoltage`, with the ADC off. DDRA is unchanged. From an idle state the conversion ran at 125 kHz and the state is idle again |
| `BatteryGauge.TwoPassesAt225` | NoPartsBatteryGuageAVR.c:130-165 | from power-on, two passes at sample 225 show 5 + 5 alternating blinks, with the ADC off between and after them |

## Left out

- The `_delay_ms` calls (lines 74, 155, 159, 163) are left out. They are wall-clock waits, and the LED trace records levels, not durations. `F_CPU` is kept only to work out the ADC clock (`Registers.AdcClockHz`).
- The busy-waits `while (ADCSRA & _BV(ADSC))` (lines 83, 90) are not loops here. Each one is the hardware step `CompleteConversion`, because whether they end depends on the converter, not on the code.
- `main`'s `while (1)` runs forever. `MainLoopPass` models one pass, and `TwoPassesAt225` runs two in a row.
- The ADIF flag, its write-one-to-clear behaviour and the auto-trigger bits are left out. The ADCL/ADCH read lock is also left out. The firmware never uses any of them.
- The analog side is left out: band-gap accuracy, settling and conversion error. The model keeps only the integer formula, plus the exact voltage 1.1 * 1024 / adc as a `real`.
- The memory-mapped registers and the AVR C library header are not part of this model. The registers are plain `bv8` fields.
- `VccMath.Combine`: on the AVR, `high << 8` is done in 16-bit signed `int`, which overflows for high >= 128. The model uses unsigned arithmetic instead. The 10-bit converter never produces a high byte above 3.
- `BatteryGauge.Tiny84.ReadVccVoltage`: a sample of 0 is excluded by its precondition. The source divides by it unguarded, so its behaviour there is undefined.
- `BatteryGauge.Tiny84.ReadVccVoltage`: the model assumes that the conversion started by the enable write at line 66 ends during the 1 ms delay at line 74. That holds at the /8 prescaler (25 ADC clocks, 200 us). If ADPS2 were already set (/128), the conversion would take 3.2 ms. The line-81 start would then do nothing, and only two conversions would run. The result returned is the same either way. The model does not capture this timing: `CompleteConversion` has no notion of elapsed time.
