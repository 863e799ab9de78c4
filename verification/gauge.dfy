/**
 * The firmware's control flow over the microcontroller's registers: the
 * sampling routine `readVccVoltage` and one pass of `main`'s endless loop,
 * which blinks the LED on PA7 once per whole volt.
 *
 * The registers are fields of one object. What the converter hardware does
 * on its own (finishing a conversion, which clears ADSC and loads ADCL and
 * ADCH) is the method `CompleteConversion`, whose result bytes are given as
 * parameters. Every write to PORTA records the level of PA7 in `trace`,
 * which is what a person watching the LED sees.
 */
module BatteryGauge {
  import opened Registers
  import opened VccMath

  /** The level PA7 is driven to by a write to PORTA. */
  datatype LedEvent = LedOn | LedOff

  /** The result of one conversion, as the two result registers hold it. */
  datatype Conversion = Conversion(low: bv8, high: bv8)

  /** What `n` passes of the blink loop show: on, off, on, off, ... `n` times. */
  function BlinkTrace(n: nat): (t: seq<LedEvent>)
    ensures |t| == 2 * n
  {
    if n == 0 then [] else BlinkTrace(n - 1) + [LedOn, LedOff]
  }

  /** The blinks alternate strictly, starting with on. */
  lemma {:induction false} BlinkTraceAlternates(n: nat, i: nat)
    requires i < 2 * n
    ensures BlinkTrace(n)[i] == if i % 2 == 0 then LedOn else LedOff
  {
    if i < 2 * (n - 1) {
      BlinkTraceAlternates(n - 1, i);
    }
  }

  /** Two rounds of blinks are the blinks of their sum: rounds simply concatenate. */
  lemma {:induction false} BlinkTraceAdds(m: nat, n: nat)
    ensures BlinkTrace(m) + BlinkTrace(n) == BlinkTrace(m + n)
  {
    if n != 0 {
      BlinkTraceAdds(m, n - 1);
      assert BlinkTrace(m) + BlinkTrace(n) == (BlinkTrace(m) + BlinkTrace(n - 1)) + [LedOn, LedOff];
    }
  }

  /** The ATtiny84 as far as the gauge uses it. */
  class Tiny84 {
    var ADMUX: bv8
    var ADCSRA: bv8
    var ADCL: bv8
    var ADCH: bv8
    var DDRA: bv8
    var PORTA: bv8
    /** The level of PA7 after each write to PORTA, oldest first. */
    var trace: seq<LedEvent>
    /** The ADC clock in Hz during the most recent conversion. */
    ghost var conversionClockHz: nat

    /** Between two passes of the main loop: LED pin is an output and off, converter off and idle, ADPS2 clear. */
    ghost predicate Idle()
      reads this
    {
      && IsSet(DDRA, PORTA7)
      && !IsSet(PORTA, PORTA7)
      && !IsSet(ADCSRA, ADEN)
      && !IsSet(ADCSRA, ADSC)
      && !IsSet(ADCSRA, ADPS2)
    }

    /** Power-on reset: every register the gauge uses reads 0, nothing has been shown yet. */
    constructor PowerOn()
      ensures ADMUX == 0 && ADCSRA == 0 && ADCL == 0 && ADCH == 0 && DDRA == 0 && PORTA == 0
      ensures trace == []
    {
      ADMUX, ADCSRA, ADCL, ADCH, DDRA, PORTA := 0, 0, 0, 0, 0, 0;
      trace := [];
      conversionClockHz := 0;
    }

    /** `DDRA |= _BV(PORTA7)`: make PA7 an output. */
    method EnableLedOutput()
      modifies this`DDRA
      ensures DDRA == SetBits(old(DDRA), BV(PORTA7))
      ensures IsSet(DDRA, PORTA7)
      ensures forall i: BitIndex :: i != PORTA7 ==> (IsSet(DDRA, i) <==> IsSet(old(DDRA), i))
    {
      DDRA := SetBits(DDRA, BV(PORTA7));
    }

    /** A write of `value` to PORTA; the LED shows bit PA7 of it. */
    method WritePorta(value: bv8)
      modifies this`PORTA, this`trace
      ensures PORTA == value
      ensures trace == old(trace) + [if IsSet(value, PORTA7) then LedOn else LedOff]
    {
      PORTA := value;
      trace := trace + [if IsSet(value, PORTA7) then LedOn else LedOff];
    }

    /** `ADCSRA |= _BV(ADSC)`: start a conversion. */
    method StartConversion()
      modifies this`ADCSRA
      ensures ADCSRA == SetBits(old(ADCSRA), BV(ADSC))
    {
      ADCSRA := SetBits(ADCSRA, BV(ADSC));
    }

    /**
     * The converter finishes the conversion in progress: it loads the result
     * registers and clears ADSC, which ends the firmware's busy-wait.
     */
    method CompleteConversion(result: Conversion)
      requires IsSet(ADCSRA, ADEN) && IsSet(ADCSRA, ADSC)
      modifies this`ADCSRA, this`ADCL, this`ADCH, this`conversionClockHz
      ensures ADCSRA == ClearBits(old(ADCSRA), BV(ADSC))
      ensures ADCL == result.low && ADCH == result.high
      ensures conversionClockHz == AdcClockHz(old(ADCSRA))
    {
      conversionClockHz := AdcClockHz(ADCSRA);
      ADCSRA := ClearBits(ADCSRA, BV(ADSC));
      ADCL, ADCH := result.low, result.high;
    }

    /**
     * `readVccVoltage`. The enable write itself starts a conversion, which
     * is taken to end during the 1 ms settling delay (`settling`): 25 ADC
     * clocks, 200 us at the /8 prescaler. Then one conversion is started and
     * discarded (`discarded`) and one more is used (`used`).
     */
    method ReadVccVoltage(settling: Conversion, discarded: Conversion, used: Conversion) returns (vccx10: Word)
      requires Combine(used.low, used.high) != 0
      modifies this`ADMUX, this`ADCSRA, this`ADCL, this`ADCH, this`conversionClockHz
      ensures vccx10 == VccX10(Combine(used.low, used.high))
      ensures ADMUX == ADMUX_VCC_REF_BANDGAP_IN
      ensures !IsSet(ADCSRA, ADEN) && !IsSet(ADCSRA, ADSC)
      ensures IsSet(ADCSRA, ADPS1) && IsSet(ADCSRA, ADPS0)
      ensures forall i: BitIndex :: i != ADEN && i != ADSC && i != ADPS1 && i != ADPS0 ==>
        (IsSet(ADCSRA, i) <==> IsSet(old(ADCSRA), i))
      ensures conversionClockHz == AdcClockHz(SetBits(old(ADCSRA), AdcEnableMask()))
      ensures ADCL == used.low && ADCH == used.high
    {
      ADMUX := ADMUX_VCC_REF_BANDGAP_IN;
      ADCSRA := SetBits(ADCSRA, AdcEnableMask());
      ghost var enabled := ADCSRA;
      CompleteConversion(settling);
      StartConversion();
      CompleteConversion(discarded);
      StartConversion();
      CompleteConversion(used);
      assert ADCSRA & 0x07 == enabled & 0x07;
      var low := ADCL;
      var high := ADCH;
      var adc := Combine(low, high);
      vccx10 := VccX10(adc);
      ADCSRA := ClearBits(ADCSRA, BV(ADEN));
    }

    /** `for (int i = 0; i < vcc; i++)`: LED on, LED off, `vcc` times. */
    method BlinkLed(vcc: Byte)
      modifies this`PORTA, this`trace
      ensures trace == old(trace) + BlinkTrace(vcc)
      ensures PORTA == if vcc > 0 then ClearBits(old(PORTA), BV(PORTA7)) else old(PORTA)
      ensures vcc > 0 ==> !IsSet(PORTA, PORTA7)
      ensures vcc == 0 ==> PORTA == old(PORTA)
      ensures forall i: BitIndex :: i != PORTA7 ==> (IsSet(PORTA, i) <==> IsSet(old(PORTA), i))
    {
      for i := 0 to vcc
        invariant trace == old(trace) + BlinkTrace(i)
        invariant PORTA == if i > 0 then ClearBits(old(PORTA), BV(PORTA7)) else old(PORTA)
        invariant i > 0 ==> !IsSet(PORTA, PORTA7)
        invariant forall j: BitIndex :: j != PORTA7 ==> (IsSet(PORTA, j) <==> IsSet(old(PORTA), j))
      {
        WritePorta(SetBits(PORTA, BV(PORTA7)));
        WritePorta(ClearBits(PORTA, BV(PORTA7)));
      }
    }

    /**
     * One pass of `main`'s `while (1)`: sample, narrow to `uint8_t`, divide by
     * ten, blink. The LED shows exactly the blinks for the sample, PA7 ends
     * low after any blink, and the converter is left off; started from an
     * idle state, the converter ran at 125 kHz and the state is idle again.
     */
    method MainLoopPass(settling: Conversion, discarded: Conversion, used: Conversion)
      requires Combine(used.low, used.high) != 0
      modifies this
      ensures trace == old(trace) + BlinkTrace(BlinkCount(VccX10(Combine(used.low, used.high))))
      ensures PORTA == if BlinkCount(VccX10(Combine(used.low, used.high))) > 0
        then ClearBits(old(PORTA), BV(PORTA7)) else old(PORTA)
      ensures ADMUX == ADMUX_VCC_REF_BANDGAP_IN
      ensures ADCL == used.low && ADCH == used.high
      ensures !IsSet(ADCSRA, ADEN) && !IsSet(ADCSRA, ADSC)
      ensures IsSet(ADCSRA, ADPS1) && IsSet(ADCSRA, ADPS0)
      ensures forall i: BitIndex :: i != ADEN && i != ADSC && i != ADPS1 && i != ADPS0 ==>
        (IsSet(ADCSRA, i) <==> IsSet(old(ADCSRA), i))
      ensures conversionClockHz == AdcClockHz(SetBits(old(ADCSRA), AdcEnableMask()))
      ensures DDRA == old(DDRA)
      ensures old(Idle()) ==> Idle()
      ensures old(Idle()) ==> conversionClockHz == 125_000 && FullResolutionClock(conversionClockHz)
    {
      if !IsSet(ADCSRA, ADPS2) {
        EnableSelectsDivideBy8(ADCSRA);
      }
      var reading := ReadVccVoltage(settling, discarded, used);
      var vccx10: Byte := reading % 0x100;
      assert vccx10 == VccX10(Combine(used.low, used.high));
      var vcc := vccx10 / 10;
      assert vcc == BlinkCount(vccx10);
      BlinkLed(vcc);
    }
  }

  /**
   * Two passes of the main loop on a supply whose sample is 225 (5.0 V), from
   * power-on: five blinks per pass, the same each time, with the converter
   * off between and after the passes.
   */
  method TwoPassesAt225() returns (shown: seq<LedEvent>, adcOffBetween: bool, adcOffAfter: bool)
    ensures shown == BlinkTrace(5) + BlinkTrace(5)
    ensures |shown| == 20
    ensures forall i :: 0 <= i < |shown| ==> shown[i] == if i % 2 == 0 then LedOn else LedOff
    ensures adcOffBetween && adcOffAfter
  {
    var mcu := new Tiny84.PowerOn();
    mcu.EnableLedOutput();
    var sample := Conversion(225, 0);
    assert Combine(sample.low, sample.high) == 225;
    assert VccX10(225) == 50;
    assert BlinkCount(50) == 5;
    mcu.MainLoopPass(sample, sample, sample);
    assert mcu.trace == BlinkTrace(5);
    adcOffBetween := !IsSet(mcu.ADCSRA, ADEN);
    mcu.MainLoopPass(sample, sample, sample);
    adcOffAfter := !IsSet(mcu.ADCSRA, ADEN);
    shown := mcu.trace;
    assert shown == BlinkTrace(5) + BlinkTrace(5);
    BlinkTraceAdds(5, 5);
    forall i | 0 <= i < |shown|
      ensures shown[i] == if i % 2 == 0 then LedOn else LedOff
    {
      BlinkTraceAlternates(10, i);
    }
  }
}
