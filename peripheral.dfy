/**
 * A simulated A/D converter peripheral: the registers the driver reads and
 * writes, and the hardware's reaction to them.  The analog front end is an
 * oracle `signal(c, k)` giving the code the k-th conversion yields on channel
 * c.  After a conversion is started, `latency` polls of ADCSRA still read
 * it busy and the next poll completes it.
 */
module Hardware {
  import opened Bits
  import opened AdcRegisters
  import opened Oversampling

  class Peripheral {
    /** Control and status register. */
    var ADCSRA: bv8
    /** Multiplexer selection register. */
    var ADMUX: bv8
    /** Result register: 16 bits wide, of which the upper six read as zero. */
    var ADC: Reading

    /** The analog inputs, as the converter would digitise them. */
    const signal: (Channel, nat) -> Reading
    /** Polls of ADCSRA that still read busy after a conversion is started. */
    const latency: nat

    /** Busy polls left before the poll that completes the running conversion. */
    var remaining: nat
    /** Channel latched when the running conversion was started. */
    var latched: Channel
    /** Conversions completed so far. */
    var conversions: nat

    /** The code conversion number k yields when it samples channel c. */
    function Sample(c: Channel, k: nat): Reading {
      signal(c, k)
    }

    /** The codes n conversions of channel c yield, starting with conversion number `from`. */
    function Readings(c: Channel, from: nat, n: nat): (s: seq<Reading>)
      ensures |s| == n
      ensures forall i :: 0 <= i < n ==> s[i] == Sample(c, from + i)
    {
      if n == 0 then [] else Readings(c, from, n - 1) + [Sample(c, from + n - 1)]
    }

    /** The plain sum of those codes. */
    function Total(c: Channel, from: nat, n: nat): nat {
      if n == 0 then 0 else Total(c, from, n - 1) + Sample(c, from + n - 1)
    }

    /** Total is the Sum of the Readings. */
    lemma {:induction false} TotalIsSum(c: Channel, from: nat, n: nat)
      ensures Total(c, from, n) == Sum(Readings(c, from, n))
    {
      if n > 0 {
        TotalIsSum(c, from, n - 1);
        assert Readings(c, from, n)[..n - 1] == Readings(c, from, n - 1);
      }
    }

    /** Polls until the running conversion completes; what the busy-wait decreases. */
    function Pending(): nat
      reads this
    {
      if Busy() then remaining + 1 else 0
    }

    /** One more conversion adds its code to the 16-bit running sum without wrapping. */
    lemma AccumulateNext(c: Channel, from: nat, k: nat)
      requires k < SampleCap
      ensures Total(c, from, k) < WordModulus && AddWord(Total(c, from, k), Sample(c, from + k)) == Total(c, from, k + 1)
    {
      TotalIsSum(c, from, k + 1);
      SumBetween(Readings(c, from, k + 1), 0, MaxReading);
    }

    /** The sum of n codes divided by n is their average, which is at most full scale. */
    lemma TotalOverCount(c: Channel, from: nat, n: nat)
      requires 0 < n
      ensures Total(c, from, n) / n == Average(Readings(c, from, n)) <= MaxReading
    {
      TotalIsSum(c, from, n);
      AverageInRange(Readings(c, from, n));
    }

    /** A conversion is in progress exactly while ADSC reads 1. */
    predicate Busy()
      reads this
    {
      Bit(ADCSRA, ADSC)
    }

    /** The peripheral out of reset: all registers zero, no conversion running. */
    constructor Reset(signal: (Channel, nat) -> Reading, latency: nat)
      ensures ADCSRA == 0 && ADMUX == 0 && ADC == 0
      ensures this.signal == signal && this.latency == latency
      ensures conversions == 0 && !Busy()
    {
      ADCSRA, ADMUX, ADC := 0, 0, 0;
      this.signal, this.latency := signal, latency;
      remaining, latched, conversions := 0, 0, 0;
    }

    /**
     * A write to ADCSRA.  Writing 1 to ADSC while idle starts a conversion on
     * the channel ADMUX selects; writing 0 to ADSC has no effect, the hardware
     * alone clears it.
     */
    method WriteControl(v: bv8)
      modifies this
      ensures ADCSRA == v | (old(ADCSRA) & Mask(ADSC))
      ensures ADMUX == old(ADMUX) && ADC == old(ADC) && conversions == old(conversions)
      ensures if !old(Busy()) && Bit(v, ADSC)
              then remaining == latency && latched == ChannelOf(ADMUX)
              else remaining == old(remaining) && latched == old(latched)
    {
      var starting := !Busy() && Bit(v, ADSC);
      ADCSRA := v | (ADCSRA & Mask(ADSC));
      if starting {
        remaining, latched := latency, ChannelOf(ADMUX);
      }
    }

    /** A write to ADMUX. */
    method WriteMux(v: bv8)
      modifies this
      ensures ADMUX == v
      ensures ADCSRA == old(ADCSRA) && ADC == old(ADC) && conversions == old(conversions)
      ensures remaining == old(remaining) && latched == old(latched)
    {
      ADMUX := v;
    }

    /**
     * A read of ADCSRA while the hardware advances by one poll.  When the
     * running conversion's time is up, its result is latched into ADC and
     * ADSC is cleared.
     */
    method PollControl() returns (v: bv8)
      modifies this
      ensures v == ADCSRA
      ensures ADMUX == old(ADMUX) && latched == old(latched)
      ensures !old(Busy()) ==>
        ADCSRA == old(ADCSRA) && ADC == old(ADC) && conversions == old(conversions) && remaining == old(remaining)
      ensures old(Busy()) && old(remaining) > 0 ==>
        ADCSRA == old(ADCSRA) && ADC == old(ADC) && conversions == old(conversions) && remaining == old(remaining) - 1
      ensures old(Busy()) && old(remaining) == 0 ==>
        ADCSRA == old(ADCSRA) & !Mask(ADSC) && ADC == Sample(latched, old(conversions))
        && conversions == old(conversions) + 1 && remaining == 0
    {
      if Busy() {
        if remaining == 0 {
          ADC := Sample(latched, conversions);
          conversions := conversions + 1;
          ADCSRA := ADCSRA & !Mask(ADSC);
        } else {
          remaining := remaining - 1;
        }
      }
      v := ADCSRA;
    }
  }
}
