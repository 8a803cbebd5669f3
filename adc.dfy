/**
 * The A/D converter driver: construction configures the peripheral,
 * ReadOnce performs one blocking conversion and ReadOversampled averages
 * several of them.
 */
module AdcDriver {
  import opened Bits
  import opened AdcRegisters
  import opened Oversampling
  import opened Hardware

  /** The one failure the checked read reports. */
  datatype Error = InvalidArgument

  datatype Result<T> = Ok(value: T) | Err(error: Error)

  /** A request for zero samples leaves read_oversampled a divisor of zero. */
  lemma ZeroRequestHasZeroDivisor()
    ensures EffectiveCount(0) == 0
  {
  }

  class Adc {
    /** The converter this driver owns. */
    const hw: Peripheral

    /** The converter is configured and no conversion is in flight between calls. */
    ghost predicate Valid()
      reads this, hw
    {
      Ready(hw.ADCSRA, hw.ADMUX) && !hw.Busy()
    }

    /**
     * Enables the converter, selects the f/32 clock and the AVCC reference;
     * every other bit of ADCSRA and ADMUX keeps the value it had.
     */
    constructor (hw: Peripheral)
      requires !hw.Busy()
      modifies hw
      ensures this.hw == hw && Valid()
      ensures hw.ADCSRA == ConfigureControl(old(hw.ADCSRA))
      ensures hw.ADMUX == ConfigureMux(old(hw.ADMUX))
      ensures hw.ADC == old(hw.ADC) && hw.conversions == old(hw.conversions)
      ensures hw.remaining == old(hw.remaining) && hw.latched == old(hw.latched)
    {
      this.hw := hw;
      new;
      hw.WriteControl(hw.ADCSRA | Mask(ADEN));
      hw.WriteControl(hw.ADCSRA | Mask(ADPS0));
      hw.WriteControl(hw.ADCSRA & !Mask(ADPS1));
      hw.WriteControl(hw.ADCSRA | Mask(ADPS2));
      hw.WriteMux(hw.ADMUX | Mask(REFS0));
      hw.WriteMux(hw.ADMUX & !Mask(REFS1));
    }

    /**
     * Selects channel `ch` modulo 8, starts a conversion, waits until ADSC
     * reads 0 and returns the result register.
     */
    method ReadOnce(ch: bv8) returns (r: Word)
      requires Valid()
      modifies hw
      ensures Valid()
      ensures hw.ADMUX == SelectChannel(old(hw.ADMUX), ch)
      ensures hw.ADCSRA == old(hw.ADCSRA)
      ensures hw.conversions == old(hw.conversions) + 1
      ensures r == hw.ADC == hw.Sample(ChannelOf(ch), old(hw.conversions))
      ensures hw.latched == ChannelOf(ch) && hw.remaining == 0
    {
      var result: Word := 0;
      var c := ch & ChannelMask;
      ghost var control, mux := hw.ADCSRA, hw.ADMUX;
      hw.WriteMux(hw.ADMUX & MuxKeepMask);
      hw.WriteMux(hw.ADMUX | c);
      ghost var selected := hw.ADMUX;
      ghost var started := control | Mask(ADSC);
      StartThenComplete(control);
      assert !Bit(control, ADSC) && Bit(started, ADSC);
      hw.WriteControl(hw.ADCSRA | Mask(ADSC));
      var status := hw.PollControl();
      while status & BusyMask != 0
        invariant status == hw.ADCSRA && hw.ADMUX == selected && hw.latched == ChannelOf(selected)
        invariant hw.Busy() ==> hw.ADCSRA == started && hw.conversions == old(hw.conversions)
        invariant !hw.Busy() ==> hw.ADCSRA == control && hw.conversions == old(hw.conversions) + 1
        invariant !hw.Busy() ==> hw.ADC == hw.Sample(ChannelOf(selected), old(hw.conversions)) && hw.remaining == 0
        decreases hw.Pending()
      {
        status := hw.PollControl();
      }
      assert hw.ADCSRA == control && hw.ADMUX == selected;
      SpliceKeepsReady(control, mux, ch, selected);
      result := hw.ADC;
      return result;
    }

    /**
     * Takes EffectiveCount(samples) readings of `channel`, sums them in a
     * 16-bit accumulator and returns the floor of their mean.  The count is
     * decremented as the loop runs; the divisor is the count saved before it.
     */
    method ReadOversampled(channel: bv8, samples: Byte) returns (r: Word)
      requires Valid()
      requires samples != 0
      modifies hw
      ensures Valid()
      ensures hw.conversions == old(hw.conversions) + EffectiveCount(samples)
      ensures r == Average(hw.Readings(ChannelOf(channel), old(hw.conversions), EffectiveCount(samples)))
      ensures r <= MaxReading
      ensures hw.ADMUX == SelectChannel(old(hw.ADMUX), channel)
      ensures hw.ADCSRA == old(hw.ADCSRA)
      ensures hw.ADC == hw.Sample(ChannelOf(channel), old(hw.conversions) + EffectiveCount(samples) - 1)
      ensures hw.latched == ChannelOf(channel) && hw.remaining == 0
    {
      var result: Word := 0;
      var tempSamples: Byte := 0;
      var left := samples;  // the source counts its `samples` parameter itself down
      if left >= SampleCap {
        left := ClampedCount;
      }
      tempSamples := left;
      ghost var c, start := ChannelOf(channel), hw.conversions;
      ghost var selected := SelectChannel(hw.ADMUX, channel);
      LastSelectionWins(hw.ADMUX, channel, channel);
      ghost var done: nat := 0;
      var i := 0;
      while i < left
        invariant i == 0 && 0 <= left && done + left == tempSamples == EffectiveCount(samples)
        invariant Valid() && hw.ADCSRA == old(hw.ADCSRA)
        invariant done == 0 ==> hw.ADMUX == old(hw.ADMUX)
        invariant done != 0 ==>
          hw.ADMUX == selected && hw.latched == c && hw.remaining == 0 && hw.ADC == hw.Sample(c, start + done - 1)
        invariant hw.conversions == start + done
        invariant result == hw.Total(c, start, done)
        decreases left
      {
        hw.AccumulateNext(c, start, done);
        var x := ReadOnce(channel);
        result := AddWord(result, x);
        left := left - 1;
        done := done + 1;
      }
      hw.TotalOverCount(c, start, tempSamples);
      r := result / tempSamples;
    }

    /**
     * ReadOversampled with the zero-sample request rejected instead of
     * dividing by zero; nothing is converted in that case.
     */
    method ReadOversampledChecked(channel: bv8, samples: Byte) returns (r: Result<Word>)
      requires Valid()
      modifies hw
      ensures Valid()
      ensures samples == 0 ==> r == Err(InvalidArgument)
      ensures samples == 0 ==> hw.ADMUX == old(hw.ADMUX) && hw.conversions == old(hw.conversions)
      ensures samples == 0 ==> hw.ADC == old(hw.ADC) && hw.latched == old(hw.latched) && hw.remaining == old(hw.remaining)
      ensures samples != 0 ==> r.Ok? && r.value <= MaxReading
      ensures samples != 0 ==>
        r.value == Average(hw.Readings(ChannelOf(channel), old(hw.conversions), EffectiveCount(samples)))
        && hw.conversions == old(hw.conversions) + EffectiveCount(samples)
        && hw.ADMUX == SelectChannel(old(hw.ADMUX), channel)
      ensures samples != 0 ==>
        hw.ADC == hw.Sample(ChannelOf(channel), old(hw.conversions) + EffectiveCount(samples) - 1)
        && hw.latched == ChannelOf(channel) && hw.remaining == 0
      ensures hw.ADCSRA == old(hw.ADCSRA)
    {
      if samples == 0 {
        return Err(InvalidArgument);
      }
      var average := ReadOversampled(channel, samples);
      return Ok(average);
    }
  }

  /** A session on a simulated converter whose channel 2 yields 100, 200, 300. */
  method ExampleSession() {
    var hw := new Peripheral.Reset((c: Channel, k: nat) => if k == 0 then 100 else if k == 1 then 200 else 300, 3);
    var adc := new Adc(hw);
    assert Ready(hw.ADCSRA, hw.ADMUX);
    var average := adc.ReadOversampled(2, 3);
    assert hw.Readings(2, 0, 3) == [100, 200, 300];
    AverageExample();
    assert average == 200;
    assert ChannelOf(hw.ADMUX) == 2;
    var rejected := adc.ReadOversampledChecked(2, 0);
    assert rejected == Err(InvalidArgument);
  }
}
