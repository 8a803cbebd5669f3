# AVR A/D converter driver

This project is a Dafny model of the `adc` driver class in `adc.cpp`. The
driver runs the 10-bit A/D converter of an ATmega microcontroller. It has
three operations:

- The constructor enables the converter, selects a clock prescaler of 32 and
  selects the AVCC voltage reference. It does this with read-modify-write
  updates of the ADCSRA and ADMUX registers.
- `read_once(ch)` reduces the channel to its low three bits and splices it
  into ADMUX. It then sets ADSC, busy-waits until ADSC reads 0 and returns
  the result register ADC.
- `read_oversampled(channel, samples)` clamps the sample count: 64 or more
  becomes 60. It adds that many `read_once` results in a `uint16_t`,
  counting `samples` itself down, and divides by the saved count.

The model has five modules:

- `Bits`: single-bit set and clear on `bv8`.
- `AdcRegisters`: the register layout. ADEN=7, ADSC=6, ADPS2..0=2..0,
  REFS1=7, REFS0=6, the channel field is bits 2..0 and the literal masks are
  those of the source. The module also holds the register values each
  operation produces and lemmas about them.
- `Oversampling`: the sample-count clamp, the exact sum, the wrapping
  16-bit accumulator and the floor average.
- `Hardware`: a class `Peripheral` that simulates the converter's registers.
  After a conversion is started by writing ADSC, `latency` polls of ADCSRA
  still read it busy and the next poll completes it. That poll latches the code an oracle `signal(channel, k)` gives for
  the k-th conversion.
- `AdcDriver`: the class `Adc` with the driver's three operations as a
  constructor and methods. The methods keep the source's loops. A checked
  variant of `read_oversampled` rejects a zero sample count.

The loop of `ReadOversampled` keeps its 16-bit accumulator equal to the exact
total `Peripheral.Total` of the codes read so far. `Oversampling.Accumulate`
is the same accumulator written as a function on a sequence of readings, and
`Oversampling.AccumulatedAverage` shows that dividing it by the count gives
the `Average` that `ReadOversampled` promises.

## Model

| member | source | states |
|---|---|---|
| Bits.SetBit | adc.cpp:47-56 | or-ing in `1<<k` makes bit k read 1 and leaves every other bit as it was |
| Bits.ClearBit | adc.cpp:52-57 | `r &= ~(1<<k)` makes bit k read 0 and leaves every other bit as it was |
| AdcRegisters.BusyMaskIsStartBit | adc.cpp:86-87 | the literal `0b01000000` the busy-wait tests is the ADSC bit, so the loop spins exactly while ADSC reads 1 |
| AdcRegisters.ChannelOf | adc.cpp:78-79 | the masked channel `ch & 0b00000111` is always one of the channels 0..7 |
| AdcRegisters.ChannelOfIsModulo8 | adc.cpp:78-79 | `ch &= 0b00000111` leaves ch modulo 8, and leaves channels 0..7 unchanged |
| AdcRegisters.ConfigureControl | adc.cpp:47-53 | after the four ADCSRA updates ADEN is 1, ADPS2:ADPS1:ADPS0 is 1:0:1, the prescaler divides by 32, and every other ADCSRA bit is unchanged |
| AdcRegisters.ConfigureMux | adc.cpp:55-57 | after the two ADMUX updates REFS1:REFS0 is 0:1 (AVCC), every other bit is unchanged, and so is the selected channel |
| AdcRegisters.SelectChannel | adc.cpp:79-83 | the ADMUX value after the splice has the low three bits of ch in bits 2..0 and the old ADMUX bits 7..3, which with Bits.BitsDetermineValue fixes it |
| AdcRegisters.SelectChannelFields | adc.cpp:78-83 | after the channel splice the ADMUX channel field is ch modulo 8, bits 7..3 keep their values, and the reference selection is unchanged |
| AdcRegisters.ReadyMeans | adc.cpp:34-38 | the configuration the driver maintains (Ready) holds exactly when the converter is enabled, its clock is divided by 32 and its reference is AVCC |
| AdcRegisters.ConfigurationMakesReady | adc.cpp:47-57 | the constructor's register values are a ready configuration, whatever the registers held before |
| AdcRegisters.ConfigurationIdempotent | adc.cpp:47-57 | applying the constructor's updates a second time changes neither register |
| AdcRegisters.SelectChannelKeepsReady | adc.cpp:81-83 | selecting any channel keeps the configuration ready |
| AdcRegisters.StartThenComplete | adc.cpp:86-87 | setting ADSC on an idle ADCSRA makes the busy test true; clearing ADSC again restores the register, including prescaler and enable |
| AdcRegisters.SpliceKeepsReady | adc.cpp:79-83 | the spliced ADMUX selects channel ch modulo 8 and keeps a ready configuration ready |
| AdcRegisters.ChannelReducedModulo8 | adc.cpp:66-83 | channels above 7 are reduced, not rejected: ch and ch - 8 (and ch and its low bits) select the same ADMUX value |
| AdcRegisters.LastSelectionWins | adc.cpp:81-83 | a selection overrides any earlier one, so repeated reads of one channel leave the same ADMUX |
| Oversampling.EffectiveCount | adc.cpp:112-118 | defined as the clamp itself (64 or more becomes 60, smaller requests, 61..63 included, stay); its contract states that the count used is at most 63 and at most the request, is 0 exactly when the request is 0, and times 1023 stays below 2^16 |
| Oversampling.AddWord | adc.cpp:123 | `uint16_t` addition of two 16-bit values: the exact sum when it is below 2^16, otherwise the sum less 2^16 |
| Oversampling.Accumulate | adc.cpp:120-124 | the `uint16_t` accumulator after adding the readings one by one holds their exact sum modulo 2^16 |
| Oversampling.Average | adc.cpp:127 | the quotient is the floor of the mean: a·n ≤ sum < (a+1)·n |
| Oversampling.SumBetween | adc.cpp:112-124 | readings within [lo, hi] sum to between lo·n and hi·n |
| Oversampling.NoWrapWithinCap | adc.cpp:112-124 | at most 64 readings of at most 1023 never overflow: the accumulator equals the exact sum |
| Oversampling.AccumulatedAverage | adc.cpp:120-127 | within the cap, the accumulator divided by the count, as the source computes it, is the floor of the exact mean |
| Oversampling.WrapsBeyondCap | adc.cpp:112-116 | without the clamp, 65 full-scale readings wrap the accumulator to 959 |
| Oversampling.AverageBetween | adc.cpp:127 | the average of readings within [lo, hi] lies within [lo, hi] |
| Oversampling.AverageInRange | adc.cpp:127 | an averaged reading never exceeds full scale 1023 |
| Oversampling.AverageOfStableInput | adc.cpp:97-127 | oversampling a constant input returns exactly that input |
| Oversampling.AverageExample | adc.cpp:127 | readings 100, 200 and 300 average to 200 |
| Hardware.Peripheral.Readings | adc.cpp:121-124 | the codes of n successive conversions of one channel, in order |
| Hardware.Peripheral.TotalIsSum | adc.cpp:121-124 | the running total of those codes is their Sum |
| Hardware.Peripheral.AccumulateNext | adc.cpp:123 | within the cap, adding the next conversion's code in 16-bit arithmetic extends the exact total by that code |
| Hardware.Peripheral.TotalOverCount | adc.cpp:127 | the total divided by the count is the Average of the readings, and at most 1023 |
| Hardware.Peripheral.WriteControl | adc.cpp:48-53 | an ADCSRA write stores the value, except that ADSC stays 1 while a conversion runs; writing ADSC=1 while idle starts a conversion on the channel ADMUX selects |
| Hardware.Peripheral.WriteMux | adc.cpp:56-57 | an ADMUX write stores the value and changes nothing else |
| Hardware.Peripheral.PollControl | adc.cpp:87 | a read of ADCSRA returns it; a running conversion either counts down or completes, latching its code into ADC and clearing ADSC |
| AdcDriver.ZeroRequestHasZeroDivisor | adc.cpp:114-127 | a request of 0 samples leaves 0 as the divisor of the final division |
| AdcDriver.Adc.constructor | adc.cpp:42-61 | the registers hold ConfigureControl and ConfigureMux of their old values, the configuration is ready and no conversion runs |
| AdcDriver.Adc.ReadOnce | adc.cpp:73-93 | ADMUX holds the selection of ch, ADCSRA is restored, exactly one conversion ran, and the result is that conversion's code on channel ch modulo 8, which is also what ADC holds |
| AdcDriver.Adc.ReadOversampled | adc.cpp:106-128 | exactly EffectiveCount(samples) conversions of the channel run; the result is the floor of their exact mean and at most 1023; ADCSRA is restored, ADMUX selects the channel, ADC holds the last conversion's code and no conversion is pending |
| AdcDriver.Adc.ReadOversampledChecked | adc.cpp:106-128 | a request of 0 is rejected with InvalidArgument and leaves every peripheral field as it was; any other request behaves as ReadOversampled |

## Left out

- `operator<<` (adc.cpp:141-156) only prints the two registers and calls `read_once` for channels 0 to 7 in order. It is serial output, so it is not modelled.
- The debug message and the serial-port pointer (adc.cpp:45, adc.cpp:60) are output plumbing and are not modelled.
- The analog conversion is not modelled. An oracle `signal(channel, k)` stands in for it and gives a code of at most 1023.
- Conversion timing is not modelled. The conversion is taken to finish on the poll after `latency` busy polls; the real hardware guarantees termination of the busy-wait.
- Bits other than ADEN, ADSC, ADPS2..0, REFS1..0 and MUX2..0 have no modelled effect. These include ADATE, ADIF, ADIE, ADLAR and MUX3..4. The model assumes a right-adjusted result and does not gate conversions on ADEN.
- Register addresses and the values of the `<avr/io.h>` bit macros are fixed as named constants.
- Interrupts, concurrent callers and the mutex mentioned in the revision history are out of scope.
- AdcDriver.Adc.constructor: requires that no conversion is running, as after reset. The source does not ask for this. It is needed to state that the driver ends in a ready, idle state.
- AdcDriver.Adc.ReadOversampled: requires `samples != 0`, because the source divides by zero otherwise (see Findings).

## Findings

| source | as written | input that shows it | evidently intended | confidence | as-written member | corrected member |
|---|---|---|---|---|---|---|
| adc.cpp:118-127 | `temp_samples = samples` is used as the divisor without a check, and `samples` may be 0 | `read_oversampled(ch, 0)`: the loop does not run and `0/0` is evaluated | a request of zero samples is rejected, or at least does not divide by zero | not executed | AdcDriver.ZeroRequestHasZeroDivisor | AdcDriver.Adc.ReadOversampledChecked |
