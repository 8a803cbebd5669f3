/**
 * Layout of the AVR A/D converter's control registers ADCSRA (control and
 * status) and ADMUX (multiplexer selection), and the register values the
 * driver writes into them.  Bit positions follow the usual ATmega layout of
 * <avr/io.h>; the literal masks are the ones written in adc.cpp.
 */
module AdcRegisters {
  import opened Bits

  // ADCSRA bits
  const ADEN: BitIndex := 7   // converter enable
  const ADSC: BitIndex := 6   // start conversion; reads 1 while a conversion runs
  const ADPS2: BitIndex := 2  // clock prescaler select, most significant bit
  const ADPS1: BitIndex := 1
  const ADPS0: BitIndex := 0

  // ADMUX bits
  const REFS1: BitIndex := 7  // voltage reference select, most significant bit
  const REFS0: BitIndex := 6

  /** The channel mask `0b00000111` applied to the requested channel. */
  const ChannelMask: bv8 := 0x07
  /** The mask `0b11111000` that clears the channel field of ADMUX. */
  const MuxKeepMask: bv8 := 0xF8
  /** The mask `0b01000000` the busy-wait tests ADCSRA against. */
  const BusyMask: bv8 := 0x40

  /**
   * A channel number as the three-bit multiplexer field holds it; ChannelOf
   * only ever yields 0..7.
   */
  type Channel = bv8

  /** The literal busy mask is exactly the start-conversion bit. */
  lemma BusyMaskIsStartBit()
    ensures BusyMask == Mask(ADSC)
    ensures forall r: bv8 :: (r & BusyMask != 0) == Bit(r, ADSC)
  {
  }

  /** Clock division factor selected by ADPS2:ADPS1:ADPS0 (datasheet table). */
  function PrescalerDivision(adcsra: bv8): nat {
    match (adcsra & 0x07)
    case 0 => 2
    case 1 => 2
    case 2 => 4
    case 3 => 8
    case 4 => 16
    case 5 => 32
    case 6 => 64
    case _ => 128
  }

  /** Voltage reference selected by REFS1:REFS0. */
  datatype Reference =
    | ExternalAref          // 00: external voltage at the AREF pin
    | Avcc                  // 01: AVCC, with an external capacitor at AREF
    | Internal(code: bv8)   // 1x: an internal reference; which one is device-specific

  function ReferenceOf(admux: bv8): Reference {
    var refs := admux >> 6;
    if refs == 0 then ExternalAref else if refs == 1 then Avcc else Internal(refs)
  }

  /**
   * The channel named by the low three bits of v: for ADMUX, the channel its
   * multiplexer field selects; for a requested channel, what is left of it
   * after `ch &= 0b00000111`.
   */
  function ChannelOf(v: bv8): (c: Channel)
    ensures c < 8
  {
    v & ChannelMask
  }

  /** Masking to three bits reduces a channel number modulo 8. */
  lemma ChannelOfIsModulo8(v: bv8)
    ensures ChannelOf(v) as int == v as int % 8
    ensures v < 8 ==> ChannelOf(v) == v
  {
    var q := v >> 3;
    assert v == q * 8 + ChannelOf(v);
    assert v as int == q as int * 8 + ChannelOf(v) as int;
  }

  /**
   * ADCSRA after the constructor's four read-modify-write updates:
   * enable, then ADPS0 set, ADPS1 cleared, ADPS2 set.
   */
  function ConfigureControl(adcsra: bv8): (r: bv8)
    ensures Bit(r, ADEN)
    ensures Bit(r, ADPS2) && !Bit(r, ADPS1) && Bit(r, ADPS0)
    ensures PrescalerDivision(r) == 32
    ensures forall j: BitIndex :: j !in {ADEN, ADPS2, ADPS1, ADPS0} ==> Bit(r, j) == Bit(adcsra, j)
  {
    SetBit(ClearBit(SetBit(SetBit(adcsra, ADEN), ADPS0), ADPS1), ADPS2)
  }

  /** ADMUX after the constructor's two updates: REFS0 set, then REFS1 cleared. */
  function ConfigureMux(admux: bv8): (r: bv8)
    ensures Bit(r, REFS0) && !Bit(r, REFS1)
    ensures ReferenceOf(r) == Avcc
    ensures forall j: BitIndex :: j !in {REFS1, REFS0} ==> Bit(r, j) == Bit(admux, j)
    ensures ChannelOf(r) == ChannelOf(admux)
  {
    ClearBit(SetBit(admux, REFS0), REFS1)
  }

  /**
   * ADMUX after read_once splices channel ch into it: the field gets the
   * low three bits of ch (ch modulo 8, by ChannelOfIsModulo8) and bits 7..3
   * are kept.
   */
  function SelectChannel(admux: bv8, ch: bv8): (r: bv8)
    ensures r & ChannelMask == ch & ChannelMask
    ensures r & MuxKeepMask == admux & MuxKeepMask
  {
    var c := ch & ChannelMask;
    (admux & MuxKeepMask) | c
  }

  /**
   * What read_once's selection means: the multiplexer field names channel
   * ch modulo 8, and bits 7..3, the reference selection among them, keep
   * the values they had.
   */
  lemma SelectChannelFields(admux: bv8, ch: bv8)
    ensures ChannelOf(SelectChannel(admux, ch)) as int == ch as int % 8
    ensures forall j: BitIndex :: j >= 3 ==> Bit(SelectChannel(admux, ch), j) == Bit(admux, j)
    ensures ReferenceOf(SelectChannel(admux, ch)) == ReferenceOf(admux)
  {
    ChannelOfIsModulo8(ch);
  }

  /** The converter is enabled, its clock divided by 32 and its reference AVCC. */
  predicate Ready(adcsra: bv8, admux: bv8) {
    && Bit(adcsra, ADEN) && Bit(adcsra, ADPS2) && !Bit(adcsra, ADPS1) && Bit(adcsra, ADPS0)
    && Bit(admux, REFS0) && !Bit(admux, REFS1)
  }

  /**
   * What a ready configuration means for the converter: enabled, clock
   * divided by 32, reference AVCC; and every such configuration is ready.
   */
  lemma ReadyMeans(adcsra: bv8, admux: bv8)
    ensures Ready(adcsra, admux) <==>
      Bit(adcsra, ADEN) && PrescalerDivision(adcsra) == 32 && ReferenceOf(admux) == Avcc
  {
  }

  /** Whatever the registers held before, the constructor's values leave them ready. */
  lemma ConfigurationMakesReady(adcsra: bv8, admux: bv8)
    ensures Ready(ConfigureControl(adcsra), ConfigureMux(admux))
  {
  }

  /** Constructing the driver a second time writes the same register values again. */
  lemma ConfigurationIdempotent(adcsra: bv8, admux: bv8)
    ensures ConfigureControl(ConfigureControl(adcsra)) == ConfigureControl(adcsra)
    ensures ConfigureMux(ConfigureMux(admux)) == ConfigureMux(admux)
  {
  }

  /** Selecting a channel never disturbs the reference selection or the control register. */
  lemma SelectChannelKeepsReady(adcsra: bv8, admux: bv8, ch: bv8)
    requires Ready(adcsra, admux)
    ensures Ready(adcsra, SelectChannel(admux, ch))
  {
  }

  /** Setting ADSC on an idle control register and then clearing it restores the register. */
  lemma StartThenComplete(adcsra: bv8)
    requires !Bit(adcsra, ADSC)
    ensures Bit(adcsra | Mask(ADSC), ADSC) && (adcsra | Mask(ADSC)) & BusyMask != 0
    ensures (adcsra | Mask(ADSC)) & !Mask(ADSC) == adcsra
    ensures PrescalerDivision(adcsra | Mask(ADSC)) == PrescalerDivision(adcsra)
    ensures Bit(adcsra | Mask(ADSC), ADEN) == Bit(adcsra, ADEN)
  {
  }

  /** What read_once's two ADMUX writes leave behind, given a ready configuration. */
  lemma SpliceKeepsReady(adcsra: bv8, admux: bv8, ch: bv8, spliced: bv8)
    requires Ready(adcsra, admux)
    requires spliced == (admux & MuxKeepMask) | (ch & ChannelMask)
    ensures spliced == SelectChannel(admux, ch) && ChannelOf(spliced) == ChannelOf(ch)
    ensures Ready(adcsra, spliced)
  {
  }

  /** Only the low three bits of the requested channel matter; the rest are dropped, not rejected. */
  lemma ChannelReducedModulo8(admux: bv8, ch: bv8)
    ensures SelectChannel(admux, ch) == SelectChannel(admux, ChannelOf(ch))
    ensures ch >= 8 ==> SelectChannel(admux, ch) == SelectChannel(admux, ch - 8)
  {
  }

  /** Selecting a channel overrides any earlier selection. */
  lemma LastSelectionWins(admux: bv8, a: bv8, b: bv8)
    ensures SelectChannel(SelectChannel(admux, a), b) == SelectChannel(admux, b)
  {
  }
}
