/**
 * The arithmetic of an oversampled reading: the clamp on the requested
 * sample count, the 16-bit accumulator and the floor average.
 */
module Oversampling {

  /** Full scale of the 10-bit converter. */
  const MaxReading: nat := 1023

  /** One conversion result. */
  type Reading = x: int | 0 <= x <= MaxReading

  /** Modulus of `uint16_t` arithmetic. */
  const WordModulus: nat := 0x1_0000

  /** A `uint16_t` value. */
  type Word = x: int | 0 <= x < 0x1_0000

  /** A `uint8_t` value. */
  type Byte = x: int | 0 <= x < 0x100

  /** `uint16_t` addition: a sum past 2^16 - 1 wraps round once. */
  function AddWord(a: Word, b: Word): (w: Word)
    ensures a + b < WordModulus ==> w == a + b
    ensures a + b >= WordModulus ==> w == a + b - WordModulus
  {
    (a + b) % WordModulus
  }

  /** Requests of this many samples or more are clamped ... */
  const SampleCap: nat := 64
  /** ... to this many. */
  const ClampedCount: nat := 60

  /** The number of conversions read_oversampled takes for a request of `samples`. */
  function EffectiveCount(samples: Byte): (n: Byte)
    ensures n <= 63 && n <= samples
    ensures n == 0 <==> samples == 0
    ensures n * MaxReading < WordModulus
  {
    if samples >= SampleCap then ClampedCount else samples
  }

  /** The exact (unbounded) sum of some readings. */
  function Sum(xs: seq<Reading>): nat {
    if xs == [] then 0 else Sum(xs[..|xs| - 1]) + xs[|xs| - 1]
  }

  /**
   * The sum as a `uint16_t` accumulator computes it: each addition wraps,
   * so the accumulator holds the exact sum modulo 2^16.
   */
  function Accumulate(xs: seq<Reading>): (w: Word)
    ensures w == Sum(xs) % WordModulus
  {
    if xs == [] then 0
    else
      var init := xs[..|xs| - 1];
      ModuloOfSum(Sum(init), xs[|xs| - 1]);
      AddWord(Accumulate(init), xs[|xs| - 1])
  }

  /** The floor of the mean, as unsigned integer division computes it. */
  function Average(xs: seq<Reading>): (a: nat)
    requires |xs| > 0
    ensures a * |xs| <= Sum(xs) < (a + 1) * |xs|
  {
    Sum(xs) / |xs|
  }

  /** Readings that all lie in [lo, hi] sum to between lo and hi times their number. */
  lemma {:induction false} SumBetween(xs: seq<Reading>, lo: int, hi: int)
    requires forall i :: 0 <= i < |xs| ==> lo <= xs[i] <= hi
    ensures lo * |xs| <= Sum(xs) <= hi * |xs|
  {
    if xs != [] {
      var init := xs[..|xs| - 1];
      assert forall i :: 0 <= i < |init| ==> init[i] == xs[i];
      SumBetween(init, lo, hi);
      assert lo * |xs| == lo * |init| + lo;
      assert hi * |xs| == hi * |init| + hi;
    }
  }

  lemma ModuloOfSum(a: nat, x: nat)
    ensures (a % WordModulus + x) % WordModulus == (a + x) % WordModulus
  {
    var q := a / WordModulus;
    assert a == q * WordModulus + a % WordModulus;
    assert a + x == q * WordModulus + (a % WordModulus + x);
  }

  /** Up to 64 readings never wrap the 16-bit accumulator: it holds the exact sum. */
  lemma NoWrapWithinCap(xs: seq<Reading>)
    requires |xs| <= SampleCap
    ensures Sum(xs) <= MaxReading * |xs| < WordModulus
    ensures Accumulate(xs) == Sum(xs)
  {
    SumBetween(xs, 0, MaxReading);
  }

  /**
   * Within the cap, dividing the 16-bit accumulator by the count, as
   * read_oversampled does, gives the floor of the exact mean.
   */
  lemma AccumulatedAverage(xs: seq<Reading>)
    requires 0 < |xs| <= SampleCap
    ensures Accumulate(xs) / |xs| == Average(xs)
  {
    NoWrapWithinCap(xs);
  }

  /** Without a cap the accumulator does wrap: 65 full-scale readings leave 959 in it. */
  lemma WrapsBeyondCap()
    ensures var xs := seq(65, _ => MaxReading as Reading);
      Sum(xs) == 66495 && Accumulate(xs) == 959
  {
    var xs := seq(65, _ => MaxReading as Reading);
    SumBetween(xs, MaxReading, MaxReading);
  }

  /** The average lies between the smallest and largest bound on the readings. */
  lemma AverageBetween(xs: seq<Reading>, lo: int, hi: int)
    requires |xs| > 0
    requires forall i :: 0 <= i < |xs| ==> lo <= xs[i] <= hi
    ensures lo <= Average(xs) <= hi
  {
    SumBetween(xs, lo, hi);
    var a, n := Average(xs), |xs|;
    CancelFactor(lo, a + 1, n);
    CancelFactor(a, hi + 1, n);
  }

  /** A product comparison with a common positive factor compares the other factors. */
  lemma CancelFactor(x: int, y: int, n: nat)
    requires 0 < n && x * n < y * n
    ensures x < y
  {
  }

  /** An average never exceeds full scale. */
  lemma AverageInRange(xs: seq<Reading>)
    requires |xs| > 0
    ensures Average(xs) <= MaxReading
  {
    AverageBetween(xs, 0, MaxReading);
  }

  /** Oversampling a stable input returns exactly that input. */
  lemma AverageOfStableInput(xs: seq<Reading>, x: Reading)
    requires |xs| > 0
    requires forall i :: 0 <= i < |xs| ==> xs[i] == x
    ensures Average(xs) == x
  {
    AverageBetween(xs, x, x);
  }

  /** Readings 100, 200 and 300 average to 200. */
  lemma AverageExample()
    ensures Average([100, 200, 300]) == 200
  {
    var xs: seq<Reading> := [100, 200, 300];
    assert xs[..2] == [100, 200] && xs[..2][..1] == [100] && xs[..2][..1][..0] == [];
    assert Sum([100]) == 100;
    assert Sum([100, 200]) == 300;
  }
}
