/**
 * The phase accumulator of an oscillator (src/clock.rs): a modulo counter in
 * [0, 1) advanced by `phase_inc` per rendered sample, the wrap helpers it
 * uses, and the one-shot phase offset used for phase modulation.
 *
 * `f32` values are modelled as reals; Rust's `%` on floats is the truncated
 * remainder (the result takes the sign of the dividend), written out here as
 * `FRem` rather than Dafny's Euclidean `%`.
 */
module SynthClock {

  /** True when `x` is a whole number. */
  predicate IsWhole(x: real)
  {
    x == x.Floor as real
  }

  /** Truncation toward zero, as an `f32` to integer conversion does. */
  function Trunc(x: real): (k: int)
    ensures 0.0 <= x ==> k as real <= x < k as real + 1.0
    ensures x < 0.0 ==> k as real - 1.0 < x <= k as real
  {
    if x >= 0.0 then x.Floor else -((-x).Floor)
  }

  /**
   * Rust's `f32 %`: the truncated remainder `x - trunc(x / m) * m`. For a
   * positive modulus it lies in [0, m) for a non-negative dividend and in
   * (-m, 0] for a negative one.
   */
  function FRem(x: real, m: real): (r: real)
    requires m > 0.0
    ensures x == (Trunc(x / m) as real) * m + r
    ensures 0.0 <= x ==> 0.0 <= r < m
    ensures x < 0.0 ==> -m < r <= 0.0
  {
    var t := Trunc(x / m);
    RemainderBounds(x, m, t);
    x - (t as real) * m
  }

  /** Scaling the truncation bounds of `x / m` back by `m`. */
  lemma RemainderBounds(x: real, m: real, t: int)
    requires m > 0.0
    requires 0.0 <= x / m ==> t as real <= x / m < t as real + 1.0
    requires x / m < 0.0 ==> t as real - 1.0 < x / m <= t as real
    ensures 0.0 <= x ==> 0.0 <= x - (t as real) * m < m
    ensures x < 0.0 ==> -m < x - (t as real) * m <= 0.0
  {
    var lo := t as real;
    if 0.0 <= x {
      assert 0.0 <= x / m;
      ScaledAbove(x, m, lo);
      ScaledBelow(x, m, lo + 1.0);
      assert (lo + 1.0) * m == lo * m + m;
    } else {
      assert x / m < 0.0;
      ScaledAbove(x, m, lo - 1.0);
      ScaledBelow(x, m, lo);
      assert (lo - 1.0) * m == lo * m - m;
    }
  }

  /** A bound `b` on `x / m` from above, scaled back by `m`. */
  lemma ScaledBelow(x: real, m: real, b: real)
    requires m > 0.0
    ensures x / m <= b ==> x <= b * m
    ensures x / m < b ==> x < b * m
  {
    var q := x / m;
    ScaleBounds(q, b, m);
    assert q * m == x;
  }

  /** A bound `b` on `x / m` from below, scaled back by `m`. */
  lemma ScaledAbove(x: real, m: real, b: real)
    requires m > 0.0
    ensures b <= x / m ==> b * m <= x
    ensures b < x / m ==> b * m < x
  {
    var q := x / m;
    ScaleBounds(b, q, m);
    assert q * m == x;
  }

  /** Multiplying by a positive `m` keeps the order of `a` and `b`. */
  lemma ScaleBounds(a: real, b: real, m: real)
    requires m > 0.0
    ensures a <= b ==> a * m <= b * m
    ensures a < b ==> a * m < b * m
  {
  }

  /** Two remainders in a row move `value` by a whole number of periods. */
  lemma WholePeriods(value: real, max: real, t1: int, t2: int, r: real)
    requires max > 0.0
    requires r == max + (value - (t1 as real) * max) - (t2 as real) * max
    ensures (r - value) / max == (1 - t1 - t2) as real
  {
    assert r - value == ((1 - t1 - t2) as real) * max;
  }

  /**
   * `wrap_max`: `(max + value % max) % max`, which lands in [0, max) a whole
   * number of periods away from `value`.
   */
  function WrapMax(value: real, max: real): (r: real)
    requires max > 0.0
    ensures 0.0 <= r < max
    ensures IsWhole((r - value) / max)
  {
    var a := FRem(value, max);
    var r := FRem(max + a, max);
    WholePeriods(value, max, Trunc(value / max), Trunc((max + a) / max), r);
    r
  }

  /**
   * `wrap_min_max`: shifts by `min`, wraps into the span, shifts back; the
   * result lands in [min, max) a whole number of spans away from `value`.
   */
  function WrapMinMax(value: real, min: real, max: real): (r: real)
    requires min < max
    ensures min <= r < max
    ensures IsWhole((r - value) / (max - min))
  {
    var w := WrapMax(value - min, max - min);
    assert (min + w) - value == w - (value - min);
    min + w
  }

  /** Into the unit interval, `wrap_min_max` moves its argument by a whole
      number of periods, and leaves a value already in [0, 1) alone. */
  lemma {:induction false} WrapUnit(value: real)
    ensures IsWhole(WrapMinMax(value, 0.0, 1.0) - value)
    ensures 0.0 <= value < 1.0 ==> WrapMinMax(value, 0.0, 1.0) == value
  {
    var a := FRem(value, 1.0);
    assert a == value - Trunc(value) as real;
    var b := 1.0 + a;
    var r := FRem(b, 1.0);
    assert r == b - Trunc(b) as real;
    assert WrapMinMax(value, 0.0, 1.0) == r;
    var k := 1 - Trunc(value) - Trunc(b);
    assert r - value == k as real;
    if 0.0 <= value < 1.0 {
      assert Trunc(value) == 0;
      assert Trunc(b) == 1;
    }
  }

  /** The value `wrap_clock` leaves in the counter: a fast path for a counter
      less than one period out of range, `wrap_min_max(m, 0, 1)` otherwise. */
  function Wrapped(m: real): (r: real)
    ensures 0.0 <= r < 1.0
    ensures IsWhole(r - m)
    ensures 0.0 <= m < 1.0 ==> r == m
  {
    if m > 1.0 && m < 2.0 then
      assert IsWhole(-1.0);
      m - 1.0
    else if m < 0.0 && m > -1.0 then
      assert IsWhole(1.0);
      m + 1.0
    else
      WrapUnit(m);
      WrapMinMax(m, 0.0, 1.0)
  }

  /** The counter after `add_phase_offset`: the offset is added when the clock
      runs forwards (`phase_inc > 0`), subtracted otherwise, then optionally wrapped. */
  function OffsetPhase(m: real, phaseInc: real, offset: real, wrap: bool): (r: real)
    ensures wrap ==> 0.0 <= r < 1.0
    ensures phaseInc > 0.0 ==> IsWhole(r - (m + offset))
    ensures phaseInc <= 0.0 ==> IsWhole(r - (m - offset))
    ensures !wrap ==> r == (if phaseInc > 0.0 then m + offset else m - offset)
  {
    var moved := if phaseInc > 0.0 then m + offset else m - offset;
    if wrap then Wrapped(moved) else (assert IsWhole(0.0); moved)
  }

  /** The phase accumulator of one oscillator core. */
  class Clock {
    var mcounter: real      // the phase, kept in [0, 1) by the wrapping operations
    var phaseInc: real      // frequency / sample rate
    var phaseOffset: real   // the last phase-modulation offset applied
    var freqOffset: real    // frequency-modulation offset (unused by the core)
    var frequencyHz: real

    constructor ()
      ensures mcounter == 0.0 && phaseInc == 0.0 && phaseOffset == 0.0
      ensures freqOffset == 0.0 && frequencyHz == 0.0
    {
      mcounter, phaseInc, phaseOffset := 0.0, 0.0, 0.0;
      freqOffset, frequencyHz := 0.0, 0.0;
    }

    /** Zeroes the phase and both offsets; keeps the frequency. */
    method Reset()
      modifies this
      ensures mcounter == 0.0 && phaseOffset == 0.0 && freqOffset == 0.0
      ensures phaseInc == old(phaseInc) && frequencyHz == old(frequencyHz)
    {
      mcounter := 0.0;
      phaseOffset := 0.0;
      freqOffset := 0.0;
    }

    /** Moves the phase by `renderInterval` periods of the increment, without wrapping. */
    method AdvanceClock(renderInterval: real)
      modifies this
      ensures mcounter == old(mcounter) + renderInterval * phaseInc
      ensures phaseInc == old(phaseInc) && phaseOffset == old(phaseOffset)
      ensures freqOffset == old(freqOffset) && frequencyHz == old(frequencyHz)
    {
      mcounter := mcounter + renderInterval * phaseInc;
    }

    /** Brings the phase back into [0, 1) by a whole number of periods. */
    method WrapClock()
      modifies this
      ensures mcounter == Wrapped(old(mcounter))
      ensures 0.0 <= mcounter < 1.0
      ensures phaseInc == old(phaseInc) && phaseOffset == old(phaseOffset)
      ensures freqOffset == old(freqOffset) && frequencyHz == old(frequencyHz)
    {
      if mcounter > 1.0 && mcounter < 2.0 {
        mcounter := mcounter - 1.0;
      } else if mcounter < 0.0 && mcounter > -1.0 {
        mcounter := mcounter + 1.0;
      } else {
        mcounter := WrapMinMax(mcounter, 0.0, 1.0);
      }
    }

    /** Advance followed by wrap. */
    method AdvanceWrapClock(renderInterval: real)
      modifies this
      ensures mcounter == Wrapped(old(mcounter) + renderInterval * old(phaseInc))
      ensures 0.0 <= mcounter < 1.0
      ensures phaseInc == old(phaseInc) && phaseOffset == old(phaseOffset)
      ensures freqOffset == old(freqOffset) && frequencyHz == old(frequencyHz)
    {
      ghost var advanced := old(mcounter) + renderInterval * old(phaseInc);
      AdvanceClock(renderInterval);
      assert mcounter == advanced;
      WrapClock();
    }

    /** Stores the frequency and derives the per-sample increment from it. */
    method SetFreq(frequency: real, sampleRate: real)
      requires sampleRate != 0.0
      modifies this
      ensures frequencyHz == frequency
      ensures phaseInc * sampleRate == frequency
      ensures mcounter == old(mcounter) && phaseOffset == old(phaseOffset)
      ensures freqOffset == old(freqOffset)
    {
      frequencyHz := frequency;
      phaseInc := frequency / sampleRate;
    }

    /** Records and applies a one-shot phase offset (see `OffsetPhase`). */
    method AddPhaseOffset(offset: real, wrap: bool)
      modifies this
      ensures phaseOffset == offset
      ensures mcounter == OffsetPhase(old(mcounter), phaseInc, offset, wrap)
      ensures phaseInc == old(phaseInc) && freqOffset == old(freqOffset)
      ensures frequencyHz == old(frequencyHz)
    {
      phaseOffset := offset;
      if phaseInc > 0.0 {
        mcounter := mcounter + offset;
      } else {
        mcounter := mcounter - offset;
      }
      if wrap {
        WrapClock();
      }
    }
  }

  /** Wrapping is idempotent: a wrapped phase is left as it is. */
  lemma WrappedIdempotent(m: real)
    ensures Wrapped(Wrapped(m)) == Wrapped(m)
  {
  }

  /** The wrap examples of the clock's unit tests. */
  lemma WrapExamples()
    ensures WrapMinMax(0.5, 0.0, 1.0) == 0.5
    ensures WrapMinMax(1.5, 0.0, 1.0) == 0.5
    ensures WrapMinMax(-0.5, 0.0, 1.0) == 0.5
    ensures WrapMinMax(-1.5, 0.0, 1.0) == 0.5
    ensures WrapMinMax(2.5, 0.0, 1.0) == 0.5
    ensures Wrapped(1.5) == 0.5 && Wrapped(-0.5) == 0.5 && Wrapped(0.8) == 0.8
  {
    assert Trunc(0.5) == 0 && Trunc(1.5) == 1 && Trunc(-0.5) == 0;
    assert Trunc(-1.5) == -1 && Trunc(2.5) == 2;
  }

  /** Replays the advance, wrap and phase-offset unit tests on one clock. */
  method ClockScenario() returns (advanced: real, wrapped: real, offset: real)
    ensures advanced == 0.6
    ensures wrapped == 0.8
    ensures offset == -0.1
  {
    var c := new Clock();
    c.phaseInc := 1.0;
    c.AdvanceWrapClock(0.1);
    assert c.mcounter == 0.1;
    c.phaseInc := 2.0;
    c.AdvanceWrapClock(0.3);
    assert c.mcounter == 0.7;
    c.phaseInc := -1.0;
    c.AdvanceWrapClock(0.1);
    advanced := c.mcounter;

    c.mcounter := 0.8;
    c.WrapClock();
    wrapped := c.mcounter;

    var d := new Clock();
    d.phaseInc := 1.0;
    d.AddPhaseOffset(0.2, true);
    assert d.mcounter == 0.2;
    d.phaseInc := -1.0;
    d.AddPhaseOffset(0.3, false);
    offset := d.mcounter;
  }
}
