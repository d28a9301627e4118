/**
 * One current-transformer channel (src/main.cpp:178-265; the second channel,
 * src/main.cpp:267-355, is the same code on another pin and buffer). Every
 * accepted tick stores one converted reading in a fixed buffer; when the
 * buffer is full the batch is reduced to the RMS of its AC part, calibrated
 * to a primary current, and the buffer is reused from index 0.
 */
module CurrentSensor {
  import opened Clock
  import opened Analog

  const CT1_PIN: int := 33
  const CT2_PIN: int := 34
  const SAMPLE_INTERVAL_US: int := 50
  const NUM_SAMPLES: nat := 20000

  /** Below this RMS voltage the channel reports no current. */
  const NOISE_FLOOR: real := 0.015
  /** Above this RMS voltage the high-range quadratic applies; at it, the low one. */
  const RANGE_SWITCH: real := 0.5
  /** Secondary to primary current factor. */
  const SCALE: real := 120.0

  // ---------------------------------------------------------------------
  // Batch reduction

  /** The sum of a batch, accumulated from the first reading to the last. */
  function Sum(s: seq<real>): real {
    if s == [] then 0.0 else Sum(s[..|s| - 1]) + s[|s| - 1]
  }

  function Mean(s: seq<real>): real
    requires |s| > 0
  {
    Sum(s) / |s| as real
  }

  /** The sum of squared deviations of a batch from `m`. */
  function SumSquares(s: seq<real>, m: real): real {
    if s == [] then 0.0 else SumSquares(s[..|s| - 1], m) + (s[|s| - 1] - m) * (s[|s| - 1] - m)
  }

  lemma {:induction false} SumSquaresNonNegative(s: seq<real>, m: real)
    ensures SumSquares(s, m) >= 0.0
  {
    if s != [] {
      SumSquaresNonNegative(s[..|s| - 1], m);
      var d := s[|s| - 1] - m;
      assert d * d >= 0.0;
    }
  }

  /** The mean squared deviation of a batch from its mean: Vrms squared. */
  function MeanSquare(s: seq<real>): (ms: real)
    requires |s| > 0
    ensures ms >= 0.0
  {
    SumSquaresNonNegative(s, Mean(s));
    SumSquares(s, Mean(s)) / |s| as real
  }

  /** `sqrt`, from the C library: the non-negative square root on non-negative inputs. */
  ghost predicate IsSquareRoot(sqrt: real -> real) {
    forall x: real :: 0.0 <= x ==> 0.0 <= sqrt(x) && sqrt(x) * sqrt(x) == x
  }

  lemma {:induction false} SumOfConstant(s: seq<real>, v: real)
    requires forall i :: 0 <= i < |s| ==> s[i] == v
    ensures Sum(s) == |s| as real * v
  {
    if s != [] {
      SumOfConstant(s[..|s| - 1], v);
    }
  }

  lemma {:induction false} SumSquaresOfConstant(s: seq<real>, v: real)
    requires forall i :: 0 <= i < |s| ==> s[i] == v
    ensures SumSquares(s, v) == 0.0
  {
    if s != [] {
      SumSquaresOfConstant(s[..|s| - 1], v);
    }
  }

  /** A batch of identical readings has no AC component. */
  lemma ConstantBatchHasNoRms(s: seq<real>, v: real)
    requires |s| > 0
    requires forall i :: 0 <= i < |s| ==> s[i] == v
    ensures Mean(s) == v && MeanSquare(s) == 0.0
  {
    SumOfConstant(s, v);
    SumSquaresOfConstant(s, v);
  }

  // ---------------------------------------------------------------------
  // Calibration

  /** The fitted curve for RMS voltages up to the range switch (src/main.cpp:242). */
  function LowRange(v: real): (ip: real)
    ensures NOISE_FLOOR < v <= RANGE_SWITCH ==> ip > 0.0
  {
    // The curve is its value at the noise floor plus a product of two
    // factors, both positive between the noise floor and the range switch.
    var a := v - NOISE_FLOOR;
    var b := 5.0522 - 1.4588 * (v + NOISE_FLOOR);
    assert -1.4588 * v * v + 5.0522 * v - 0.014 == a * b + 0.06145477;
    ProductPositive(a, b);
    -1.4588 * v * v + 5.0522 * v - 0.014
  }

  /** The fitted curve above the range switch (src/main.cpp:239). */
  function HighRange(v: real): (ip: real)
    ensures v >= 0.0 ==> ip >= 0.1549
  {
    2.8469 * v * v + 2.8225 * v + 0.1549
  }

  /**
   * The primary current for an RMS voltage: zero up to the noise floor,
   * otherwise the range's quadratic scaled by 120.
   */
  function Calibrate(vrms: real): (ip: real)
    ensures ip >= 0.0
    ensures ip == 0.0 <==> vrms <= NOISE_FLOOR
  {
    if vrms > NOISE_FLOOR then
      (if vrms > RANGE_SWITCH then HighRange(vrms) else LowRange(vrms)) * SCALE
    else
      0.0
  }

  lemma LowRangeMonotone(a: real, b: real)
    requires a <= b <= RANGE_SWITCH
    ensures LowRange(a) <= LowRange(b)
  {
    assert LowRange(b) - LowRange(a) == (b - a) * (5.0522 - 1.4588 * (a + b));
  }

  lemma HighRangeMonotone(a: real, b: real)
    requires 0.0 <= a <= b
    ensures HighRange(a) <= HighRange(b)
  {
    assert HighRange(b) - HighRange(a) == (b - a) * (2.8469 * (a + b) + 2.8225);
  }

  /** A larger RMS voltage never gives a smaller current, across both range boundaries. */
  lemma CalibrateMonotone(a: real, b: real)
    requires a <= b
    ensures Calibrate(a) <= Calibrate(b)
  {
    if a > NOISE_FLOOR {
      if b <= RANGE_SWITCH {
        LowRangeMonotone(a, b);
      } else if a > RANGE_SWITCH {
        HighRangeMonotone(a, b);
      } else {
        LowRangeMonotone(a, RANGE_SWITCH);
        HighRangeMonotone(RANGE_SWITCH, b);
      }
    }
  }

  /**
   * The range switch belongs to the low range, and every voltage above it
   * gives more current than the switch point itself.
   */
  lemma RangeSwitchIsLow(v: real)
    requires v > RANGE_SWITCH
    ensures Calibrate(RANGE_SWITCH) == LowRange(RANGE_SWITCH) * SCALE
    ensures Calibrate(RANGE_SWITCH) < Calibrate(v) == HighRange(v) * SCALE
  {
    HighRangeMonotone(RANGE_SWITCH, v);
  }

  /** The current reported for a full batch. */
  function BatchCurrent(s: seq<real>, sqrt: real -> real): (ip: real)
    requires |s| > 0
    ensures ip >= 0.0
    ensures IsSquareRoot(sqrt) ==> (ip == 0.0 <==> MeanSquare(s) <= NOISE_FLOOR * NOISE_FLOOR)
  {
    var vrms := sqrt(MeanSquare(s));
    NoiseFloorSquared(vrms);
    Calibrate(vrms)
  }

  /** Comparing a non-negative RMS with the noise floor is comparing its square with the floor's. */
  lemma NoiseFloorSquared(vrms: real)
    ensures vrms >= 0.0 ==> (vrms <= NOISE_FLOOR <==> vrms * vrms <= NOISE_FLOOR * NOISE_FLOOR)
  {
    var a := NOISE_FLOOR - vrms;
    var b := NOISE_FLOOR + vrms;
    assert NOISE_FLOOR * NOISE_FLOOR - vrms * vrms == a * b;
    if 0.0 <= vrms < NOISE_FLOOR {
      ProductPositive(a, b);
    } else if vrms > NOISE_FLOOR {
      ProductPositive(-a, b);
    }
  }

  lemma ProductPositive(a: real, b: real)
    ensures a > 0.0 && b > 0.0 ==> a * b > 0.0
  {
  }

  /** A batch of identical readings reports zero current. */
  lemma ConstantBatchReportsZero(s: seq<real>, v: real, sqrt: real -> real)
    requires |s| > 0 && IsSquareRoot(sqrt)
    requires forall i :: 0 <= i < |s| ==> s[i] == v
    ensures BatchCurrent(s, sqrt) == 0.0
  {
    ConstantBatchHasNoRms(s, v);
    assert sqrt(0.0) * sqrt(0.0) == 0.0;
  }

  /** Four readings of 1.0 V: mean 1.0 V, RMS 0, current 0. */
  lemma FourEqualReadings(sqrt: real -> real)
    requires IsSquareRoot(sqrt)
    ensures Mean([1.0, 1.0, 1.0, 1.0]) == 1.0 && MeanSquare([1.0, 1.0, 1.0, 1.0]) == 0.0
    ensures BatchCurrent([1.0, 1.0, 1.0, 1.0], sqrt) == 0.0
  {
    ConstantBatchHasNoRms([1.0, 1.0, 1.0, 1.0], 1.0);
    ConstantBatchReportsZero([1.0, 1.0, 1.0, 1.0], 1.0, sqrt);
  }

  // ---------------------------------------------------------------------
  // The sampling tick, as a function of the acquirer's state

  /** An acquirer's state: its buffer, write index, last sample time and reported current. */
  datatype Sampler = Sampler(buffer: seq<real>, index: nat, lastSampleTime: U32, current: real)

  predicate SamplerValid(s: Sampler) {
    |s.buffer| > 0 && s.index < |s.buffer|
  }

  /** The sampling interval has passed since the last accepted sample. */
  predicate Due(now: U32, last: U32) {
    Elapsed(now, last) >= SAMPLE_INTERVAL_US
  }

  /** One pass of the acquisition loop at time `now` with ADC reading `adc`. */
  function SampleStep(s: Sampler, now: U32, adc: U16, sqrt: real -> real): (r: Sampler)
    requires SamplerValid(s)
    ensures SamplerValid(r) && |r.buffer| == |s.buffer|
  {
    if !Due(now, s.lastSampleTime) then
      s
    else
      var buffer := s.buffer[s.index := ToVoltage(adc)];
      if s.index + 1 >= |buffer| then
        Sampler(buffer, 0, now, BatchCurrent(buffer, sqrt))
      else
        Sampler(buffer, s.index + 1, now, s.current)
  }

  /** A tick before the interval has passed changes nothing. */
  lemma GatedTickChangesNothing(s: Sampler, now: U32, adc: U16, sqrt: real -> real)
    requires SamplerValid(s) && !Due(now, s.lastSampleTime)
    ensures SampleStep(s, now, adc, sqrt) == s
  {
  }

  /**
   * An accepted tick records its time, writes the converted reading at the
   * write index and nowhere else, and advances the index cyclically; the
   * reported current changes only on the tick that fills the buffer.
   */
  lemma AcceptedTick(s: Sampler, now: U32, adc: U16, sqrt: real -> real)
    requires SamplerValid(s) && Due(now, s.lastSampleTime)
    ensures var r := SampleStep(s, now, adc, sqrt);
      && r.lastSampleTime == now
      && r.buffer[s.index] == ToVoltage(adc)
      && (forall j :: 0 <= j < |s.buffer| && j != s.index ==> r.buffer[j] == s.buffer[j])
      && r.index == (s.index + 1) % |s.buffer|
      && (r.index != 0 ==> r.current == s.current)
      && (r.index == 0 ==> r.current == BatchCurrent(r.buffer, sqrt))
  {
  }

  /** The voltages of a sequence of ADC readings. */
  function Voltages(adcs: seq<U16>): (vs: seq<real>)
    ensures |vs| == |adcs|
    ensures forall i :: 0 <= i < |adcs| ==> vs[i] == ToVoltage(adcs[i])
  {
    seq(|adcs|, i requires 0 <= i < |adcs| => ToVoltage(adcs[i]))
  }

  /** Runs the acquisition loop over the given times and readings. */
  function RunSampler(s: Sampler, nows: seq<U32>, adcs: seq<U16>, sqrt: real -> real): (r: Sampler)
    requires SamplerValid(s) && |nows| == |adcs|
    ensures SamplerValid(r) && |r.buffer| == |s.buffer|
    decreases |nows|
  {
    if nows == [] then s
    else RunSampler(SampleStep(s, nows[0], adcs[0], sqrt), nows[1..], adcs[1..], sqrt)
  }

  /** Every tick in `nows` comes at least one sampling interval after the one before it. */
  predicate AllDue(last: U32, nows: seq<U32>) {
    && (|nows| > 0 ==> Due(nows[0], last))
    && (forall i :: 0 < i < |nows| ==> Due(nows[i], nows[i - 1]))
  }

  /**
   * Accepted ticks fill consecutive slots from the write index on and leave
   * every other slot alone; the tick that reaches capacity reports the
   * current of the completed buffer.
   */
  lemma {:induction false} AcceptedTicksFill(s: Sampler, nows: seq<U32>, adcs: seq<U16>, sqrt: real -> real)
    requires SamplerValid(s) && |nows| == |adcs| && |nows| > 0
    requires s.index + |nows| <= |s.buffer|
    requires AllDue(s.lastSampleTime, nows)
    ensures var r := RunSampler(s, nows, adcs, sqrt);
      && r.lastSampleTime == nows[|nows| - 1]
      && (forall j :: 0 <= j < |nows| ==> r.buffer[s.index + j] == ToVoltage(adcs[j]))
      && (forall j :: 0 <= j < |s.buffer| && !(s.index <= j < s.index + |nows|) ==> r.buffer[j] == s.buffer[j])
      && (s.index + |nows| < |s.buffer| ==> r.index == s.index + |nows| && r.current == s.current)
      && (s.index + |nows| == |s.buffer| ==> r.index == 0 && r.current == BatchCurrent(r.buffer, sqrt))
    decreases |nows|
  {
    var s1 := SampleStep(s, nows[0], adcs[0], sqrt);
    AcceptedTick(s, nows[0], adcs[0], sqrt);
    if |nows| == 1 {
      assert nows[1..] == [] && adcs[1..] == [];
      assert RunSampler(s, nows, adcs, sqrt) == RunSampler(s1, [], [], sqrt) == s1;
    } else {
      assert s1.index == s.index + 1;
      assert AllDue(s1.lastSampleTime, nows[1..]) by {
        assert Due(nows[1], nows[0]);
        forall i | 0 < i < |nows[1..]|
          ensures Due(nows[1..][i], nows[1..][i - 1])
        {
          assert Due(nows[i + 1], nows[i]);
        }
      }
      AcceptedTicksFill(s1, nows[1..], adcs[1..], sqrt);
      var r := RunSampler(s1, nows[1..], adcs[1..], sqrt);
      assert RunSampler(s, nows, adcs, sqrt) == r;
      forall j | 0 <= j < |nows|
        ensures r.buffer[s.index + j] == ToVoltage(adcs[j])
      {
        if j > 0 {
          assert r.buffer[s1.index + (j - 1)] == ToVoltage(adcs[1..][j - 1]);
        }
      }
    }
  }

  /**
   * From an empty batch, a buffer's worth of accepted ticks reports exactly
   * the current of those readings and leaves the buffer holding them.
   */
  lemma FullBatch(s: Sampler, nows: seq<U32>, adcs: seq<U16>, sqrt: real -> real)
    requires SamplerValid(s) && s.index == 0
    requires |nows| == |adcs| == |s.buffer|
    requires AllDue(s.lastSampleTime, nows)
    ensures var r := RunSampler(s, nows, adcs, sqrt);
      r.index == 0 && r.buffer == Voltages(adcs) && r.current == BatchCurrent(Voltages(adcs), sqrt)
  {
    AcceptedTicksFill(s, nows, adcs, sqrt);
    var r := RunSampler(s, nows, adcs, sqrt);
    assert forall j :: 0 <= j < |adcs| ==> r.buffer[0 + j] == ToVoltage(adcs[j]);
    assert r.buffer == Voltages(adcs);
  }

  // ---------------------------------------------------------------------
  // The acquirer task, with its buffer updated in place

  class Acquirer {
    /** The analog pin this channel reads. */
    const pin: int
    /** The sample buffer, allocated once and reused for every batch. */
    const samples: array<real>
    var index: nat
    var lastSampleTime: U32
    /** The channel's shared telemetry value (Ip1 or Ip2). */
    var current: real

    ghost predicate Valid()
      reads this
    {
      samples.Length > 0 && index < samples.Length
    }

    ghost function View(): Sampler
      reads this, samples
    {
      Sampler(samples[..], index, lastSampleTime, current)
    }

    /** The task's start-up: the buffer of `capacity` readings exists (allocation succeeded). */
    constructor (pin: int, capacity: nat)
      requires capacity > 0
      ensures Valid() && fresh(samples)
      ensures this.pin == pin && samples.Length == capacity
      ensures index == 0 && lastSampleTime == 0 && current == 0.0
    {
      this.pin := pin;
      samples := new real[capacity];
      index := 0;
      lastSampleTime := 0;
      current := 0.0;
    }

    /** The mean of the buffer (src/main.cpp:220-224). */
    method BatchMean() returns (avg: real)
      requires samples.Length > 0
      ensures avg == Mean(samples[..])
    {
      var sum := 0.0;
      var i := 0;
      while i < samples.Length
        invariant 0 <= i <= samples.Length
        invariant sum == Sum(samples[..i])
      {
        assert samples[..i + 1][..i] == samples[..i];
        sum := sum + samples[i];
        i := i + 1;
      }
      assert samples[..samples.Length] == samples[..];
      avg := sum / samples.Length as real;
    }

    /** The squared deviations of the buffer from `avg`, summed (src/main.cpp:227-231). */
    method BatchSumSquares(avg: real) returns (sumsq: real)
      ensures sumsq == SumSquares(samples[..], avg)
    {
      sumsq := 0.0;
      var i := 0;
      while i < samples.Length
        invariant 0 <= i <= samples.Length
        invariant sumsq == SumSquares(samples[..i], avg)
      {
        assert samples[..i + 1][..i] == samples[..i];
        var centered := samples[i] - avg;
        sumsq := sumsq + centered * centered;
        i := i + 1;
      }
      assert samples[..samples.Length] == samples[..];
    }

    /** One pass of the task's loop, at time `now`, with `adc` the reading of `pin`. */
    method Tick(now: U32, adc: U16, sqrt: real -> real)
      requires Valid()
      modifies this, samples
      ensures Valid() && View() == SampleStep(old(View()), now, adc, sqrt)
    {
      if Elapsed(now, lastSampleTime) >= SAMPLE_INTERVAL_US {
        lastSampleTime := now;
        var voltage := ToVoltage(adc);
        samples[index] := voltage;
        index := index + 1;
        if index >= samples.Length {
          var avg := BatchMean();
          var sumsq := BatchSumSquares(avg);
          SumSquaresNonNegative(samples[..], avg);
          current := Calibrate(sqrt(sumsq / samples.Length as real));
          index := 0;
        }
      }
    }
  }

  /**
   * The start-up of both channel tasks (src/main.cpp:182-191, 271-280): each
   * channel reads its own pin into its own buffer of NUM_SAMPLES readings.
   */
  method StartChannels() returns (ct1: Acquirer, ct2: Acquirer)
    ensures fresh(ct1) && fresh(ct2) && fresh(ct1.samples) && fresh(ct2.samples)
    ensures ct1.Valid() && ct2.Valid() && ct1.samples != ct2.samples
    ensures ct1.pin == CT1_PIN && ct1.samples.Length == NUM_SAMPLES
    ensures ct2.pin == CT2_PIN && ct2.samples.Length == NUM_SAMPLES
  {
    ct1 := new Acquirer(CT1_PIN, NUM_SAMPLES);
    ct2 := new Acquirer(CT2_PIN, NUM_SAMPLES);
  }
}
