/**
 * The stereo delay of Tsumiki.Core/Delay.cs: DelayConfig's derived settings, the
 * per-channel ring buffer with its feedback gate, and the optional cross-over of the
 * two feedback paths. The high-pass and low-pass filters of a channel are functions
 * supplied by the caller; their internal state is not part of this model.
 */
module Delay {
  import opened Common
  import opened RingBuffer

  /** The delay unit's parameters as DelayConfig reads them. */
  datatype DelayUnit = DelayUnit(delay: real, feedback: real, cross: bool, mix: real, lowCut: real, highCut: real)

  /** What a FilterConfig was derived from: the cut-off parameter and the sample rate. */
  datatype FilterInput = FilterInput(value: real, sampleRate: real)

  datatype DelaySettings = DelaySettings(lowCut: FilterInput, highCut: FilterInput, delaySampleCount: int,
                                         feedback: real, cross: bool, mix: real)

  /** (int)(delay * sampleRate / 1000): the delay in whole samples, truncated toward zero. */
  function DelaySamples(delayMs: real, sampleRate: real): (n: int)
    ensures delayMs * sampleRate >= 0.0 ==> 0 <= n && n as real <= delayMs * sampleRate / 1000.0 < n as real + 1.0
  {
    TruncToInt(delayMs * sampleRate / 1000.0)
  }

  /** A channel's buffer: max(24000, (int)(sampleRate / 2)) samples. */
  function BufferLength(sampleRate: real): (n: int)
    ensures n >= 24000 && n >= TruncToInt(sampleRate / 2.0)
  {
    MaxInt(24000, TruncToInt(sampleRate / 2.0))
  }

  /** Delays of up to half a second fit in the channel buffer at every positive sample rate. */
  lemma DelayFitsBuffer(delayMs: real, sampleRate: real)
    requires 0.0 <= delayMs <= 500.0 && sampleRate > 0.0
    ensures 0 <= DelaySamples(delayMs, sampleRate) <= BufferLength(sampleRate)
  {
    var x := delayMs * sampleRate / 1000.0;
    assert delayMs * sampleRate <= 500.0 * sampleRate;
    assert x <= sampleRate / 2.0;
    var n, h := DelaySamples(delayMs, sampleRate), TruncToInt(sampleRate / 2.0);
    assert n as real <= x;
    assert n <= h;
  }

  /** The settings DelayConfig holds for a unit at a sample rate. */
  function SettingsFor(unit: DelayUnit, sampleRate: real): DelaySettings
  {
    DelaySettings(FilterInput(unit.lowCut, sampleRate), FilterInput(unit.highCut, sampleRate),
                  DelaySamples(unit.delay, sampleRate), unit.feedback, unit.cross, unit.mix)
  }

  /** DelayConfig: the settings both channels read. */
  class DelayConfig {
    var lowCut: FilterInput
    var highCut: FilterInput
    var delaySampleCount: int
    var feedback: real
    var cross: bool
    var mix: real

    function Settings(): DelaySettings
      reads this
    {
      DelaySettings(lowCut, highCut, delaySampleCount, feedback, cross, mix)
    }

    constructor (unit: DelayUnit, sampleRate: real)
      ensures Settings() == SettingsFor(unit, sampleRate)
    {
      lowCut := FilterInput(unit.lowCut, sampleRate);
      highCut := FilterInput(unit.highCut, sampleRate);
      delaySampleCount := DelaySamples(unit.delay, sampleRate);
      feedback := unit.feedback;
      cross := unit.cross;
      mix := unit.mix;
    }

    /** Recalculate: every setting re-derived from the unit's current values. */
    method Recalculate(unit: DelayUnit, sampleRate: real)
      modifies this
      ensures Settings() == SettingsFor(unit, sampleRate)
    {
      lowCut := FilterInput(unit.lowCut, sampleRate);
      highCut := FilterInput(unit.highCut, sampleRate);
      delaySampleCount := DelaySamples(unit.delay, sampleRate);
      feedback := unit.feedback;
      cross := unit.cross;
      mix := unit.mix;
    }
  }

  /** 1 / 8192: feedback at or below this magnitude is cut to silence. */
  const FeedbackThreshold: real := 1.0 / 8192.0

  /** The feedback a tick keeps: its filtered output times the feedback gain, gated. */
  function GatedFeedback(output: real, gain: real): real
  {
    FeedbackGate(output * gain)
  }

  /** The feedback gate: a small feedback becomes 0, any other passes unchanged. */
  function FeedbackGate(f: real): (g: real)
    ensures Abs(f) <= FeedbackThreshold ==> g == 0.0
    ensures Abs(f) > FeedbackThreshold ==> g == f
    ensures g == 0.0 || Abs(g) > FeedbackThreshold
  {
    if Abs(f) <= FeedbackThreshold then 0.0 else f
  }

  /** A channel's ring: the buffer and the index of the last slot written. */
  datatype Ring = Ring(buffer: seq<real>, index: int)

  /** One channel tick before filtering: advance the index, read its slot, then overwrite it. */
  function RingTick(r: Ring, d: int, input: real): (res: (Ring, real))
    requires 1 <= d && 0 <= r.index && d <= |r.buffer|
    ensures 0 <= res.0.index < d && |res.0.buffer| == |r.buffer|
  {
    var next := (r.index + 1) % d;
    (Ring(r.buffer[next := input], next), r.buffer[next])
  }

  /** The unfiltered values read by successive ticks with a fixed delay. */
  function Taps(r: Ring, d: int, xs: seq<real>): (ys: seq<real>)
    requires 1 <= d && 0 <= r.index && d <= |r.buffer|
    ensures |ys| == |xs|
    decreases |xs|
  {
    if xs == [] then []
    else
      var (r', y) := RingTick(r, d, xs[0]);
      [y] + Taps(r', d, xs[1..])
  }

  /** Successive ticks form the ring run that starts at the slot after the index. */
  lemma {:induction false} TapsAreRingRun(r: Ring, d: int, xs: seq<real>)
    requires 1 <= d && 0 <= r.index && d <= |r.buffer|
    ensures Taps(r, d, xs) == Delayed(r.buffer, r.index + 1, d, xs)
    decreases |xs|
  {
    if xs != [] {
      var (r', y) := RingTick(r, d, xs[0]);
      TapsAreRingRun(r', d, xs[1..]);
      DelayedSplit(r.buffer, r.index + 1, d, xs);
    }
  }

  /**
   * With a fixed delay of d samples, every tick from the d-th on reads the input of d
   * ticks before; the first d ticks read what the buffer held.
   */
  lemma TapsDelayByCount(r: Ring, d: int, xs: seq<real>)
    requires 1 <= d && 0 <= r.index && d <= |r.buffer|
    ensures forall n :: d <= n < |xs| ==> Taps(r, d, xs)[n] == xs[n - d]
    ensures forall n :: 0 <= n < d && n < |xs| ==> Taps(r, d, xs)[n] == r.buffer[(r.index + 1 + n) % d]
  {
    TapsAreRingRun(r, d, xs);
    DelayedByD(r.buffer, r.index + 1, d, xs);
  }

  /** DelayChannel: the ring buffer, its index and the feedback of the last tick. */
  class DelayChannel {
    const config: DelayConfig
    const buffer: array<real>
    var currentIndex: int
    var feedback: real

    ghost predicate Valid()
      reads this
    {
      0 <= currentIndex
    }

    function State(): Ring
      reads this, buffer
    {
      Ring(buffer[..], currentIndex)
    }

    constructor (config: DelayConfig, sampleRate: real)
      ensures Valid() && this.config == config && fresh(buffer)
      ensures buffer.Length == BufferLength(sampleRate) && (forall k :: 0 <= k < buffer.Length ==> buffer[k] == 0.0)
      ensures currentIndex == 0 && feedback == 0.0
    {
      this.config := config;
      buffer := new real[BufferLength(sampleRate)](k => 0.0);
      currentIndex := 0;
      feedback := 0.0;
    }

    /** Advance: moves the index one slot on, reads the slot it lands on and writes the input there. */
    method Advance(input: real) returns (read: real)
      requires Valid() && 1 <= config.delaySampleCount <= buffer.Length
      modifies this, buffer
      ensures Valid() && feedback == old(feedback)
      ensures State() == RingTick(old(State()), config.delaySampleCount, input).0
      ensures read == RingTick(old(State()), config.delaySampleCount, input).1
    {
      currentIndex := (currentIndex + 1) % config.delaySampleCount;
      read := buffer[currentIndex];
      buffer[currentIndex] := input;
    }

    /**
     * TickAndRender: one ring tick, the value read passed through the low-cut and the
     * high-cut filter, and the gated feedback of the filtered output.
     */
    method TickAndRender(input: real, lowCut: real -> real, highCut: real -> real) returns (output: real)
      requires Valid() && 1 <= config.delaySampleCount <= buffer.Length
      modifies this, buffer
      ensures Valid()
      ensures State() == RingTick(old(State()), config.delaySampleCount, input).0
      ensures output == highCut(lowCut(RingTick(old(State()), config.delaySampleCount, input).1))
      ensures feedback == GatedFeedback(output, config.feedback)
    {
      output := Advance(input);
      output := lowCut(output);
      output := highCut(output);
      feedback := output * config.feedback;
      if Abs(feedback) <= FeedbackThreshold {
        feedback := 0.0;
      }
    }
  }

  /** The inputs of the two channels: signal plus own feedback, swapped when Cross is set. */
  function ChannelInputs(left: real, right: real, leftFeedback: real, rightFeedback: real, cross: bool): (r: (real, real))
    ensures !cross ==> r == (left + leftFeedback, right + rightFeedback)
    ensures cross ==> r == (right + rightFeedback, left + leftFeedback)
  {
    var leftInput := left + leftFeedback;
    var rightInput := right + rightFeedback;
    if cross then (rightInput, leftInput) else (leftInput, rightInput)
  }

  /** Delay: two channels over one config. */
  class StereoDelay {
    const config: DelayConfig
    const left: DelayChannel
    const right: DelayChannel

    ghost predicate Valid()
      reads this, left, right
    {
      left != right && left.buffer != right.buffer && left.config == config && right.config == config &&
      left.Valid() && right.Valid()
    }

    constructor (config: DelayConfig, sampleRate: real)
      ensures Valid() && this.config == config && fresh(left) && fresh(right) && fresh(left.buffer) && fresh(right.buffer)
    {
      this.config := config;
      left := new DelayChannel(config, sampleRate);
      right := new DelayChannel(config, sampleRate);
    }

    /**
     * TickAndRender: both channels ticked with ChannelInputs of the feedback from before
     * this tick; each channel has its own pair of filters.
     */
    method TickAndRender(leftIn: real, rightIn: real, leftLowCut: real -> real, leftHighCut: real -> real,
                         rightLowCut: real -> real, rightHighCut: real -> real)
      returns (leftOut: real, rightOut: real)
      requires Valid() && 1 <= config.delaySampleCount <= left.buffer.Length && config.delaySampleCount <= right.buffer.Length
      modifies left, right, left.buffer, right.buffer
      ensures Valid()
      ensures var inputs := ChannelInputs(leftIn, rightIn, old(left.feedback), old(right.feedback), config.cross);
              left.State() == RingTick(old(left.State()), config.delaySampleCount, inputs.0).0 &&
              right.State() == RingTick(old(right.State()), config.delaySampleCount, inputs.1).0 &&
              leftOut == leftHighCut(leftLowCut(RingTick(old(left.State()), config.delaySampleCount, inputs.0).1)) &&
              rightOut == rightHighCut(rightLowCut(RingTick(old(right.State()), config.delaySampleCount, inputs.1).1))
      ensures left.feedback == GatedFeedback(leftOut, config.feedback) && right.feedback == GatedFeedback(rightOut, config.feedback)
    {
      var leftInput := leftIn + left.feedback;
      var rightInput := rightIn + right.feedback;
      if config.cross {
        leftInput, rightInput := rightInput, leftInput;
      }
      leftOut, rightOut := TickChannels(leftInput, rightInput, leftLowCut, leftHighCut, rightLowCut, rightHighCut);
    }

    /** Both channels ticked on the given inputs, the left one first. */
    method TickChannels(leftInput: real, rightInput: real, leftLowCut: real -> real, leftHighCut: real -> real,
                        rightLowCut: real -> real, rightHighCut: real -> real)
      returns (leftOut: real, rightOut: real)
      requires Valid() && 1 <= config.delaySampleCount <= left.buffer.Length && config.delaySampleCount <= right.buffer.Length
      modifies left, right, left.buffer, right.buffer
      ensures Valid()
      ensures left.State() == RingTick(old(left.State()), config.delaySampleCount, leftInput).0 &&
              right.State() == RingTick(old(right.State()), config.delaySampleCount, rightInput).0
      ensures leftOut == leftHighCut(leftLowCut(RingTick(old(left.State()), config.delaySampleCount, leftInput).1)) &&
              rightOut == rightHighCut(rightLowCut(RingTick(old(right.State()), config.delaySampleCount, rightInput).1))
      ensures left.feedback == GatedFeedback(leftOut, config.feedback) && right.feedback == GatedFeedback(rightOut, config.feedback)
    {
      leftOut := left.TickAndRender(leftInput, leftLowCut, leftHighCut);
      rightOut := right.TickAndRender(rightInput, rightLowCut, rightHighCut);
    }
  }
}
