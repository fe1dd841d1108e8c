/**
 * The sample-delay plug-in of Tsumiki/Sample.cs: buffer allocation on activation and
 * the per-block loop that reads each channel's buffer at the running position before
 * overwriting it with the input. Host set-up, bypass and channel spans are not part
 * of this model; a block's input channels are sequences and its outputs are returned.
 */
module SampleDelay {
  import opened Common
  import opened RingBuffer

  /** (int)(sampleRate * sizeof(float) + 0.5): four seconds of samples, rounded. */
  function ActiveLength(sampleRate: real): (n: int)
    ensures sampleRate >= 0.0 ==> n >= 0 && n as real <= sampleRate * 4.0 + 0.5 < n as real + 1.0
  {
    TruncToInt(sampleRate * 4.0 + 0.5)
  }

  /** Math.Max(1, (int)(sampleRate * normalized)): the delay in samples, at least one. */
  function DelayInSamples(sampleRate: real, normalized: real): (d: int)
    ensures d >= 1
    ensures sampleRate * normalized >= 1.0 ==> d as real <= sampleRate * normalized < d as real + 1.0
  {
    MaxInt(1, TruncToInt(sampleRate * normalized))
  }

  /** Every delay the parameter range [0, 1] can choose fits the buffers of an activation. */
  lemma DelayFitsActiveBuffer(sampleRate: real, normalized: real)
    requires sampleRate >= 1.0 && 0.0 <= normalized <= 1.0
    ensures DelayInSamples(sampleRate, normalized) <= ActiveLength(sampleRate)
  {
    assert sampleRate * normalized <= sampleRate * 1.0;
    var t := TruncToInt(sampleRate * normalized);
    assert t as real <= sampleRate;
  }

  /** The loop's position step: one further, back to 0 on reaching the delay. */
  function Advance(p: int, d: int): (q: int)
    requires d >= 1
    ensures 0 <= q < d || q == p + 1
    ensures 0 <= p < d ==> q == (p + 1) % d
  {
    StepWraps(p, d);
    if p + 1 >= d then 0 else p + 1
  }

  /** Inside the delay, the step to the next position is the step modulo d. */
  lemma StepWraps(p: int, d: int)
    requires d >= 1
    ensures 0 <= p < d ==> (p + 1) % d == if p + 1 >= d then 0 else p + 1
  {
    if 0 <= p < d {
      if p + 1 >= d {
        DivModUnique(p + 1, d, 1, 0);
      } else {
        DivModUnique(p + 1, d, 0, p + 1);
      }
    }
  }

  /** The first n steps of one channel's loop: the buffer, the position and the samples output. */
  function ChannelRun(buf: seq<real>, start: int, d: int, xs: seq<real>, n: nat): (r: (seq<real>, int, seq<real>))
    requires 1 <= d <= |buf| && 0 <= start < |buf| && n <= |xs|
    ensures |r.0| == |buf| && 0 <= r.1 < |buf| && |r.2| == n
    ensures n > 0 ==> 0 <= r.1 < d
    decreases n
  {
    if n == 0 then (buf, start, [])
    else
      var r := ChannelRun(buf, start, d, xs, n - 1);
      (r.0[r.1 := xs[n - 1]], Advance(r.1, d), r.2 + [r.0[r.1]])
  }

  /**
   * From a position inside the delay, the channel loop is the ring run of length d that
   * starts at that position: it outputs its input d samples late.
   */
  lemma ChannelRunIsRing(buf: seq<real>, start: int, d: int, xs: seq<real>, n: nat)
    requires 1 <= d <= |buf| && 0 <= start < d && n <= |xs|
    ensures ChannelRun(buf, start, d, xs, n) ==
              (Written(buf, start, d, xs, n), (start + n) % d, Delayed(buf, start, d, xs)[..n])
  {
    RunPosition(buf, start, d, xs, n);
    RunBuffer(buf, start, d, xs, n);
    RunOutput(buf, start, d, xs, n);
  }

  /** After n steps the loop's position is (start + n) % d. */
  lemma {:induction false} RunPosition(buf: seq<real>, start: int, d: int, xs: seq<real>, n: nat)
    requires 1 <= d <= |buf| && 0 <= start < d && n <= |xs|
    ensures ChannelRun(buf, start, d, xs, n).1 == (start + n) % d
    decreases n
  {
    if n > 0 {
      RunPosition(buf, start, d, xs, n - 1);
      ModOfSum(start + (n - 1), 1, d);
    } else {
      DivModUnique(start, d, 0, start);
    }
  }

  /** After n steps the loop's buffer holds the ring run's n writes. */
  lemma {:induction false} RunBuffer(buf: seq<real>, start: int, d: int, xs: seq<real>, n: nat)
    requires 1 <= d <= |buf| && 0 <= start < d && n <= |xs|
    ensures ChannelRun(buf, start, d, xs, n).0 == Written(buf, start, d, xs, n)
    decreases n
  {
    if n > 0 {
      RunBuffer(buf, start, d, xs, n - 1);
      RunPosition(buf, start, d, xs, n - 1);
    }
  }

  /** The first n samples the loop outputs are the ring run's first n reads. */
  lemma {:induction false} RunOutput(buf: seq<real>, start: int, d: int, xs: seq<real>, n: nat)
    requires 1 <= d <= |buf| && 0 <= start < d && n <= |xs|
    ensures ChannelRun(buf, start, d, xs, n).2 == Delayed(buf, start, d, xs)[..n]
    decreases n
  {
    if n > 0 {
      RunOutput(buf, start, d, xs, n - 1);
      RunBuffer(buf, start, d, xs, n - 1);
      RunPosition(buf, start, d, xs, n - 1);
      var all := Delayed(buf, start, d, xs);
      assert all[..n] == all[..n - 1] + [all[n - 1]];
    } else {
      assert Delayed(buf, start, d, xs)[..0] == [];
    }
  }

  /** After activation the buffers are silent, so the first d samples out are 0 and then the input follows. */
  lemma FirstBlockAfterActivation(length: nat, d: int, xs: seq<real>)
    requires 1 <= d <= length
    ensures var ys := ChannelRun(seq(length, k => 0.0), 0, d, xs, |xs|).2;
            (forall n :: 0 <= n < d && n < |xs| ==> ys[n] == 0.0) &&
            (forall n :: d <= n < |xs| ==> ys[n] == xs[n - d])
  {
    var zeros := seq(length, k => 0.0);
    ChannelRunIsRing(zeros, 0, d, xs, |xs|);
    DelayedByD(zeros, 0, d, xs);
  }

  /**
   * Two blocks with the same delay, the second starting where the first left the
   * buffer and the position, output what one block over both inputs would.
   */
  lemma BlocksAreSeamless(buf: seq<real>, start: int, d: int, xs: seq<real>, ys: seq<real>)
    requires 1 <= d <= |buf| && 0 <= start < d
    ensures var first := ChannelRun(buf, start, d, xs, |xs|);
            first.2 + ChannelRun(first.0, first.1, d, ys, |ys|).2 == ChannelRun(buf, start, d, xs + ys, |xs + ys|).2
  {
    ChannelRunIsRing(buf, start, d, xs, |xs|);
    var first := ChannelRun(buf, start, d, xs, |xs|);
    ChannelRunIsRing(first.0, first.1, d, ys, |ys|);
    ChannelRunIsRing(buf, start, d, xs + ys, |xs + ys|);
    DelayedConcat(buf, start, d, xs, ys);
  }

  /** The end-of-block position update: add the block length, then subtract the delay while it is reached. */
  method WrapPosition(position: int, sampleCount: int, d: int) returns (p: int)
    requires d >= 1 && position + sampleCount >= 0
    ensures p == (position + sampleCount) % d
  {
    p := position + sampleCount;
    ghost var q := 0;
    while p >= d
      invariant 0 <= p && p + q * d == position + sampleCount
      decreases p
    {
      p := p - d;
      q := q + 1;
    }
    DivModUnique(position + sampleCount, d, q, p);
  }

  /** When the position was inside the delay, the stored position is where each channel's loop stopped. */
  lemma StoredPositionMatchesLoop(buf: seq<real>, start: int, d: int, xs: seq<real>)
    requires 1 <= d <= |buf| && 0 <= start < d
    ensures ChannelRun(buf, start, d, xs, |xs|).1 == (start + |xs|) % d
  {
    ChannelRunIsRing(buf, start, d, xs, |xs|);
  }

  /** One channel's loop over a block, on the channel's buffer. */
  method ProcessChannel(buffer: array<real>, start: int, d: int, input: seq<real>) returns (output: seq<real>)
    requires 1 <= d <= buffer.Length && 0 <= start < buffer.Length
    modifies buffer
    ensures (buffer[..], output) == (ChannelRun(old(buffer[..]), start, d, input, |input|).0,
                                     ChannelRun(old(buffer[..]), start, d, input, |input|).2)
  {
    ghost var buf0 := buffer[..];
    var tempBufferPos := start;
    output := [];
    for sample := 0 to |input|
      invariant (buffer[..], tempBufferPos, output) == ChannelRun(buf0, start, d, input, sample)
    {
      var tempSample := input[sample];
      output := output + [buffer[tempBufferPos]];
      buffer[tempBufferPos] := tempSample;
      tempBufferPos := tempBufferPos + 1;
      if tempBufferPos >= d {
        tempBufferPos := 0;
      }
    }
  }

  /** SampleDelayProcessor: the two channel buffers and the shared position. */
  class SampleDelayProcessor {
    var bufferLeft: array<real>
    var bufferRight: array<real>
    var bufferPosition: int

    ghost predicate Valid()
      reads this
    {
      bufferLeft != bufferRight && 0 <= bufferPosition
    }

    constructor ()
      ensures Valid() && bufferLeft.Length == 0 && bufferRight.Length == 0 && bufferPosition == 0
    {
      bufferLeft := new real[0];
      bufferRight := new real[0];
      bufferPosition := 0;
    }

    /** OnActivate: silent buffers of four seconds when activated, empty ones when deactivated; the position restarts. */
    method OnActivate(isActive: bool, sampleRate: real)
      requires isActive ==> sampleRate >= 0.0
      modifies this
      ensures Valid() && fresh(bufferLeft) && fresh(bufferRight) && bufferPosition == 0
      ensures isActive ==> bufferLeft.Length == ActiveLength(sampleRate) && bufferRight.Length == ActiveLength(sampleRate)
      ensures !isActive ==> bufferLeft.Length == 0 && bufferRight.Length == 0
      ensures forall k :: 0 <= k < bufferLeft.Length ==> bufferLeft[k] == 0.0
      ensures forall k :: 0 <= k < bufferRight.Length ==> bufferRight[k] == 0.0
    {
      if isActive {
        var delayInSamples := TruncToInt(sampleRate * 4.0 + 0.5);
        bufferLeft := new real[delayInSamples](k => 0.0);
        bufferRight := new real[delayInSamples](k => 0.0);
        bufferPosition := 0;
      } else {
        bufferLeft := new real[0];
        bufferRight := new real[0];
        bufferPosition := 0;
      }
    }

    /**
     * ProcessMain: both channels run from the same stored position over their own
     * buffer; then the position moves on by the block length, modulo the delay.
     */
    method ProcessMain(inputLeft: seq<real>, inputRight: seq<real>, sampleRate: real, normalized: real)
      returns (outputLeft: seq<real>, outputRight: seq<real>)
      requires Valid() && |inputLeft| == |inputRight|
      requires DelayInSamples(sampleRate, normalized) <= bufferLeft.Length
      requires DelayInSamples(sampleRate, normalized) <= bufferRight.Length
      requires bufferPosition < bufferLeft.Length && bufferPosition < bufferRight.Length
      modifies this, bufferLeft, bufferRight
      ensures Valid() && bufferLeft == old(bufferLeft) && bufferRight == old(bufferRight)
      ensures var d := DelayInSamples(sampleRate, normalized);
              var left := ChannelRun(old(bufferLeft[..]), old(bufferPosition), d, inputLeft, |inputLeft|);
              var right := ChannelRun(old(bufferRight[..]), old(bufferPosition), d, inputRight, |inputRight|);
              bufferLeft[..] == left.0 && outputLeft == left.2 &&
              bufferRight[..] == right.0 && outputRight == right.2 &&
              bufferPosition == (old(bufferPosition) + |inputLeft|) % d
    {
      var delayInSamples := MaxInt(1, TruncToInt(sampleRate * normalized));
      ghost var right0 := bufferRight[..];
      outputLeft := ProcessChannel(bufferLeft, bufferPosition, delayInSamples, inputLeft);
      assert bufferRight[..] == right0;
      outputRight := ProcessChannel(bufferRight, bufferPosition, delayInSamples, inputRight);
      bufferPosition := WrapPosition(bufferPosition, |inputLeft|, delayInSamples);
    }
  }
}
