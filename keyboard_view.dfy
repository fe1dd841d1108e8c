/**
 * The keyboard strip of the tuning page (Tsumiki.View/KeyBoardView.cs): which key image
 * KeyBoardView draws, the 30-key window of pitches PitchBarView keeps and when it
 * rebuilds them, which keys it marks as roots, and which channel PitchBarView and
 * ChannelNumber follow. Drawing itself is left out; what a render would draw is
 * stated as the values it is computed from.
 */
module KeyBoard {
  import opened Common
  import opened Sorting
  import opened TsumikiModelExtensions
  import opened ChannelTuning

  /** The parameter ids these views compare against: Root, KeyPeriod and, per channel, Offset.Id .. Pitch127.Id. */
  datatype TuningIds = TuningIds(root: int, keyPeriod: int, channels: seq<(int, int)>)
  {
    predicate Valid() { |channels| == 16 }
  }

  /** The view-model values of one channel that PitchBarView reads. */
  datatype ChannelView = ChannelView(isCustomPitch: bool, offset: int, ratio: PitchRatio,
                                     generator: PitchRatio, period: PitchRatio, pitches: seq<real>)
  {
    predicate Valid() { |pitches| == 128 }
  }

  /** KeyBoardView.RenderCore: the image of the lowest shown key, modulo 12. */
  function KeyImageIndex(root: int): (i: int)
    ensures root >= 0 ==> 0 <= i < 12
    ensures 0 <= root <= 98 ==> i == root % 12
    ensures root >= 98 ==> i == 98 % 12
  {
    TruncRem(MinInt(root, 98), 12)
  }

  /** The image KeyBoardView draws is the one for the first key of PitchBarView's window. */
  lemma KeyImageFollowsWindow(root: int)
    requires root >= 0
    ensures KeyImageIndex(root) == Window(root).0 % 12
  {
  }

  /** KeyBoardView.OnParameterChanged: a render is requested exactly for Root and KeyPeriod. */
  function KeyBoardRendersOn(ids: TuningIds, parameterId: int): (r: bool)
    ensures r <==> parameterId == ids.root || parameterId == ids.keyPeriod
  {
    parameterId == ids.root || parameterId == ids.keyPeriod
  }

  /** PitchBarView's window of keys: 30 keys from min(root, 98). */
  function Window(root: int): (w: (int, int))
    ensures w.1 == w.0 + 29
    ensures 0 <= root <= 127 ==> 0 <= w.0 <= root <= w.1 <= 127
    ensures root <= 98 ==> w.0 == root
  {
    var minimum := MinInt(root, 98);
    (minimum, minimum + 29)
  }

  /** Whether key is drawn with the root line. */
  function IsRoot(key: int, root: int, keyPeriod: int): bool
    requires keyPeriod >= 1
  {
    if keyPeriod == 1 then key == root else TruncRem(key - root, keyPeriod) == 0
  }

  /**
   * With a period of two or more keys, the root keys are exactly those that take the
   * lowest pitch of the period; with a one-key period only the root itself is marked.
   */
  lemma IsRootMeansPeriodStart(key: int, root: int, keyPeriod: int)
    requires keyPeriod >= 1
    ensures keyPeriod == 1 ==> (IsRoot(key, root, keyPeriod) <==> key == root)
    ensures keyPeriod > 1 ==> (IsRoot(key, root, keyPeriod) <==> KeyDecompose(key - root, keyPeriod).1 == 0)
  {
    TruncRemZero(key - root, keyPeriod);
  }

  /** A root key's pitch is a whole number of periods above the lowest pitch of the sorted period. */
  lemma RootKeyPitch(key: int, root: int, period: real, sorted: seq<real>)
    requires |sorted| >= 1 && IsRoot(key, root, |sorted|)
    ensures KeyPitch(key, root, period, sorted) ==
              period * KeyDecompose(key - root, |sorted|).0 as real + sorted[0]
  {
    var d := KeyDecompose(key - root, |sorted|);
    if |sorted| > 1 {
      IsRootMeansPeriodStart(key, root, |sorted|);
    }
    assert d.1 == 0;
  }

  /** RenderPitch: the line's distance below the window top, or None when the pitch is outside the window. */
  function RelativePitch(pitch: real, minimum: int): (r: Option<real>)
    ensures r.Some? <==> minimum as real <= pitch <= minimum as real + 29.0
    ensures r.Some? ==> 0.0 <= r.value <= 29.0 && r.value + pitch == minimum as real + 29.0
  {
    var relativePitch := 29.0 - (pitch - minimum as real);
    if relativePitch < 0.0 || relativePitch > 29.0 then None else Some(relativePitch)
  }

  predicate InChannel(range: (int, int), parameterId: int)
  {
    range.0 <= parameterId <= range.1
  }

  /** The channel the loop over channels 0 .. n - 1 ends on: the last whose range holds the id. */
  function LastMatch(ranges: seq<(int, int)>, parameterId: int, current: int, n: nat): (c: int)
    requires n <= |ranges|
    ensures (forall i :: 0 <= i < n ==> !InChannel(ranges[i], parameterId)) ==> c == current
    ensures (exists i :: 0 <= i < n && InChannel(ranges[i], parameterId)) ==>
              0 <= c < n && InChannel(ranges[c], parameterId) &&
              forall j :: c < j < n ==> !InChannel(ranges[j], parameterId)
  {
    if n == 0 then current
    else if InChannel(ranges[n - 1], parameterId) then n - 1
    else LastMatch(ranges, parameterId, current, n - 1)
  }

  predicate InAnyChannel(ids: TuningIds, parameterId: int)
    requires ids.Valid()
  {
    exists i :: 0 <= i < 16 && InChannel(ids.channels[i], parameterId)
  }

  /** The loop of OnParameterChanged over the 16 channel ranges. */
  method FindChannel(ids: TuningIds, parameterId: int, current: int) returns (c: int, found: bool)
    requires ids.Valid()
    ensures c == LastMatch(ids.channels, parameterId, current, 16)
    ensures found <==> InAnyChannel(ids, parameterId)
  {
    c, found := current, false;
    for i := 0 to 16
      invariant c == LastMatch(ids.channels, parameterId, current, i)
      invariant found <==> exists k :: 0 <= k < i && InChannel(ids.channels[k], parameterId)
    {
      if ids.channels[i].0 <= parameterId && parameterId <= ids.channels[i].1 {
        c, found := i, true;
      }
    }
  }

  /** The 30 pitches PitchBarView keeps for the window of root. */
  function WindowPitches(root: int, keyPeriod: int, ch: ChannelView,
                         pitchValue: PitchRatio -> real, fmod: (real, real) -> real): (w: seq<real>)
    requires keyPeriod >= 1 && ch.Valid()
    ensures |w| == 30
  {
    var minimum := Window(root).0;
    if ch.isCustomPitch then CustomWindow(minimum, ch.pitches)
    else
      var sorted := Sort(PeriodPitches(keyPeriod, ch.offset, pitchValue(ch.generator), pitchValue(ch.period),
                                       root as real + pitchValue(ch.ratio), fmod));
      GeneratedWindow(minimum, root, pitchValue(ch.period), sorted)
  }

  function CustomWindow(minimum: int, channelPitches: seq<real>): (w: seq<real>)
    requires |channelPitches| == 128
    ensures |w| == 30
  {
    seq(30, j => channelPitches[PitchField(minimum + j)])
  }

  function GeneratedWindow(minimum: int, root: int, period: real, sorted: seq<real>): (w: seq<real>)
    requires |sorted| >= 1
    ensures |w| == 30
  {
    seq(30, j => ClampedKeyPitch(minimum + j, root, period, sorted))
  }

  /** A custom-pitch channel shows its own pitch parameters for the window's keys. */
  lemma CustomWindowIsSlice(root: int, keyPeriod: int, ch: ChannelView,
                            pitchValue: PitchRatio -> real, fmod: (real, real) -> real)
    requires keyPeriod >= 1 && ch.Valid() && ch.isCustomPitch && 0 <= root <= 127
    ensures WindowPitches(root, keyPeriod, ch, pitchValue, fmod) ==
              ch.pitches[Window(root).0 .. Window(root).0 + 30]
  {
    var w := CustomWindow(Window(root).0, ch.pitches);
    var minimum := Window(root).0;
    forall j | 0 <= j < 30
      ensures w[j] == ch.pitches[minimum + j]
    {
      assert PitchField(minimum + j) == minimum + j;
    }
  }

  /** The window of a generated table is the matching slice of the clamped table. */
  lemma GeneratedWindowSlice(minimum: int, root: int, period: real, sorted: seq<real>)
    requires |sorted| >= 1 && 0 <= minimum <= 98
    ensures GeneratedWindow(minimum, root, period, sorted) == ClampedTable(root, period, sorted)[minimum .. minimum + 30]
  {
  }

  /**
   * A generated channel shows, for the window's keys, the same clamped pitches as the
   * table ChannelTuningConfig writes for a cache holding the same values.
   */
  lemma GeneratedWindowIsTableSlice(root: int, keyPeriod: int, ch: ChannelView, c: Cache,
                                    pitchValue: PitchRatio -> real, fmod: (real, real) -> real)
    requires keyPeriod >= 1 && ch.Valid() && !ch.isCustomPitch && 0 <= root <= 127
    requires c.root == root && c.keyPeriod == keyPeriod && c.offset == ch.offset
    requires c.ratio.value == pitchValue(ch.ratio) && c.generator.value == pitchValue(ch.generator)
    requires c.period.value == pitchValue(ch.period)
    ensures WindowPitches(root, keyPeriod, ch, pitchValue, fmod) ==
              TableOf(c, fmod)[Window(root).0 .. Window(root).0 + 30]
  {
    var sorted := Sort(PeriodPitches(keyPeriod, ch.offset, pitchValue(ch.generator), pitchValue(ch.period),
                                     root as real + pitchValue(ch.ratio), fmod));
    assert PeriodPitches(c.keyPeriod, c.offset, c.generator.value, c.period.value, c.root as real + c.ratio.value, fmod)
        == PeriodPitches(keyPeriod, ch.offset, pitchValue(ch.generator), pitchValue(ch.period),
                         root as real + pitchValue(ch.ratio), fmod);
    GeneratedWindowSlice(Window(root).0, root, pitchValue(ch.period), sorted);
  }

  /** PitchBarView: the cached window of pitches and the channel it follows. */
  class PitchBarView {
    const ids: TuningIds
    const pitches: array<real>
    var shouldRecalculate: bool
    var channel: int
    var renderRequested: bool

    ghost predicate Valid()
      reads this
    {
      pitches.Length == 30 && ids.Valid() && 0 <= channel < 16
    }

    /** A new view follows Channel1 and rebuilds on its first render. */
    constructor (ids: TuningIds)
      requires ids.Valid()
      ensures Valid() && fresh(pitches)
      ensures this.ids == ids && shouldRecalculate && channel == 0 && !renderRequested
    {
      this.ids := ids;
      pitches := new real[30](j => 0.0);
      shouldRecalculate := true;
      channel := 0;
      renderRequested := false;
    }

    /**
     * OnParameterChanged: Root, KeyPeriod and any id of a channel schedule a rebuild and a
     * render; the last channel whose range holds the id becomes the one followed.
     */
    method OnParameterChanged(parameterId: int)
      requires Valid()
      modifies this
      ensures Valid()
      ensures channel == LastMatch(ids.channels, parameterId, old(channel), 16)
      ensures shouldRecalculate <==> old(shouldRecalculate) || KeyBoardRendersOn(ids, parameterId) || InAnyChannel(ids, parameterId)
      ensures renderRequested <==> old(renderRequested) || KeyBoardRendersOn(ids, parameterId) || InAnyChannel(ids, parameterId)
    {
      if parameterId == ids.root || parameterId == ids.keyPeriod {
        shouldRecalculate := true;
        renderRequested := true;
      }
      var c, found := FindChannel(ids, parameterId, channel);
      channel := c;
      if found {
        shouldRecalculate := true;
        renderRequested := true;
      }
    }

    /**
     * The first part of RenderCore: only while a rebuild is scheduled, the window's
     * pitches are rebuilt from the followed channel and the flag is cleared.
     */
    method Recalculate(root: int, keyPeriod: int, channels: seq<ChannelView>,
                       pitchValue: PitchRatio -> real, fmod: (real, real) -> real)
      requires Valid() && keyPeriod >= 1 && |channels| == 16
      requires forall k :: 0 <= k < 16 ==> channels[k].Valid()
      modifies this, pitches
      ensures Valid() && !shouldRecalculate
      ensures channel == old(channel) && renderRequested == old(renderRequested)
      ensures old(shouldRecalculate) ==> pitches[..] == WindowPitches(root, keyPeriod, channels[channel], pitchValue, fmod)
      ensures !old(shouldRecalculate) ==> pitches[..] == old(pitches[..])
    {
      if shouldRecalculate {
        shouldRecalculate := false;
        WriteWindowPitches(pitches, root, keyPeriod, channels[channel], pitchValue, fmod);
      }
    }
  }

  /** The rebuild of RenderCore: the window of a custom-pitch channel, or of the generated table. */
  method WriteWindowPitches(pitches: array<real>, root: int, keyPeriod: int, ch: ChannelView,
                            pitchValue: PitchRatio -> real, fmod: (real, real) -> real)
    requires pitches.Length == 30 && keyPeriod >= 1 && ch.Valid()
    modifies pitches
    ensures pitches[..] == WindowPitches(root, keyPeriod, ch, pitchValue, fmod)
  {
    var minimum := MinInt(root, 98);
    if ch.isCustomPitch {
      WriteCustomWindow(pitches, minimum, ch.pitches);
    } else {
      var ratio := pitchValue(ch.ratio);
      var generator := pitchValue(ch.generator);
      var period := pitchValue(ch.period);
      var basePitch := root as real + ratio;
      var periodPitches := SortedPeriodPitches(keyPeriod, ch.offset, generator, period, basePitch, fmod);
      WriteWindow(pitches, minimum, root, period, periodPitches);
    }
  }

  /** The custom branch: each window key's own pitch parameter. */
  method WriteCustomWindow(pitches: array<real>, minimum: int, channelPitches: seq<real>)
    requires pitches.Length == 30 && |channelPitches| == 128
    modifies pitches
    ensures pitches[..] == CustomWindow(minimum, channelPitches)
  {
    for j := 0 to 30
      invariant forall k :: 0 <= k < j ==> pitches[k] == channelPitches[PitchField(minimum + k)]
    {
      pitches[j] := channelPitches[PitchField(minimum + j)];
    }
  }

  /** The second loop of the generated branch: each window key's clamped table pitch. */
  method WriteWindow(pitches: array<real>, minimum: int, root: int, period: real, periodPitches: array<real>)
    requires pitches.Length == 30 && periodPitches.Length >= 1 && pitches != periodPitches
    modifies pitches
    ensures pitches[..] == GeneratedWindow(minimum, root, period, old(periodPitches[..]))
  {
    var keyPeriod := periodPitches.Length;
    ghost var sorted := periodPitches[..];
    for j := 0 to 30
      invariant periodPitches[..] == sorted
      invariant forall k :: 0 <= k < j ==> pitches[k] == ClampedKeyPitch(minimum + k, root, period, sorted)
    {
      var key := minimum + j;
      var relativeKey := key - root;
      var periodCount, index := TruncDiv(relativeKey, keyPeriod), TruncRem(relativeKey, keyPeriod);
      if relativeKey < 0 && index != 0 {
        periodCount := periodCount - 1;
        index := index + keyPeriod;
      }
      assert (periodCount, index) == KeyDecompose(relativeKey, keyPeriod);
      var pitch := ClampReal(period * periodCount as real + periodPitches[index], 0.0, 128.0);
      assert pitch == ClampedKeyPitch(key, root, period, sorted);
      pitches[j] := pitch;
    }
  }

  /** ChannelNumber's image: the first image strip for channels 0..7, the second for 8..15, and the row in it. */
  function ChannelImage(index: int): (r: (bool, int))
    ensures r.0 <==> index < 8
  {
    if index < 8 then (true, index) else (false, index - 8)
  }

  /** For the 16 channels the image strip and row identify the channel. */
  lemma ChannelImageIdentifies(index: int)
    requires 0 <= index < 16
    ensures 0 <= ChannelImage(index).1 < 8
    ensures index == (if ChannelImage(index).0 then 0 else 8) + ChannelImage(index).1
  {
  }

  /** ChannelNumber: the index of the channel last edited. */
  class ChannelNumber {
    const ids: TuningIds
    var index: int
    var renderRequested: bool

    ghost predicate Valid()
      reads this
    {
      ids.Valid() && 0 <= index < 16
    }

    constructor (ids: TuningIds)
      requires ids.Valid()
      ensures Valid() && this.ids == ids && index == 0 && !renderRequested
    {
      this.ids := ids;
      index := 0;
      renderRequested := false;
    }

    /** OnParameterChanged: the last channel whose range holds the id becomes the index, with a render. */
    method OnParameterChanged(parameterId: int)
      requires Valid()
      modifies this
      ensures Valid()
      ensures index == LastMatch(ids.channels, parameterId, old(index), 16)
      ensures renderRequested <==> old(renderRequested) || InAnyChannel(ids, parameterId)
    {
      var c, found := FindChannel(ids, parameterId, index);
      index := c;
      if found {
        renderRequested := true;
      }
    }
  }
}
