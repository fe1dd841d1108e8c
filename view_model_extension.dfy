/**
 * The editor-side pitch table of Tsumiki.View/TsumikiViewModelExtension.cs. The view
 * model's 128 pitch parameters are one sequence of values with a log of the edit
 * calls made on them; the other view parameters are plain values.
 */
module TsumikiViewModelExtension {
  import opened Common
  import opened Sorting
  import opened TsumikiModelExtensions

  /** A call made on one pitch view parameter. */
  datatype PitchEdit = BeginEdit(key: int) | SetValue(key: int, value: real) | EndEdit(key: int)

  /** The three calls that write one key, bracketed by BeginEdit and EndEdit. */
  function KeyEdit(key: int, value: real): (es: seq<PitchEdit>)
    ensures |es| == 3 && es[0] == BeginEdit(key) && es[1] == SetValue(key, value) && es[2] == EndEdit(key)
  {
    [BeginEdit(key), SetValue(key, value), EndEdit(key)]
  }

  /** The calls the table loop makes for keys 0 .. n - 1, in key order. */
  function TableEdits(table: seq<real>, n: nat): (es: seq<PitchEdit>)
    requires n <= |table|
    ensures |es| == 3 * n
  {
    if n == 0 then [] else TableEdits(table, n - 1) + KeyEdit(n - 1, table[n - 1])
  }

  /** Entry 3i of the log begins key i, entry 3i + 1 sets it to its table value, entry 3i + 2 ends it. */
  lemma {:induction false} TableEditsLayout(table: seq<real>, n: nat, i: nat)
    requires n <= |table| && i < n
    ensures TableEdits(table, n)[3 * i] == BeginEdit(i)
    ensures TableEdits(table, n)[3 * i + 1] == SetValue(i, table[i])
    ensures TableEdits(table, n)[3 * i + 2] == EndEdit(i)
    decreases n
  {
    if i < n - 1 {
      TableEditsLayout(table, n - 1, i);
    }
  }

  /** The channel tuning view model: the values RebuildPitches reads and the 128 pitch parameters. */
  class ChannelTuningViewModel {
    var offset: int
    var ratio: PitchRatio
    var generator: PitchRatio
    var period: PitchRatio
    var pitches: seq<real>
    var edits: seq<PitchEdit>

    ghost predicate Valid()
      reads this
    {
      |pitches| == 128
    }

    constructor (offset: int, ratio: PitchRatio, generator: PitchRatio, period: PitchRatio)
      ensures Valid() && edits == []
      ensures this.offset == offset && this.ratio == ratio && this.generator == generator && this.period == period
    {
      this.offset := offset;
      this.ratio := ratio;
      this.generator := generator;
      this.period := period;
      pitches := seq(128, k => 0.0);
      edits := [];
    }

    /** Pitch: the parameter for index 0..126, Pitch127 for any other index; returned as the key it stands for. */
    function Pitch(index: int): (key: int)
      ensures 0 <= index <= 126 ==> key == index
      ensures !(0 <= index <= 126) ==> key == 127
    {
      PitchField(index)
    }

    /** One key written through its view parameter. */
    method EditPitch(index: int, value: real)
      requires Valid()
      modifies this
      ensures Valid()
      ensures pitches == old(pitches)[Pitch(index) := value]
      ensures edits == old(edits) + KeyEdit(Pitch(index), value)
      ensures offset == old(offset) && ratio == old(ratio) && generator == old(generator) && period == old(period)
    {
      var key := Pitch(index);
      edits := edits + [BeginEdit(key)];
      pitches := pitches[key := value];
      edits := edits + [SetValue(key, value)];
      edits := edits + [EndEdit(key)];
    }
  }

  /** The pitch the table loop computes for key i: the key decomposition around the root, then whole periods plus the sorted entry. */
  method TablePitch(i: int, rootIndex: int, period: real, periodPitches: array<real>) returns (pitch: real)
    requires periodPitches.Length >= 1
    ensures pitch == KeyPitch(i, rootIndex, period, periodPitches[..])
  {
    var keyCount := periodPitches.Length;
    var relativeKey := i - rootIndex;
    var periodCount, index := TruncDiv(relativeKey, keyCount), TruncRem(relativeKey, keyCount);
    if relativeKey < 0 && index != 0 {
      periodCount := periodCount - 1;
      index := index + keyCount;
    }
    assert (periodCount, index) == KeyDecompose(relativeKey, keyCount);
    pitch := period * periodCount as real + periodPitches[index];
  }

  /** The second loop of RebuildPitches: each key's unclamped pitch, inside its edit bracket. */
  method EditPitchTable(unit: ChannelTuningViewModel, rootIndex: int, period: real, periodPitches: array<real>)
    requires unit.Valid() && periodPitches.Length >= 1
    modifies unit
    ensures unit.Valid()
    ensures unit.pitches == PitchTable(rootIndex, period, periodPitches[..])
    ensures unit.edits == old(unit.edits) + TableEdits(PitchTable(rootIndex, period, periodPitches[..]), 128)
    ensures unit.offset == old(unit.offset) && unit.ratio == old(unit.ratio)
    ensures unit.generator == old(unit.generator) && unit.period == old(unit.period)
  {
    ghost var table := PitchTable(rootIndex, period, periodPitches[..]);
    for i := 0 to 128
      invariant unit.Valid()
      invariant forall k :: 0 <= k < i ==> unit.pitches[k] == table[k]
      invariant unit.edits == old(unit.edits) + TableEdits(table, i)
      invariant unit.offset == old(unit.offset) && unit.ratio == old(unit.ratio)
      invariant unit.generator == old(unit.generator) && unit.period == old(unit.period)
    {
      var pitch := TablePitch(i, rootIndex, period, periodPitches);
      unit.EditPitch(i, pitch);
    }
  }

  /**
   * RebuildPitches over the view parameters: the same within-period pitches and key
   * decomposition as the model's, written without clamping, one edit bracket per key.
   */
  method RebuildPitches(unit: ChannelTuningViewModel, rootIndex: int, keyCount: int,
                        pitchValue: PitchRatio -> real, fmod: (real, real) -> real)
    requires unit.Valid() && keyCount >= 1
    modifies unit
    ensures unit.Valid()
    ensures unit.pitches == Rebuilt(old(unit.offset), old(unit.ratio), old(unit.generator), old(unit.period),
                                    rootIndex, keyCount, pitchValue, fmod)
    ensures unit.edits == old(unit.edits) + TableEdits(unit.pitches, 128)
    ensures unit.offset == old(unit.offset) && unit.ratio == old(unit.ratio)
    ensures unit.generator == old(unit.generator) && unit.period == old(unit.period)
  {
    var offset := unit.offset;
    var ratio := pitchValue(unit.ratio);
    var generator := pitchValue(unit.generator);
    var period := pitchValue(unit.period);
    var basePitch := rootIndex as real + ratio;
    ghost var expected := Rebuilt(offset, unit.ratio, unit.generator, unit.period, rootIndex, keyCount, pitchValue, fmod);
    var periodPitches := SortedPeriodPitches(keyCount, offset, generator, period, basePitch, fmod);
    assert expected == PitchTable(rootIndex, period, periodPitches[..]);
    EditPitchTable(unit, rootIndex, period, periodPitches);
  }
}
