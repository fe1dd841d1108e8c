/**
 * The tuning unit of the plugin model and the key-to-pitch table builder of
 * Tsumiki.Core/TsumikiModelExtensions.cs. The generated model interfaces become classes
 * holding the properties the extensions use; the 128 PitchNNN properties are one
 * 128-entry sequence, and the real-valued helpers (Math.Log2 in GetPitchValue and the
 * double `%`) are parameters.
 */
module TsumikiModelExtensions {
  import opened Common
  import opened Sorting

  /** The four integers (n/d)^(pn/pd) a tuning value is entered as. */
  datatype PitchRatio = PitchRatio(n: int, d: int, pn: int, pd: int)

  /** The field a channel index selects: Channel2..Channel16 for 1..15, Channel1 for anything else. */
  function ChannelField(index: int): (k: int)
    ensures 1 <= index <= 15 ==> k == index
    ensures !(1 <= index <= 15) ==> k == 0
    ensures 0 <= k < 16
  {
    if 1 <= index <= 15 then index else 0
  }

  /** The field a pitch index selects: PitchNNN for 0..126, Pitch127 for anything else. */
  function PitchField(index: int): (k: int)
    ensures 0 <= index <= 126 ==> k == index
    ensures !(0 <= index <= 126) ==> k == 127
    ensures 0 <= k < 128
  {
    if 0 <= index <= 126 then index else 127
  }

  /** One channel's tuning parameters and its 128 key pitches. */
  class ChannelTuningUnit {
    var offset: int
    var ratio: PitchRatio
    var generator: PitchRatio
    var period: PitchRatio
    var pitches: seq<real>

    ghost predicate Valid()
      reads this
    {
      |pitches| == 128
    }

    constructor (offset: int, ratio: PitchRatio, generator: PitchRatio, period: PitchRatio)
      ensures Valid()
      ensures this.offset == offset && this.ratio == ratio && this.generator == generator && this.period == period
      ensures forall k :: 0 <= k < 128 ==> pitches[k] == 0.0
    {
      this.offset := offset;
      this.ratio := ratio;
      this.generator := generator;
      this.period := period;
      pitches := seq(128, k => 0.0);
    }

    /** GetPitch: the switch over the 128 pitch properties. */
    function GetPitch(index: int): (v: real)
      requires Valid()
      reads this
      ensures 0 <= index <= 126 ==> v == pitches[index]
      ensures !(0 <= index <= 126) ==> v == pitches[127]
    {
      pitches[PitchField(index)]
    }

    /** SetPitch: writes the property GetPitch reads for the same index, and no other. */
    method SetPitch(index: int, value: real)
      requires Valid()
      modifies this
      ensures Valid()
      ensures pitches == old(pitches)[PitchField(index) := value]
      ensures GetPitch(index) == value
      ensures offset == old(offset) && ratio == old(ratio) && generator == old(generator) && period == old(period)
    {
      pitches := pitches[PitchField(index) := value];
    }
  }

  /** The tuning unit: sixteen channels, the root key and the number of keys per period. */
  class TuningUnit {
    const channels: seq<ChannelTuningUnit>
    var root: int
    var keyPeriod: int

    constructor (channels: seq<ChannelTuningUnit>, root: int, keyPeriod: int)
      requires |channels| == 16
      ensures this.channels == channels && this.root == root && this.keyPeriod == keyPeriod
    {
      this.channels := channels;
      this.root := root;
      this.keyPeriod := keyPeriod;
    }

    /** Channel: the switch over the sixteen channel properties. */
    function Channel(index: int): (c: ChannelTuningUnit)
      requires |channels| == 16
      ensures 1 <= index <= 15 ==> c == channels[index]
      ensures !(1 <= index <= 15) ==> c == channels[0]
    {
      channels[ChannelField(index)]
    }
  }

  // ---------------------------------------------------------------------------
  // The table both pitch builders compute

  /**
   * Math.DivRem (truncating) followed by the correction for a negative key with a
   * non-zero remainder: the pair (periodCount, index) of the key decomposition.
   */
  function KeyDecompose(relativeKey: int, keyCount: int): (r: (int, int))
    requires keyCount >= 1
    ensures 0 <= r.1 < keyCount
    ensures r.0 * keyCount + r.1 == relativeKey
    ensures r.0 == relativeKey / keyCount && r.1 == relativeKey % keyCount
  {
    var periodCount, index := TruncDiv(relativeKey, keyCount), TruncRem(relativeKey, keyCount);
    var r := if relativeKey < 0 && index != 0 then (periodCount - 1, index + keyCount) else (periodCount, index);
    DivModUnique(relativeKey, keyCount, r.0, r.1);
    r
  }

  /** A key's pitch within the period before sorting: generator * factor reduced by fmod, lifted when the factor is negative. */
  function PeriodPitch(factor: int, generator: real, period: real, basePitch: real,
                       fmod: (real, real) -> real): real
  {
    var target := fmod(generator * factor as real, period);
    (if factor < 0 && target != 0.0 then target + period else target) + basePitch
  }

  /**
   * With a non-negative generator and a remainder that has the sign of its dividend and is
   * smaller than the period, every key's pitch lies in [basePitch, basePitch + period).
   */
  lemma PeriodPitchInPeriod(factor: int, generator: real, period: real, basePitch: real,
                            fmod: (real, real) -> real)
    requires period > 0.0 && generator >= 0.0
    requires var x := generator * factor as real;
             (x > 0.0 ==> 0.0 <= fmod(x, period) < period) && (x == 0.0 ==> fmod(x, period) == 0.0) &&
             (x < 0.0 ==> -period < fmod(x, period) <= 0.0)
    ensures basePitch <= PeriodPitch(factor, generator, period, basePitch, fmod) < basePitch + period
  {
    if factor < 0 {
      assert generator * factor as real <= 0.0;
    } else {
      assert generator * factor as real >= 0.0;
    }
  }

  /** The periodPitches span after its fill loop. */
  function PeriodPitches(keyCount: nat, offset: int, generator: real, period: real, basePitch: real,
                         fmod: (real, real) -> real): (s: seq<real>)
    ensures |s| == keyCount
  {
    seq(keyCount, i => PeriodPitch(i - offset, generator, period, basePitch, fmod))
  }

  /** The pitch written for key i: whole periods plus the sorted within-period pitch, unclamped. */
  function KeyPitch(i: int, rootIndex: int, period: real, sorted: seq<real>): real
    requires |sorted| >= 1
  {
    var (periodCount, index) := KeyDecompose(i - rootIndex, |sorted|);
    period * periodCount as real + sorted[index]
  }

  /** The 128 pitches the table loop writes, key i at position i. */
  function PitchTable(rootIndex: int, period: real, sorted: seq<real>): (t: seq<real>)
    requires |sorted| >= 1
    ensures |t| == 128
  {
    seq(128, i => KeyPitch(i, rootIndex, period, sorted))
  }

  /** One key more than a whole number of periods away: the same sorted entry, one more period. */
  lemma KeyPitchPeriodic(i: int, rootIndex: int, period: real, sorted: seq<real>)
    requires |sorted| >= 1
    ensures KeyPitch(i + |sorted|, rootIndex, period, sorted) == KeyPitch(i, rootIndex, period, sorted) + period
  {
    var k := |sorted|;
    var (q, r) := KeyDecompose(i - rootIndex, k);
    assert i + k - rootIndex == (q + 1) * k + r;
    DivModUnique(i + k - rootIndex, k, q + 1, r);
    assert KeyDecompose(i + k - rootIndex, k) == (q + 1, r);
    assert period * (q + 1) as real == period * q as real + period;
  }

  /** Periodicity of the table: pitch(i + keyCount) = pitch(i) + period whenever both keys exist. */
  lemma PitchTablePeriodic(rootIndex: int, period: real, sorted: seq<real>, i: int)
    requires |sorted| >= 1 && 0 <= i && i + |sorted| < 128
    ensures PitchTable(rootIndex, period, sorted)[i + |sorted|] == PitchTable(rootIndex, period, sorted)[i] + period
  {
    KeyPitchPeriodic(i, rootIndex, period, sorted);
  }

  /** The table at the root key is the lowest within-period pitch. */
  lemma PitchTableAtRoot(rootIndex: int, period: real, sorted: seq<real>)
    requires |sorted| >= 1 && 0 <= rootIndex < 128
    ensures PitchTable(rootIndex, period, sorted)[rootIndex] == sorted[0]
  {
    assert KeyDecompose(0, |sorted|) == (0, 0);
  }

  /** Within-period pitches root, root + 1, ..., root + 11 put pitch i on key i. */
  lemma TwelveToneKey(i: int, rootIndex: int, sorted: seq<real>)
    requires |sorted| == 12
    requires forall j :: 0 <= j < 12 ==> sorted[j] == rootIndex as real + j as real
    ensures KeyPitch(i, rootIndex, 12.0, sorted) == i as real
  {
    var (q, r) := KeyDecompose(i - rootIndex, 12);
    assert sorted[r] == rootIndex as real + r as real;
    assert (q * 12 + r) as real == 12.0 * q as real + r as real;
  }

  /**
   * Twelve-tone equal temperament: ratio 0, generator 1, period 12 over twelve keys with
   * offset 0 (and a remainder that leaves 0..11 unchanged) puts pitch i on key i.
   */
  lemma TwelveToneEqual(rootIndex: int, fmod: (real, real) -> real)
    requires forall x: real :: 0.0 <= x < 12.0 ==> fmod(x, 12.0) == x
    ensures PitchTable(rootIndex, 12.0, Sort(PeriodPitches(12, 0, 1.0, 12.0, rootIndex as real + 0.0, fmod))) ==
            seq(128, i => i as real)
  {
    var s := PeriodPitches(12, 0, 1.0, 12.0, rootIndex as real + 0.0, fmod);
    forall j | 0 <= j < 12
      ensures s[j] == rootIndex as real + j as real
    {
      assert 1.0 * (j - 0) as real == j as real;
      assert fmod(j as real, 12.0) == j as real;
      assert s[j] == PeriodPitch(j - 0, 1.0, 12.0, rootIndex as real + 0.0, fmod);
    }
    assert Sorted(s);
    SortedUnique(Sort(s), s);
    forall i | 0 <= i < 128
      ensures PitchTable(rootIndex, 12.0, s)[i] == i as real
    {
      TwelveToneKey(i, rootIndex, s);
    }
  }

  /** The first loop of RebuildPitches: one within-period pitch per key of the period. */
  method FillPeriodPitches(keyCount: nat, offset: int, generator: real, period: real, basePitch: real,
                           fmod: (real, real) -> real) returns (periodPitches: array<real>)
    ensures fresh(periodPitches)
    ensures periodPitches[..] == PeriodPitches(keyCount, offset, generator, period, basePitch, fmod)
  {
    periodPitches := new real[keyCount];
    for i := 0 to keyCount
      invariant forall k :: 0 <= k < i ==> periodPitches[k] == PeriodPitch(k - offset, generator, period, basePitch, fmod)
    {
      var factor := i - offset;
      var targetPitch := fmod(generator * factor as real, period);
      if factor < 0 && targetPitch != 0.0 {
        targetPitch := targetPitch + period;
      }
      targetPitch := targetPitch + basePitch;
      assert targetPitch == PeriodPitch(factor, generator, period, basePitch, fmod);
      periodPitches[i] := targetPitch;
    }
  }

  /** Both loops' span before the table is written: the within-period pitches in ascending order. */
  method SortedPeriodPitches(keyCount: nat, offset: int, generator: real, period: real, basePitch: real,
                             fmod: (real, real) -> real) returns (periodPitches: array<real>)
    ensures fresh(periodPitches)
    ensures periodPitches[..] == Sort(PeriodPitches(keyCount, offset, generator, period, basePitch, fmod))
  {
    periodPitches := FillPeriodPitches(keyCount, offset, generator, period, basePitch, fmod);
    SortInPlace(periodPitches);
  }

  /** The table RebuildPitches writes for a unit's tuning values. */
  function Rebuilt(offset: int, ratio: PitchRatio, generator: PitchRatio, period: PitchRatio,
                   rootIndex: int, keyCount: int, pitchValue: PitchRatio -> real, fmod: (real, real) -> real): (t: seq<real>)
    requires keyCount >= 1
    ensures |t| == 128
  {
    PitchTable(rootIndex, pitchValue(period),
               Sort(PeriodPitches(keyCount, offset, pitchValue(generator), pitchValue(period),
                                  rootIndex as real + pitchValue(ratio), fmod)))
  }

  /**
   * RebuildPitches: fills the within-period pitches, sorts them in place and writes all
   * 128 keys through SetPitch. pitchValue stands for GetPitchValue and fmod for the double `%`.
   */
  method RebuildPitches(unit: ChannelTuningUnit, rootIndex: int, keyCount: int,
                        pitchValue: PitchRatio -> real, fmod: (real, real) -> real)
    requires unit.Valid() && keyCount >= 1
    modifies unit
    ensures unit.Valid()
    ensures unit.pitches == Rebuilt(old(unit.offset), old(unit.ratio), old(unit.generator), old(unit.period),
                                    rootIndex, keyCount, pitchValue, fmod)
    ensures unit.offset == old(unit.offset) && unit.ratio == old(unit.ratio)
    ensures unit.generator == old(unit.generator) && unit.period == old(unit.period)
  {
    var offset := unit.offset;
    var ratio := pitchValue(unit.ratio);
    var generator := pitchValue(unit.generator);
    var period := pitchValue(unit.period);
    var basePitch := rootIndex as real + ratio;
    var periodPitches := SortedPeriodPitches(keyCount, offset, generator, period, basePitch, fmod);
    WritePitchTable(unit, rootIndex, period, periodPitches);
  }

  /** The second loop of RebuildPitches: every key's pitch from its decomposition, through SetPitch. */
  method WritePitchTable(unit: ChannelTuningUnit, rootIndex: int, period: real, periodPitches: array<real>)
    requires unit.Valid() && periodPitches.Length >= 1
    modifies unit
    ensures unit.Valid()
    ensures unit.pitches == PitchTable(rootIndex, period, periodPitches[..])
    ensures unit.offset == old(unit.offset) && unit.ratio == old(unit.ratio)
    ensures unit.generator == old(unit.generator) && unit.period == old(unit.period)
  {
    var keyCount := periodPitches.Length;
    ghost var table := PitchTable(rootIndex, period, periodPitches[..]);
    for i := 0 to 128
      invariant unit.Valid() && unit.pitches[..i] == table[..i]
      invariant unit.offset == old(unit.offset) && unit.ratio == old(unit.ratio)
      invariant unit.generator == old(unit.generator) && unit.period == old(unit.period)
    {
      var relativeKey := i - rootIndex;
      var periodCount, index := TruncDiv(relativeKey, keyCount), TruncRem(relativeKey, keyCount);
      if relativeKey < 0 && index != 0 {
        periodCount := periodCount - 1;
        index := index + keyCount;
      }
      assert (periodCount, index) == KeyDecompose(relativeKey, keyCount);
      var pitch := period * periodCount as real + periodPitches[index];
      assert pitch == table[i];
      unit.SetPitch(i, pitch);
    }
    assert unit.pitches == unit.pitches[..128];
  }
}
