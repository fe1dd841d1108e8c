/**
 * The audio-side pitch table of Tsumiki.Core/ChannelTuning.cs: a cached tuning value
 * that reports whether its four integers changed, and the per-channel configuration
 * that rebuilds the 128 clamped key pitches only when something it caches changed.
 */
module ChannelTuning {
  import opened Common
  import opened Sorting
  import opened TsumikiModelExtensions

  /** The TuningValue struct: the four cached integers and the pitch value computed from them. */
  datatype TuningValue = TuningValue(n: int, d: int, pn: int, pd: int, value: real)

  /** A tuning value freshly computed from its four integers; pitchValue stands for the Math.Log2 formula. */
  function FreshValue(r: PitchRatio, pitchValue: PitchRatio -> real): (t: TuningValue)
    ensures Agrees(t, r) && Consistent(t, pitchValue)
  {
    TuningValue(r.n, r.d, r.pn, r.pd, pitchValue(r))
  }

  /** The cached integers are the entered ones. */
  predicate Agrees(t: TuningValue, r: PitchRatio)
  {
    t.n == r.n && t.d == r.d && t.pn == r.pn && t.pd == r.pd
  }

  /** The cached value is the one the cached integers give. */
  predicate Consistent(t: TuningValue, pitchValue: PitchRatio -> real)
  {
    t.value == pitchValue(PitchRatio(t.n, t.d, t.pn, t.pd))
  }

  datatype UpdateResult = UpdateResult(value: TuningValue, updated: bool)

  /** TuningValue.Updated: overwrites the cache and recomputes the value exactly when one of the four integers differs. */
  function Updated(t: TuningValue, r: PitchRatio, pitchValue: PitchRatio -> real): (res: UpdateResult)
    ensures res.updated <==> !Agrees(t, r)
    ensures res.updated ==> res.value == FreshValue(r, pitchValue)
    ensures !res.updated ==> res.value == t
    ensures Agrees(res.value, r)
  {
    var shouldUpdate := t.n != r.n || t.d != r.d || t.pn != r.pn || t.pd != r.pd;
    if shouldUpdate then UpdateResult(TuningValue(r.n, r.d, r.pn, r.pd, pitchValue(r)), true)
    else UpdateResult(t, false)
  }

  /** A second Updated with the same integers reports nothing, and Updated keeps a consistent cache consistent. */
  lemma UpdatedIdempotent(t: TuningValue, r: PitchRatio, pitchValue: PitchRatio -> real)
    ensures !Updated(Updated(t, r, pitchValue).value, r, pitchValue).updated
    ensures Consistent(t, pitchValue) ==> Consistent(Updated(t, r, pitchValue).value, pitchValue)
  {
  }

  // ---------------------------------------------------------------------------
  // The configuration's cached state as a value

  datatype Cache = Cache(root: int, keyPeriod: int, offset: int,
                         ratio: TuningValue, generator: TuningValue, period: TuningValue)

  /** What Recalculate reads from the two model units. */
  datatype Inputs = Inputs(root: int, keyPeriod: int, offset: int,
                           ratio: PitchRatio, generator: PitchRatio, period: PitchRatio)

  datatype CheckResult = CheckResult(cache: Cache, skip: bool)

  predicate SameKeys(c: Cache, inputs: Inputs)
  {
    c.offset == inputs.offset && c.root == inputs.root && c.keyPeriod == inputs.keyPeriod
  }

  /** The cache as the constructor's field initialisers leave it: everything read afresh. */
  function FromInputs(inputs: Inputs, pitchValue: PitchRatio -> real): (c: Cache)
    ensures SameKeys(c, inputs)
    ensures Agrees(c.ratio, inputs.ratio) && Agrees(c.generator, inputs.generator) && Agrees(c.period, inputs.period)
    ensures Consistent(c.ratio, pitchValue) && Consistent(c.generator, pitchValue) && Consistent(c.period, pitchValue)
  {
    Cache(inputs.root, inputs.keyPeriod, inputs.offset,
          FreshValue(inputs.ratio, pitchValue), FreshValue(inputs.generator, pitchValue), FreshValue(inputs.period, pitchValue))
  }

  /**
   * The condition of Recalculate's early return, with the side effects of the Updated calls
   * it evaluates: `&&` stops at the first comparison that reports a change, so the tuning
   * values after it are neither compared nor refreshed.
   */
  function EarlyReturnCheck(c: Cache, inputs: Inputs, pitchValue: PitchRatio -> real): (r: CheckResult)
    ensures r.skip <==> SameKeys(c, inputs) && Agrees(c.ratio, inputs.ratio) &&
                        Agrees(c.generator, inputs.generator) && Agrees(c.period, inputs.period)
    ensures r.skip ==> r.cache == c
    ensures !SameKeys(c, inputs) ==> r.cache == c
    ensures SameKeys(c, inputs) && !Agrees(c.ratio, inputs.ratio) ==>
              r.cache == c.(ratio := FreshValue(inputs.ratio, pitchValue))
    ensures SameKeys(c, inputs) && Agrees(c.ratio, inputs.ratio) && !Agrees(c.generator, inputs.generator) ==>
              r.cache == c.(generator := FreshValue(inputs.generator, pitchValue))
    ensures SameKeys(c, inputs) && Agrees(c.ratio, inputs.ratio) && Agrees(c.generator, inputs.generator) &&
            !Agrees(c.period, inputs.period) ==>
              r.cache == c.(period := FreshValue(inputs.period, pitchValue))
  {
    if !SameKeys(c, inputs) then CheckResult(c, false)
    else
      var ratio := Updated(c.ratio, inputs.ratio, pitchValue);
      if ratio.updated then CheckResult(c.(ratio := ratio.value), false)
      else
        var generator := Updated(c.generator, inputs.generator, pitchValue);
        if generator.updated then CheckResult(c.(generator := generator.value), false)
        else
          var period := Updated(c.period, inputs.period, pitchValue);
          CheckResult(c.(period := period.value), !period.updated)
  }

  /** The cache after Recalculate as written. */
  function Recalculated(c: Cache, inputs: Inputs, pitchValue: PitchRatio -> real): (c': Cache)
    ensures SameKeys(c', inputs) || c' == c
  {
    var check := EarlyReturnCheck(c, inputs, pitchValue);
    if check.skip then c
    else check.cache.(offset := inputs.offset, root := inputs.root, keyPeriod := inputs.keyPeriod)
  }

  /** The 128 pitches Recalculate writes: the key pitch of the shared table, clamped to [0, 128]. */
  function ClampedTable(rootIndex: int, period: real, sorted: seq<real>): (t: seq<real>)
    requires |sorted| >= 1
    ensures |t| == 128
  {
    seq(128, i => ClampedKeyPitch(i, rootIndex, period, sorted))
  }

  function ClampedKeyPitch(i: int, rootIndex: int, period: real, sorted: seq<real>): real
    requires |sorted| >= 1
  {
    ClampReal(KeyPitch(i, rootIndex, period, sorted), 0.0, 128.0)
  }

  /** Every written pitch lies in [0, 128], and a table pitch inside that range is written unchanged. */
  lemma ClampedTableBounds(rootIndex: int, period: real, sorted: seq<real>, i: int)
    requires |sorted| >= 1 && 0 <= i < 128
    ensures 0.0 <= ClampedTable(rootIndex, period, sorted)[i] <= 128.0
    ensures 0.0 <= PitchTable(rootIndex, period, sorted)[i] <= 128.0 ==>
              ClampedTable(rootIndex, period, sorted)[i] == PitchTable(rootIndex, period, sorted)[i]
  {
  }

  /** The table written for a cache. */
  function TableOf(c: Cache, fmod: (real, real) -> real): (t: seq<real>)
    requires c.keyPeriod >= 1
    ensures |t| == 128
  {
    ClampedTable(c.root, c.period.value,
                 Sort(PeriodPitches(c.keyPeriod, c.offset, c.generator.value, c.period.value,
                                    c.root as real + c.ratio.value, fmod)))
  }

  /** C#'s `%` on doubles, truncating toward zero, for a non-zero divisor (x % 0 is NaN and not modelled). */
  function TruncatingRemainder(x: real, p: real): real
  {
    if p == 0.0 then 0.0 else x - p * TruncToInt(x / p) as real
  }

  /** Inside one period either side of zero the remainder is the dividend itself. */
  lemma SmallRemainder(x: real)
    requires -12.0 < x < 12.0
    ensures TruncatingRemainder(x, 12.0) == x
  {
    assert -1.0 < x / 12.0 < 1.0;
  }

  /** Math.Log2((double)n / d) * 12.0 * pn / pd on the ratios 1/1 and 2/1, the only ones StaleRatioWhenOffsetChanges uses. */
  function UnisonOrOctavePitch(r: PitchRatio): real
  {
    if r.pd != 0 && r.n == 2 * r.d then 12.0 * r.pn as real / r.pd as real else 0.0
  }

  /**
   * When the offset changes together with the ratio, Recalculate as written does not call
   * the ratio's Updated, so it builds the table from the old ratio value; the table stays
   * stale until a later Recalculate runs the skipped Updated calls. Twelve keys per period,
   * generator 2^(1/12) (value 1) and period 2/1 (value 12), root 60: with the offset going
   * from 0 to 1 and the ratio from 1/1 to 2/1, key 60 keeps pitch 60 where fresh values give 72.
   */
  lemma StaleRatioWhenOffsetChanges()
    ensures var c := Cache(60, 12, 0, TuningValue(1, 1, 1, 1, 0.0), TuningValue(2, 1, 1, 12, 1.0), TuningValue(2, 1, 1, 1, 12.0));
            var inputs := Inputs(60, 12, 1, PitchRatio(2, 1, 1, 1), PitchRatio(2, 1, 1, 12), PitchRatio(2, 1, 1, 1));
            Consistent(c.ratio, UnisonOrOctavePitch) && Consistent(c.generator, UnisonOrOctavePitch) &&
            Consistent(c.period, UnisonOrOctavePitch) &&
            !EarlyReturnCheck(c, inputs, UnisonOrOctavePitch).skip &&
            Recalculated(c, inputs, UnisonOrOctavePitch).ratio != FreshValue(inputs.ratio, UnisonOrOctavePitch) &&
            TableOf(Recalculated(c, inputs, UnisonOrOctavePitch), TruncatingRemainder)[60] == 60.0 &&
            TableOf(FromInputs(inputs, UnisonOrOctavePitch), TruncatingRemainder)[60] == 72.0
  {
    var c := Cache(60, 12, 0, TuningValue(1, 1, 1, 1, 0.0), TuningValue(2, 1, 1, 12, 1.0), TuningValue(2, 1, 1, 1, 12.0));
    var inputs := Inputs(60, 12, 1, PitchRatio(2, 1, 1, 1), PitchRatio(2, 1, 1, 12), PitchRatio(2, 1, 1, 1));
    var stale, renewed := c.(offset := 1), c.(offset := 1, ratio := TuningValue(2, 1, 1, 1, 12.0));
    assert Recalculated(c, inputs, UnisonOrOctavePitch) == stale;
    assert FromInputs(inputs, UnisonOrOctavePitch) == renewed;
    RootKeyPitch(stale, 60.0);
    RootKeyPitch(renewed, 72.0);
  }

  /** Offset 1 over twelve keys, generator 1 and period 12: the root key gets the base pitch. */
  lemma RootKeyPitch(c: Cache, basePitch: real)
    requires c.root == 60 && c.keyPeriod == 12 && c.offset == 1
    requires c.generator.value == 1.0 && c.period.value == 12.0 && basePitch == 60.0 + c.ratio.value
    requires 0.0 <= basePitch <= 128.0
    ensures TableOf(c, TruncatingRemainder)[60] == basePitch
  {
    var s := PeriodPitches(12, 1, 1.0, 12.0, basePitch, TruncatingRemainder);
    BasePitchIsLowest(basePitch);
    SortHeadIsMinimum(s, basePitch);
    var sorted := Sort(s);
    assert TableOf(c, TruncatingRemainder) == ClampedTable(60, 12.0, sorted);
    assert KeyDecompose(0, 12) == (0, 0);
    assert KeyPitch(60, 60, 12.0, sorted) == basePitch;
  }

  /** The same period pitches: key 1 (factor 0) is the base pitch and no key is lower. */
  lemma BasePitchIsLowest(basePitch: real)
    ensures var s := PeriodPitches(12, 1, 1.0, 12.0, basePitch, TruncatingRemainder);
            basePitch in s && AllAtLeast(basePitch, s)
  {
    var s := PeriodPitches(12, 1, 1.0, 12.0, basePitch, TruncatingRemainder);
    forall k | 0 <= k < 12
      ensures basePitch <= s[k]
    {
      SmallRemainder(1.0 * (k - 1) as real);
      assert s[k] == PeriodPitch(k - 1, 1.0, 12.0, basePitch, TruncatingRemainder);
    }
    SmallRemainder(0.0);
    assert s[1] == PeriodPitch(0, 1.0, 12.0, basePitch, TruncatingRemainder) == basePitch;
  }

  // ---------------------------------------------------------------------------
  // The corrected check: every tuning value is compared and refreshed

  /** The cache after a Recalculate that calls every Updated before deciding. */
  function RecalculatedFully(c: Cache, inputs: Inputs, pitchValue: PitchRatio -> real): (c': Cache)
  {
    var ratio := Updated(c.ratio, inputs.ratio, pitchValue);
    var generator := Updated(c.generator, inputs.generator, pitchValue);
    var period := Updated(c.period, inputs.period, pitchValue);
    Cache(inputs.root, inputs.keyPeriod, inputs.offset, ratio.value, generator.value, period.value)
  }

  /** With every Updated called, a consistent cache ends up exactly the one the inputs give. */
  lemma RecalculatedFullyIsFresh(c: Cache, inputs: Inputs, pitchValue: PitchRatio -> real)
    requires Consistent(c.ratio, pitchValue) && Consistent(c.generator, pitchValue) && Consistent(c.period, pitchValue)
    ensures RecalculatedFully(c, inputs, pitchValue) == FromInputs(inputs, pitchValue)
  {
    UpdatedAgreesFresh(c.ratio, inputs.ratio, pitchValue);
    UpdatedAgreesFresh(c.generator, inputs.generator, pitchValue);
    UpdatedAgreesFresh(c.period, inputs.period, pitchValue);
  }

  lemma UpdatedAgreesFresh(t: TuningValue, r: PitchRatio, pitchValue: PitchRatio -> real)
    requires Consistent(t, pitchValue)
    ensures Updated(t, r, pitchValue).value == FreshValue(r, pitchValue)
  {
    if Agrees(t, r) {
      assert PitchRatio(t.n, t.d, t.pn, t.pd) == r;
    }
  }

  /** The loop of Recalculate: every key's clamped pitch, through SetPitch. */
  method WriteClampedTable(unit: ChannelTuningUnit, rootIndex: int, period: real, periodPitches: array<real>)
    requires unit.Valid() && periodPitches.Length >= 1
    modifies unit
    ensures unit.Valid()
    ensures unit.pitches == ClampedTable(rootIndex, period, periodPitches[..])
    ensures unit.offset == old(unit.offset) && unit.ratio == old(unit.ratio)
    ensures unit.generator == old(unit.generator) && unit.period == old(unit.period)
  {
    var keyCount := periodPitches.Length;
    ghost var sorted := periodPitches[..];
    for i := 0 to 128
      invariant unit.Valid()
      invariant forall k :: 0 <= k < i ==> unit.pitches[k] == ClampedKeyPitch(k, rootIndex, period, sorted)
      invariant unit.offset == old(unit.offset) && unit.ratio == old(unit.ratio)
      invariant unit.generator == old(unit.generator) && unit.period == old(unit.period)
    {
      var relativeKey := i - rootIndex;
      var periodCount, index := TruncDiv(relativeKey, keyCount), TruncRem(relativeKey, keyCount);
      if relativeKey < 0 && index != 0 {
        periodCount := periodCount - 1;
        index := index + keyCount;
      }
      assert (periodCount, index) == KeyDecompose(relativeKey, keyCount);
      var pitch := ClampReal(period * periodCount as real + periodPitches[index], 0.0, 128.0);
      assert pitch == ClampedKeyPitch(i, rootIndex, period, sorted);
      unit.SetPitch(i, pitch);
    }
  }

  /** ChannelTuningConfig: the cached inputs of one channel's table. */
  class ChannelTuningConfig {
    const tuningUnit: TuningUnit
    const unit: ChannelTuningUnit
    var root: int
    var keyPeriod: int
    var offset: int
    var ratio: TuningValue
    var generator: TuningValue
    var period: TuningValue

    function Snapshot(): Cache
      reads this
    {
      Cache(root, keyPeriod, offset, ratio, generator, period)
    }

    function Read(): Inputs
      reads tuningUnit, unit
    {
      Inputs(tuningUnit.root, tuningUnit.keyPeriod, unit.offset, unit.ratio, unit.generator, unit.period)
    }

    constructor (tuningUnit: TuningUnit, unit: ChannelTuningUnit, pitchValue: PitchRatio -> real)
      ensures this.tuningUnit == tuningUnit && this.unit == unit
      ensures Snapshot() == FromInputs(Read(), pitchValue)
    {
      this.tuningUnit := tuningUnit;
      this.unit := unit;
      root := tuningUnit.root;
      keyPeriod := tuningUnit.keyPeriod;
      offset := unit.offset;
      ratio := FreshValue(unit.ratio, pitchValue);
      generator := FreshValue(unit.generator, pitchValue);
      period := FreshValue(unit.period, pitchValue);
    }

    /**
     * The condition of Recalculate's early return, evaluated left to right with the
     * side effects of the Updated calls it reaches.
     */
    method CheckForChanges(pitchValue: PitchRatio -> real) returns (same: bool)
      modifies this
      ensures same == EarlyReturnCheck(old(Snapshot()), Read(), pitchValue).skip
      ensures Snapshot() == EarlyReturnCheck(old(Snapshot()), Read(), pitchValue).cache
    {
      var newOffset := unit.offset;
      var newRoot := tuningUnit.root;
      var newKeyPeriod := tuningUnit.keyPeriod;
      same := offset == newOffset && root == newRoot && keyPeriod == newKeyPeriod;
      if same {
        var result := Updated(ratio, unit.ratio, pitchValue);
        ratio := result.value;
        same := !result.updated;
      }
      if same {
        var result := Updated(generator, unit.generator, pitchValue);
        generator := result.value;
        same := !result.updated;
      }
      if same {
        var result := Updated(period, unit.period, pitchValue);
        period := result.value;
        same := !result.updated;
      }
    }

    /** The part of Recalculate after the early return: cache the keys, then write the clamped table. */
    method Rebuild(fmod: (real, real) -> real)
      requires unit.Valid() && tuningUnit.keyPeriod >= 1
      modifies this, unit
      ensures unit.Valid() && Read() == old(Read())
      ensures Snapshot() == old(Snapshot()).(offset := unit.offset, root := tuningUnit.root, keyPeriod := tuningUnit.keyPeriod)
      ensures unit.pitches == TableOf(Snapshot(), fmod)
    {
      offset := unit.offset;
      root := tuningUnit.root;
      keyPeriod := tuningUnit.keyPeriod;
      ghost var expected := TableOf(Snapshot(), fmod);
      var basePitch := root as real + ratio.value;
      var periodPitches := SortedPeriodPitches(keyPeriod, offset, generator.value, period.value, basePitch, fmod);
      assert expected == ClampedTable(root, period.value, periodPitches[..]);
      WriteClampedTable(unit, root, period.value, periodPitches);
    }

    /**
     * Recalculate as written: returns without writing when nothing it compares reports a
     * change; otherwise caches the new keys and writes the clamped table of the cache.
     */
    method Recalculate(pitchValue: PitchRatio -> real, fmod: (real, real) -> real)
      requires unit.Valid() && tuningUnit.keyPeriod >= 1
      modifies this, unit
      ensures unit.Valid()
      ensures Snapshot() == Recalculated(old(Snapshot()), old(Read()), pitchValue)
      ensures EarlyReturnCheck(old(Snapshot()), old(Read()), pitchValue).skip ==> unit.pitches == old(unit.pitches)
      ensures !EarlyReturnCheck(old(Snapshot()), old(Read()), pitchValue).skip ==> unit.pitches == TableOf(Snapshot(), fmod)
      ensures Read() == old(Read())
    {
      var same := CheckForChanges(pitchValue);
      if same {
        return;
      }
      Rebuild(fmod);
    }

    /**
     * Recalculate with every Updated evaluated before the decision: the cache always ends up
     * the one the current inputs give, and a written table is the table of those inputs.
     */
    method RecalculateFully(pitchValue: PitchRatio -> real, fmod: (real, real) -> real)
      requires unit.Valid() && tuningUnit.keyPeriod >= 1
      requires Consistent(ratio, pitchValue) && Consistent(generator, pitchValue) && Consistent(period, pitchValue)
      modifies this, unit
      ensures unit.Valid()
      ensures Snapshot() == FromInputs(old(Read()), pitchValue)
      ensures EarlyReturnCheck(old(Snapshot()), old(Read()), pitchValue).skip ==> unit.pitches == old(unit.pitches)
      ensures !EarlyReturnCheck(old(Snapshot()), old(Read()), pitchValue).skip ==>
                unit.pitches == TableOf(FromInputs(old(Read()), pitchValue), fmod)
      ensures Read() == old(Read())
    {
      ghost var c0, inputs := Snapshot(), Read();
      RecalculatedFullyIsFresh(c0, inputs, pitchValue);
      var keysSame := offset == unit.offset && root == tuningUnit.root && keyPeriod == tuningUnit.keyPeriod;
      var ratioResult := Updated(ratio, unit.ratio, pitchValue);
      var generatorResult := Updated(generator, unit.generator, pitchValue);
      var periodResult := Updated(period, unit.period, pitchValue);
      ratio, generator, period := ratioResult.value, generatorResult.value, periodResult.value;
      assert Snapshot().(offset := unit.offset, root := tuningUnit.root, keyPeriod := tuningUnit.keyPeriod) ==
             RecalculatedFully(c0, inputs, pitchValue);
      if keysSame && !ratioResult.updated && !generatorResult.updated && !periodResult.updated {
        return;
      }
      Rebuild(fmod);
    }
  }
}
