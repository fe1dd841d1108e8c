/**
 * The configuration caches and the per-sample voice of Tsumiki.Core/StackedVoice.cs:
 * GliderConfig, StackConfig with its detune and pan tables, the filter-mix fields of
 * ConfigSet and TickData, and the state handling of StackedVoice.TickAndRender.
 * Math.Pow, the oscillators, the filters and the newer SynthVoice.Tick that reports a
 * voice event are not among the modelled sources; they enter as parameters.
 */
module StackedVoice {
  import opened Common
  import opened Delay
  import opened CoreSynthVoice

  /** MathT.MaxStackCount: the length of every Stacked<T> buffer. */
  const MaxStackCount: int := 7

  /** StackMode: Unison detunes copies of one pitch; any other mode stacks harmonics. */
  datatype StackMode = Unison | Harmonic

  /** The input unit's parameters read by the stack and glide configs. */
  datatype InputUnit = InputUnit(bend: int, glide: int, stack: int, stackMode: StackMode,
                                 stackDetune: int, stackStereo: real)

  // ---------------------------------------------------------------- GliderConfig

  /** What a FilterConfigD was derived from: 50 - glide and the sample rate. */
  datatype GlideFilter = GlideFilter(cutoff: int, sampleRate: real)

  /** The fields of a GliderConfig. */
  datatype Glider = Glider(glide: int, sampleRate: real, enable: bool, polyphony: bool, filter: GlideFilter)

  /** The flags describe the cached glide: Enable for a positive one, Polyphony for a negative one. */
  predicate FlagsMatch(g: Glider)
  {
    g.enable == (g.glide > 0) && g.polyphony == (g.glide < 0)
  }

  /** The constructor as written: the flags come from the unit but the cached glide stays 0. */
  function NewGliderAsWritten(unitGlide: int, sampleRate: real): (g: Glider)
    ensures g.glide == 0 && g.sampleRate == sampleRate
    ensures g.enable == (unitGlide > 0) && g.polyphony == (unitGlide < 0)
  {
    Glider(0, sampleRate, unitGlide > 0, unitGlide < 0, GlideFilter(50 - unitGlide, sampleRate))
  }

  /** The constructor with the cached glide taken from the unit, as Recalculate assumes. */
  function NewGlider(unitGlide: int, sampleRate: real): (g: Glider)
    ensures FlagsMatch(g) && g.glide == unitGlide && g.sampleRate == sampleRate
    ensures g.filter == GlideFilter(50 - unitGlide, sampleRate)
  {
    Glider(unitGlide, sampleRate, unitGlide > 0, unitGlide < 0, GlideFilter(50 - unitGlide, sampleRate))
  }

  /** GliderConfig.Recalculate on the fields. */
  function GliderRecalculated(g: Glider, unitGlide: int, sampleRate: real): (r: Glider)
    ensures g.glide == unitGlide && g.sampleRate == sampleRate ==> r == g
    ensures r.glide == unitGlide && r.sampleRate == sampleRate
    ensures unitGlide <= 0 ==> r.filter == g.filter
  {
    if g.glide == unitGlide && g.sampleRate == sampleRate then g
    else
      Glider(unitGlide, sampleRate, unitGlide > 0, unitGlide < 0,
             if unitGlide > 0 then GlideFilter(50 - unitGlide, sampleRate) else g.filter)
  }

  /**
   * From fields whose flags match the cached glide, Recalculate leaves flags that match
   * the unit's glide: glide is enabled exactly for a positive glide, polyphony exactly
   * for a negative one, never both; a positive glide has its filter re-derived.
   */
  lemma GliderFollowsUnit(g: Glider, unitGlide: int, sampleRate: real)
    requires FlagsMatch(g)
    ensures var r := GliderRecalculated(g, unitGlide, sampleRate);
            FlagsMatch(r) && (r.enable <==> unitGlide > 0) && (r.polyphony <==> unitGlide < 0) &&
            !(r.enable && r.polyphony) &&
            (unitGlide > 0 && (g.glide != unitGlide || g.sampleRate != sampleRate) ==>
               r.filter == GlideFilter(50 - unitGlide, sampleRate))
  {
  }

  /** Recalculating twice with the same values is recalculating once. */
  lemma GliderRecalculateIdempotent(g: Glider, unitGlide: int, sampleRate: real)
    ensures GliderRecalculated(GliderRecalculated(g, unitGlide, sampleRate), unitGlide, sampleRate) ==
              GliderRecalculated(g, unitGlide, sampleRate)
  {
  }

  /**
   * As written, a config built with Glide = 10 keeps glide enabled after the unit's
   * Glide is set to 0 and Recalculate runs at the same sample rate: the cached 0 equals
   * the new glide, so Recalculate returns before touching the flags.
   */
  lemma StaleEnableAfterGlideCleared()
    ensures var g := GliderRecalculated(NewGliderAsWritten(10, 44100.0), 0, 44100.0);
            g.enable && g.glide == 0 && !FlagsMatch(g)
  {
  }

  /** GliderConfig: the glide flags and filter derived from the unit's Glide. */
  class GliderConfig {
    var glide: int
    var sampleRate: real
    var enable: bool
    var polyphony: bool
    var filter: GlideFilter

    function Snapshot(): Glider
      reads this
    {
      Glider(glide, sampleRate, enable, polyphony, filter)
    }

    /** The constructor as written: flags and filter from the unit, the cached glide left at 0. */
    constructor (unitGlide: int, sampleRate: real)
      ensures Snapshot() == NewGliderAsWritten(unitGlide, sampleRate)
    {
      glide := 0;
      this.sampleRate := sampleRate;
      enable := unitGlide > 0;
      polyphony := unitGlide < 0;
      filter := GlideFilter(50 - unitGlide, sampleRate);
    }

    /** Recalculate: nothing when glide and sample rate are unchanged, otherwise both flags and, for a positive glide, the filter. */
    method Recalculate(unitGlide: int, sampleRate: real)
      modifies this
      ensures Snapshot() == GliderRecalculated(old(Snapshot()), unitGlide, sampleRate)
    {
      var newGlide := unitGlide;
      if glide == newGlide && this.sampleRate == sampleRate {
        return;
      }
      glide := newGlide;
      this.sampleRate := sampleRate;
      enable := glide > 0;
      polyphony := glide < 0;
      if glide > 0 {
        filter := GlideFilter(50 - glide, this.sampleRate);
      }
    }
  }

  // ---------------------------------------------------------------- StackConfig

  /** DetuneFactors: row k holds the detune factors of a k-voice unison. */
  const DetuneFactors: seq<seq<int>> := [
    [],
    [0],
    [-1, 1],
    [0, -4, 4],
    [-1, 1, -9, 9],
    [0, -4, 4, -16, 16],
    [-1, 1, -9, 9, -25, 25],
    [0, -4, 4, -16, 16, 36, -36]
  ]

  /** PanFactors: row k holds the pan factors of a k-voice stack. */
  const PanFactors: seq<seq<int>> := [
    [],
    [0],
    [-1, 1],
    [0, -2, 2],
    [-1, 1, 3, -3],
    [0, -2, 2, 4, -4],
    [-1, 1, 3, -3, -5, 5],
    [0, -2, 2, 4, -4, -6, 6]
  ]

  /** The voice paired with voice i in a k-voice stack: neighbours (0, 1), (2, 3), ... for even k, (1, 2), (3, 4), ... for odd k. */
  function Partner(k: int, i: int): (j: int)
    ensures j == i + 1 || j == i - 1
  {
    if (i + k) % 2 == 0 then i + 1 else i - 1
  }

  /** Row k of both tables has exactly k entries, so factor[i] with i < Stack <= 7 is in range. */
  lemma FactorRowLengths(k: int)
    requires 0 <= k <= MaxStackCount
    ensures |DetuneFactors| == 8 && |PanFactors| == 8
    ensures |DetuneFactors[k]| == k && |PanFactors[k]| == k
  {
  }

  /**
   * Every row is centred: in a stack of odd size voice 0 has factor 0, and every other
   * voice has a partner in the stack whose detune and pan factors are the negated ones.
   */
  lemma FactorRowsCentred(k: int, i: int)
    requires 0 <= i < k <= MaxStackCount
    ensures k % 2 == 1 && i == 0 ==> DetuneFactors[k][i] == 0 && PanFactors[k][i] == 0
    ensures !(k % 2 == 1 && i == 0) ==>
              var j := Partner(k, i);
              0 <= j < k && DetuneFactors[k][j] == -DetuneFactors[k][i] && PanFactors[k][j] == -PanFactors[k][i]
  {
  }

  /** Every pan factor of row k lies strictly between -k and k. */
  lemma PanFactorsInsideRow(k: int, i: int)
    requires 0 <= i < k <= MaxStackCount
    ensures -k < PanFactors[k][i] < k
  {
  }

  /** The cached inputs of a StackConfig. */
  datatype StackCache = StackCache(stack: int, stackMode: StackMode, detune: int, stereo: real)

  function CacheOf(unit: InputUnit): StackCache
  {
    StackCache(unit.stack, unit.stackMode, unit.stackDetune, unit.stackStereo)
  }

  predicate RecalculatesPitch(c: StackCache, unit: InputUnit)
  {
    c.stack != unit.stack || c.stackMode != unit.stackMode || c.detune != unit.stackDetune
  }

  predicate RecalculatesPan(c: StackCache, unit: InputUnit)
  {
    c.stack != unit.stack || c.stereo != unit.stackStereo
  }

  /** Unison: voice i plays 2^(detune * factor[i] / 48000) times the pitch. */
  function UnisonPitches(prev: seq<real>, stack: int, detune: int, pow2: real -> real): (p: seq<real>)
    requires |prev| == MaxStackCount && 0 <= stack <= MaxStackCount
    ensures |p| == MaxStackCount
  {
    seq(MaxStackCount, i requires 0 <= i < MaxStackCount =>
      if i < stack then pow2((detune * DetuneFactors[stack][i]) as real / 48000.0) else prev[i])
  }

  /** Harmonics: voice i plays harmonic i + 1, and the last slot always plays the eighth. */
  function HarmonicPitches(prev: seq<real>, stack: int): (p: seq<real>)
    requires |prev| == MaxStackCount
    ensures |p| == MaxStackCount
  {
    seq(MaxStackCount, i requires 0 <= i < MaxStackCount =>
      if i == MaxStackCount - 1 then 8.0 else if i < stack then (i + 1) as real else prev[i])
  }

  /** The pitches of a recalculation for the given stack, mode and detune. */
  function PitchesFor(prev: seq<real>, stack: int, stackMode: StackMode, detune: int, pow2: real -> real): (p: seq<real>)
    requires |prev| == MaxStackCount && 0 <= stack <= MaxStackCount
    ensures |p| == MaxStackCount
  {
    if stackMode == Unison then UnisonPitches(prev, stack, detune, pow2) else HarmonicPitches(prev, stack)
  }

  /** The pan of voice i of a stack: its factor times the stereo width, over the stack size. */
  function VoicePan(stack: int, stereo: real, i: int): real
    requires 0 <= i < stack <= MaxStackCount
  {
    PanFactors[stack][i] as real * stereo / stack as real
  }

  /** The pans of a recalculation: all 0 for a zero stereo width, otherwise factor[i] * stereo / stack for the stack's voices. */
  function PansFor(prev: seq<real>, stack: int, stereo: real): (p: seq<real>)
    requires |prev| == MaxStackCount && 0 <= stack <= MaxStackCount
    ensures |p| == MaxStackCount
  {
    if stereo == 0.0 then seq(MaxStackCount, i => 0.0)
    else
      seq(MaxStackCount, i requires 0 <= i < MaxStackCount =>
        if i < stack then VoicePan(stack, stereo, i) else prev[i])
  }

  /** Pitches after Recalculate. */
  function StackPitches(prev: seq<real>, c: StackCache, unit: InputUnit, pow2: real -> real): (p: seq<real>)
    requires |prev| == MaxStackCount && 0 <= unit.stack <= MaxStackCount
    ensures |p| == MaxStackCount
    ensures !RecalculatesPitch(c, unit) ==> p == prev
  {
    if !RecalculatesPitch(c, unit) then prev
    else PitchesFor(prev, unit.stack, unit.stackMode, unit.stackDetune, pow2)
  }

  /** Pans after Recalculate. */
  function StackPans(prev: seq<real>, c: StackCache, unit: InputUnit): (p: seq<real>)
    requires |prev| == MaxStackCount && 0 <= unit.stack <= MaxStackCount
    ensures |p| == MaxStackCount
    ensures !RecalculatesPan(c, unit) ==> p == prev
    ensures RecalculatesPan(c, unit) && unit.stackStereo == 0.0 ==> forall i :: 0 <= i < MaxStackCount ==> p[i] == 0.0
  {
    if !RecalculatesPan(c, unit) then prev
    else PansFor(prev, unit.stack, unit.stackStereo)
  }

  /**
   * The harmonic stack: voice i of the first six plays harmonic i + 1, the seventh slot
   * the eighth harmonic; a full stack plays 1, 2, 3, 4, 5, 6, 8.
   */
  lemma HarmonicSeries(prev: seq<real>, stack: int)
    requires |prev| == MaxStackCount
    ensures forall i :: 0 <= i < stack && i < MaxStackCount - 1 ==> HarmonicPitches(prev, stack)[i] == (i + 1) as real
    ensures HarmonicPitches(prev, stack)[MaxStackCount - 1] == 8.0
    ensures stack == MaxStackCount ==> HarmonicPitches(prev, stack) == [1.0, 2.0, 3.0, 4.0, 5.0, 6.0, 8.0]
  {
  }

  /** Without detune, and with 2^0 = 1, every unison voice plays the pitch itself. */
  lemma UnisonWithoutDetune(prev: seq<real>, stack: int, pow2: real -> real)
    requires |prev| == MaxStackCount && 0 <= stack <= MaxStackCount && pow2(0.0) == 1.0
    ensures forall i :: 0 <= i < stack ==> UnisonPitches(prev, stack, 0, pow2)[i] == 1.0
  {
    forall i | 0 <= i < stack
      ensures UnisonPitches(prev, stack, 0, pow2)[i] == 1.0
    {
      assert (0 * DetuneFactors[stack][i]) as real / 48000.0 == 0.0;
    }
  }

  /** A factor no larger than k, times s, divided by k, is no larger than s. */
  lemma ScaledWithin(f: real, s: real, k: real)
    requires k > 0.0 && -k <= f <= k
    ensures Abs(f * s / k) <= Abs(s)
  {
    var q := f / k;
    assert -1.0 <= q <= 1.0;
    assert f * s / k == q * s;
    if s >= 0.0 {
      assert -s <= q * s <= s;
    } else {
      assert s <= q * s <= -s;
    }
  }

  /** A stack voice's pan is never wider than the stereo width. */
  lemma PanWithinStereo(prev: seq<real>, c: StackCache, unit: InputUnit, i: int)
    requires |prev| == MaxStackCount && 0 <= i < unit.stack <= MaxStackCount && RecalculatesPan(c, unit)
    ensures Abs(StackPans(prev, c, unit)[i]) <= Abs(unit.stackStereo)
  {
    if unit.stackStereo != 0.0 {
      assert StackPans(prev, c, unit)[i] == VoicePan(unit.stack, unit.stackStereo, i);
      PanFactorsInsideRow(unit.stack, i);
      ScaledWithin(PanFactors[unit.stack][i] as real, unit.stackStereo, unit.stack as real);
    }
  }

  /** StackConfig: the cached stack inputs and the per-voice pitch factors and pans. */
  class StackConfig {
    var stack: int
    var stackMode: StackMode
    var detune: int
    var stereo: real
    const pitches: array<real>
    const pans: array<real>

    ghost predicate Valid()
      reads this
    {
      pitches.Length == MaxStackCount && pans.Length == MaxStackCount && pitches != pans
    }

    function Cache(): StackCache
      reads this
    {
      StackCache(stack, stackMode, detune, stereo)
    }

    /** A new config caches Stack 0 and holds all-zero pitches and pans until its first Recalculate. */
    constructor ()
      ensures Valid() && fresh(pitches) && fresh(pans)
      ensures Cache() == StackCache(0, Unison, 0, 0.0)
      ensures pitches[..] == seq(MaxStackCount, i => 0.0) && pans[..] == seq(MaxStackCount, i => 0.0)
    {
      stack, stackMode, detune, stereo := 0, Unison, 0, 0.0;
      pitches := new real[MaxStackCount](i => 0.0);
      pans := new real[MaxStackCount](i => 0.0);
    }

    /**
     * Recalculate: pitches when Stack, StackMode or StackDetune changed, pans when Stack
     * or StackStereo changed; the new inputs are cached in every case.
     */
    method Recalculate(unit: InputUnit, pow2: real -> real)
      requires Valid() && 0 <= unit.stack <= MaxStackCount
      modifies this, pitches, pans
      ensures Valid() && Cache() == CacheOf(unit)
      ensures pitches[..] == StackPitches(old(pitches[..]), old(Cache()), unit, pow2)
      ensures pans[..] == StackPans(old(pans[..]), old(Cache()), unit)
    {
      var recalculatePitch := stack != unit.stack || stackMode != unit.stackMode || detune != unit.stackDetune;
      var recalculatePan := stack != unit.stack || stereo != unit.stackStereo;
      ghost var oldPans := pans[..];
      stack := unit.stack;
      detune := unit.stackDetune;
      stackMode := unit.stackMode;
      stereo := unit.stackStereo;
      if recalculatePitch {
        WritePitches(pitches, stack, stackMode, detune, pow2);
      }
      assert pans[..] == oldPans;
      if recalculatePan {
        WritePans(pans, stack, stereo);
      }
    }
  }

  /** The pitch loops of Recalculate. */
  method WritePitches(pitches: array<real>, stack: int, stackMode: StackMode, detune: int, pow2: real -> real)
    requires pitches.Length == MaxStackCount && 0 <= stack <= MaxStackCount
    modifies pitches
    ensures pitches[..] == PitchesFor(old(pitches[..]), stack, stackMode, detune, pow2)
  {
    ghost var prev := pitches[..];
    if stackMode == Unison {
      var factor := DetuneFactors[stack];
      for i := 0 to stack
        invariant forall k :: 0 <= k < i ==> pitches[k] == pow2((detune * factor[k]) as real / 48000.0)
        invariant forall k :: i <= k < MaxStackCount ==> pitches[k] == prev[k]
      {
        pitches[i] := pow2((detune * factor[i]) as real / 48000.0);
      }
      assert pitches[..] == UnisonPitches(prev, stack, detune, pow2);
    } else {
      for i := 0 to stack
        invariant forall k :: 0 <= k < i ==> pitches[k] == (k + 1) as real
        invariant forall k :: i <= k < MaxStackCount ==> pitches[k] == prev[k]
      {
        pitches[i] := (i + 1) as real;
      }
      pitches[MaxStackCount - 1] := 8.0;
      assert pitches[..] == HarmonicPitches(prev, stack);
    }
  }

  /** The pan branch of Recalculate: clear for zero stereo, otherwise the loop over the stack. */
  method WritePans(pans: array<real>, stack: int, stereo: real)
    requires pans.Length == MaxStackCount && 0 <= stack <= MaxStackCount
    modifies pans
    ensures pans[..] == PansFor(old(pans[..]), stack, stereo)
  {
    ghost var prev := pans[..];
    if stereo == 0.0 {
      forall i | 0 <= i < MaxStackCount {
        pans[i] := 0.0;
      }
      assert pans[..] == PansFor(prev, stack, stereo);
    } else {
      var factor := PanFactors[stack];
      FactorRowLengths(stack);
      for i := 0 to stack
        invariant forall k :: 0 <= k < i ==> pans[k] == VoicePan(stack, stereo, k)
        invariant forall k :: i <= k < MaxStackCount ==> pans[k] == prev[k]
      {
        pans[i] := factor[i] as real * stereo / stack as real;
      }
      assert pans[..] == PansFor(prev, stack, stereo);
    }
  }

  // ---------------------------------------------------------------- filter mix

  /** UseFilter is set exactly for a non-zero mix, and the dry share is 1 - mix. */
  predicate MixConsistent(useFilter: bool, filterMix: real, filterSource: real)
  {
    useFilter == (filterMix != 0.0) && filterSource == 1.0 - filterMix
  }

  /** TickData: the per-frame copy of the sample rate and the filter mix. */
  datatype TickData = TickData(sampleRate: real, useFilter: bool, filterMix: real, filterSource: real)

  function NewTickData(sampleRate: real, filterMix: real): (t: TickData)
    ensures t.sampleRate == sampleRate && t.filterMix == filterMix
    ensures MixConsistent(t.useFilter, t.filterMix, t.filterSource)
  {
    TickData(sampleRate, filterMix != 0.0, filterMix, 1.0 - filterMix)
  }

  /** The output of one side: the filtered mix when UseFilter is set, the dry signal otherwise. */
  function MixedOutput(useFilter: bool, filterMix: real, filterSource: real, dry: real, filtered: real): real
  {
    if useFilter then filterSource * dry + filterMix * filtered else dry
  }

  /**
   * With consistent fields the branch on UseFilter loses nothing: the output is always
   * the cross-fade from the dry to the filtered signal by the mix.
   */
  lemma MixedOutputIsCrossfade(useFilter: bool, filterMix: real, filterSource: real, dry: real, filtered: real)
    requires MixConsistent(useFilter, filterMix, filterSource)
    ensures MixedOutput(useFilter, filterMix, filterSource, dry, filtered) == dry + filterMix * (filtered - dry)
  {
    if useFilter {
      assert filterSource * dry == dry - filterMix * dry;
    }
  }

  /** The model values ConfigSet reads. */
  datatype ModelValues = ModelValues(master: real, pitchBend: real, input: InputUnit, filterMix: real, delay: DelayUnit)

  /**
   * ConfigSet: the delay, stack and glide configs with the master, pitch-bend and
   * filter-mix fields. The filter and oscillator configs are not part of this model.
   */
  class ConfigSet {
    const delay: DelayConfig
    const stack: StackConfig
    const glide: GliderConfig
    var master: real
    var pitchBend: real
    var useFilter: bool
    var filterMix: real
    var filterSource: real

    ghost predicate Valid()
      reads this, stack
    {
      stack.Valid() && MixConsistent(useFilter, filterMix, filterSource)
    }

    constructor (model: ModelValues, sampleRate: real)
      ensures Valid() && fresh(delay) && fresh(stack) && fresh(glide) && fresh(stack.pitches) && fresh(stack.pans)
      ensures delay.Settings() == SettingsFor(model.delay, sampleRate)
      ensures glide.Snapshot() == NewGliderAsWritten(model.input.glide, sampleRate)
      ensures master == model.master && pitchBend == model.pitchBend * model.input.bend as real
      ensures filterMix == model.filterMix
    {
      delay := new DelayConfig(model.delay, sampleRate);
      stack := new StackConfig();
      glide := new GliderConfig(model.input.glide, sampleRate);
      master := model.master;
      pitchBend := model.pitchBend * model.input.bend as real;
      useFilter := model.filterMix != 0.0;
      filterMix := model.filterMix;
      filterSource := 1.0 - model.filterMix;
    }

    /**
     * Recalculate: every sub-config recalculated, master and pitch bend copied, and the
     * three mix fields refreshed only when the mix changed.
     */
    method Recalculate(model: ModelValues, sampleRate: real, pow2: real -> real)
      requires Valid() && 0 <= model.input.stack <= MaxStackCount
      requires delay != glide as object && stack != glide as object && delay != stack as object
      modifies this, delay, stack, stack.pitches, stack.pans, glide
      ensures Valid() && filterMix == model.filterMix
      ensures old(filterMix) == model.filterMix ==> useFilter == old(useFilter) && filterSource == old(filterSource)
      ensures master == model.master && pitchBend == model.pitchBend * model.input.bend as real
      ensures delay.Settings() == SettingsFor(model.delay, sampleRate)
      ensures stack.Cache() == CacheOf(model.input)
      ensures stack.pitches[..] == StackPitches(old(stack.pitches[..]), old(stack.Cache()), model.input, pow2)
      ensures stack.pans[..] == StackPans(old(stack.pans[..]), old(stack.Cache()), model.input)
      ensures glide.Snapshot() == GliderRecalculated(old(glide.Snapshot()), model.input.glide, sampleRate)
    {
      delay.Recalculate(model.delay, sampleRate);
      stack.Recalculate(model.input, pow2);
      glide.Recalculate(model.input.glide, sampleRate);
      master := model.master;
      pitchBend := model.pitchBend * model.input.bend as real;
      if filterMix != model.filterMix {
        filterMix := model.filterMix;
        useFilter := filterMix != 0.0;
        filterSource := 1.0 - filterMix;
      }
    }
  }

  // ---------------------------------------------------------------- StackedVoice

  /** The voice events of the newer SynthVoice.Tick that TickAndRender dispatches on. */
  datatype VoiceEvent = NoEvent | StartNote | RestartNote | PitchChanged

  /** What TickAndRender runs for an event before rendering. */
  datatype EventCall = NoCall | StartNoteCall | RestartNoteCall | FilterPitchCall

  function EventCallFor(e: VoiceEvent): (c: EventCall)
    ensures (c == StartNoteCall) <==> e == StartNote
    ensures (c == RestartNoteCall) <==> e == RestartNote
    ensures (c == FilterPitchCall) <==> e == PitchChanged
  {
    match e
    case StartNote => StartNoteCall
    case RestartNote => RestartNoteCall
    case PitchChanged => FilterPitchCall
    case NoEvent => NoCall
  }

  /** One stacked oscillator's output: left, right and envelope level. */
  datatype OscOut = OscOut(left: real, right: real, level: real)

  /** The voice state after the release check: a releasing voice whose two levels are 0 goes inactive. */
  function StateAfterRender(ticked: VoiceState, levelA: real, levelB: real): (s: VoiceState)
    ensures ticked != Release ==> s == ticked
    ensures ticked == Release ==> (s == Inactive <==> levelA == 0.0 && levelB == 0.0)
    ensures ticked == Release && !(levelA == 0.0 && levelB == 0.0) ==> s == Release
  {
    if ticked == Release && levelA == 0.0 && levelB == 0.0 then Inactive else ticked
  }

  /** A voice that is still releasing after rendering has an oscillator with a non-zero level. */
  lemma ReleasingVoiceIsAudible(ticked: VoiceState, levelA: real, levelB: real)
    ensures StateAfterRender(ticked, levelA, levelB) == Release ==> levelA != 0.0 || levelB != 0.0
    ensures StateAfterRender(ticked, levelA, levelB) == Inactive ==> ticked == Inactive || ticked == Release
  {
  }

  /** StackedVoice: the voice state the per-sample render changes. */
  class StackedVoiceState {
    var state: VoiceState

    constructor ()
      ensures state == Inactive
    {
      state := Inactive;
    }

    /**
     * TickAndRender: the tick's state and event (from SynthVoice.Tick), the event call,
     * then silence for an inactive voice, the release check, and the mixed output of the
     * two oscillators divided by the stack size.
     */
    method TickAndRender(ticked: VoiceState, event: VoiceEvent, oscA: bool -> OscOut, oscB: bool -> OscOut,
                         stackSize: int, tick: TickData, leftFilter: real -> real, rightFilter: real -> real)
      returns (left: real, right: real, call: EventCall)
      requires stackSize >= 1
      modifies this
      ensures call == EventCallFor(event)
      ensures ticked == Inactive ==> state == Inactive && (left, right) == (0.0, 0.0)
      ensures ticked != Inactive ==>
                var a := oscA(ticked == Active);
                var b := oscB(ticked == Active);
                state == StateAfterRender(ticked, a.level, b.level) &&
                (state == Inactive ==> (left, right) == (0.0, 0.0)) &&
                (state != Inactive ==>
                   var dryLeft := (a.left + b.left) / stackSize as real;
                   var dryRight := (a.right + b.right) / stackSize as real;
                   left == MixedOutput(tick.useFilter, tick.filterMix, tick.filterSource, dryLeft, leftFilter(dryLeft)) &&
                   right == MixedOutput(tick.useFilter, tick.filterMix, tick.filterSource, dryRight, rightFilter(dryRight)))
    {
      state := ticked;
      match event {
        case StartNote => call := StartNoteCall;
        case RestartNote => call := RestartNoteCall;
        case PitchChanged => call := FilterPitchCall;
        case NoEvent => call := NoCall;
      }
      if state == Inactive {
        return 0.0, 0.0, call;
      }
      var noteOn := state == Active;
      var a := oscA(noteOn);
      var b := oscB(noteOn);
      if state == Release && a.level == 0.0 && b.level == 0.0 {
        state := Inactive;
        return 0.0, 0.0, call;
      }
      var l := (a.left + b.left) / stackSize as real;
      var r := (a.right + b.right) / stackSize as real;
      if tick.useFilter {
        left := tick.filterSource * l + tick.filterMix * leftFilter(l);
        right := tick.filterSource * r + tick.filterMix * rightFilter(r);
      } else {
        left, right := l, r;
      }
    }
  }
}
