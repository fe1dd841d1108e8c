/**
 * The sample MIDI synthesizer of Tsumiki/SampleMidi.cs: a class-based four-state sine voice
 * and the processor that allocates 16 of them. The voice's fields are pictured by the value
 * VoiceData; each voice method is specified by a function on that value.
 */
module SampleMidi {
  import opened Common

  datatype VoiceState = Inactive | Pending | Active | Release

  datatype VoiceData = VoiceData(
    state: VoiceState,
    phase: real,
    phaseIncrement: real,
    currentVolume: real,
    targetVolume: real,
    delaySamples: int,
    noteNumber: int,
    noteId: int)

  /** Each rendered sample moves the volume 0.001 of the way to the target (VolumeSmoothing). */
  const VolumeSmoothing: real := 0.001

  /** A releasing voice whose volume is below this stops (0.0001f). */
  const SilenceThreshold: real := 0.0001

  /** 2 * Math.PI, the phase period. */
  const TwoPi: real := 2.0 * 3.141592653589793

  const MaxVoices: nat := 16

  /** The state the constructor establishes. */
  const InitialData: VoiceData := VoiceData(Inactive, 0.0, 0.0, 0.0, 0.0, 0, -1, -1)

  /**
   * NoteOn as a value. phaseIncrement stands for 2 * Math.PI * 440 * 2^((noteNumber - 69) / 12) / sampleRate.
   */
  function NoteOnSpec(d: VoiceData, noteNumber: int, velocity: real, noteId: int, sampleRate: real,
                      sampleOffset: int, phaseIncrement: (int, real) -> real): (r: VoiceData)
    ensures r.noteNumber == noteNumber && r.noteId == noteId
    ensures r.phase == 0.0 && r.phaseIncrement == phaseIncrement(noteNumber, sampleRate)
    ensures r.targetVolume == velocity && r.delaySamples == sampleOffset
    ensures r.state == Pending <==> sampleOffset > 0
    ensures r.state == Active <==> sampleOffset <= 0
    ensures r.currentVolume == d.currentVolume
  {
    VoiceData(if sampleOffset > 0 then Pending else Active, 0.0, phaseIncrement(noteNumber, sampleRate),
              d.currentVolume, velocity, sampleOffset, noteNumber, noteId)
  }

  /**
   * NoteOff as a value: target 0 after sampleOffset samples; an Active voice at delay 0 releases at once.
   * It reads like CoreProcessor.NoteOff, but the two voices are separate classes of separate
   * processors whose renders differ (phase period, smoothing, retirement), so each keeps its own state type.
   */
  function NoteOffSpec(d: VoiceData, sampleOffset: int): (r: VoiceData)
    ensures r.targetVolume == 0.0 && r.delaySamples == sampleOffset
    ensures r.state == Release <==> d.state == Release || (d.state == Active && sampleOffset == 0)
    ensures r.state != Release ==> r.state == d.state
    ensures r.(state := d.state, targetVolume := d.targetVolume, delaySamples := d.delaySamples) == d
  {
    d.(delaySamples := sampleOffset, targetVolume := 0.0,
       state := if d.state == Active && sampleOffset == 0 then Release else d.state)
  }

  /** The countdown step of RenderSample. */
  function CountdownSpec(d: VoiceData): (r: VoiceData)
    ensures d.delaySamples <= 0 ==> r == d
    ensures d.delaySamples > 0 ==> r.delaySamples == d.delaySamples - 1
    ensures d.delaySamples > 1 ==> r.state == d.state
    ensures d.delaySamples == 1 && d.state == Pending ==> r.state == Active
    ensures d.delaySamples == 1 && d.state != Pending ==>
              r.state == (if d.targetVolume == 0.0 then Release else d.state)
    ensures r.(state := d.state, delaySamples := d.delaySamples) == d
  {
    if d.delaySamples > 0 then
      var n := d.delaySamples - 1;
      d.(delaySamples := n,
         state := if n == 0 && d.state == Pending then Active
                  else if n == 0 && d.targetVolume == 0.0 then Release
                  else d.state)
    else d
  }

  datatype Rendered = Rendered(voice: VoiceData, output: real)

  /** The volume after one smoothing step towards the target. */
  function SmoothedVolume(c: VoiceData): real
  {
    c.currentVolume + (c.targetVolume - c.currentVolume) * VolumeSmoothing
  }

  /**
   * RenderSample as a value. A voice that is still Pending after a countdown step is silent; so is
   * an Inactive voice. Otherwise the volume is smoothed, sin(phase) * volume is emitted, the phase
   * advances with one wrap at 2 * pi, and a releasing voice below the threshold becomes Inactive.
   * sin stands for the float value of Math.Sin.
   */
  function RenderSpec(d: VoiceData, sin: real -> real): (r: Rendered)
    ensures d.delaySamples > 0 && CountdownSpec(d).state == Pending ==> r == Rendered(CountdownSpec(d), 0.0)
    ensures CountdownSpec(d).state == Inactive ==> r == Rendered(CountdownSpec(d), 0.0)
    ensures 0.0 <= d.phase < TwoPi && 0.0 <= d.phaseIncrement < TwoPi ==> 0.0 <= r.voice.phase < TwoPi
    ensures var c := CountdownSpec(d);
            !(d.delaySamples > 0 && c.state == Pending) && c.state != Inactive ==>
              r.output == sin(c.phase) * SmoothedVolume(c) && r.voice.currentVolume == SmoothedVolume(c)
    ensures var c := CountdownSpec(d);
            r.voice.state == Inactive <==>
              c.state == Inactive || (c.state == Release && Abs(SmoothedVolume(c)) < SilenceThreshold)
    ensures r.voice.state == Inactive && CountdownSpec(d).state != Inactive ==>
              CountdownSpec(d).state == Release && r.voice.noteNumber == -1 && r.voice.noteId == -1
    ensures r.voice.state != Inactive || CountdownSpec(d).state == Inactive ==>
              r.voice.noteNumber == d.noteNumber && r.voice.noteId == d.noteId
    ensures r.voice.state != Inactive ==> r.voice.state == CountdownSpec(d).state
    ensures r.voice.targetVolume == d.targetVolume && r.voice.phaseIncrement == d.phaseIncrement
  {
    var c := CountdownSpec(d);
    if d.delaySamples > 0 && c.state == Pending then Rendered(c, 0.0)
    else if c.state == Inactive then Rendered(c, 0.0)
    else PlaySpec(c, sin)
  }

  /**
   * The audible part of a render: the volume moved toward its target, the sample, the
   * phase advanced and wrapped, and a Release voice that has fallen silent freed.
   */
  function PlaySpec(c: VoiceData, sin: real -> real): Rendered
  {
    var volume := SmoothedVolume(c);
    var output := sin(c.phase) * volume;
    var advanced := c.phase + c.phaseIncrement;
    var phase := if advanced >= TwoPi then advanced - TwoPi else advanced;
    var w := c.(currentVolume := volume, phase := phase);
    if w.state == Release && Abs(volume) < SilenceThreshold then
      Rendered(w.(state := Inactive, noteNumber := -1, noteId := -1), output)
    else
      Rendered(w, output)
  }

  /**
   * The silence check for Pending sits inside the countdown branch: a Pending voice whose delay
   * NoteOff has set to 0 stays Pending and renders sound like an active voice.
   */
  lemma PendingWithoutDelayRenders(d: VoiceData, sin: real -> real)
    requires d.state == Pending && d.delaySamples == 0
    ensures NoteOffSpec(d, 0).state == Pending
    ensures RenderSpec(d, sin).voice.state == Pending
    ensures RenderSpec(d, sin).output == sin(d.phase) * (d.currentVolume + (d.targetVolume - d.currentVolume) * VolumeSmoothing)
  {
  }

  /** n successive renders. */
  function RenderN(d: VoiceData, n: nat, sin: real -> real): VoiceData
    decreases n
  {
    if n == 0 then d else RenderN(RenderSpec(d, sin).voice, n - 1, sin)
  }

  /** A note started with offset k > 0 is silent and Pending for k - 1 renders and Active after the k-th. */
  lemma {:induction false} DelayedNoteStartsOnTime(d: VoiceData, k: nat, sin: real -> real)
    requires d.state == Pending && k <= d.delaySamples
    ensures k < d.delaySamples ==> RenderN(d, k, sin).state == Pending
    ensures RenderN(d, k, sin).delaySamples == d.delaySamples - k
    ensures k == d.delaySamples && k > 0 ==> RenderN(d, k, sin).state == Active
    decreases k
  {
    if k > 0 {
      var w := RenderSpec(d, sin).voice;
      if d.delaySamples > 1 {
        assert w.state == Pending && w.delaySamples == d.delaySamples - 1;
        DelayedNoteStartsOnTime(w, k - 1, sin);
      } else {
        assert RenderN(w, 0, sin) == w;
      }
    }
  }

  /** The first inactive voice, else voice 0. */
  function FirstInactive(ds: seq<VoiceData>, from: nat): (k: nat)
    requires from <= |ds|
    ensures k == 0 || from <= k < |ds|
    ensures from <= k < |ds| && ds[k].state == Inactive ==> forall j :: from <= j < k ==> ds[j].state != Inactive
    ensures (exists j :: from <= j < |ds| && ds[j].state == Inactive) ==> from <= k < |ds| && ds[k].state == Inactive
    ensures (forall j :: from <= j < |ds| ==> ds[j].state != Inactive) ==> k == 0
    decreases |ds| - from
  {
    if from == |ds| then 0
    else if ds[from].state == Inactive then from
    else FirstInactive(ds, from + 1)
  }

  /** HandleNoteOff's condition: busy, and the same id, or the same pitch for a global note-off. */
  predicate ReleaseMatches(d: VoiceData, pitch: int, noteId: int)
  {
    d.state != Inactive && (d.noteId == noteId || (noteId == -1 && d.noteNumber == pitch))
  }

  /** Unlike Tsumiki.Core's processor, the inactive test here guards both alternatives. */
  lemma InactiveVoicesNeverMatch(d: VoiceData, pitch: int, noteId: int)
    requires d.state == Inactive
    ensures !ReleaseMatches(d, pitch, noteId)
  {
  }

  class SynthVoice {
    var state: VoiceState
    var phase: real
    var phaseIncrement: real
    var currentVolume: real
    var targetVolume: real
    var delaySamples: int
    var noteNumber: int
    var noteId: int

    function Data(): VoiceData
      reads this
    {
      VoiceData(state, phase, phaseIncrement, currentVolume, targetVolume, delaySamples, noteNumber, noteId)
    }

    constructor ()
      ensures Data() == InitialData
    {
      state := Inactive;
      phase := 0.0;
      phaseIncrement := 0.0;
      currentVolume := 0.0;
      targetVolume := 0.0;
      delaySamples := 0;
      noteNumber := -1;
      noteId := -1;
    }

    function IsInactive(): (b: bool)
      reads this
      ensures b <==> Data().state == Inactive
    {
      state == Inactive
    }

    method NoteOn(noteNumber: int, velocity: real, noteId: int, sampleRate: real, sampleOffset: int,
                  phaseIncrementOf: (int, real) -> real)
      modifies this
      ensures Data() == NoteOnSpec(old(Data()), noteNumber, velocity, noteId, sampleRate, sampleOffset, phaseIncrementOf)
    {
      this.noteNumber := noteNumber;
      this.noteId := noteId;
      phaseIncrement := phaseIncrementOf(noteNumber, sampleRate);
      phase := 0.0;
      targetVolume := velocity;
      delaySamples := sampleOffset;
      state := if delaySamples > 0 then Pending else Active;
    }

    method NoteOff(sampleOffset: int)
      modifies this
      ensures Data() == NoteOffSpec(old(Data()), sampleOffset)
    {
      delaySamples := sampleOffset;
      targetVolume := 0.0;
      if state == Active && delaySamples == 0 {
        state := Release;
      }
    }

    method RenderSample(sin: real -> real) returns (output: real)
      modifies this
      ensures Data() == RenderSpec(old(Data()), sin).voice
      ensures output == RenderSpec(old(Data()), sin).output
    {
      ghost var counted := CountdownSpec(Data());
      if delaySamples > 0 {
        delaySamples := delaySamples - 1;
        if delaySamples == 0 {
          if state == Pending {
            state := Active;
          } else if targetVolume == 0.0 {
            state := Release;
          }
        }
        assert Data() == counted;
        if state == Pending {
          return 0.0;
        }
      }
      assert Data() == counted;
      if state == Inactive {
        return 0.0;
      }
      output := Play(sin);
    }

    /** The part of RenderSample past the countdown and the Inactive check. */
    method Play(sin: real -> real) returns (output: real)
      modifies this
      ensures Data() == PlaySpec(old(Data()), sin).voice
      ensures output == PlaySpec(old(Data()), sin).output
    {
      ghost var played := PlaySpec(Data(), sin);
      currentVolume := currentVolume + (targetVolume - currentVolume) * VolumeSmoothing;
      output := sin(phase) * currentVolume;
      assert output == played.output;
      phase := phase + phaseIncrement;
      if phase >= TwoPi {
        phase := phase - TwoPi;
      }
      if state == Release && Abs(currentVolume) < SilenceThreshold {
        state := Inactive;
        noteNumber := -1;
        noteId := -1;
      }
    }
  }

  class SampleMidiProcessor {
    var voices: array<SynthVoice>

    ghost function Voices(): set<SynthVoice>
      reads this, voices
    {
      set i | 0 <= i < voices.Length :: voices[i]
    }

    /** No voice object appears twice, and the array is empty (inactive) or holds 16 voices. */
    ghost predicate Valid()
      reads this, voices
    {
      (voices.Length == 0 || voices.Length == MaxVoices) &&
      forall i, j :: 0 <= i < j < voices.Length ==> voices[i] != voices[j]
    }

    /** The voices' states, in array order. */
    function Datas(): (ds: seq<VoiceData>)
      reads this, voices, Voices()
      ensures |ds| == voices.Length
    {
      seq(voices.Length, i reads this, voices, Voices() requires 0 <= i < voices.Length => voices[i].Data())
    }

    constructor ()
      ensures Valid() && voices.Length == 0
    {
      voices := new SynthVoice[0];
    }

    /** Activation creates 16 fresh voices in their initial state; deactivation empties the array. */
    method OnActivate(isActive: bool)
      modifies this
      ensures Valid()
      ensures isActive ==> fresh(voices) && voices.Length == MaxVoices && Datas() == seq(MaxVoices, _ => InitialData)
      ensures isActive ==> forall i :: 0 <= i < voices.Length ==> fresh(voices[i])
      ensures !isActive ==> voices.Length == 0
    {
      if isActive {
        var made: seq<SynthVoice> := [];
        while |made| < MaxVoices
          invariant |made| <= MaxVoices
          invariant forall i :: 0 <= i < |made| ==> fresh(made[i]) && made[i].Data() == InitialData
          invariant forall i, j :: 0 <= i < j < |made| ==> made[i] != made[j]
        {
          var v := new SynthVoice();
          made := made + [v];
        }
        voices := new SynthVoice[MaxVoices](i requires 0 <= i < MaxVoices => made[i]);
        assert forall i :: 0 <= i < MaxVoices ==> voices[i] == made[i];
        assert Datas() == seq(MaxVoices, _ => InitialData);
      } else {
        voices := new SynthVoice[0];
      }
    }

    /** Starts the note on the first inactive voice, else on voice 0; no other voice changes. */
    method HandleNoteOn(pitch: int, velocity: real, noteId: int, sampleRate: real, sampleOffset: int,
                        phaseIncrementOf: (int, real) -> real)
      requires Valid() && voices.Length > 0
      modifies Voices()
      ensures Valid()
      ensures Datas() == old(Datas())[FirstInactive(old(Datas()), 0) :=
                NoteOnSpec(old(Datas())[FirstInactive(old(Datas()), 0)], pitch, velocity, noteId, sampleRate, sampleOffset, phaseIncrementOf)]
    {
      ghost var ds := Datas();
      var i := 0;
      while i < voices.Length && !voices[i].IsInactive()
        invariant 0 <= i <= voices.Length
        invariant FirstInactive(ds, 0) == FirstInactive(ds, i)
        invariant forall j :: 0 <= j < i ==> ds[j].state != Inactive
      {
        i := i + 1;
      }
      var index := if i < voices.Length then i else 0;
      var voice := voices[index];
      voice.NoteOn(pitch, velocity, noteId, sampleRate, sampleOffset, phaseIncrementOf);
      assert forall j :: 0 <= j < voices.Length && j != index ==> voices[j] != voice;
    }

    /** Sends NoteOff to every voice ReleaseMatches selects and leaves the others alone. */
    method HandleNoteOff(pitch: int, noteId: int, sampleOffset: int)
      requires Valid()
      modifies Voices()
      ensures Valid()
      ensures |Datas()| == |old(Datas())|
      ensures forall i :: 0 <= i < |Datas()| ==>
                Datas()[i] == if ReleaseMatches(old(Datas())[i], pitch, noteId) then NoteOffSpec(old(Datas())[i], sampleOffset) else old(Datas())[i]
    {
      ghost var ds := Datas();
      var i := 0;
      while i < voices.Length
        invariant 0 <= i <= voices.Length
        invariant forall j :: 0 <= j < i ==>
                    voices[j].Data() == if ReleaseMatches(ds[j], pitch, noteId) then NoteOffSpec(ds[j], sampleOffset) else ds[j]
        invariant forall j :: i <= j < voices.Length ==> voices[j].Data() == ds[j]
      {
        var voice := voices[i];
        if ReleaseMatches(voice.Data(), pitch, noteId) {
          voice.NoteOff(sampleOffset);
        }
        i := i + 1;
      }
    }
  }
}
