/**
 * The four-state sine voice and its 16-voice processor (Tsumiki.Core/TsumikiProcessor.cs).
 * SynthVoice is a C# struct kept in an array: each of its methods is a function from the
 * voice before the call to the voice after it, and the processor overwrites the array
 * element with the result. Floats are read as reals.
 */
module CoreProcessor {
  import opened Common

  datatype VoiceState = Inactive | Pending | Active | Release

  datatype SynthVoice = SynthVoice(
    state: VoiceState,
    phase: real,
    phaseIncrement: real,
    currentVolume: real,
    targetVolume: real,
    delaySamples: int,
    noteNumber: int,
    noteId: int)
  {
    predicate IsInactive()
    {
      state == Inactive
    }
  }

  /** Below this magnitude a releasing voice falls silent (0.0001f). */
  const SilenceThreshold: real := 0.0001

  /** Each sample the volume moves 1/1024 of the way to its target. */
  const Smoothing: real := 1024.0

  const MaxVoices: nat := 16

  /** The zero-initialised struct: Inactive, every number 0. */
  const ZeroVoice: SynthVoice := SynthVoice(Inactive, 0.0, 0.0, 0.0, 0.0, 0, 0, 0)

  /** Reset: forgets the note number and id, nothing else. */
  function Reset(v: SynthVoice): (r: SynthVoice)
    ensures r.noteNumber == -1 && r.noteId == -1
    ensures r.(noteNumber := v.noteNumber, noteId := v.noteId) == v
  {
    v.(noteNumber := -1, noteId := -1)
  }

  /**
   * NoteOn. phaseIncrement stands for the float value of 440 * 2^((noteNumber - 69) / 12) / sampleRate.
   * The current volume is kept, so the new note fades in from wherever the voice was.
   */
  function NoteOn(v: SynthVoice, noteNumber: int, velocity: real, noteId: int, sampleRate: real,
                  sampleOffset: int, phaseIncrement: (int, real) -> real): (r: SynthVoice)
    ensures r.noteNumber == noteNumber && r.noteId == noteId
    ensures r.phase == 0.0 && r.phaseIncrement == phaseIncrement(noteNumber, sampleRate)
    ensures r.targetVolume == velocity && r.delaySamples == sampleOffset
    ensures r.state == Pending <==> sampleOffset > 0
    ensures r.state == Active <==> sampleOffset <= 0
    ensures r.currentVolume == v.currentVolume
  {
    SynthVoice(if sampleOffset > 0 then Pending else Active, 0.0, phaseIncrement(noteNumber, sampleRate),
               v.currentVolume, velocity, sampleOffset, noteNumber, noteId)
  }

  /** NoteOff: the target volume drops to 0 after sampleOffset samples; only an Active voice at offset 0 releases at once. */
  function NoteOff(v: SynthVoice, sampleOffset: int): (r: SynthVoice)
    ensures r.targetVolume == 0.0 && r.delaySamples == sampleOffset
    ensures r.state == Release <==> v.state == Release || (v.state == Active && sampleOffset == 0)
    ensures r.state != Release ==> r.state == v.state
    ensures r.(state := v.state, targetVolume := v.targetVolume, delaySamples := v.delaySamples) == v
  {
    v.(delaySamples := sampleOffset, targetVolume := 0.0,
       state := if v.state == Active && sampleOffset == 0 then Release else v.state)
  }

  /** The delay countdown at the start of RenderSample. */
  function Countdown(v: SynthVoice): (r: SynthVoice)
    ensures v.delaySamples <= 0 ==> r == v
    ensures v.delaySamples > 0 ==> r.delaySamples == v.delaySamples - 1
    ensures v.delaySamples > 1 ==> r.state == v.state
    ensures v.delaySamples == 1 && v.state == Pending ==> r.state == Active
    ensures v.delaySamples == 1 && v.state != Pending ==>
              r.state == (if v.targetVolume == 0.0 then Release else v.state)
    ensures r.(state := v.state, delaySamples := v.delaySamples) == v
  {
    if v.delaySamples > 0 then
      var d := v.delaySamples - 1;
      v.(delaySamples := d,
         state := if d == 0 then (if v.state == Pending then Active
                                  else if v.targetVolume == 0.0 then Release
                                  else v.state)
                  else v.state)
    else v
  }

  datatype Rendered = Rendered(voice: SynthVoice, output: real)

  /**
   * RenderSample: counts the delay down, then, unless the voice is Pending or Inactive, smooths the
   * volume, emits sin(phase) * volume, advances the phase with a single wrap at 1, and retires a
   * Release voice that has fallen silent. sin stands for MathT.Sin.
   */
  function RenderSample(v: SynthVoice, sin: real -> real): (r: Rendered)
    ensures var c := Countdown(v);
            (c.state == Pending || c.state == Inactive) ==> r.voice == c && r.output == 0.0
    ensures var c := Countdown(v);
            c.state != Pending && c.state != Inactive ==>
              r.output == sin(c.phase) * (c.currentVolume + (c.targetVolume - c.currentVolume) / Smoothing)
    ensures 0.0 <= v.phase < 1.0 && 0.0 <= v.phaseIncrement < 1.0 ==> 0.0 <= r.voice.phase < 1.0
    ensures r.voice.state == Inactive <==>
              (Countdown(v).state == Inactive ||
               (Countdown(v).state == Release &&
                Abs(Countdown(v).currentVolume + (Countdown(v).targetVolume - Countdown(v).currentVolume) / Smoothing) < SilenceThreshold))
    ensures r.voice.state == Inactive && Countdown(v).state == Release ==>
              r.voice.currentVolume == 0.0 && r.voice.noteNumber == -1 && r.voice.noteId == -1
    ensures r.voice.state != Inactive ==> r.voice.state == Countdown(v).state
    ensures r.voice.targetVolume == v.targetVolume && r.voice.phaseIncrement == v.phaseIncrement
  {
    var c := Countdown(v);
    if c.state == Pending || c.state == Inactive then Rendered(c, 0.0)
    else
      var volume := c.currentVolume + (c.targetVolume - c.currentVolume) / Smoothing;
      var output := sin(c.phase) * volume;
      var advanced := c.phase + c.phaseIncrement;
      var phase := if advanced >= 1.0 then advanced - 1.0 else advanced;
      var w := c.(currentVolume := volume, phase := phase);
      if w.state == Release && Abs(volume) < SilenceThreshold then
        Rendered(w.(state := Inactive, currentVolume := 0.0, noteNumber := -1, noteId := -1), output)
      else
        Rendered(w, output)
  }

  /** n successive RenderSample calls. */
  function RenderN(v: SynthVoice, n: nat, sin: real -> real): (r: SynthVoice)
    decreases n
  {
    if n == 0 then v else RenderN(RenderSample(v, sin).voice, n - 1, sin)
  }

  /** A voice pending for d samples stays silent and Pending for d - 1 renders and is Active after d. */
  lemma {:induction false} PendingBecomesActive(v: SynthVoice, k: nat, sin: real -> real)
    requires v.state == Pending && k <= v.delaySamples
    ensures k < v.delaySamples ==> RenderN(v, k, sin).state == Pending
    ensures RenderN(v, k, sin).delaySamples == v.delaySamples - k
    ensures k == v.delaySamples && k > 0 ==> RenderN(v, k, sin).state == Active
    decreases k
  {
    if k > 0 {
      var w := RenderSample(v, sin).voice;
      if v.delaySamples > 1 {
        assert w.state == Pending && w.delaySamples == v.delaySamples - 1;
        PendingBecomesActive(w, k - 1, sin);
      } else {
        assert w.state == Active;
        assert RenderN(w, 0, sin) == w;
      }
    }
  }

  /** An Inactive voice with no countdown is never changed by rendering. */
  lemma {:induction false} InactiveStaysInactive(v: SynthVoice, n: nat, sin: real -> real)
    requires v.state == Inactive && v.delaySamples <= 0
    ensures RenderN(v, n, sin) == v
    decreases n
  {
    if n > 0 {
      InactiveStaysInactive(RenderSample(v, sin).voice, n - 1, sin);
    }
  }

  // ---------------------------------------------------------------------------
  // Voice allocation

  /** The lowest inactive index, or 0 when every voice is busy. */
  function FirstInactive(vs: seq<SynthVoice>, from: nat): (k: nat)
    requires from <= |vs|
    ensures k == 0 || from <= k < |vs|
    ensures from <= k < |vs| && vs[k].IsInactive() ==> forall j :: from <= j < k ==> !vs[j].IsInactive()
    ensures (exists j :: from <= j < |vs| && vs[j].IsInactive()) ==> from <= k < |vs| && vs[k].IsInactive()
    ensures (forall j :: from <= j < |vs| ==> !vs[j].IsInactive()) ==> k == 0
    decreases |vs| - from
  {
    if from == |vs| then 0
    else if vs[from].IsInactive() then from
    else FirstInactive(vs, from + 1)
  }

  /** OnNoteOff's condition, with C#'s precedence: && binds tighter than ||. */
  predicate ReleaseMatches(v: SynthVoice, pitch: int, noteId: int)
  {
    (!v.IsInactive() && v.noteId == noteId) || (noteId == -1 && v.noteNumber == pitch)
  }

  /** By that precedence a global note-off also reaches an inactive voice that still carries the pitch. */
  lemma GlobalNoteOffReachesInactiveVoices(v: SynthVoice, pitch: int)
    requires v.IsInactive() && v.noteNumber == pitch
    ensures ReleaseMatches(v, pitch, -1)
    ensures NoteOff(v, 0).state == Inactive
  {
  }

  class TsumikiProcessor {
    var voices: array<SynthVoice>

    ghost predicate Valid()
      reads this
    {
      voices.Length == 0 || voices.Length == MaxVoices
    }

    constructor ()
      ensures Valid() && voices.Length == 0
    {
      voices := new SynthVoice[0];
    }

    function IsActive(): (b: bool)
      reads this
      ensures b <==> voices.Length > 0
    {
      voices.Length > 0
    }

    /** Activation allocates 16 reset voices; deactivation drops them. */
    method OnActive(isActive: bool)
      modifies this
      ensures Valid()
      ensures isActive ==> fresh(voices) && voices.Length == MaxVoices
      ensures isActive ==> forall i :: 0 <= i < voices.Length ==> voices[i] == Reset(ZeroVoice)
      ensures !isActive ==> voices.Length == 0
    {
      if isActive {
        var vs := new SynthVoice[MaxVoices](_ => ZeroVoice);
        var i := 0;
        while i < MaxVoices
          invariant 0 <= i <= MaxVoices
          invariant forall j :: 0 <= j < i ==> vs[j] == Reset(ZeroVoice)
          invariant forall j :: i <= j < MaxVoices ==> vs[j] == ZeroVoice
        {
          vs[i] := Reset(vs[i]);
          i := i + 1;
        }
        voices := vs;
      } else {
        voices := new SynthVoice[0];
      }
    }

    method GetInactiveIndex() returns (index: nat)
      requires voices.Length == MaxVoices
      ensures index == FirstInactive(voices[..], 0)
      ensures index < MaxVoices
    {
      var i := 0;
      while i < MaxVoices
        invariant 0 <= i <= MaxVoices
        invariant FirstInactive(voices[..], 0) == FirstInactive(voices[..], i)
                  || (FirstInactive(voices[..], i) == 0 && forall j :: 0 <= j < i ==> !voices[j].IsInactive())
        invariant forall j :: 0 <= j < i ==> !voices[j].IsInactive()
      {
        if voices[i].IsInactive() {
          return i;
        }
        i := i + 1;
      }
      index := 0;
    }

    /** Starts the note on the lowest inactive voice, or on voice 0 when none is free; no other voice changes. */
    method OnNoteOn(pitch: int, velocity: real, noteId: int, sampleRate: real, sampleOffset: int,
                    phaseIncrement: (int, real) -> real)
      requires voices.Length == MaxVoices
      modifies voices
      ensures voices[..] == old(voices[..])[FirstInactive(old(voices[..]), 0) :=
                NoteOn(old(voices[FirstInactive(voices[..], 0)]), pitch, velocity, noteId, sampleRate, sampleOffset, phaseIncrement)]
    {
      var index := GetInactiveIndex();
      voices[index] := NoteOn(voices[index], pitch, velocity, noteId, sampleRate, sampleOffset, phaseIncrement);
    }

    /** Sends NoteOff to every voice ReleaseMatches selects and leaves the others alone. */
    method OnNoteOff(pitch: int, noteId: int, sampleOffset: int)
      requires voices.Length == MaxVoices
      modifies voices
      ensures forall i :: 0 <= i < MaxVoices ==>
                voices[i] == if ReleaseMatches(old(voices[i]), pitch, noteId) then NoteOff(old(voices[i]), sampleOffset) else old(voices[i])
    {
      var i := 0;
      while i < MaxVoices
        invariant 0 <= i <= MaxVoices
        invariant forall j :: 0 <= j < i ==>
                    voices[j] == if ReleaseMatches(old(voices[j]), pitch, noteId) then NoteOff(old(voices[j]), sampleOffset) else old(voices[j])
        invariant forall j :: i <= j < MaxVoices ==> voices[j] == old(voices[j])
      {
        if ReleaseMatches(voices[i], pitch, noteId) {
          voices[i] := NoteOff(voices[i], sampleOffset);
        }
        i := i + 1;
      }
    }
  }
}
