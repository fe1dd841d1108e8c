/**
 * The three-state voice of Tsumiki.Core/SynthVoice.cs. SynthVoice is a C# struct, so
 * Tick is the function from the voice before the call to the voice after it, paired
 * with the boolean Tick returns.
 */
module CoreSynthVoice {
  import opened Midi

  datatype VoiceState = Inactive | Active | Release

  datatype SynthVoice = SynthVoice(state: VoiceState, velocity: real, polyPressure: real, delta: real)

  datatype TickResult = TickResult(voice: SynthVoice, started: bool)

  /**
   * Follows the voice slot's MIDI note: a note-on makes the voice Active with the note's
   * velocity, the slot's pressure and the delta for pitch + bend; a note-off moves it to
   * Release. The result reports the first tick after a note-on (Length == 1).
   * pitchToDelta stands for MathT.PitchToDelta.
   */
  function Tick(v: SynthVoice, midi: MidiVoice, pitchBend: real, sampleRate: real,
                pitchToDelta: (real, real) -> real): (r: TickResult)
    ensures midi.note.IsOn() ==>
              r.voice.state == Active && r.voice.velocity == midi.note.velocity &&
              r.voice.polyPressure == midi.polyPressure &&
              r.voice.delta == pitchToDelta(midi.note.pitch as real + pitchBend, sampleRate)
    ensures r.started <==> midi.note.IsOn() && midi.length == 1
    ensures !midi.note.IsOn() ==> r.voice == v.(state := Release)
    ensures r.voice.state != Inactive
  {
    if midi.note.IsOn() then
      TickResult(SynthVoice(Active, midi.note.velocity, midi.polyPressure,
                            pitchToDelta(midi.note.pitch as real + pitchBend, sampleRate)),
                 midi.length == 1)
    else
      TickResult(v.(state := Release), false)
  }

  /**
   * The voice slot NoteOn fills has Length 1 after the next container Tick, so the synth voice
   * following it reports the start on that tick, and only on that tick.
   */
  lemma StartReportedOnFirstTick(vs: seq<MidiVoice>, note: MidiNote, v: SynthVoice, pitchBend: real,
                                 sampleRate: real, pitchToDelta: (real, real) -> real)
    requires |vs| >= 1 && note.IsOn() && Int32Ages(vs)
    ensures Tick(v, Aged(NoteOnSpec(vs, note))[NoteOnTarget(vs)], pitchBend, sampleRate, pitchToDelta).started
    ensures !Tick(v, Aged(Aged(NoteOnSpec(vs, note)))[NoteOnTarget(vs)], pitchBend, sampleRate, pitchToDelta).started
  {
  }
}
