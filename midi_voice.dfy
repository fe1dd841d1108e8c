/**
 * MIDI note events, the sample-accurate reservation table and voice allocation
 * (MidiNote, MidiNoteReservation, MidiVoice and MidiVoiceContainer).
 * The three structs are values; the container owns two fixed-size arrays that it
 * updates element by element. A voice's Length is a C# int and wraps after 2^31 ticks.
 */
module Midi {
  import opened Common

  const OffVelocity: real := -1.0
  const GlobalNoteId: int := -1

  datatype MidiNote = MidiNote(channel: int, pitch: int, velocity: real, noteId: int)
  {
    /** A note is a note-on when its velocity is not negative. */
    predicate IsOn()
    {
      velocity >= 0.0
    }

    /** Same channel and, unless one side carries the global id, the same note id; otherwise the same pitch. */
    predicate IsSame(other: MidiNote)
    {
      if channel != other.channel then false
      else if noteId == GlobalNoteId || other.noteId == GlobalNoteId then pitch == other.pitch
      else noteId == other.noteId
    }
  }

  /** MidiNote.Off: the note-off placeholder. */
  const Off: MidiNote := MidiNote(0, 0, OffVelocity, GlobalNoteId)

  datatype MidiNoteReservation = MidiNoteReservation(note: MidiNote, sampleOffset: int)

  datatype MidiVoice = MidiVoice(note: MidiNote, length: int, polyPressure: real)

  /** `new MidiVoice(in note)`: a fresh voice has age 0 and no pressure. */
  function NewVoice(note: MidiNote): (v: MidiVoice)
    ensures v.note == note && v.length == 0 && v.polyPressure == 0.0
  {
    MidiVoice(note, 0, 0.0)
  }

  lemma OffIsNeverOn()
    ensures !Off.IsOn()
    ensures forall n: MidiNote :: n.IsOn() <==> n.velocity >= 0.0
  {
  }

  /** IsSame never matches across channels and does not depend on the order of its operands. */
  lemma IsSameSymmetric(a: MidiNote, b: MidiNote)
    ensures a.channel != b.channel ==> !a.IsSame(b)
    ensures a.IsSame(b) <==> b.IsSame(a)
    ensures a.channel == b.channel && a.noteId != GlobalNoteId && b.noteId != GlobalNoteId
            ==> (a.IsSame(b) <==> a.noteId == b.noteId)
    ensures a.channel == b.channel && (a.noteId == GlobalNoteId || b.noteId == GlobalNoteId)
            ==> (a.IsSame(b) <==> a.pitch == b.pitch)
  {
  }

  // ---------------------------------------------------------------------------
  // Specification of the reservation slot chosen by Reserve

  /** The first slot among rs[..n] whose offset is <= 0, or -1. */
  function FirstFreeSlot(rs: seq<MidiNoteReservation>, n: nat): (k: int)
    requires n <= |rs|
    ensures -1 <= k < n
    ensures k == -1 <==> forall j :: 0 <= j < n ==> rs[j].sampleOffset > 0
    ensures k >= 0 ==> rs[k].sampleOffset <= 0 && forall j :: 0 <= j < k ==> rs[j].sampleOffset > 0
  {
    if n == 0 then -1
    else
      var k := FirstFreeSlot(rs, n - 1);
      if k != -1 then k
      else if rs[n - 1].sampleOffset <= 0 then n - 1
      else -1
  }

  /** The first slot among rs[..n] with the largest offset. */
  function FirstLargestSlot(rs: seq<MidiNoteReservation>, n: nat): (k: nat)
    requires 1 <= n <= |rs|
    ensures k < n
    ensures forall j :: 0 <= j < n ==> rs[j].sampleOffset <= rs[k].sampleOffset
    ensures forall j :: 0 <= j < k ==> rs[j].sampleOffset < rs[k].sampleOffset
  {
    if n == 1 then 0
    else
      var k := FirstLargestSlot(rs, n - 1);
      if rs[k].sampleOffset < rs[n - 1].sampleOffset then n - 1 else k
  }

  /** The slot a deferred reservation overwrites: the first free one, else the first with the largest offset. */
  function ReservationSlot(rs: seq<MidiNoteReservation>): (k: nat)
    requires |rs| >= 1
    ensures k < |rs|
    ensures (exists j :: 0 <= j < |rs| && rs[j].sampleOffset <= 0) ==>
              rs[k].sampleOffset <= 0 && forall j :: 0 <= j < k ==> rs[j].sampleOffset > 0
    ensures (forall j :: 0 <= j < |rs| ==> rs[j].sampleOffset > 0) ==>
              (forall j :: 0 <= j < |rs| ==> rs[j].sampleOffset <= rs[k].sampleOffset) &&
              (forall j :: 0 <= j < k ==> rs[j].sampleOffset < rs[k].sampleOffset)
  {
    var f := FirstFreeSlot(rs, |rs|);
    if f >= 0 then f else FirstLargestSlot(rs, |rs|)
  }

  // ---------------------------------------------------------------------------
  // Specification of the voice NoteOn overwrites

  /** The off voice among vs[..n] with the greatest Length (lowest index on ties), or -1. */
  function OldestOffVoice(vs: seq<MidiVoice>, n: nat): (t: int)
    requires n <= |vs|
    ensures -1 <= t < n
  {
    if n == 0 then -1
    else
      var t := OldestOffVoice(vs, n - 1);
      if vs[n - 1].note.IsOn() then t
      else if t == -1 || vs[t].length < vs[n - 1].length then n - 1
      else t
  }

  /** The loop's oldest-on candidate after n voices: starts at 0, moves to a later on voice that is strictly older. */
  function OldestOnVoice(vs: seq<MidiVoice>, n: nat): (t: nat)
    requires 1 <= n <= |vs|
    ensures t < n
  {
    if n == 1 then 0
    else
      var t := OldestOnVoice(vs, n - 1);
      if vs[n - 1].note.IsOn() && vs[t].length < vs[n - 1].length then n - 1 else t
  }

  lemma {:induction false} OldestOffVoiceSpec(vs: seq<MidiVoice>, n: nat)
    requires n <= |vs|
    ensures OldestOffVoice(vs, n) == -1 <==> forall j :: 0 <= j < n ==> vs[j].note.IsOn()
    ensures OldestOffVoice(vs, n) >= 0 ==> !vs[OldestOffVoice(vs, n)].note.IsOn()
    ensures OldestOffVoice(vs, n) >= 0 ==>
              forall j :: 0 <= j < n && !vs[j].note.IsOn() ==> vs[j].length <= vs[OldestOffVoice(vs, n)].length
    ensures OldestOffVoice(vs, n) >= 0 ==>
              forall j :: 0 <= j < OldestOffVoice(vs, n) && !vs[j].note.IsOn() ==> vs[j].length < vs[OldestOffVoice(vs, n)].length
  {
    if n > 0 {
      OldestOffVoiceSpec(vs, n - 1);
    }
  }

  lemma {:induction false} OldestOnVoiceSpec(vs: seq<MidiVoice>, n: nat)
    requires 1 <= n <= |vs|
    requires forall j :: 0 <= j < n ==> vs[j].note.IsOn()
    ensures forall j :: 0 <= j < n ==> vs[j].length <= vs[OldestOnVoice(vs, n)].length
    ensures forall j :: 0 <= j < OldestOnVoice(vs, n) ==> vs[j].length < vs[OldestOnVoice(vs, n)].length
  {
    if n > 1 {
      OldestOnVoiceSpec(vs, n - 1);
    }
  }

  /**
   * The voice NoteOn overwrites: the oldest off voice if there is one; otherwise every voice
   * is on and the oldest of them is stolen. Ties go to the lowest index.
   */
  function NoteOnTarget(vs: seq<MidiVoice>): (t: nat)
    requires |vs| >= 1
    ensures t < |vs|
    ensures (exists j :: 0 <= j < |vs| && !vs[j].note.IsOn()) ==>
              !vs[t].note.IsOn() &&
              (forall j :: 0 <= j < |vs| && !vs[j].note.IsOn() ==> vs[j].length <= vs[t].length) &&
              (forall j :: 0 <= j < t && !vs[j].note.IsOn() ==> vs[j].length < vs[t].length)
    ensures (forall j :: 0 <= j < |vs| ==> vs[j].note.IsOn()) ==>
              (forall j :: 0 <= j < |vs| ==> vs[j].length <= vs[t].length) &&
              (forall j :: 0 <= j < t ==> vs[j].length < vs[t].length)
  {
    OldestOffVoiceSpec(vs, |vs|);
    var off := OldestOffVoice(vs, |vs|);
    if off == -1 then
      OldestOnVoiceSpec(vs, |vs|);
      OldestOnVoice(vs, |vs|)
    else off
  }

  /** NoteOn as a value: exactly the target voice becomes a fresh voice for the note. */
  function NoteOnSpec(vs: seq<MidiVoice>, note: MidiNote): (r: seq<MidiVoice>)
    requires |vs| >= 1
    ensures |r| == |vs| && (Int32Ages(vs) ==> Int32Ages(r))
  {
    vs[NoteOnTarget(vs) := NewVoice(note)]
  }

  /** NoteOff as a value: every on voice that IsSame the note becomes an off voice. */
  function NoteOffSpec(vs: seq<MidiVoice>, note: MidiNote): (r: seq<MidiVoice>)
    ensures |r| == |vs| && (Int32Ages(vs) ==> Int32Ages(r))
  {
    seq(|vs|, i requires 0 <= i < |vs| =>
      if vs[i].note.IsOn() && vs[i].note.IsSame(note) then NewVoice(Off) else vs[i])
  }

  /** ProcessNote as a value; a note-on needs a voice to overwrite. */
  function ProcessNoteSpec(vs: seq<MidiVoice>, note: MidiNote): (r: seq<MidiVoice>)
    requires note.IsOn() ==> |vs| >= 1
    ensures |r| == |vs|
    ensures Int32Ages(vs) ==> Int32Ages(r)
  {
    if note.IsOn() then NoteOnSpec(vs, note) else NoteOffSpec(vs, note)
  }

  /** Processes the notes in order. */
  function ProcessAll(vs: seq<MidiVoice>, notes: seq<MidiNote>): (r: seq<MidiVoice>)
    requires |vs| >= 1 || notes == []
    ensures |r| == |vs|
    ensures Int32Ages(vs) ==> Int32Ages(r)
    decreases |notes|
  {
    if notes == [] then vs
    else ProcessNoteSpec(ProcessAll(vs, notes[..|notes| - 1]), notes[|notes| - 1])
  }

  /** One tick of a reservation's countdown: offsets at -1 or below stay, others drop by one. */
  function TickOffset(offset: int): int
  {
    if offset < 0 then offset else offset - 1
  }

  /** The notes a tick performs: those of the reservations at offset 0, in slot order. */
  function Fired(rs: seq<MidiNoteReservation>): (notes: seq<MidiNote>)
    ensures |notes| <= |rs|
    decreases |rs|
  {
    if rs == [] then []
    else Fired(rs[..|rs| - 1]) + (if rs[|rs| - 1].sampleOffset == 0 then [rs[|rs| - 1].note] else [])
  }

  function TickReservations(rs: seq<MidiNoteReservation>): (r: seq<MidiNoteReservation>)
    ensures |r| == |rs|
  {
    seq(|rs|, i requires 0 <= i < |rs| => rs[i].(sampleOffset := TickOffset(rs[i].sampleOffset)))
  }

  /** Every voice's Length fits a C# int. */
  predicate Int32Ages(vs: seq<MidiVoice>)
  {
    forall i :: 0 <= i < |vs| ==> IsInt32(vs[i].length)
  }

  /** The ageing loop as a value: every Length goes up by one, int.MaxValue wrapping to int.MinValue. */
  function Aged(vs: seq<MidiVoice>): (r: seq<MidiVoice>)
    requires Int32Ages(vs)
    ensures |r| == |vs| && Int32Ages(r)
    ensures forall i :: 0 <= i < |vs| ==> r[i].note == vs[i].note && r[i].polyPressure == vs[i].polyPressure
    ensures forall i :: 0 <= i < |vs| && vs[i].length < Int32Max ==> r[i].length == vs[i].length + 1
    ensures forall i :: 0 <= i < |vs| && vs[i].length == Int32Max ==> r[i].length == Int32Min
  {
    seq(|vs|, i requires 0 <= i < |vs| => vs[i].(length := WrappingIncrement(vs[i].length)))
  }

  /**
   * The wrap changes voice stealing: of two sounding voices the one at int.MaxValue is the
   * oldest and is stolen, but one tick later its Length is int.MinValue and the other one is.
   */
  lemma WrappedAgeLooksNewest()
    ensures var held := MidiVoice(MidiNote(0, 60, 1.0, 1), Int32Max, 0.0);
            var recent := MidiVoice(MidiNote(0, 64, 1.0, 2), 5, 0.0);
            NoteOnTarget([held, recent]) == 0 && NoteOnTarget(Aged([held, recent])) == 1
  {
    var held := MidiVoice(MidiNote(0, 60, 1.0, 1), Int32Max, 0.0);
    var recent := MidiVoice(MidiNote(0, 64, 1.0, 2), 5, 0.0);
    var aged := Aged([held, recent]);
    assert aged[0].length == Int32Min && aged[1].length == 6;
    assert aged[0].note.IsOn() && aged[1].note.IsOn();
  }

  // ---------------------------------------------------------------------------
  // Properties of the specification

  /** NoteOn overwrites exactly one voice, with a fresh Length-0 voice for the note. */
  lemma NoteOnChangesOneVoice(vs: seq<MidiVoice>, note: MidiNote)
    requires |vs| >= 1
    ensures exists t :: 0 <= t < |vs| && NoteOnSpec(vs, note)[t] == MidiVoice(note, 0, 0.0) &&
              forall j :: 0 <= j < |vs| && j != t ==> NoteOnSpec(vs, note)[j] == vs[j]
  {
    var t := NoteOnTarget(vs);
    assert NoteOnSpec(vs, note)[t] == MidiVoice(note, 0, 0.0);
  }

  /** After NoteOff no on voice matches the note, and every voice that did not match is untouched. */
  lemma NoteOffReleasesMatches(vs: seq<MidiVoice>, note: MidiNote)
    ensures forall i :: 0 <= i < |vs| ==> !(NoteOffSpec(vs, note)[i].note.IsOn() && NoteOffSpec(vs, note)[i].note.IsSame(note))
    ensures forall i :: 0 <= i < |vs| && !(vs[i].note.IsOn() && vs[i].note.IsSame(note)) ==> NoteOffSpec(vs, note)[i] == vs[i]
    ensures forall i :: 0 <= i < |vs| && vs[i].note.IsOn() && vs[i].note.IsSame(note) ==> NoteOffSpec(vs, note)[i] == MidiVoice(Off, 0, 0.0)
  {
  }

  /** n successive ticks of one countdown. */
  function TickOffsetN(offset: int, n: nat): int
  {
    if n == 0 then offset else TickOffset(TickOffsetN(offset, n - 1))
  }

  /**
   * A countdown starting at k >= 0 is at max(k - n, -1) after n ticks, so it never goes below -1;
   * it is at 0 before tick n (and so fires on tick n) exactly when n == k + 1.
   */
  lemma {:induction false} CountdownFiresOnce(k: int, n: nat)
    requires k >= 0
    ensures TickOffsetN(k, n) == if k - n >= -1 then k - n else -1
    ensures n >= 1 ==> (TickOffsetN(k, n - 1) == 0 <==> n == k + 1)
  {
    if n > 0 {
      CountdownFiresOnce(k, n - 1);
    }
  }

  /** Fired lists exactly the reservations at offset 0, in slot order. */
  lemma {:induction false} FiredExactly(rs: seq<MidiNoteReservation>, i: nat)
    requires i < |rs| && rs[i].sampleOffset == 0
    ensures rs[i].note in Fired(rs)
    decreases |rs|
  {
    if i < |rs| - 1 {
      assert rs[..|rs| - 1][i] == rs[i];
      FiredExactly(rs[..|rs| - 1], i);
    }
  }

  lemma {:induction false} FiredOnlyZero(rs: seq<MidiNoteReservation>, note: MidiNote)
    requires note in Fired(rs)
    ensures exists i :: 0 <= i < |rs| && rs[i].sampleOffset == 0 && rs[i].note == note
    decreases |rs|
  {
    var p := rs[..|rs| - 1];
    if note in Fired(p) {
      FiredOnlyZero(p, note);
      var i :| 0 <= i < |p| && p[i].sampleOffset == 0 && p[i].note == note;
      assert rs[i] == p[i];
    } else {
      assert rs[|rs| - 1].sampleOffset == 0 && rs[|rs| - 1].note == note;
    }
  }

  lemma FiredPrefix(rs: seq<MidiNoteReservation>, i: nat)
    requires i < |rs|
    ensures Fired(rs[..i + 1]) ==
            Fired(rs[..i]) + (if rs[i].sampleOffset == 0 then [rs[i].note] else [])
  {
    assert rs[..i + 1][..i] == rs[..i];
  }

  lemma ProcessAllSnoc(vs: seq<MidiVoice>, notes: seq<MidiNote>, note: MidiNote)
    requires |vs| >= 1
    ensures ProcessAll(vs, notes + [note]) == ProcessNoteSpec(ProcessAll(vs, notes), note)
  {
    assert (notes + [note])[..|notes|] == notes;
  }

  // ---------------------------------------------------------------------------
  // The container

  class MidiVoiceContainer {
    const reservations: array<MidiNoteReservation>
    const voices: array<MidiVoice>

    ghost predicate Valid()
      reads this, reservations, voices
    {
      reservations.Length == voices.Length &&
      (forall i :: 0 <= i < reservations.Length ==> reservations[i].sampleOffset >= -1) &&
      Int32Ages(voices[..])
    }

    /** An empty container (voiceCount 0) is what the processor holds before activation. */
    constructor (voiceCount: nat)
      ensures Valid()
      ensures fresh(reservations) && fresh(voices)
      ensures reservations.Length == voiceCount && voices.Length == voiceCount
      ensures forall i :: 0 <= i < voiceCount ==> reservations[i] == MidiNoteReservation(Off, -1)
      ensures forall i :: 0 <= i < voiceCount ==> voices[i] == MidiVoice(Off, 0, 0.0)
    {
      var rs := new MidiNoteReservation[voiceCount];
      var vs := new MidiVoice[voiceCount];
      var i := 0;
      while i < voiceCount
        invariant 0 <= i <= voiceCount
        invariant forall j :: 0 <= j < i ==> rs[j] == MidiNoteReservation(Off, -1)
        invariant forall j :: 0 <= j < i ==> vs[j] == MidiVoice(Off, 0, 0.0)
      {
        rs[i] := MidiNoteReservation(Off, -1);
        vs[i] := NewVoice(Off);
        i := i + 1;
      }
      reservations := rs;
      voices := vs;
    }

    /** The search loop of Reserve: the first free slot, else the first slot with the largest offset. */
    method FindReservationSlot() returns (k: nat)
      requires Valid() && reservations.Length >= 1
      ensures k == ReservationSlot(reservations[..])
    {
      ghost var rs := reservations[..];
      var oldestIndex := 0;
      var i := 0;
      while i < reservations.Length
        invariant 0 <= i <= reservations.Length
        invariant FirstFreeSlot(rs, i) == -1
        invariant oldestIndex == (if i == 0 then 0 else FirstLargestSlot(rs, i))
      {
        if reservations[i].sampleOffset <= 0 {
          assert FirstFreeSlot(rs, i + 1) == i;
          assert FirstFreeSlot(rs, |rs|) == i;
          return i;
        }
        if reservations[i].sampleOffset > reservations[oldestIndex].sampleOffset {
          oldestIndex := i;
        }
        i := i + 1;
      }
      k := oldestIndex;
    }

    /** The search loop of NoteOn. */
    method FindNoteOnTarget() returns (t: nat)
      requires Valid() && voices.Length >= 1
      ensures t == NoteOnTarget(voices[..])
    {
      ghost var vs := voices[..];
      var oldestOnIndex := 0;
      var targetIndex := -1;
      var i := 0;
      while i < voices.Length
        invariant 0 <= i <= voices.Length
        invariant targetIndex == OldestOffVoice(vs, i)
        invariant oldestOnIndex == (if i == 0 then 0 else OldestOnVoice(vs, i))
      {
        if voices[i].note.IsOn() {
          if voices[oldestOnIndex].length < voices[i].length {
            oldestOnIndex := i;
          }
        } else if targetIndex == -1 || voices[targetIndex].length < voices[i].length {
          targetIndex := i;
        }
        i := i + 1;
      }
      if targetIndex == -1 {
        targetIndex := oldestOnIndex;
      }
      t := targetIndex;
    }

    /** NoteOn; with no voice the source's Voices[0] throws. */
    method NoteOn(note: MidiNote)
      requires Valid() && voices.Length >= 1
      modifies voices
      ensures Valid()
      ensures voices[..] == NoteOnSpec(old(voices[..]), note)
    {
      var t := FindNoteOnTarget();
      voices[t] := NewVoice(note);
    }

    method NoteOff(note: MidiNote)
      requires Valid()
      modifies voices
      ensures Valid()
      ensures voices[..] == NoteOffSpec(old(voices[..]), note)
    {
      var i := 0;
      while i < voices.Length
        invariant 0 <= i <= voices.Length
        invariant forall j :: 0 <= j < i ==> voices[j] == NoteOffSpec(old(voices[..]), note)[j]
        invariant forall j :: i <= j < voices.Length ==> voices[j] == old(voices[j])
      {
        if voices[i].note.IsOn() && voices[i].note.IsSame(note) {
          voices[i] := NewVoice(Off);
        }
        i := i + 1;
      }
    }

    method ProcessNote(note: MidiNote)
      requires Valid() && (note.IsOn() ==> voices.Length >= 1)
      modifies voices
      ensures Valid()
      ensures voices[..] == ProcessNoteSpec(old(voices[..]), note)
    {
      if note.IsOn() {
        NoteOn(note);
      } else {
        NoteOff(note);
      }
    }

    /**
     * Performs a note now (offset <= 0) or stores it in the table. With no slot, a deferred
     * note or an immediate note-on indexes slot 0, which throws in the source.
     */
    method Reserve(reservation: MidiNoteReservation)
      requires Valid()
      requires voices.Length >= 1 || (reservation.sampleOffset <= 0 && !reservation.note.IsOn())
      modifies reservations, voices
      ensures Valid()
      ensures reservation.sampleOffset <= 0 ==>
                reservations[..] == old(reservations[..]) &&
                voices[..] == ProcessNoteSpec(old(voices[..]), reservation.note)
      ensures reservation.sampleOffset > 0 ==>
                voices[..] == old(voices[..]) &&
                reservations[..] == old(reservations[..])[ReservationSlot(old(reservations[..])) := reservation]
    {
      if reservation.sampleOffset <= 0 {
        ProcessNote(reservation.note);
        return;
      }
      var k := FindReservationSlot();
      reservations[k] := reservation;
    }

    /** Advances time by one sample: counts reservations down, fires those reaching -1, ages every voice. */
    method Tick()
      requires Valid()
      modifies reservations, voices
      ensures Valid()
      ensures reservations[..] == TickReservations(old(reservations[..]))
      ensures voices[..] == Aged(ProcessAll(old(voices[..]), Fired(old(reservations[..]))))
    {
      CountDown();
      AgeVoices();
    }

    /** The first loop of Tick. */
    method CountDown()
      requires Valid()
      modifies reservations, voices
      ensures Valid()
      ensures reservations[..] == TickReservations(old(reservations[..]))
      ensures voices[..] == ProcessAll(old(voices[..]), Fired(old(reservations[..])))
    {
      ghost var rs0 := reservations[..];
      ghost var vs0 := voices[..];
      var i := 0;
      while i < reservations.Length
        invariant 0 <= i <= reservations.Length
        invariant Valid()
        invariant forall j :: 0 <= j < i ==> reservations[j] == TickReservations(rs0)[j]
        invariant forall j :: i <= j < reservations.Length ==> reservations[j] == rs0[j]
        invariant voices[..] == ProcessAll(vs0, Fired(rs0[..i]))
      {
        FiredPrefix(rs0, i);
        assert reservations[i] == rs0[i];
        if rs0[i].sampleOffset == 0 {
          ProcessAllSnoc(vs0, Fired(rs0[..i]), rs0[i].note);
        } else {
          assert Fired(rs0[..i + 1]) == Fired(rs0[..i]) + [];
          assert Fired(rs0[..i + 1]) == Fired(rs0[..i]);
        }
        CountDownSlot(i);
        i := i + 1;
      }
      assert rs0[..i] == rs0;
    }

    /** One step of the first loop of Tick: slot i counts down and fires when it reaches -1. */
    method CountDownSlot(i: nat)
      requires Valid() && i < reservations.Length
      modifies reservations, voices
      ensures Valid()
      ensures reservations[..] == old(reservations[..])[i := old(reservations[i]).(sampleOffset := TickOffset(old(reservations[i]).sampleOffset))]
      ensures voices[..] == if old(reservations[i]).sampleOffset == 0 then ProcessNoteSpec(old(voices[..]), old(reservations[i]).note) else old(voices[..])
    {
      if reservations[i].sampleOffset < 0 {
        return;
      }
      reservations[i] := reservations[i].(sampleOffset := reservations[i].sampleOffset - 1);
      if reservations[i].sampleOffset == -1 {
        ProcessNote(reservations[i].note);
      }
    }

    /** The second loop of Tick. */
    method AgeVoices()
      requires Valid()
      modifies voices
      ensures Valid()
      ensures voices[..] == Aged(old(voices[..]))
    {
      var i := 0;
      while i < voices.Length
        invariant 0 <= i <= voices.Length
        invariant forall j :: 0 <= j < i ==> voices[j] == old(voices[j]).(length := WrappingIncrement(old(voices[j]).length))
        invariant forall j :: i <= j < voices.Length ==> voices[j] == old(voices[j])
      {
        voices[i] := voices[i].(length := WrappingIncrement(voices[i].length));
        i := i + 1;
      }
    }
  }
}
