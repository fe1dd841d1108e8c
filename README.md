# Tsumiki core, modelled in Dafny

Tsumiki is a VST3 synthesizer plug-in written in C#. This project models the parts of it
that hold discrete logic and proves properties of them:

- voice allocation and note scheduling;
- the voice state machines of the two processors;
- the tuning tables that turn a rational key period into the 128 MIDI key pitches;
- the change detection of the voice configuration;
- the ring-buffer delay lines;
- the decision table of the timing-rule Roslyn analyzer;
- a few pieces of logic in the Windows and macOS view hosts.

Waveforms, filters, envelopes and every other floating-point DSP routine appear only as
function parameters. C# `float` and `double` are modelled as `real`. C# integer
division and remainder truncate toward zero; the model writes them out with
`Common.TruncDiv` and `Common.TruncRem`.

Each C# struct that only holds values is a datatype with pure transition functions.
Examples are `MidiNote`, `MidiVoice`, `TuningValue`, `TickData` and the voice structs.
A class, or a struct owning a buffer it updates in place, is a Dafny class with
`modifies` and `reads` frames. An array the source writes element by element stays an
`array`. Each method is tied by its `ensures` to a pure specification function, and the
properties are proved as lemmas about those functions.

| module | file | models |
|---|---|---|
| `Common` | common.dfy | Option, C# truncating integer division, min/max/clamp helpers |
| `Sorting` | sorting.dfy | ascending sort of the period pitches (`Span.Sort`), in place and as a function |
| `Midi` | midi_voice.dfy | Tsumiki.Core/MidiVoice.cs: notes, reservations, `MidiVoiceContainer` |
| `CoreSynthVoice` | core_synth_voice.dfy | Tsumiki.Core/SynthVoice.cs: `SynthVoice.Tick` |
| `CoreProcessor` | core_processor.dfy | Tsumiki.Core/TsumikiProcessor.cs: its `SynthVoice` and the processor's voice allocation |
| `SampleMidi` | sample_midi.dfy | Tsumiki/SampleMidi.cs: its nested `SynthVoice` class and `HandleNoteOn`/`HandleNoteOff` |
| `TsumikiModelExtensions` | tsumiki_model_extensions.dfy | Tsumiki.Core/TsumikiModelExtensions.cs: channel and pitch accessors, `RebuildPitches` |
| `ChannelTuning` | channel_tuning.dfy | Tsumiki.Core/ChannelTuning.cs: `TuningValue`, `ChannelTuningConfig.Recalculate` |
| `TsumikiViewModelExtension` | view_model_extension.dfy | Tsumiki.View/TsumikiViewModelExtension.cs: `Pitch`, `RebuildPitches` with its edit brackets |
| `KeyBoard` | keyboard_view.dfy | Tsumiki.View/KeyBoardView.cs: `KeyBoardView`, `PitchBarView`, `ChannelNumber` |
| `TuningValueControl` | tuning_value_control.dfy | Tsumiki.View/TuningValueControl.Text.cs: the digit buffers and keyboard editing |
| `StackedVoice` | stacked_voice.dfy | Tsumiki.Core/StackedVoice.cs: `GliderConfig`, `StackConfig`, `ConfigSet`, `TickData`, `TickAndRender` |
| `RingBuffer` | ring_buffer.dfy | the read-before-write circular buffer shared by both delays, as a function of the input history |
| `Delay` | delay.dfy | Tsumiki.Core/Delay.cs: `DelayConfig`, `DelayChannel`, `Delay` with its cross swap |
| `SampleDelay` | sample_delay.dfy | Tsumiki/Sample.cs: `SampleDelayProcessor` activation and block processing |
| `DiagnosticDescriptors` | diagnostic_descriptors.dfy | Tsumiki.Analyzers/DiagnosticDescriptors.cs: the eight descriptors |
| `TimingAttributeAnalyzer` | timing_analyzer.dfy | Tsumiki.Analyzers/TimingAttributeAnalyzer.cs: the timing rules over a small syntax model |
| `CanvasGeometry` | canvas_geometry.dfy | Tsumiki.View/ITsumikiCanvas.cs value types and the 3:2 resize of both canvases |
| `WinRenderer` | win_renderer.dfy | Tsumiki.View.Win/Renderer.cs: the de-duplicating render queue and `DrawImage` vertices |
| `WinInterop` | win_interop.dfy | Tsumiki.View.Win/WinInterop.cs: lParam decoding, canvas registry, class registration, `WndProc` |
| `WinCanvas` | win_canvas.dfy | Tsumiki.View.Win/TsumikiCanvas.cs: creation, resize, disposal |
| `MacCanvas` | mac_canvas.dfy | Tsumiki.View.Mac/TsumikiCanvas.cs over a stand-in for Tsumiki.View.Mac/Renderer.cs |

The code is followed wherever it can be read in more than one way. Two places where it
evidently does not do what was intended are listed under "## Findings". In both places
the classes run the code as written: `GliderConfig` leaves its cached glide at 0, and
`ChannelTuningConfig.Recalculate` short-circuits. The corrected behaviour is a separate
definition beside it, with the intended property proved: `NewGlider` and
`ChannelTuningConfig.RecalculateFully`.

## Model

| member | source | states |
|---|---|---|
| Midi.NewVoice | Tsumiki.Core/MidiVoice.cs:43-48 | a new voice holds the note with Length 0 and PolyPressure 0 |
| Midi.OffIsNeverOn | Tsumiki.Core/MidiVoice.cs:7-16 | MidiNote.Off is not on, and a note is on exactly when its velocity is at least 0 |
| Midi.IsSameSymmetric | Tsumiki.Core/MidiVoice.cs:19-29 | IsSame is false across channels, symmetric, compares note ids when neither is the global id and pitches otherwise |
| Midi.FirstFreeSlot | Tsumiki.Core/MidiVoice.cs:80-86 | the first slot with offset <= 0 among the first n, or -1 exactly when every offset is positive |
| Midi.FirstLargestSlot | Tsumiki.Core/MidiVoice.cs:79-91 | a slot whose offset is the largest of the first n and strictly larger than every earlier one |
| Midi.ReservationSlot | Tsumiki.Core/MidiVoice.cs:79-94 | the slot Reserve overwrites: the first free one if any, otherwise the first with the largest offset |
| Midi.OldestOffVoice | Tsumiki.Core/MidiVoice.cs:141-155 | the off-voice candidate of the NoteOn loop is -1 or an index among the first n |
| Midi.OldestOnVoice | Tsumiki.Core/MidiVoice.cs:140-151 | the on-voice candidate of the NoteOn loop is an index among the first n |
| Midi.OldestOffVoiceSpec | Tsumiki.Core/MidiVoice.cs:141-155 | the candidate is -1 exactly when all voices are on; otherwise it is an off voice of greatest Length, the first such |
| Midi.OldestOnVoiceSpec | Tsumiki.Core/MidiVoice.cs:140-151 | when every voice is on, the candidate has the greatest Length and is the first such |
| Midi.NoteOnTarget | Tsumiki.Core/MidiVoice.cs:138-162 | the voice NoteOn overwrites: the oldest off voice if there is one, else the oldest on voice, lowest index on ties |
| Midi.NoteOnSpec | Tsumiki.Core/MidiVoice.cs:138-164 | NoteOn keeps the number of voices |
| Midi.NoteOffSpec | Tsumiki.Core/MidiVoice.cs:167-176 | NoteOff keeps the number of voices |
| Midi.ProcessNoteSpec | Tsumiki.Core/MidiVoice.cs:125-135 | ProcessNote keeps the number of voices |
| Midi.ProcessAll | Tsumiki.Core/MidiVoice.cs:102-114 | performing a sequence of notes keeps the number of voices |
| Midi.Fired | Tsumiki.Core/MidiVoice.cs:102-114 | a tick fires at most one note per reservation |
| Midi.TickReservations | Tsumiki.Core/MidiVoice.cs:102-114 | counting down keeps the table size |
| Midi.Aged | Tsumiki.Core/MidiVoice.cs:117-120 | every voice's Length goes up by one as a C# int, int.MaxValue wrapping to int.MinValue; notes, pressures and the number of voices are kept |
| Midi.WrappedAgeLooksNewest | Tsumiki.Core/MidiVoice.cs:117-164 | of two sounding voices the one at int.MaxValue is stolen, but after one more tick its wrapped Length makes the other one the oldest |
| Midi.NoteOnChangesOneVoice | Tsumiki.Core/MidiVoice.cs:138-164 | NoteOn replaces exactly one voice, with a fresh Length-0 voice for the note, and leaves every other voice unchanged |
| Midi.NoteOffReleasesMatches | Tsumiki.Core/MidiVoice.cs:167-176 | after NoteOff no voice is on and IsSame the note; matching on voices become Off voices; every other voice is untouched |
| Midi.CountdownFiresOnce | Tsumiki.Core/MidiVoice.cs:105-113 | an offset k >= 0 is max(k - n, -1) after n ticks, never below -1, and fires on tick n exactly when n == k + 1 |
| Midi.FiredExactly | Tsumiki.Core/MidiVoice.cs:105-113 | every reservation at offset 0 fires on the next tick |
| Midi.FiredOnlyZero | Tsumiki.Core/MidiVoice.cs:105-113 | only reservations at offset 0 fire |
| Midi.FiredPrefix | Tsumiki.Core/MidiVoice.cs:102-114 | the notes fired by slots 0..i are those of slots 0..i-1 followed by slot i's, if it fires |
| Midi.ProcessAllSnoc | Tsumiki.Core/MidiVoice.cs:102-114 | notes are performed one after another, in slot order |
| Midi.MidiVoiceContainer.constructor | Tsumiki.Core/MidiVoice.cs:57-67 | for every voiceCount >= 0, including the empty container, both arrays have voiceCount entries, every reservation is Off at offset -1, every voice Off with Length 0 and no pressure |
| Midi.MidiVoiceContainer.FindReservationSlot | Tsumiki.Core/MidiVoice.cs:79-91 | the search loop of Reserve returns ReservationSlot of the table |
| Midi.MidiVoiceContainer.FindNoteOnTarget | Tsumiki.Core/MidiVoice.cs:140-161 | the search loop of NoteOn returns NoteOnTarget of the voices |
| Midi.MidiVoiceContainer.NoteOn | Tsumiki.Core/MidiVoice.cs:138-164 | the voices become NoteOnSpec of the old voices; the table is unchanged |
| Midi.MidiVoiceContainer.NoteOff | Tsumiki.Core/MidiVoice.cs:167-176 | the voices become NoteOffSpec of the old voices; the table is unchanged |
| Midi.MidiVoiceContainer.ProcessNote | Tsumiki.Core/MidiVoice.cs:125-135 | a note-on goes to NoteOn and a note-off to NoteOff |
| Midi.MidiVoiceContainer.Reserve | Tsumiki.Core/MidiVoice.cs:71-95 | offset <= 0: the note is performed at once and the table is unchanged; offset > 0: the voices are unchanged and only ReservationSlot is overwritten |
| Midi.MidiVoiceContainer.Tick | Tsumiki.Core/MidiVoice.cs:99-121 | the table counts down, the notes of the slots reaching -1 are performed in slot order, then every voice ages by one with the int32 wrap; an empty container stays empty |
| Midi.MidiVoiceContainer.CountDown | Tsumiki.Core/MidiVoice.cs:102-114 | the first loop of Tick: table counted down and fired notes performed in order |
| Midi.MidiVoiceContainer.CountDownSlot | Tsumiki.Core/MidiVoice.cs:104-113 | one slot counts down and, when it reaches -1, its note is performed |
| Midi.MidiVoiceContainer.AgeVoices | Tsumiki.Core/MidiVoice.cs:117-120 | every voice becomes its Aged self: Length one more modulo 2^32, nothing else changes |
| CoreSynthVoice.Tick | Tsumiki.Core/SynthVoice.cs:21-37 | a note-on makes the voice Active with the note's velocity and the slot's pressure and reports true exactly when Length == 1; a note-off moves it to Release |
| CoreSynthVoice.StartReportedOnFirstTick | Tsumiki.Core/SynthVoice.cs:30 | the voice NoteOn fills reports the start on the tick after the note-on and not on the one after that |
| CoreProcessor.Reset | Tsumiki.Core/TsumikiProcessor.cs:81-85 | note number and id become -1 and nothing else changes |
| CoreProcessor.NoteOn | Tsumiki.Core/TsumikiProcessor.cs:25-35 | note, id, target volume, delay and phase increment are set, the phase is 0, and the voice is Pending exactly when the offset is positive and Active otherwise; the current volume is kept |
| CoreProcessor.NoteOff | Tsumiki.Core/TsumikiProcessor.cs:37-43 | the target volume becomes 0 and the delay the offset; the voice releases at once only when Active at offset 0, otherwise keeps its state |
| CoreProcessor.Countdown | Tsumiki.Core/TsumikiProcessor.cs:47-56 | a positive delay drops by one; when it reaches 0 a Pending voice becomes Active and a voice with target 0 releases; nothing else changes |
| CoreProcessor.RenderSample | Tsumiki.Core/TsumikiProcessor.cs:45-79 | Pending and Inactive voices output 0 unchanged; otherwise sin(phase) times the smoothed volume, the phase stays in [0, 1), and the voice goes Inactive (volume 0, ids -1) exactly when it was releasing and fell below the threshold |
| CoreProcessor.PendingBecomesActive | Tsumiki.Core/TsumikiProcessor.cs:47-60 | a voice pending for d samples stays Pending for d - 1 renders and is Active after the d-th |
| CoreProcessor.InactiveStaysInactive | Tsumiki.Core/TsumikiProcessor.cs:57-60 | an Inactive voice without a countdown is never changed by rendering |
| CoreProcessor.FirstInactive | Tsumiki.Core/TsumikiProcessor.cs:111-122 | the lowest inactive index when there is one, 0 when every voice is busy |
| CoreProcessor.GlobalNoteOffReachesInactiveVoices | Tsumiki.Core/TsumikiProcessor.cs:134 | by C# precedence a note-off with id -1 also selects an Inactive voice that still carries the pitch, and leaves it Inactive |
| CoreProcessor.TsumikiProcessor.constructor | Tsumiki.Core/TsumikiProcessor.cs:88-91 | a new processor has no voices |
| CoreProcessor.TsumikiProcessor.IsActive | Tsumiki.Core/TsumikiProcessor.cs:93 | active exactly when voices are allocated |
| CoreProcessor.TsumikiProcessor.OnActive | Tsumiki.Core/TsumikiProcessor.cs:95-109 | activation allocates 16 fresh reset voices; deactivation leaves none |
| CoreProcessor.TsumikiProcessor.GetInactiveIndex | Tsumiki.Core/TsumikiProcessor.cs:111-122 | returns FirstInactive of the voices |
| CoreProcessor.TsumikiProcessor.OnNoteOn | Tsumiki.Core/TsumikiProcessor.cs:124-128 | only the voice at FirstInactive changes, to NoteOn of itself |
| CoreProcessor.TsumikiProcessor.OnNoteOff | Tsumiki.Core/TsumikiProcessor.cs:130-137 | every selected voice gets NoteOff and every other voice is unchanged |
| SampleMidi.NoteOnSpec | Tsumiki/SampleMidi.cs:164-185 | note, id, target volume, delay and phase increment are set, the phase is 0, the voice is Pending exactly when the offset is positive and Active otherwise; the current volume is kept |
| SampleMidi.NoteOffSpec | Tsumiki/SampleMidi.cs:187-197 | the target becomes 0 and the delay the offset; only an Active voice at delay 0 releases at once, every other voice keeps its state |
| SampleMidi.CountdownSpec | Tsumiki/SampleMidi.cs:202-216 | a positive delay drops by one; on reaching 0 a Pending voice becomes Active and a voice with target 0 releases; nothing else changes |
| SampleMidi.RenderSpec | Tsumiki/SampleMidi.cs:199-250 | silent and unchanged after the countdown while Pending (inside the countdown) or Inactive; otherwise the volume is smoothed once and the output is sin(phase) times it; the phase stays in [0, 2 pi); the voice is Inactive afterwards exactly when it was Inactive or was releasing with smoothed |volume| < 0.0001, and a retired voice has note number and id -1 |
| SampleMidi.PendingWithoutDelayRenders | Tsumiki/SampleMidi.cs:193-224 | a Pending voice whose delay a note-off set to 0 stays Pending and renders sound, since the Pending check sits inside the countdown branch |
| SampleMidi.DelayedNoteStartsOnTime | Tsumiki/SampleMidi.cs:202-221 | a note started with offset k stays Pending and silent for k - 1 renders and is Active after the k-th |
| SampleMidi.FirstInactive | Tsumiki/SampleMidi.cs:74-85 | the first inactive voice if there is one, voice 0 otherwise |
| SampleMidi.InactiveVoicesNeverMatch | Tsumiki/SampleMidi.cs:95-96 | the inactive test guards both alternatives, so an Inactive voice never receives a note-off |
| SampleMidi.SynthVoice.constructor | Tsumiki/SampleMidi.cs:150-160 | a new voice is Inactive with zero phase, volumes and delay and ids -1 |
| SampleMidi.SynthVoice.IsInactive | Tsumiki/SampleMidi.cs:162 | true exactly for the Inactive state |
| SampleMidi.SynthVoice.NoteOn | Tsumiki/SampleMidi.cs:164-185 | the voice's state becomes NoteOnSpec of the old state |
| SampleMidi.SynthVoice.NoteOff | Tsumiki/SampleMidi.cs:187-197 | the voice's state becomes NoteOffSpec of the old state |
| SampleMidi.SynthVoice.RenderSample | Tsumiki/SampleMidi.cs:199-250 | the new state and the output are those of RenderSpec |
| SampleMidi.SynthVoice.Play | Tsumiki/SampleMidi.cs:226-249 | the new state and the output are those of PlaySpec, the audible part of RenderSpec |
| SampleMidi.SampleMidiProcessor.Datas | Tsumiki/SampleMidi.cs:24 | one entry per voice, in array order |
| SampleMidi.SampleMidiProcessor.constructor | Tsumiki/SampleMidi.cs:21-25 | a new processor has no voices |
| SampleMidi.SampleMidiProcessor.OnActivate | Tsumiki/SampleMidi.cs:39-53 | activation creates 16 distinct fresh voices in the initial state; deactivation leaves none |
| SampleMidi.SampleMidiProcessor.HandleNoteOn | Tsumiki/SampleMidi.cs:71-88 | only the voice at FirstInactive changes, to NoteOnSpec of itself |
| SampleMidi.SampleMidiProcessor.HandleNoteOff | Tsumiki/SampleMidi.cs:90-101 | every selected voice gets NoteOffSpec and every other voice is unchanged |
| Sorting.AtLeastPermuted | Tsumiki.Core/TsumikiModelExtensions.cs:321 | a lower bound of the parts bounds every rearrangement of them |
| Sorting.SortedCons | Tsumiki.Core/TsumikiModelExtensions.cs:321 | an element no larger than an ascending sequence extends it ascending |
| Sorting.Insert | Tsumiki.Core/TsumikiModelExtensions.cs:321 | inserting into an ascending sequence gives an ascending permutation with the element added |
| Sorting.Sort | Tsumiki.Core/TsumikiModelExtensions.cs:321 | the sorted span is ascending and a permutation of the input |
| Sorting.SortHeadIsMinimum | Tsumiki.Core/TsumikiModelExtensions.cs:321 | sorting puts the least element of the span first |
| Sorting.HeadIsLeast | Tsumiki.Core/TsumikiModelExtensions.cs:321 | the head of an ascending sequence is no larger than the head of any rearrangement |
| Sorting.TailsPermuted | Tsumiki.Core/TsumikiModelExtensions.cs:321 | equal heads leave the tails permutations of each other |
| Sorting.SortedUnique | Tsumiki.Core/TsumikiModelExtensions.cs:321 | two ascending permutations of each other are equal, so any correct sort gives Sort's result |
| Sorting.Swap | Tsumiki.Core/TsumikiModelExtensions.cs:321 | exchanges two elements, keeping the contents a permutation |
| Sorting.InsertLast | Tsumiki.Core/TsumikiModelExtensions.cs:321 | moves one element into place: the prefix becomes ascending, the contents a permutation, the rest untouched |
| Sorting.SortInPlace | Tsumiki.Core/TsumikiModelExtensions.cs:321 | sorting the span in place leaves Sort of its old contents |
| TsumikiModelExtensions.ChannelField | Tsumiki.Core/TsumikiModelExtensions.cs:5-26 | index 1..15 selects Channel2..Channel16 and every other index Channel1 |
| TsumikiModelExtensions.PitchField | Tsumiki.Core/TsumikiModelExtensions.cs:28-161 | index 0..126 selects its own pitch property and every other index Pitch127 |
| TsumikiModelExtensions.ChannelTuningUnit.constructor | Tsumiki.Core/TsumikiModelExtensions.cs:298-303 | a channel's tuning values as given and 128 pitches at 0 |
| TsumikiModelExtensions.ChannelTuningUnit.GetPitch | Tsumiki.Core/TsumikiModelExtensions.cs:28-161 | reads pitch index for 0..126 and Pitch127 for any other index |
| TsumikiModelExtensions.ChannelTuningUnit.SetPitch | Tsumiki.Core/TsumikiModelExtensions.cs:163-296 | writes exactly the property GetPitch reads for the same index, so GetPitch then returns the value; nothing else changes |
| TsumikiModelExtensions.TuningUnit.constructor | Tsumiki.Core/TsumikiModelExtensions.cs:5-26 | sixteen channels, root and key period as given |
| TsumikiModelExtensions.TuningUnit.Channel | Tsumiki.Core/TsumikiModelExtensions.cs:5-26 | index 1..15 returns that channel and every other index channel 1 |
| TsumikiModelExtensions.KeyDecompose | Tsumiki.Core/TsumikiModelExtensions.cs:326-331 | DivRem with the negative adjustment gives the floor quotient and a remainder in [0, keyCount) that recompose the key |
| TsumikiModelExtensions.PeriodPitchInPeriod | Tsumiki.Core/TsumikiModelExtensions.cs:310-317 | with a non-negative generator and a truncating remainder, every key's pitch lies in [basePitch, basePitch + period) |
| TsumikiModelExtensions.PeriodPitches | Tsumiki.Core/TsumikiModelExtensions.cs:307-319 | one within-period pitch per key of the period |
| TsumikiModelExtensions.PitchTable | Tsumiki.Core/TsumikiModelExtensions.cs:323-334 | 128 pitches, key i at position i |
| TsumikiModelExtensions.KeyPitchPeriodic | Tsumiki.Core/TsumikiModelExtensions.cs:325-333 | moving a key by keyCount adds exactly one period |
| TsumikiModelExtensions.PitchTablePeriodic | Tsumiki.Core/TsumikiModelExtensions.cs:323-334 | table[i + keyCount] == table[i] + period whenever both keys exist |
| TsumikiModelExtensions.PitchTableAtRoot | Tsumiki.Core/TsumikiModelExtensions.cs:323-334 | the root key gets the lowest within-period pitch |
| TsumikiModelExtensions.TwelveToneKey | Tsumiki.Core/TsumikiModelExtensions.cs:323-334 | within-period pitches root..root + 11 with period 12 put pitch i on key i |
| TsumikiModelExtensions.TwelveToneEqual | Tsumiki.Core/TsumikiModelExtensions.cs:298-335 | ratio 0, generator 1, period 12 over twelve keys with offset 0 gives the identity table, pitch i on key i |
| TsumikiModelExtensions.FillPeriodPitches | Tsumiki.Core/TsumikiModelExtensions.cs:307-319 | the fill loop leaves PeriodPitches in a fresh span |
| TsumikiModelExtensions.SortedPeriodPitches | Tsumiki.Core/TsumikiModelExtensions.cs:307-321 | the span before the table loop is Sort of PeriodPitches |
| TsumikiModelExtensions.Rebuilt | Tsumiki.Core/TsumikiModelExtensions.cs:298-335 | the table for a unit's tuning values has 128 entries |
| TsumikiModelExtensions.RebuildPitches | Tsumiki.Core/TsumikiModelExtensions.cs:298-335 | the 128 pitches become Rebuilt of the tuning values, which stay unchanged |
| TsumikiModelExtensions.WritePitchTable | Tsumiki.Core/TsumikiModelExtensions.cs:323-334 | the table loop writes PitchTable of the sorted span through SetPitch |
| TsumikiViewModelExtension.KeyEdit | Tsumiki.View/TsumikiViewModelExtension.cs:175-178 | one key's write is BeginEdit, the value, EndEdit, on that key |
| TsumikiViewModelExtension.TableEdits | Tsumiki.View/TsumikiViewModelExtension.cs:165-179 | the loop makes three edit calls per key |
| TsumikiViewModelExtension.TableEditsLayout | Tsumiki.View/TsumikiViewModelExtension.cs:165-179 | calls 3i, 3i + 1 and 3i + 2 begin key i, set it to its table value and end it |
| TsumikiViewModelExtension.ChannelTuningViewModel.constructor | Tsumiki.View/TsumikiViewModelExtension.cs:140-146 | the view model holds the given tuning values, 128 pitches and no edit calls yet |
| TsumikiViewModelExtension.ChannelTuningViewModel.Pitch | Tsumiki.View/TsumikiViewModelExtension.cs:5-138 | index 0..126 selects its own pitch parameter and every other index Pitch127 |
| TsumikiViewModelExtension.ChannelTuningViewModel.EditPitch | Tsumiki.View/TsumikiViewModelExtension.cs:175-178 | the selected key takes the value inside one BeginEdit/EndEdit bracket; nothing else changes |
| TsumikiViewModelExtension.TablePitch | Tsumiki.View/TsumikiViewModelExtension.cs:167-177 | the loop's key decomposition gives KeyPitch, the same pitch as the model's table |
| TsumikiViewModelExtension.EditPitchTable | Tsumiki.View/TsumikiViewModelExtension.cs:165-179 | the pitches become PitchTable of the sorted span and the calls TableEdits of it |
| TsumikiViewModelExtension.RebuildPitches | Tsumiki.View/TsumikiViewModelExtension.cs:140-180 | the pitches become Rebuilt of the view values, the same table as the model's RebuildPitches, written key by key in edit brackets |
| ChannelTuning.FreshValue | Tsumiki.Core/ChannelTuning.cs:3-9 | a new tuning value caches the four integers and the value they give |
| ChannelTuning.Updated | Tsumiki.Core/ChannelTuning.cs:11-24 | reports true exactly when one of the four integers differs; then the cache is the fresh value, otherwise unchanged; afterwards it agrees with the integers |
| ChannelTuning.UpdatedIdempotent | Tsumiki.Core/ChannelTuning.cs:11-24 | a second Updated with the same integers reports false, and Updated keeps a consistent cache consistent |
| ChannelTuning.FromInputs | Tsumiki.Core/ChannelTuning.cs:27-35 | the field initialisers cache the keys and three consistent tuning values of the current inputs |
| ChannelTuning.EarlyReturnCheck | Tsumiki.Core/ChannelTuning.cs:42-50 | skips exactly when keys and all three values agree; a changed key short-circuits before any Updated; otherwise Updated runs in order ratio, generator, period up to the first change |
| ChannelTuning.Recalculated | Tsumiki.Core/ChannelTuning.cs:37-55 | after Recalculate the cache holds the new keys, or is unchanged when the check skipped |
| ChannelTuning.ClampedTable | Tsumiki.Core/ChannelTuning.cs:74-85 | 128 clamped pitches, key i at position i |
| ChannelTuning.ClampedTableBounds | Tsumiki.Core/ChannelTuning.cs:84 | every written pitch lies in [0, 128], and a table pitch inside that range is written unchanged |
| ChannelTuning.TableOf | Tsumiki.Core/ChannelTuning.cs:55-85 | the table written for a cache has 128 entries |
| ChannelTuning.StaleRatioWhenOffsetChanges | Tsumiki.Core/ChannelTuning.cs:42-55 | root 60, twelve keys, generator 2^(1/12) (value 1), period 2/1 (value 12): with the offset going from 0 to 1 and the ratio from 1/1 to 2/1 together, the check does not skip, the ratio cache stays stale, and key 60 keeps pitch 60 where fresh values give 72; the table stays stale until a later Recalculate runs the skipped Updated calls |
| ChannelTuning.SmallRemainder | Tsumiki.Core/ChannelTuning.cs:62 | C#'s truncating double remainder by 12 leaves a dividend strictly between -12 and 12 unchanged |
| ChannelTuning.BasePitchIsLowest | Tsumiki.Core/ChannelTuning.cs:59-70 | with offset 1 over twelve keys, generator 1 and period 12, the period pitches include the base pitch and none is lower |
| ChannelTuning.RootKeyPitch | Tsumiki.Core/ChannelTuning.cs:55-85 | for that tuning the table written at root key 60 is the base pitch, root plus the cached ratio value |
| ChannelTuning.RecalculatedFullyIsFresh | Tsumiki.Core/ChannelTuning.cs:27-55 | when every Updated is called, a consistent cache becomes exactly the one the inputs give |
| ChannelTuning.UpdatedAgreesFresh | Tsumiki.Core/ChannelTuning.cs:11-24 | Updated of a consistent cache is the fresh value of the new integers |
| ChannelTuning.WriteClampedTable | Tsumiki.Core/ChannelTuning.cs:74-85 | the loop writes ClampedTable of the sorted span through SetPitch |
| ChannelTuning.ChannelTuningConfig.constructor | Tsumiki.Core/ChannelTuning.cs:27-35 | the cache is FromInputs of what the units hold |
| ChannelTuning.ChannelTuningConfig.CheckForChanges | Tsumiki.Core/ChannelTuning.cs:39-50 | the result and the new cache are those of EarlyReturnCheck |
| ChannelTuning.ChannelTuningConfig.Rebuild | Tsumiki.Core/ChannelTuning.cs:52-85 | the keys are cached and the unit's pitches become TableOf the cache |
| ChannelTuning.ChannelTuningConfig.Recalculate | Tsumiki.Core/ChannelTuning.cs:37-86 | the cache becomes Recalculated; the pitches are unchanged when the check skips and TableOf the new cache otherwise |
| ChannelTuning.ChannelTuningConfig.RecalculateFully | Tsumiki.Core/ChannelTuning.cs:37-86 | with every Updated called, the cache becomes FromInputs of the inputs and the pitches the table of it |
| CanvasGeometry.NormalizedRect | Tsumiki.View.Win/TsumikiCanvas.cs:35-41 | the normalised rectangle keeps the top-left corner and is 3 by 2 units, with units = min(Width / 3, Height / 2) in C# division |
| CanvasGeometry.NormalizedIsThreeByTwo | Tsumiki.View.Win/TsumikiCanvas.cs:35-41 | the normalised size has the aspect ratio 3:2 exactly, for every request |
| CanvasGeometry.NormalizedFitsAndIsLargest | Tsumiki.View.Mac/TsumikiCanvas.cs:64-70 | for a rectangle of non-negative size the normalised one fits inside it and is the largest 3:2 rectangle of whole units that does |
| CanvasGeometry.NormalizedIdempotent | Tsumiki.View.Mac/TsumikiCanvas.cs:64-70 | normalising a normalised rectangle changes nothing |
| WinRenderer.Distinct | Tsumiki.View.Win/Renderer.cs:87-95 | the de-duplicated queue has no more entries than the queue |
| WinRenderer.DistinctElements | Tsumiki.View.Win/Renderer.cs:87-95 | a visual is rendered exactly when it was queued |
| WinRenderer.DistinctNoRepeats | Tsumiki.View.Win/Renderer.cs:87-95 | no visual is rendered twice from the queue |
| WinRenderer.FirstPositions | Tsumiki.View.Win/Renderer.cs:87-95 | one first position per kept visual |
| WinRenderer.DistinctInFirstOccurrenceOrder | Tsumiki.View.Win/Renderer.cs:88-95 | the kept visuals are in first-occurrence order: each is the queue entry at an increasing position where it occurs for the first time |
| WinRenderer.DistinctOfDistinct | Tsumiki.View.Win/Renderer.cs:88-95 | a queue without repeats is rendered as it is |
| WinRenderer.RenderAll | Tsumiki.View.Win/Renderer.cs:82-85 | one render per visual, in order |
| WinRenderer.Renderer.constructor | Tsumiki.View.Win/Renderer.cs:31-66 | the unit quad over the left three quarters of the texture, the root visual queued once, one clear |
| WinRenderer.Renderer.Resize | Tsumiki.View.Win/Renderer.cs:105-108 | only records the size for the next frame |
| WinRenderer.Renderer.RegisterVisual | Tsumiki.View.Win/Renderer.cs:110-113 | queues the visual at the end; nothing else changes |
| WinRenderer.Renderer.Frame | Tsumiki.View.Win/Renderer.cs:68-103 | a pending resize resizes, clears and replaces the queue by the root visual; then last frame's visuals render again, then each distinct queued visual once in first-occurrence order, then a present; the visuals rendered from the queue become the previous ones |
| WinRenderer.Renderer.RenderPrevious | Tsumiki.View.Win/Renderer.cs:82-85 | the previous visuals are drained and rendered in order |
| WinRenderer.Renderer.RenderQueued | Tsumiki.View.Win/Renderer.cs:87-95 | the queue is drained; each visual not yet rendered this frame is rendered and kept |
| WinRenderer.Renderer.DrawImage | Tsumiki.View.Win/Renderer.cs:120-140 | the four vertices take the corners of the client range and the texture corners of the image range, keeping z and w |
| WinInterop.MessageAction | Tsumiki.View.Win/WinInterop.cs:124-161 | a message is a mouse action exactly for MouseMove, LeftButtonDown, LeftButtonUp and LeftButtonDoubleClick |
| WinInterop.ToSigned16 | Tsumiki.View.Win/WinInterop.cs:115-116 | (short) of a 16-bit pattern is in the short range, negative exactly when the top bit is set |
| WinInterop.ToUnsigned16 | Tsumiki.View.Win/WinInterop.cs:115-116 | (ushort) of a short is the 16-bit pattern that reads back as the short |
| WinInterop.GetCoordinates | Tsumiki.View.Win/WinInterop.cs:113-118 | both coordinates are in the short range |
| WinInterop.PackCoordinates | Tsumiki.View.Win/WinInterop.cs:113-118 | a point packs into the low 32 bits of lParam |
| WinInterop.CoordinatesRoundTrip | Tsumiki.View.Win/WinInterop.cs:113-118 | decoding a packed point, negative coordinates included, gives the point back |
| WinInterop.HighBitsIgnored | Tsumiki.View.Win/WinInterop.cs:115-116 | bits above 31 of lParam never reach the coordinates |
| WinInterop.Interop.constructor | Tsumiki.View.Win/WinInterop.cs:9-10 | no class registered and no active canvases |
| WinInterop.Interop.AddCanvas | Tsumiki.View.Win/WinInterop.cs:12-15 | the handle maps to the canvas, replacing an earlier entry |
| WinInterop.Interop.RemoveCanvas | Tsumiki.View.Win/WinInterop.cs:17-20 | only the entry of that handle is removed |
| WinInterop.Interop.RegisterClass | Tsumiki.View.Win/WinInterop.cs:22-41 | the class is registered at most once, and not while the module handle is 0 |
| WinInterop.Interop.WndProc | Tsumiki.View.Win/WinInterop.cs:120-163 | a mouse message reaches the canvas registered for its window, with decoded coordinates, exactly when there is one; every message goes on to DefWindowProcW |
| WinCanvas.TsumikiCanvas.constructor | Tsumiki.View.Win/TsumikiCanvas.cs:21-31 | a renderer at the window size rooted at the control, the render loop started, the control subscribed, the canvas registered under its handle |
| WinCanvas.TsumikiCanvas.Create | Tsumiki.View.Win/TsumikiCanvas.cs:14-19 | the class registered first; no canvas when window creation returns the null handle, otherwise a registered canvas over that window |
| WinCanvas.TsumikiCanvas.Resize | Tsumiki.View.Win/TsumikiCanvas.cs:33-46 | the size normalised to 3:2 is stored and passed to the window and the renderer; nothing else changes |
| WinCanvas.TsumikiCanvas.DisposeCore | Tsumiki.View.Win/TsumikiCanvas.cs:68-88 | the first call unsubscribes (only when disposing), stops the loop, disposes the renderer, unregisters the canvas and destroys the window; later calls change nothing; the result is true |
| WinCanvas.TsumikiCanvas.Dispose | Tsumiki.View.Win/TsumikiCanvas.cs:90-94 | the disposing variant: the control is unsubscribed |
| WinCanvas.TsumikiCanvas.CanvasFinalize | Tsumiki.View.Win/TsumikiCanvas.cs:96-99 | the finaliser variant: the subscription is left as it is |
| WinCanvas.DisposeTwice | Tsumiki.View.Win/TsumikiCanvas.cs:68-94 | a second Dispose keeps what the first one did |
| MacCanvas.MacRenderer.constructor | Tsumiki.View.Mac/Renderer.cs:12-41 | construction over a non-null native renderer clears and presents once |
| MacCanvas.MacRenderer.Resize | Tsumiki.View.Mac/Renderer.cs:54-58 | a live renderer passes the resize on; a disposed one throws and calls nothing |
| MacCanvas.MacRenderer.Render | Tsumiki.View.Mac/Renderer.cs:134-140 | a live renderer draws the visual; a disposed one throws |
| MacCanvas.MacRenderer.Present | Tsumiki.View.Mac/Renderer.cs:105-109 | a live renderer presents; a disposed one throws |
| MacCanvas.MacRenderer.Dispose | Tsumiki.View.Mac/Renderer.cs:113-127 | the native renderer is destroyed on the first call only |
| MacCanvas.TsumikiCanvas.constructor | Tsumiki.View.Mac/TsumikiCanvas.cs:38-50 | the size and control stored, a fresh renderer, the control subscribed |
| MacCanvas.TsumikiCanvas.Create | Tsumiki.View.Mac/TsumikiCanvas.cs:20-36 | no canvas exactly when the parent view is null or the renderer's construction throws; otherwise a live canvas at the requested size |
| MacCanvas.TsumikiCanvas.OnRenderRequested | Tsumiki.View.Mac/TsumikiCanvas.cs:52-59 | the visual drawn and then one present; a disposed renderer throws before either |
| MacCanvas.TsumikiCanvas.Resize | Tsumiki.View.Mac/TsumikiCanvas.cs:61-80 | width and height become the 3:2 normalisation even when the renderer then throws; a live renderer is resized to it |
| MacCanvas.TsumikiCanvas.Dispose | Tsumiki.View.Mac/TsumikiCanvas.cs:82-102 | the first call unsubscribes and destroys the renderer; later calls change nothing |
| MacCanvas.DisposeTwice | Tsumiki.View.Mac/TsumikiCanvas.cs:82-97 | however often a canvas is disposed, its renderer is destroyed once |
| KeyBoard.KeyImageIndex | Tsumiki.View/KeyBoardView.cs:20-25 | the key image drawn is min(root, 98) modulo 12, in 0..11 for every non-negative root |
| KeyBoard.KeyImageFollowsWindow | Tsumiki.View/KeyBoardView.cs:22-24 | the key image is the one of the first key of PitchBarView's 30-key window |
| KeyBoard.KeyBoardRendersOn | Tsumiki.View/KeyBoardView.cs:27-33 | a render is requested exactly for the Root and KeyPeriod parameters |
| KeyBoard.Window | Tsumiki.View/KeyBoardView.cs:52-55 | the window spans 30 keys starting at min(root, 98), lies in 0..127 and contains the root |
| KeyBoard.IsRootMeansPeriodStart | Tsumiki.View/KeyBoardView.cs:110 | with a one-key period only the root is marked; otherwise exactly the keys that take the first (lowest) pitch of their period |
| KeyBoard.RootKeyPitch | Tsumiki.View/KeyBoardView.cs:93-103 | a marked root key sits a whole number of periods above the lowest sorted period pitch |
| KeyBoard.RelativePitch | Tsumiki.View/KeyBoardView.cs:115-118 | a line is drawn exactly for pitches inside the window, at a distance 0..29 below its top |
| KeyBoard.LastMatch | Tsumiki.View/KeyBoardView.cs:145-155 | the channel loop ends on the last channel whose id range holds the parameter, or keeps the current one when none does |
| KeyBoard.FindChannel | Tsumiki.View/KeyBoardView.cs:145-155 | the loop over the 16 channels returns the last matching channel and whether any matched |
| KeyBoard.WindowPitches | Tsumiki.View/KeyBoardView.cs:57-105 | the rebuilt window always holds 30 pitches |
| KeyBoard.CustomWindow | Tsumiki.View/KeyBoardView.cs:61-67 | a custom-pitch channel contributes 30 pitches |
| KeyBoard.GeneratedWindow | Tsumiki.View/KeyBoardView.cs:93-104 | a generated channel contributes 30 pitches |
| KeyBoard.CustomWindowIsSlice | Tsumiki.View/KeyBoardView.cs:61-67 | for a custom-pitch channel the window is exactly the slice of the channel's own Pitch parameters for the window's keys |
| KeyBoard.GeneratedWindowSlice | Tsumiki.View/KeyBoardView.cs:93-104 | the generated window is the window's slice of the full clamped 128-key table |
| KeyBoard.GeneratedWindowIsTableSlice | Tsumiki.View/KeyBoardView.cs:69-105 | the view's generated window agrees, key for key, with the table ChannelTuningConfig writes for the same root, period, offset and ratios |
| KeyBoard.PitchBarView.constructor | Tsumiki.View/KeyBoardView.cs:42-46 | a new view follows Channel1, holds 30 pitches and is scheduled to rebuild |
| KeyBoard.PitchBarView.OnParameterChanged | Tsumiki.View/KeyBoardView.cs:137-156 | Root, KeyPeriod and any channel's id schedule a rebuild and a render; the followed channel becomes the last one whose range holds the id |
| KeyBoard.PitchBarView.Recalculate | Tsumiki.View/KeyBoardView.cs:52-106 | only while a rebuild is scheduled, the window becomes WindowPitches of the followed channel and the flag is cleared; otherwise nothing changes |
| KeyBoard.WriteWindowPitches | Tsumiki.View/KeyBoardView.cs:60-104 | the array ends equal to WindowPitches |
| KeyBoard.WriteCustomWindow | Tsumiki.View/KeyBoardView.cs:63-66 | the loop writes each window key's own pitch parameter |
| KeyBoard.WriteWindow | Tsumiki.View/KeyBoardView.cs:93-104 | the loop writes each window key's clamped table pitch, from the floor decomposition of its distance to the root |
| KeyBoard.ChannelImage | Tsumiki.View/KeyBoardView.cs:185-195 | the first image strip is used exactly for channels below 8 |
| KeyBoard.ChannelImageIdentifies | Tsumiki.View/KeyBoardView.cs:185-195 | for the 16 channels the strip and row (0..7) identify the channel |
| KeyBoard.ChannelNumber.constructor | Tsumiki.View/KeyBoardView.cs:168-170 | a new number shows channel 0 |
| KeyBoard.ChannelNumber.OnParameterChanged | Tsumiki.View/KeyBoardView.cs:172-183 | the index becomes the last channel whose id range holds the parameter, with a render exactly when one does |
| TuningValueControl.Ord | Tsumiki.View/TuningValueControl.Text.cs:458-464 | the four parts are numbered 0..3 in declaration order |
| TuningValueControl.Prev | Tsumiki.View/TuningValueControl.Text.cs:144 | `_focusedPart--` moves to the part one before |
| TuningValueControl.KeyCodeChar | Tsumiki.View/TuningValueControl.Text.cs:11-25 | the key-code table holds exactly Divide, NumPad0..NumPad9 and Back, with their characters |
| TuningValueControl.OnKeyUp | Tsumiki.View/TuningValueControl.Text.cs:330-333 | a key is consumed exactly when its character is valid or its key code is in the table; c, v, ^, / and Back always are |
| TuningValueControl.DigitsValue | Tsumiki.View/TuningValueControl.Text.cs:100-104 | the decimal fold of the entered digits is non-negative |
| TuningValueControl.ReadValue | Tsumiki.View/TuningValueControl.Text.cs:92-107 | an empty part reads as 1, any other as the decimal value of its digits |
| TuningValueControl.Decimal | Tsumiki.View/TuningValueControl.Text.cs:218-249 | LoadValue writes a single 0 for 0, nothing for a negative value, and one, two or three digits for values below 10, below 100 and from 100 |
| TuningValueControl.LoadOrClear | Tsumiki.View/TuningValueControl.Text.cs:206-216 | the value 1 is shown as an empty part, any other value as its digits |
| TuningValueControl.DigitsValueSnoc | Tsumiki.View/TuningValueControl.Text.cs:100-104 | appending a digit multiplies the value by ten and adds the digit |
| TuningValueControl.DecimalRoundTrip | Tsumiki.View/TuningValueControl.Text.cs:218-249 | for 0..999, reading back the digits LoadValue writes gives the value, and every digit is below 10 |
| TuningValueControl.LoadOrClearRoundTrip | Tsumiki.View/TuningValueControl.Text.cs:206-249 | for 0..999, reading back a part loaded with LoadOrClearValue gives the value (an empty part is 1) |
| TuningValueControl.LoadFocus | Tsumiki.View/TuningValueControl.Text.cs:190-205 | loading leaves the focus on the last part LoadValue wrote: N or D when the exponent is 1/1, else Pn or Pd |
| TuningValueControl.BackTarget | Tsumiki.View/TuningValueControl.Text.cs:140-147 | on an empty part the focus moves to the nearest earlier part with digits, or to N, and never forward |
| TuningValueControl.EditsFor | Tsumiki.View/TuningValueControl.Text.cs:116-124 | a parameter is edited, in one begin/set/end group, exactly when the value changes |
| TuningValueControl.RangeParameter.constructor | Tsumiki.View/TuningValueControl.Text.cs:5-8 | a parameter with its range, default and value and no edits |
| TuningValueControl.RangeParameter.Reset | Tsumiki.View/TuningValueControl.Text.cs:80-83 | the parameter takes its default value |
| TuningValueControl.RangeParameter.SetIfChanged | Tsumiki.View/TuningValueControl.Text.cs:116-124 | the parameter takes the value, with a begin/set/end group only when it changes |
| TuningValueControl.Clipboard.constructor | Tsumiki.View/TuningValueControl.Text.cs:32-35 | the shared copied values all start at 1 |
| TuningValueControl.TuningValueControl.constructor | Tsumiki.View/TuningValueControl.Text.cs:38-47 | four empty three-digit buffers, the focus on N |
| TuningValueControl.TuningValueControl.SetLength | Tsumiki.View/TuningValueControl.Text.cs:160-170 | only the length of the named part changes |
| TuningValueControl.TuningValueControl.DistinctDigits | Tsumiki.View/TuningValueControl.Text.cs:150-158 | the four parts have four distinct buffers |
| TuningValueControl.TuningValueControl.GetValue | Tsumiki.View/TuningValueControl.Text.cs:92-107 | the loop returns ReadValue of the part's entered digits |
| TuningValueControl.TuningValueControl.LoadValue | Tsumiki.View/TuningValueControl.Text.cs:218-249 | the part shows Decimal(value) and takes the focus; other parts are untouched |
| TuningValueControl.TuningValueControl.WriteDecimal | Tsumiki.View/TuningValueControl.Text.cs:224-248 | the buffer's first length cells hold Decimal(value) |
| TuningValueControl.TuningValueControl.ClearValue | Tsumiki.View/TuningValueControl.Text.cs:251-254 | the part becomes empty; other parts and the focus are untouched |
| TuningValueControl.TuningValueControl.LoadOrClearValue | Tsumiki.View/TuningValueControl.Text.cs:206-216 | the part shows LoadOrClear(value); the focus moves to it unless the value is 1 |
| TuningValueControl.TuningValueControl.LoadParameters | Tsumiki.View/TuningValueControl.Text.cs:190-205 | the display shows the four values (an exponent of 1/1 as two empty parts) with the focus at LoadFocus |
| TuningValueControl.TuningValueControl.SetParameter | Tsumiki.View/TuningValueControl.Text.cs:109-114 | the parameter takes the typed value clamped to its range, edited only when it changes |
| TuningValueControl.TuningValueControl.SetParameters | Tsumiki.View/TuningValueControl.Text.cs:87-90 | each of the four parameters takes its clamped typed value, in order |
| TuningValueControl.TuningValueControl.ResetParameters | Tsumiki.View/TuningValueControl.Text.cs:80-83 | each of the four parameters is reset to its default |
| TuningValueControl.TuningValueControl.OnLostFocus | Tsumiki.View/TuningValueControl.Text.cs:76-130 | an empty N under the focus resets all four parameters; otherwise each takes its clamped typed value; then the display shows the parameters |
| TuningValueControl.TuningValueControl.FocusBackPart | Tsumiki.View/TuningValueControl.Text.cs:133-148 | Back deletes the focused part's last digit, leaving the rest of its digits and every other part unchanged, or on an empty part moves the focus to BackTarget without changing any digits |
| TuningValueControl.TuningValueControl.AddDigit | Tsumiki.View/TuningValueControl.Text.cs:318-327 | a digit is appended unless the part already holds three; other parts are untouched |
| TuningValueControl.TuningValueControl.TargetChar | Tsumiki.View/TuningValueControl.Text.cs:279-287 | a valid character stands for itself; otherwise the key code's table entry, if any |
| TuningValueControl.TuningValueControl.Slash | Tsumiki.View/TuningValueControl.Text.cs:291-298 | on N or Pn an empty part becomes 1 and the focus moves to the next part; on D or Pd nothing changes; no part other than the one focused before is ever changed |
| TuningValueControl.TuningValueControl.Hat | Tsumiki.View/TuningValueControl.Text.cs:300-307 | on N or D an empty N becomes 1 and the focus moves to Pn; on Pn or Pd nothing changes; no part other than N is ever changed |
| TuningValueControl.TuningValueControl.OnKeyDown | Tsumiki.View/TuningValueControl.Text.cs:257-316 | handled exactly for Back and keys with a target; Back deletes the last digit or moves back to BackTarget; c copies the four values to the shared clipboard, v shows them; '/' fills an empty N or Pn with 1 and advances, '^' fills an empty N and jumps to Pn, both doing nothing elsewhere; a digit is appended to the focused part, whose length becomes the smaller of one more and three; c, an empty-part Back and an unhandled key change no digits, a non-empty Back removes only the focused part's last digit, and '/', '^' and a digit leave every part other than the one they fill unchanged |
| TuningValueControl.TuningValueControl.TypeCharacter | Tsumiki.View/TuningValueControl.Text.cs:289-312 | a typed '/' acts as Slash, '^' as Hat, and a digit is appended to the focused part unless it holds three, with the focus and the other parts unchanged |
| TuningValueControl.TuningValueControl.OnParameterChanged | Tsumiki.View/TuningValueControl.Text.cs:335-343 | one of the four ids reloads the display exactly while the control is not focused; otherwise the display is unchanged |
| TuningValueControl.ShownValuesReadBack | Tsumiki.View/TuningValueControl.Text.cs:190-255 | after the display is loaded with four values in 0..999, committing reads back exactly those values |
| StackedVoice.NewGliderAsWritten | Tsumiki.Core/StackedVoice.cs:84-91 | as written, the constructor derives the flags and filter from the unit but leaves the cached glide at 0 |
| StackedVoice.NewGlider | Tsumiki.Core/StackedVoice.cs:84-91 | the corrected constructor caches the unit's glide, so the flags match it |
| StackedVoice.GliderRecalculated | Tsumiki.Core/StackedVoice.cs:93-108 | Recalculate changes nothing when glide and sample rate are unchanged; afterwards both are cached; a non-positive glide keeps the filter |
| StackedVoice.GliderFollowsUnit | Tsumiki.Core/StackedVoice.cs:93-108 | from matching flags, Recalculate enables glide exactly for a positive glide, polyphony exactly for a negative one, never both, and re-derives the filter of a changed positive glide |
| StackedVoice.GliderRecalculateIdempotent | Tsumiki.Core/StackedVoice.cs:93-108 | recalculating twice with the same values is recalculating once |
| StackedVoice.StaleEnableAfterGlideCleared | Tsumiki.Core/StackedVoice.cs:87-97 | as written, a config built with Glide 10 still has glide enabled after Glide is set to 0 and Recalculate runs |
| StackedVoice.GliderConfig.constructor | Tsumiki.Core/StackedVoice.cs:84-91 | as written: the fields are those of NewGliderAsWritten, flags and filter from the unit and the cached glide 0 |
| StackedVoice.GliderConfig.Recalculate | Tsumiki.Core/StackedVoice.cs:93-108 | the fields become GliderRecalculated of the old ones |
| StackedVoice.Partner | Tsumiki.Core/StackedVoice.cs:115-137 | a voice's partner is a neighbour |
| StackedVoice.FactorRowLengths | Tsumiki.Core/StackedVoice.cs:115-137 | both tables have eight rows and row k has k entries, so factor[i] with i < Stack <= 7 is in range |
| StackedVoice.FactorRowsCentred | Tsumiki.Core/StackedVoice.cs:115-137 | every row is centred: in an odd stack voice 0 has factor 0, and every other voice has a partner with the negated detune and pan factors |
| StackedVoice.PanFactorsInsideRow | Tsumiki.Core/StackedVoice.cs:127-137 | every pan factor of row k lies strictly between -k and k |
| StackedVoice.UnisonPitches | Tsumiki.Core/StackedVoice.cs:160-167 | the unison branch writes seven pitch factors |
| StackedVoice.HarmonicPitches | Tsumiki.Core/StackedVoice.cs:168-175 | the harmonic branch writes seven pitch factors |
| StackedVoice.PitchesFor | Tsumiki.Core/StackedVoice.cs:158-176 | a pitch recalculation writes seven pitch factors |
| StackedVoice.PansFor | Tsumiki.Core/StackedVoice.cs:178-192 | a pan recalculation writes seven pans |
| StackedVoice.StackPitches | Tsumiki.Core/StackedVoice.cs:150-176 | the pitches are untouched unless Stack, StackMode or StackDetune changed |
| StackedVoice.StackPans | Tsumiki.Core/StackedVoice.cs:151-192 | the pans are untouched unless Stack or StackStereo changed; a zero stereo width clears all seven |
| StackedVoice.HarmonicSeries | Tsumiki.Core/StackedVoice.cs:168-175 | voice i of the first six plays harmonic i + 1 and the last slot the eighth; a full stack plays 1, 2, 3, 4, 5, 6, 8 |
| StackedVoice.UnisonWithoutDetune | Tsumiki.Core/StackedVoice.cs:160-167 | without detune every unison voice plays the pitch itself |
| StackedVoice.ScaledWithin | Tsumiki.Core/StackedVoice.cs:189 | a factor no larger than k, times s, over k, is no larger than s |
| StackedVoice.PanWithinStereo | Tsumiki.Core/StackedVoice.cs:178-192 | after a pan recalculation no voice of the stack is panned wider than the stereo width |
| StackedVoice.StackConfig.constructor | Tsumiki.Core/StackedVoice.cs:113-145 | a new config caches Stack 0 with all-zero pitches and pans |
| StackedVoice.StackConfig.Recalculate | Tsumiki.Core/StackedVoice.cs:147-193 | the unit's inputs are cached in every case; pitches become StackPitches and pans StackPans of the old cache |
| StackedVoice.WritePitches | Tsumiki.Core/StackedVoice.cs:158-176 | the pitch loops leave PitchesFor of the old pitches |
| StackedVoice.WritePans | Tsumiki.Core/StackedVoice.cs:178-192 | the pan branch leaves PansFor of the old pans |
| StackedVoice.NewTickData | Tsumiki.Core/StackedVoice.cs:196-205 | UseFilter is set exactly for a non-zero mix and the dry share is 1 - mix |
| StackedVoice.MixedOutputIsCrossfade | Tsumiki.Core/StackedVoice.cs:251-259 | with consistent fields the output is always the cross-fade dry + mix * (filtered - dry) |
| StackedVoice.ConfigSet.constructor | Tsumiki.Core/StackedVoice.cs:24-37 | the sub-configs derive from the model, the glider as written (cached glide 0); master, pitch bend and the three consistent mix fields are set |
| StackedVoice.ConfigSet.Recalculate | Tsumiki.Core/StackedVoice.cs:39-57 | every sub-config recalculated, master and pitch bend copied, the mix fields refreshed only when the mix changed, and kept consistent |
| StackedVoice.EventCallFor | Tsumiki.Core/StackedVoice.cs:221-234 | StartNote, RestartNote and PitchChanged each run their own call, no event none |
| StackedVoice.StateAfterRender | Tsumiki.Core/StackedVoice.cs:242-246 | only a releasing voice changes state, going inactive exactly when both oscillator levels are 0 |
| StackedVoice.ReleasingVoiceIsAudible | Tsumiki.Core/StackedVoice.cs:242-246 | a voice still releasing after rendering has an audible oscillator |
| StackedVoice.StackedVoiceState.constructor | Tsumiki.Core/StackedVoice.cs:209-216 | a new voice is inactive |
| StackedVoice.StackedVoiceState.TickAndRender | Tsumiki.Core/StackedVoice.cs:218-260 | the event call is run; an inactive voice and a release that fell silent output 0; otherwise each side is the oscillators' sum over the stack size, mixed with its filter |
| RingBuffer.Written | Tsumiki.Core/Delay.cs:46-48 | after n writes the buffer keeps its length |
| RingBuffer.Delayed | Tsumiki.Core/Delay.cs:46-48 | a run reads one value per input |
| RingBuffer.DistinctSlots | Tsumiki.Core/Delay.cs:46 | steps fewer than d apart use different slots |
| RingBuffer.SlotPeriodic | Tsumiki.Core/Delay.cs:46 | steps d apart use the same slot |
| RingBuffer.WrittenWindow | Tsumiki.Core/Delay.cs:46-48 | after n writes, the slot of each of the last d steps holds that step's input, and a slot not yet reached holds its initial content |
| RingBuffer.RingDelay | Tsumiki.Core/Delay.cs:46-48 | step n reads the input of step n - d, or the initial content of its slot during the first d steps |
| RingBuffer.DelayedByD | Tsumiki.Core/Delay.cs:46-48 | every read from step d on is the input d steps earlier; earlier reads are the initial contents |
| RingBuffer.ModOfSum | Tsumiki.Core/Delay.cs:46 | reducing a start modulo d does not move the slot |
| RingBuffer.WrittenShift | Tsumiki.Core/Delay.cs:46-48 | a run after its first write is a run on the written buffer from the next slot |
| RingBuffer.DelayedSplit | Tsumiki.Core/Delay.cs:46-48 | a run is its first read followed by the run from the next slot on the written buffer |
| RingBuffer.WrittenCongruent | Tsumiki.Core/Delay.cs:46-48 | starts that agree modulo d write the same slots |
| RingBuffer.WrittenConcat | Tsumiki.Core/Delay.cs:46-48 | writing xs and then ys is one run over xs + ys |
| RingBuffer.WrittenPrefix | Tsumiki.Core/Delay.cs:46-48 | the first n writes depend on the first n inputs only |
| RingBuffer.DelayedConcat | Tsumiki/Sample.cs:73-90 | reading a run over xs + ys is the run over xs followed by the run over ys from where it stopped |
| Delay.DelaySamples | Tsumiki.Core/Delay.cs:12-22 | the delay in samples is the truncation of delay * sampleRate / 1000, non-negative for non-negative inputs |
| Delay.BufferLength | Tsumiki.Core/Delay.cs:36 | a channel buffer holds at least 24000 samples and at least half a second |
| Delay.DelayFitsBuffer | Tsumiki.Core/Delay.cs:12-36 | delays of 0 to 500 ms fit the channel buffer at every positive sample rate |
| Delay.DelayConfig.constructor | Tsumiki.Core/Delay.cs:7-15 | the settings are derived from the unit at the sample rate |
| Delay.DelayConfig.Recalculate | Tsumiki.Core/Delay.cs:17-26 | every setting is re-derived from the unit's current values |
| Delay.FeedbackGate | Tsumiki.Core/Delay.cs:52-54 | feedback of magnitude at most 1/8192 becomes 0, any other passes unchanged |
| Delay.RingTick | Tsumiki.Core/Delay.cs:46-48 | the index advances modulo the delay and stays below it; the buffer keeps its length |
| Delay.Taps | Tsumiki.Core/Delay.cs:44-48 | successive ticks read one value per input |
| Delay.TapsAreRingRun | Tsumiki.Core/Delay.cs:44-48 | successive ticks are the ring run starting at the slot after the index |
| Delay.TapsDelayByCount | Tsumiki.Core/Delay.cs:44-48 | with a fixed delay of d samples every tick from the d-th on reads the input of d ticks before |
| Delay.DelayChannel.constructor | Tsumiki.Core/Delay.cs:31-39 | a channel starts with a silent buffer of BufferLength samples at index 0 and no feedback |
| Delay.DelayChannel.Advance | Tsumiki.Core/Delay.cs:46-48 | the index, the buffer and the value read are those of one RingTick; the feedback is kept |
| Delay.DelayChannel.TickAndRender | Tsumiki.Core/Delay.cs:43-57 | the ring makes one tick; the output is the value read, filtered by the low cut and then the high cut; the feedback is the gated output times the feedback setting |
| Delay.ChannelInputs | Tsumiki.Core/Delay.cs:71-76 | each channel input is its signal plus its own feedback, swapped between the sides when Cross is set |
| Delay.StereoDelay.constructor | Tsumiki.Core/Delay.cs:62-66 | two distinct channels over the one config |
| Delay.StereoDelay.TickAndRender | Tsumiki.Core/Delay.cs:68-79 | both channels tick once, on ChannelInputs of the feedback from before the tick, and each keeps the gated feedback of its own output for the next tick |
| Delay.StereoDelay.TickChannels | Tsumiki.Core/Delay.cs:78 | the left channel ticks on its input and then the right on its own; each state and output is its own RingTick, filtered, and each channel keeps the gated feedback of its output |
| SampleDelay.ActiveLength | Tsumiki/Sample.cs:44 | an activation allocates sampleRate * 4 samples rounded to nearest |
| SampleDelay.DelayInSamples | Tsumiki/Sample.cs:64 | the delay is the truncated sampleRate * normalised value, but at least one sample |
| SampleDelay.DelayFitsActiveBuffer | Tsumiki/Sample.cs:44-64 | every delay of the parameter range [0, 1] fits the buffers of an activation |
| SampleDelay.Advance | Tsumiki/Sample.cs:78-82 | the position moves one on and wraps to 0 on reaching the delay |
| SampleDelay.StepWraps | Tsumiki/Sample.cs:78-82 | inside the delay, the loop's step is one step on modulo the delay |
| SampleDelay.ChannelRun | Tsumiki/Sample.cs:72-83 | the loop keeps the buffer length and outputs one sample per input; once it has run the position is below the delay |
| SampleDelay.ChannelRunIsRing | Tsumiki/Sample.cs:72-83 | from a position inside the delay the loop is the ring run of length d: it outputs its input d samples late |
| SampleDelay.RunPosition | Tsumiki/Sample.cs:72-83 | after n steps from a position inside the delay, the loop's position is (start + n) modulo the delay |
| SampleDelay.RunBuffer | Tsumiki/Sample.cs:72-83 | after n steps the loop's buffer holds the ring run's n writes |
| SampleDelay.RunOutput | Tsumiki/Sample.cs:72-83 | the first n samples the loop outputs are the ring run's first n reads |
| SampleDelay.FirstBlockAfterActivation | Tsumiki/Sample.cs:40-83 | after activation the first d samples out are silence and then the input follows d samples late |
| SampleDelay.BlocksAreSeamless | Tsumiki/Sample.cs:72-90 | two blocks in a row output what one block over both inputs would |
| SampleDelay.WrapPosition | Tsumiki/Sample.cs:86-90 | the stored position is the old one plus the block length, modulo the delay |
| SampleDelay.StoredPositionMatchesLoop | Tsumiki/Sample.cs:72-90 | the stored position is where each channel's loop stopped |
| SampleDelay.ProcessChannel | Tsumiki/Sample.cs:67-83 | the channel's buffer and outputs are those of ChannelRun |
| SampleDelay.SampleDelayProcessor.constructor | Tsumiki/Sample.cs:24-26 | both buffers are empty and the position is 0 |
| SampleDelay.SampleDelayProcessor.OnActivate | Tsumiki/Sample.cs:40-55 | activation allocates two silent buffers of ActiveLength samples, deactivation two empty ones; the position restarts |
| SampleDelay.SampleDelayProcessor.ProcessMain | Tsumiki/Sample.cs:62-91 | each channel runs from the shared stored position over its own buffer, and the position moves on by the block length modulo the delay |
| DiagnosticDescriptors.IdNumber | Tsumiki.Analyzers/DiagnosticDescriptors.cs:19-107 | the rule numbers are 1 to 5 and 101 to 103 |
| DiagnosticDescriptors.DescriptorOf | Tsumiki.Analyzers/DiagnosticDescriptors.cs:19-107 | every descriptor is in the Tsumiki.Timing category, enabled by default, with a six-character TSK id |
| DiagnosticDescriptors.IdsSpellNumbers | Tsumiki.Analyzers/DiagnosticDescriptors.cs:19-107 | each id spells its rule's number; the 0xx ids are exactly the errors and 101 to 103 exactly the warnings |
| DiagnosticDescriptors.IdsDistinct | Tsumiki.Analyzers/DiagnosticDescriptors.cs:19-107 | no two rules share an id |
| TimingAttributeAnalyzer.TimingOfName | Tsumiki.Analyzers/TimingAttributeAnalyzer.cs:287-293 | an attribute declares Init, Event or Audio exactly when its class name is the matching Tsumiki.Metadata attribute |
| TimingAttributeAnalyzer.GetTimingAttribute | Tsumiki.Analyzers/TimingAttributeAnalyzer.cs:281-297 | the timing of the first timing attribute in list order, and None exactly when no attribute is one |
| TimingAttributeAnalyzer.FirstTimingAttributeWins | Tsumiki.Analyzers/TimingAttributeAnalyzer.cs:285-294 | the first timing attribute decides, whatever follows it |
| TimingAttributeAnalyzer.ContainingMethod | Tsumiki.Analyzers/TimingAttributeAnalyzer.cs:273-276 | the nearest enclosing method declaration, present exactly when some ancestor is one |
| TimingAttributeAnalyzer.ContainsAt | Tsumiki.Analyzers/TimingAttributeAnalyzer.cs:323 | String.Contains holds exactly when the text occurs at some index |
| TimingAttributeAnalyzer.CheckTriviaForEventCall | Tsumiki.Analyzers/TimingAttributeAnalyzer.cs:315-329 | true exactly when some comment in the list contains "EVENT CALL" |
| TimingAttributeAnalyzer.HasEventCallComment | Tsumiki.Analyzers/TimingAttributeAnalyzer.cs:302-310 | the comment counts on the invocation's own leading trivia or on its parent's |
| TimingAttributeAnalyzer.AnalysisOf | Tsumiki.Analyzers/TimingAttributeAnalyzer.cs:34-41 | every rule belongs to one of the three registered analyses |
| TimingAttributeAnalyzer.CallRules | Tsumiki.Analyzers/TimingAttributeAnalyzer.cs:175-221 | TSK001 exactly for event calling init, TSK003 for audio calling init, TSK102 for audio calling event without an EVENT CALL comment; nothing else |
| TimingAttributeAnalyzer.CallSeverity | Tsumiki.Analyzers/TimingAttributeAnalyzer.cs:175-221 | a call diagnostic is an error exactly when the callee is an init method |
| TimingAttributeAnalyzer.CreationRules | Tsumiki.Analyzers/TimingAttributeAnalyzer.cs:81-126 | TSK005 exactly for a class, interface or delegate created in an audio method, TSK101 in an event method |
| TimingAttributeAnalyzer.AssignmentRules | Tsumiki.Analyzers/TimingAttributeAnalyzer.cs:226-268 | TSK002 for an event method writing a member of an init type, TSK004 for audio writing init, TSK103 for audio writing event; nothing else |
| TimingAttributeAnalyzer.UnrestrictedContexts | Tsumiki.Analyzers/TimingAttributeAnalyzer.cs:47-170 | init and untimed methods, and nodes outside every method, are never reported |
| TimingAttributeAnalyzer.SupportedDiagnosticsComplete | Tsumiki.Analyzers/TimingAttributeAnalyzer.cs:19-27 | the supported diagnostics list every rule exactly once |

## Left out

- Sound generation: `ProcessMain` of the processors other than `SampleDelayProcessor`, `ProcessEvent` and the host setup. These are NPlug plumbing around the modelled voice logic.
- DSP numerics appear only as function parameters: oscillators, filters, envelopes, glide, `Math.Pow`, `Math.Sin`, `Math.Log2` in the pitch value, the `double` `%` and the delta of a pitch. The model proves nothing about the values these compute. The one exception is the counterexample `ChannelTuning.StaleRatioWhenOffsetChanges`: it uses `TruncatingRemainder` for C#'s truncating `%` with a non-zero divisor, and `UnisonOrOctavePitch` for the `Math.Log2` formula on the ratios 1/1 and 2/1 only.
- Floating point is modelled as `real`, so no single-precision rounding is modelled. The rule that a released voice whose |volume| < 0.0001 stops is modelled on exact reals.
- `OscillatorConfig`, the filter configurations and the naming of `StackMode` are not modelled. The model covers only the fields the modelled logic reads.
- The generated model and view-model interfaces, and the normalisation of `ViewParameter`, are not modelled. They are code emitted by source generators; the model takes their units and parameters as plain values.
- Some preconditions are imposed that the source does not check; without them the source throws or divides by zero:
  - at least one voice in `MidiVoiceContainer.NoteOn`, in `ProcessNote` of a note-on and in `Reserve` unless the note is an immediate note-off, because those paths index slot 0 of the arrays; the empty container itself, and `Tick` and `NoteOff` on it, are modelled;
  - `keyPeriod` >= 1, `DelaySampleCount` >= 1, `Stack` >= 1, and 0 <= unit stack <= 7;
  - `DelaySampleCount` at most the channel buffer's length in `DelayChannel.TickAndRender` and `Delay.TickAndRender`; `Delay.DelayFitsBuffer` proves this holds for every delay of 0 to 500 ms;
  - a non-negative sample rate when `SampleDelayProcessor.OnActivate` activates, since a negative one gives a negative buffer length;
  - 16 voices in `TsumikiProcessor.OnNoteOn` and `OnNoteOff`, and at least one voice in `HandleNoteOn`;
  - in `SampleDelayProcessor.ProcessMain`, the delay and the stored position must fit the buffers (before activation the source throws `IndexOutOfRangeException`).
- `SampleDelay.SampleDelayProcessor.ProcessMain`: the input and output buffers are modelled as separate sequences, so aliasing between the spans is not modelled.
- Integer width: the `int` arithmetic of `Rect` is unbounded, so the model does not wrap on 32-bit overflow. The bits of `lParam` are handled by integer arithmetic modulo 2^16 and 2^32 rather than bit-vectors.
- Analyzer, Roslyn plumbing: syntax kinds, the semantic model and the `GetDeclaredSymbol` null checks are reduced to a small syntax datatype, and each node carries the timing of its enclosing method.
- Analyzer, object creation: only `ObjectCreationExpression` is registered, so implicit `new()`, array creation and collection expressions are not checked, in the source as in the model. Compound assignments are not modelled.
- Analyzer, descriptors: their titles and message formats are left out, since they are text for display only.
- Windows canvas, mouse: the mouse handlers are not modelled, because they only forward float coordinates to the control.
- Windows canvas, platform: the Win32 calls `CreateWindow`, the window resize and `DestroyWindow` are flags or parameters. `RenderLoop` and its thread are a flag. The `ConcurrentQueue` is modelled as a sequential `seq`. The exception handler in `Frame` and the Direct3D calls are left out. `GC.SuppressFinalize` is not modelled.
- Mac canvas, renderer: Tsumiki.View.Mac/Renderer.cs is reduced to a stand-in that records its calls and fails when disposed. The Metal interface, `MacInterop`, resource loading, `SetResourceImage` and the draw methods are not part of this model.
- Mac canvas, logging: the `Console.WriteLine` in `Create` is left out.
- MacCanvas.TsumikiCanvas.OnRenderRequested: the model lets it be called after `Dispose`, where it reports failure. In the source the handler has been unsubscribed by then.
- `TuningValueControl`: the drawing in `RenderDigits`, `RenderBar` and `RenderHat`, `OnLeftButtonUp`, `TryFindParameter`, `CreateDigitRects` and the load on first render are left out. They are float layout over helpers that are not part of this model.
- `KeyBoardView` and `PitchBarView`: the float drawing geometry and `TryFindParameter` are left out for the same reason.
- Tests written against a newer API (for example `MidiEventReservation<T>` and `PressureReservations`) are not followed where they disagree with the code.

## Findings

| source | as written | input that shows it | evidently intended | confidence | as-written member | corrected member |
|---|---|---|---|---|---|---|
| Tsumiki.Core/ChannelTuning.cs:42-55 | the early-return check is a short-circuit `&&` chain, so once offset, root or keyPeriod differ, no `TuningValue.Updated` is called and the cached ratio and period stay stale | root 60, twelve keys per period, generator (2, 1, 1, 12) (value 1), period (2, 1, 1, 1) (value 12); the offset goes from 0 to 1 and the ratio from (1, 1, 1, 1) to (2, 1, 1, 1) together: key 60 keeps pitch 60 where fresh values give 72, until a later Recalculate runs the skipped `Updated` calls | every tuning value refreshed on each recalculation, so the table is that of the current inputs | not executed | ChannelTuning.StaleRatioWhenOffsetChanges | ChannelTuning.ChannelTuningConfig.RecalculateFully |
| Tsumiki.Core/StackedVoice.cs:87-97 | the `GliderConfig` constructor takes Enable and Polyphony from the unit's Glide but leaves the cached `_glide` at 0 | built with Glide 10, then Glide set to 0 and `Recalculate` called at the same sample rate: the values look unchanged and Enable stays true | the constructor caching the unit's glide, so Enable holds exactly while Glide > 0 | not executed | StackedVoice.StaleEnableAfterGlideCleared | StackedVoice.GliderFollowsUnit |
