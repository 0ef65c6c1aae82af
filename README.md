# midiGen — a Dafny model of the MIDI chord rewriter

midiGen is a MIDI-effect plugin. On every audio callback the processor takes
the block of incoming MIDI events. It moves each note onto the selected scale
and turns it into a chord. A note-on becomes note-ons for the adjusted note
and for the adjusted note plus each chord interval. A note-off is kept, then
followed by note-offs for the same chord. Any other message passes through.
The processor also records a current note (`currentNoteNumer`): the adjusted
note of the last event if it was a note-on, else -1.
The editor polls that value on a timer and turns it into the id (1..12) of the
piano key to highlight. Its two dropdowns (key and scale) build a new scale
and hand it to the processor.

The model is in six modules:

- `Midi` (midi.dfy): the MIDI event datatype and the library's note-on /
  note-off classification. It also holds the `MidiBuffer` class, whose
  `events` sequence is filled by `AddEvent` and exchanged by `SwapWith`.
- `Scales` (scale.dfy): a scale is the pair of operations the processor calls
  on it, `adjustToScale` and `getChordIntervals`, held as total functions.
  Their definitions are not part of this model, so every result below holds
  for every scale.
- `Groups` (groups.dfy): concatenation of a sequence of groups, and lemmas
  that locate each group and each element in the result.
- `Transform` (transform.dfy): the per-event rule `Expand`, the block rule
  `ExpandAll` and the current-note rule `NoteAfter`, with the lemmas about
  them.
- `PluginProcessor` (processor.dfy): the processor class. `ProcessBlock` has
  the source's event loop and chord loop, and is proved to produce
  `ExpandAll` of its input and to leave `NoteAfter` in `currentNoteNumer`.
- `PluginEditor` (editor.dfy): the key table `itor`, the pitch-class id of
  the timer, a `ComboBox` class for the dropdowns, and the editor class with
  its constructor, `ComboBoxChanged`, `SetUpDropdown` and `TimerCallback`.

Facts about the code that the model keeps:

- The note-off's chord intervals come from the adjusted note, the same as
  the note-on's (Source/PluginProcessor.cpp:143-144).
- Chord notes are `adjusted + interval`. The source neither clamps nor drops
  them (Source/PluginProcessor.cpp:150, :156).
- The key table `itor` is modelled, because the highlighted key depends on
  it (Source/PluginEditor.cpp:47-58).

## Model

| member | source | states |
|---|---|---|
| `Midi.NoteKindsDisjoint` | Source/PluginProcessor.cpp:145-160 | No event is both a note-on and a note-off. An event takes the pass-through branch exactly when it is neither. |
| `Midi.MidiBuffer.AddEvent` | Source/PluginProcessor.cpp:148 | The message, rescheduled at the given sample number, is appended after every event already in the buffer. |
| `Midi.MidiBuffer.SwapWith` | Source/PluginProcessor.cpp:162 | The two buffers exchange their contents. |
| `Transform.ExpandNoteOn` | Source/PluginProcessor.cpp:145-150 | A note-on yields exactly 1 + \|intervals\| note-ons. The first is at the adjusted note, then one at adjusted + each interval, in interval order. All keep the input's channel, velocity and time. |
| `Transform.ExpandNoteOff` | Source/PluginProcessor.cpp:151-156 | A note-off yields exactly 2 + \|intervals\| events. First comes the original message unchanged. Then a note-off at the adjusted note, then one at adjusted + each interval. All are note-offs with the input's channel, velocity and time. |
| `Transform.ExpandOther` | Source/PluginProcessor.cpp:157-158 | Any other message yields exactly itself, unchanged. |
| `Transform.ExpandKeepsTime` | Source/PluginProcessor.cpp:142 | Every output event of an input event is scheduled at that input event's sample position. |
| `Transform.NoteOffMatchesNoteOn` | Source/PluginProcessor.cpp:143-156 | Take a note-on and a note-off with the same channel and note under the same scale. The note-off group's notes are the original note followed by exactly the note-on group's notes. So every emitted note-on has an emitted note-off with the same channel and note. |
| `Transform.OffPartner` | Source/PluginProcessor.cpp:148-156 | Element k of a note-on's group is matched by element k + 1 of the note-off's group: a note-off with the same channel and note. |
| `Transform.ChordNotesAreNotClamped` | Source/PluginProcessor.cpp:149-150 | Chord notes are adjusted + interval with no clamp. Root 125 with intervals [4, 7] asks for notes 129 and 132, which are out of MIDI range. |
| `Transform.CMajorScenario` | Source/PluginProcessor.cpp:143-156 | Assume note 61 adjusts to 60 with intervals [4, 7]. Then note-on 61 gives note-ons 60, 64, 67. Note-off 61 gives the original note-off, then note-offs 60, 64, 67. |
| `Transform.EmittedIsExpand` | Source/PluginProcessor.cpp:143-160 | The loop body's emission order equals the event's group over its chord. That order is the head message(s), then one message per interval. |
| `Transform.ExpandAllSnoc` | Source/PluginProcessor.cpp:140-161 | Rewriting one more event appends exactly that event's group to the output. |
| `Transform.ExpandAllAppend` | Source/PluginProcessor.cpp:138-162 | Splitting a block splits its output at the matching point. Consecutive blocks produce the output of their concatenation. |
| `Transform.ExpandAllGroup` | Source/PluginProcessor.cpp:138-162 | Each input event's group appears as one contiguous slice, right after the groups of earlier events. The groups start at 0 and end at the end of the output, so nothing else is in it. |
| `Transform.NoteOnMatchedLater` | Source/PluginProcessor.cpp:140-161 | In a block, take a note-on event and a later note-off event with the same channel and note. Every note-on emitted for the first is followed, later in the output, by a note-off with the same channel and note. |
| `Transform.ExpandAllTimeOrdered` | Source/PluginProcessor.cpp:140-162 | A block in time order is rewritten into a block in time order. No output event is later than the last input event. |
| `Transform.NoteAfterAppend` | Source/PluginProcessor.cpp:146-159 | Processing two blocks in a row leaves the same current note as processing their concatenation. |
| `PluginProcessor.MidiGenProcessor.constructor` | Source/PluginProcessor.cpp:13-25 | The processor starts with the given scale and current note. |
| `PluginProcessor.MidiGenProcessor.SetCurrentNoteNumer` | Source/PluginProcessor.cpp:221-223 | Stores the given value as the current note. |
| `PluginProcessor.MidiGenProcessor.GetCurrentNoteNumber` | Source/PluginProcessor.cpp:225-227 | Returns the last value stored as the current note. |
| `PluginProcessor.MidiGenProcessor.SetScale` | Source/PluginProcessor.cpp:229-231 | Replaces the whole scale by the given value. ProcessBlock's contract then makes every later block use it. |
| `PluginProcessor.MidiGenProcessor.ProcessBlock` | Source/PluginProcessor.cpp:132-162 | The buffer's new contents are the groups of its old events, in input order (`ExpandAll` under the current scale). An empty block leaves the current note unchanged. Otherwise the current note is the last event's adjusted note if that event was a note-on, and -1 if not. |
| `PluginProcessor.MidiGenProcessor.RewriteEvent` | Source/PluginProcessor.cpp:141-160 | One pass of the loop body appends the event's messages in emission order. It sets the current note to the adjusted note for a note-on and to -1 for anything else. |
| `PluginProcessor.MidiGenProcessor.AddChord` | Source/PluginProcessor.cpp:149-150 | The interval loop appends one note-on (or note-off) at root + interval per interval, in order. All carry the given channel, velocity and sample number. |
| `PluginEditor.KeyTableIsChromatic` | Source/PluginEditor.cpp:47-58 | `itor` has exactly the ids 1..12. Id k is the key k - 1 semitones above C, and every key of the octave has an id. |
| `PluginEditor.PitchClassId` | Source/PluginEditor.cpp:154 | For a positive note the id lies in 1..12, and id - 1 is the note's pitch class (its distance above the last C). |
| `PluginEditor.OctaveIndependent` | Source/PluginEditor.cpp:154 | Notes n and n + 12 (n > 0) get the same id. |
| `PluginEditor.HighlightedKey` | Source/PluginEditor.cpp:47-58 | Combined with the timer's mapping (line 154), a positive note highlights the key of its own pitch class. Any positive multiple of 12 highlights C. |
| `PluginEditor.NonPositiveHighlightsNothing` | Source/PluginEditor.cpp:153-156 | A note ≤ 0 (the -1 sentinel, or note 0) is stored unmapped. It is no key's id, so the next paint highlights no key. The timer asks for no repaint in this case (lines 153-156), so the last highlight stays until some other repaint. |
| `PluginEditor.TextOfNumbered` | Source/PluginEditor.cpp:140-142 | With items numbered consecutively, an id in range shows the option at that position. Any other id shows nothing. |
| `PluginEditor.SelectedOptionText` | Source/PluginEditor.cpp:140-145 | After set-up, selecting item id k shows option k - 1. So the ids 1..\|options\| name the options in order. |
| `PluginEditor.ComboBox.AddItem` | Source/PluginEditor.cpp:141 | Appends one item with the given text and id. |
| `PluginEditor.ComboBox.SetEditableText` | Source/PluginEditor.cpp:144 | Sets whether the text can be edited. |
| `PluginEditor.ComboBox.SetSelectedId` | Source/PluginEditor.cpp:145 | Selects the given item id. |
| `PluginEditor.ComboBox.AddListener` | Source/PluginEditor.cpp:148 | Registers the listener. |
| `PluginEditor.MidiGenEditor.constructor` | Source/PluginEditor.cpp:13-61 | The editor's scale is Scale("C", "Major"), and the processor gets that same value. Both dropdowns list their options with ids from 1, select id 1, are read-only, and have the editor as listener. `itor` is the chromatic key table. |
| `PluginEditor.MidiGenEditor.Repaint` | Source/PluginEditor.cpp:155 | Records one more repaint request. |
| `PluginEditor.MidiGenEditor.ComboBoxChanged` | Source/PluginEditor.cpp:127-136 | A change from the key or scale dropdown builds one scale from both dropdown texts. That value becomes the editor's scale and the processor's scale, and one repaint is requested. A change from any other box changes neither scale and requests no repaint. |
| `PluginEditor.MidiGenEditor.SetUpDropdown` | Source/PluginEditor.cpp:138-149 | Option i is appended with item id i + 1, in option order. The text becomes read-only, `selectedOption` is selected, and the editor becomes a listener exactly when asked. |
| `PluginEditor.MidiGenEditor.TimerCallback` | Source/PluginEditor.cpp:151-157 | A positive processor note is stored as its pitch-class id and one repaint is requested. A note ≤ 0 is stored as it is, with no repaint. |

## Left out

- The scale's own algorithms are not part of this model. That covers the nearest in-scale note, chord-interval stacking, the note table, the mode catalogue, the `Scale(key, name)` constructor and `getNotes`. Scale.h and its implementation are not part of this model. A scale is its two operations, and the constructor is the editor's `makeScale` parameter.
- Host plumbing carries no logic and is not modelled. That covers plugin name, MIDI flags, programs, bus layouts, prepare/release, editor creation and the empty state save/restore (Source/PluginProcessor.cpp:13-129, 193-218).
- Clearing the float audio buffer (Source/PluginProcessor.cpp:134) is not modelled. It is audio signal data.
- Midi.MidiBuffer.AddEvent: appends. The library inserts by sample position, which gives the same result when events arrive in time order (`Transform.ExpandAllTimeOrdered`). That ordering is assumed, not modelled.
- The library's note message factories mask the note number to 7 bits and check the channel. The model records the note number the processor asks for (`adjusted + interval`), unmasked. Out-of-range notes show up through `Midi.OutOfRange`.
- Velocities, channels and timestamps are unbounded integers. The source's `uint8` velocity and the cast of the double timestamp to `int` are not modelled.
- Drawing is UI rendering and is not modelled. That covers `paint`, `resized`, `drawScaleSectionPiano`, the colour map, rectangle geometry, labels, the octave button and window sizing. Piano keys are a datatype rather than rectangles.
- Repainting is modelled only as a count of requests.
- The timer's start and stop, and the unsynchronised sharing of the current note and the scale between the GUI thread and the audio thread, are not modelled. The model is sequential.
- The dropdown's change notification (selecting an item notifies listeners asynchronously) is not modelled. The library's refusal of empty item texts and of id 0 is not modelled either.
- The editor's `currentNoteNumber` is uninitialised in the source. The model does not constrain its value before the first timer tick.
- The processor's initial scale and current note come from its header, which is not part of this model. They are constructor parameters.
