/** MIDI messages and the MIDI buffer that the host hands to the plugin on
    every audio callback.  Only what the event-rewriting loop observes is kept:
    the kind of message, its channel, note number, velocity and the sample
    position (timestamp) it is scheduled at. */
module Midi {

  /** A MIDI message as the plugin sees it.  `Other` stands for every message
      that is neither a note-on nor a note-off (controllers, pitch bend, clock,
      ...); its `note` is the second data byte, which is what the library's
      note-number accessor returns for such a message. */
  datatype MidiEvent =
    | NoteOn(channel: int, note: int, velocity: int, time: int)
    | NoteOff(channel: int, note: int, velocity: int, time: int)
    | Other(channel: int, note: int, velocity: int, time: int)

  /** The library's `isNoteOn()`: a note-on message with a non-zero velocity. */
  predicate IsNoteOn(e: MidiEvent) {
    e.NoteOn? && e.velocity != 0
  }

  /** The library's `isNoteOff()`: a note-off message, or a note-on message
      with velocity 0 (which MIDI defines as a note-off). */
  predicate IsNoteOff(e: MidiEvent) {
    e.NoteOff? || (e.NoteOn? && e.velocity == 0)
  }

  lemma NoteKindsDisjoint(e: MidiEvent)
    ensures !(IsNoteOn(e) && IsNoteOff(e))
    ensures e.Other? <==> !IsNoteOn(e) && !IsNoteOff(e)
  {
  }

  /** A note number that a MIDI note message cannot carry. */
  predicate OutOfRange(e: MidiEvent) {
    e.note < 0 || 127 < e.note
  }

  /** Every event is scheduled no earlier than the one before it. */
  ghost predicate TimeOrdered(events: seq<MidiEvent>) {
    forall i, j :: 0 <= i < j < |events| ==> events[i].time <= events[j].time
  }

  /** The event list of one callback.  Events are appended in the order they
      are added; the library keeps the buffer ordered by sample position, which
      coincides with appending whenever events are added in time order (see
      `Transform.ExpandAllTimeOrdered`). */
  class MidiBuffer {
    var events: seq<MidiEvent>

    constructor ()
      ensures events == []
    {
      events := [];
    }

    /** `addEvent(message, sampleNumber)`: schedule a copy of `message` at
        `sampleNumber`. */
    method AddEvent(message: MidiEvent, sampleNumber: int)
      modifies this
      ensures events == old(events) + [message.(time := sampleNumber)]
    {
      events := events + [message.(time := sampleNumber)];
    }

    /** `swapWith(other)`: exchange the contents of two buffers. */
    method SwapWith(other: MidiBuffer)
      modifies this, other
      ensures other != this ==> events == old(other.events) && other.events == old(events)
      ensures other == this ==> events == old(events)
    {
      var mine := events;
      events := other.events;
      other.events := mine;
    }
  }
}
