/** The audio processor: the object the host calls once per audio block.  It
    holds the current scale and the note it last started, and rewrites each
    block's MIDI events into chords of the scale. */
module PluginProcessor {
  import opened Midi
  import opened Scales
  import opened Transform

  class MidiGenProcessor {
    /** The scale the editor last handed over. */
    var scale: Scale
    /** The adjusted note of the last note-on, or `NoNote` once any other
        event has been processed (the field's name is spelled as in the
        plugin). */
    var currentNoteNumer: int

    /** The field initialisers live in the processor's header, which is not
        part of this model; the initial values are therefore parameters. */
    constructor (initialScale: Scale, initialNote: int)
      ensures scale == initialScale && currentNoteNumer == initialNote
    {
      scale := initialScale;
      currentNoteNumer := initialNote;
    }

    method SetCurrentNoteNumer(val: int)
      modifies this`currentNoteNumer
      ensures currentNoteNumer == val
    {
      currentNoteNumer := val;
    }

    /** The last value stored by `SetCurrentNoteNumer`. */
    method GetCurrentNoteNumber() returns (n: int)
      ensures n == currentNoteNumer
    {
      n := currentNoteNumer;
    }

    /** Replaces the whole scale; the next block is rewritten with `s`. */
    method SetScale(s: Scale)
      modifies this`scale
      ensures scale == s
    {
      scale := s;
    }

    /** Rewrites one block.  Every input event is replaced by its group
        (`Transform.Expand`), the groups follow the input order, and the
        rewritten list replaces the buffer's contents.  The current note ends
        as the last event left it, and unchanged for an empty block. */
    method ProcessBlock(midiMessages: MidiBuffer)
      modifies this`currentNoteNumer, midiMessages
      ensures midiMessages.events == ExpandAll(scale, old(midiMessages.events))
      ensures currentNoteNumer == NoteAfter(old(currentNoteNumer), scale, old(midiMessages.events))
    {
      var input := midiMessages.events;
      var newBuffer := new MidiBuffer();
      var i := 0;
      while i < |input|
        invariant 0 <= i <= |input|
        invariant fresh(newBuffer) && midiMessages.events == input
        invariant newBuffer.events == ExpandAll(scale, input[..i])
        invariant currentNoteNumer == NoteAfter(old(currentNoteNumer), scale, input[..i])
      {
        RewriteEvent(input[i], newBuffer);
        EmittedIsExpand(scale, input[i]);
        assert input[..i + 1] == input[..i] + [input[i]];
        ExpandAllSnoc(scale, input[..i], input[i]);
        i := i + 1;
      }
      assert input[..i] == input;
      midiMessages.SwapWith(newBuffer);
    }

    /** The body of the block loop for one message `msg`: appends its group to
        `newBuffer` and records the note it leaves sounding. */
    method RewriteEvent(msg: MidiEvent, newBuffer: MidiBuffer)
      modifies this`currentNoteNumer, newBuffer
      ensures newBuffer.events == old(newBuffer.events) + Emitted(scale, msg)
      ensures currentNoteNumer == NoteSetBy(scale, msg)
    {
      var sampleNumber := msg.time;
      var adjustedNoteNumber := scale.adjustToScale(msg.note);
      var chordIntervals := scale.getChordIntervals(adjustedNoteNumber, ChordSize);
      ghost var before := newBuffer.events;
      if IsNoteOn(msg) {
        SetCurrentNoteNumer(adjustedNoteNumber);
        newBuffer.AddEvent(NoteOn(msg.channel, adjustedNoteNumber, msg.velocity, 0), sampleNumber);
        AddChord(newBuffer, true, msg.channel, adjustedNoteNumber, chordIntervals, msg.velocity, sampleNumber);
        ghost var head := [NoteOn(msg.channel, adjustedNoteNumber, msg.velocity, sampleNumber)];
        ghost var chord := ChordMessages(true, msg.channel, adjustedNoteNumber, chordIntervals, msg.velocity, sampleNumber);
        assert newBuffer.events == before + head + chord;
        assert before + head + chord == before + (head + chord);
      } else if IsNoteOff(msg) {
        SetCurrentNoteNumer(NoNote);
        newBuffer.AddEvent(msg, sampleNumber);
        newBuffer.AddEvent(NoteOff(msg.channel, adjustedNoteNumber, msg.velocity, 0), sampleNumber);
        AddChord(newBuffer, false, msg.channel, adjustedNoteNumber, chordIntervals, msg.velocity, sampleNumber);
        ghost var head := [msg, NoteOff(msg.channel, adjustedNoteNumber, msg.velocity, sampleNumber)];
        ghost var chord := ChordMessages(false, msg.channel, adjustedNoteNumber, chordIntervals, msg.velocity, sampleNumber);
        assert newBuffer.events == before + head + chord;
        assert before + head + chord == before + (head + chord);
      } else {
        newBuffer.AddEvent(msg, sampleNumber);
        SetCurrentNoteNumer(NoNote);
      }
    }

    /** The loop over the chord intervals: one note-on (or note-off) per
        interval at `root + interval`, in interval order. */
    static method AddChord(newBuffer: MidiBuffer, on: bool, channel: int, root: int, intervals: seq<int>,
                           velocity: int, sampleNumber: int)
      modifies newBuffer
      ensures newBuffer.events == old(newBuffer.events) + ChordMessages(on, channel, root, intervals, velocity, sampleNumber)
    {
      var j := 0;
      while j < |intervals|
        invariant 0 <= j <= |intervals|
        invariant newBuffer.events
          == old(newBuffer.events) + ChordMessages(on, channel, root, intervals[..j], velocity, sampleNumber)
      {
        var message := if on then NoteOn(channel, root + intervals[j], velocity, 0)
                       else NoteOff(channel, root + intervals[j], velocity, 0);
        newBuffer.AddEvent(message, sampleNumber);
        assert intervals[..j + 1] == intervals[..j] + [intervals[j]];
        j := j + 1;
      }
      assert intervals[..j] == intervals;
    }
  }
}
