/** The per-event rewriting rules of the processor's MIDI loop, as functions
    on values, and what they promise: the shape of each event's output group,
    note-on/note-off pairing, block-level concatenation and time order. */
module Transform {
  import opened Midi
  import opened Scales
  import opened Groups

  /** The note the processor reports while nothing is sounding. */
  const NoNote: int := -1

  /** The scale-adjusted note of an event. */
  function Adjusted(s: Scale, e: MidiEvent): int {
    s.adjustToScale(e.note)
  }

  /** The chord intervals of an event, computed from its adjusted note. */
  function Intervals(s: Scale, e: MidiEvent): seq<int> {
    s.getChordIntervals(Adjusted(s, e), ChordSize)
  }

  /** The notes of the chord on `root`: the root, then the root plus each
      interval, in interval order. */
  function ChordNotes(root: int, intervals: seq<int>): seq<int> {
    seq(1 + |intervals|, k requires 0 <= k <= |intervals| => if k == 0 then root else root + intervals[k - 1])
  }

  /** The chord an event sounds or silences. */
  function Chord(s: Scale, e: MidiEvent): seq<int> {
    ChordNotes(Adjusted(s, e), Intervals(s, e))
  }

  /** The group of output events one input event produces: a note-on becomes
      note-ons for its chord; a note-off is kept and followed by note-offs for
      its chord; anything else is kept alone. */
  function Expand(s: Scale, e: MidiEvent): seq<MidiEvent> {
    var chord := Chord(s, e);
    if IsNoteOn(e) then
      seq(|chord|, k requires 0 <= k < |chord| => NoteOn(e.channel, chord[k], e.velocity, e.time))
    else if IsNoteOff(e) then
      seq(1 + |chord|, k requires 0 <= k <= |chord| =>
        if k == 0 then e else NoteOff(e.channel, chord[k - 1], e.velocity, e.time))
    else
      [e]
  }

  /** The messages the processor's chord loop emits: one per interval, at
      `root + interval`, on the given channel, velocity and time; note-ons
      when `on`, note-offs otherwise. */
  function ChordMessages(on: bool, channel: int, root: int, intervals: seq<int>, velocity: int, time: int): seq<MidiEvent> {
    seq(|intervals|, k requires 0 <= k < |intervals| =>
      if on then NoteOn(channel, root + intervals[k], velocity, time)
      else NoteOff(channel, root + intervals[k], velocity, time))
  }

  /** The messages the processor's loop body emits for one event, in the
      order it emits them: the head message(s), then the chord loop's. */
  function Emitted(s: Scale, e: MidiEvent): seq<MidiEvent> {
    var a, iv := Adjusted(s, e), Intervals(s, e);
    if IsNoteOn(e) then
      [NoteOn(e.channel, a, e.velocity, e.time)] + ChordMessages(true, e.channel, a, iv, e.velocity, e.time)
    else if IsNoteOff(e) then
      [e, NoteOff(e.channel, a, e.velocity, e.time)] + ChordMessages(false, e.channel, a, iv, e.velocity, e.time)
    else
      [e]
  }

  /** Emitting the head message(s) and then one message per interval yields
      exactly the event's group over its chord. */
  lemma EmittedIsExpand(s: Scale, e: MidiEvent)
    ensures Emitted(s, e) == Expand(s, e)
  {
  }

  /** The output groups of a block, one per input event, in input order. */
  function GroupsOf(s: Scale, events: seq<MidiEvent>): (gs: seq<seq<MidiEvent>>)
    ensures |gs| == |events|
  {
    seq(|events|, i requires 0 <= i < |events| => Expand(s, events[i]))
  }

  /** The output of a whole block: the groups of its events, back to back. */
  function ExpandAll(s: Scale, events: seq<MidiEvent>): seq<MidiEvent> {
    Concat(GroupsOf(s, events))
  }

  /** The value an event leaves in the processor's current-note field. */
  function NoteSetBy(s: Scale, e: MidiEvent): int {
    if IsNoteOn(e) then Adjusted(s, e) else NoNote
  }

  /** The current-note field after a block that started with `current`. */
  function NoteAfter(current: int, s: Scale, events: seq<MidiEvent>): int {
    if events == [] then current else NoteSetBy(s, events[|events| - 1])
  }

  /** Note numbers of a group, in order. */
  function Notes(events: seq<MidiEvent>): seq<int> {
    seq(|events|, i requires 0 <= i < |events| => events[i].note)
  }

  // ---------------------------------------------------------------------
  // One event

  /** A note-on yields 1 + |intervals| note-ons: the adjusted note, then the
      adjusted note plus each interval; all keep channel, velocity and time. */
  lemma ExpandNoteOn(s: Scale, e: MidiEvent)
    requires IsNoteOn(e)
    ensures var r, a, iv := Expand(s, e), Adjusted(s, e), Intervals(s, e);
      && |r| == 1 + |iv|
      && r[0].note == a
      && (forall k :: 0 <= k < |iv| ==> r[k + 1].note == a + iv[k])
      && (forall k :: 0 <= k < |r| ==>
            IsNoteOn(r[k]) && r[k].channel == e.channel && r[k].velocity == e.velocity && r[k].time == e.time)
      && Notes(r) == Chord(s, e)
  {
  }

  /** A note-off yields 2 + |intervals| events: the original message, then
      note-offs at the adjusted note and at the adjusted note plus each
      interval, all on the input's channel, velocity and time. */
  lemma ExpandNoteOff(s: Scale, e: MidiEvent)
    requires IsNoteOff(e)
    ensures var r, a, iv := Expand(s, e), Adjusted(s, e), Intervals(s, e);
      && |r| == 2 + |iv|
      && r[0] == e
      && r[1].note == a
      && (forall k :: 0 <= k < |iv| ==> r[k + 2].note == a + iv[k])
      && (forall k :: 1 <= k < |r| ==>
            r[k].NoteOff? && r[k].channel == e.channel && r[k].velocity == e.velocity && r[k].time == e.time)
      && (forall k :: 0 <= k < |r| ==> IsNoteOff(r[k]))
      && Notes(r) == [e.note] + Chord(s, e)
  {
    var r := Expand(s, e);
    assert Notes(r)[1..] == Chord(s, e);
  }

  /** Any other message passes through alone and unchanged. */
  lemma ExpandOther(s: Scale, e: MidiEvent)
    requires !IsNoteOn(e) && !IsNoteOff(e)
    ensures Expand(s, e) == [e]
  {
  }

  /** A note-on and a note-off for the same channel and note number, under the
      same scale, address the same chord: the note-off group's notes are the
      original note followed by exactly the note-on group's notes, so every
      note-on emitted is matched by a note-off emitted for the same channel
      and note. */
  lemma NoteOffMatchesNoteOn(s: Scale, on: MidiEvent, off: MidiEvent)
    requires IsNoteOn(on) && IsNoteOff(off)
    requires on.channel == off.channel && on.note == off.note
    ensures Notes(Expand(s, off)) == [off.note] + Notes(Expand(s, on))
    ensures forall m :: m in Expand(s, on) ==>
      exists m' :: m' in Expand(s, off) && m'.NoteOff? && m'.channel == m.channel && m'.note == m.note
  {
    var ons, offs := Expand(s, on), Expand(s, off);
    assert Adjusted(s, on) == Adjusted(s, off) && Intervals(s, on) == Intervals(s, off);
    ExpandNoteOn(s, on);
    ExpandNoteOff(s, off);
    assert Notes(offs) == [off.note] + Notes(ons) by {
      assert |Notes(offs)| == |[off.note] + Notes(ons)|;
      forall k | 0 <= k < |Notes(offs)| ensures Notes(offs)[k] == ([off.note] + Notes(ons))[k] {
        if k > 0 {
          assert Notes(offs)[k] == offs[k].note;
          assert ([off.note] + Notes(ons))[k] == ons[k - 1].note;
        }
      }
    }
    forall m | m in ons
      ensures exists m' :: m' in offs && m'.NoteOff? && m'.channel == m.channel && m'.note == m.note
    {
      var k :| 0 <= k < |ons| && ons[k] == m;
      OffPartner(s, on, off, k);
      assert offs[k + 1] in offs;
    }
  }

  /** Chord notes are the adjusted note plus the interval, not clamped: a
      scale that leaves 125 alone and stacks a major triad on it makes the
      processor ask for note 129. */
  lemma ChordNotesAreNotClamped(s: Scale, e: MidiEvent)
    requires IsNoteOn(e) && e.note == 125
    requires s.adjustToScale(125) == 125 && s.getChordIntervals(125, ChordSize) == [4, 7]
    ensures Notes(Expand(s, e)) == [125, 129, 132]
    ensures OutOfRange(Expand(s, e)[1]) && OutOfRange(Expand(s, e)[2])
  {
  }

  /** The C-major scenario: note 61 (C#4) adjusts to 60 (C4) with intervals
      [4, 7]; its note-on yields C, E, G and its note-off yields the original
      note-off followed by note-offs at C, E, G. */
  lemma CMajorScenario(s: Scale, on: MidiEvent, off: MidiEvent)
    requires s.adjustToScale(61) == 60 && s.getChordIntervals(60, ChordSize) == [4, 7]
    requires on == NoteOn(1, 61, 100, 0) && off == NoteOff(1, 61, 0, 480)
    ensures Expand(s, on) == [NoteOn(1, 60, 100, 0), NoteOn(1, 64, 100, 0), NoteOn(1, 67, 100, 0)]
    ensures Expand(s, off) == [off, NoteOff(1, 60, 0, 480), NoteOff(1, 64, 0, 480), NoteOff(1, 67, 0, 480)]
  {
  }

  // ---------------------------------------------------------------------
  // A block of events

  /** Rewriting one more event appends its group to the block's output. */
  lemma ExpandAllSnoc(s: Scale, events: seq<MidiEvent>, e: MidiEvent)
    ensures ExpandAll(s, events + [e]) == ExpandAll(s, events) + Expand(s, e)
  {
    var gs := GroupsOf(s, events + [e]);
    assert gs[..|gs| - 1] == GroupsOf(s, events);
  }

  /** The output of consecutive blocks is the output of their concatenation. */
  lemma ExpandAllAppend(s: Scale, a: seq<MidiEvent>, b: seq<MidiEvent>)
    ensures ExpandAll(s, a + b) == ExpandAll(s, a) + ExpandAll(s, b)
  {
    assert GroupsOf(s, a + b) == GroupsOf(s, a) + GroupsOf(s, b);
    ConcatAppend(GroupsOf(s, a), GroupsOf(s, b));
  }

  /** Where the group of input event `i` starts in the output. */
  function GroupStart(s: Scale, events: seq<MidiEvent>, i: nat): nat
    requires i <= |events|
  {
    Start(GroupsOf(s, events), i)
  }

  /** Each input event's group appears contiguously, right after the groups of
      the events before it; the first group starts the output and the last
      one ends it, so nothing else is in the output. */
  lemma ExpandAllGroup(s: Scale, events: seq<MidiEvent>, i: nat)
    requires i < |events|
    ensures GroupStart(s, events, 0) == 0
    ensures GroupStart(s, events, i) + |Expand(s, events[i])| == GroupStart(s, events, i + 1)
    ensures GroupStart(s, events, i + 1) <= GroupStart(s, events, |events|) == |ExpandAll(s, events)|
    ensures ExpandAll(s, events)[GroupStart(s, events, i)..GroupStart(s, events, i + 1)] == Expand(s, events[i])
  {
    var gs := GroupsOf(s, events);
    GroupSpan(gs, i);
    StartBounds(gs);
    StartMonotone(gs, i + 1, |gs|);
  }

  /** Every note-on the processor emits for a note-on event (output position
      `p`) is matched, later in the output (position `q`), by a note-off for
      the same channel and note, emitted for any later note-off event with
      the same channel and note number. */
  lemma NoteOnMatchedLater(s: Scale, events: seq<MidiEvent>, i: nat, j: nat, p: nat) returns (q: nat)
    requires i < j < |events|
    requires IsNoteOn(events[i]) && IsNoteOff(events[j])
    requires events[i].channel == events[j].channel && events[i].note == events[j].note
    requires GroupStart(s, events, i) <= p < GroupStart(s, events, i + 1)
    ensures p < q < |ExpandAll(s, events)|
    ensures ExpandAll(s, events)[p].NoteOn? && ExpandAll(s, events)[q].NoteOff?
    ensures ExpandAll(s, events)[q].channel == ExpandAll(s, events)[p].channel
    ensures ExpandAll(s, events)[q].note == ExpandAll(s, events)[p].note
  {
    var gs := GroupsOf(s, events);
    GroupSpan(gs, i);
    var k := p - Start(gs, i);
    assert gs[i] == Expand(s, events[i]) && gs[j] == Expand(s, events[j]);
    OffPartner(s, events[i], events[j], k);
    q := PairInOutput(gs, i, k, j);
  }

  /** Locates, in the concatenation of groups, a note-on at element `k` of
      group `i` and its matching note-off at element `k + 1` of group `j`. */
  lemma PairInOutput(gs: seq<seq<MidiEvent>>, i: nat, k: nat, j: nat) returns (q: nat)
    requires i < j < |gs| && k < |gs[i]| && k + 1 < |gs[j]|
    requires gs[i][k].NoteOn? && gs[j][k + 1].NoteOff?
    requires gs[j][k + 1].channel == gs[i][k].channel && gs[j][k + 1].note == gs[i][k].note
    ensures Start(gs, i) + k < q < |Concat(gs)|
    ensures Concat(gs)[Start(gs, i) + k].NoteOn? && Concat(gs)[q].NoteOff?
    ensures Concat(gs)[q].channel == Concat(gs)[Start(gs, i) + k].channel
    ensures Concat(gs)[q].note == Concat(gs)[Start(gs, i) + k].note
  {
    ElementsInOrder(gs, i, k, j, k + 1);
    q := Start(gs, j) + (k + 1);
  }

  /** The note-on at position `k` of a note-on's group is matched by the
      note-off at position `k + 1` of the note-off's group. */
  lemma OffPartner(s: Scale, on: MidiEvent, off: MidiEvent, k: nat)
    requires IsNoteOn(on) && IsNoteOff(off)
    requires on.channel == off.channel && on.note == off.note
    requires k < |Expand(s, on)|
    ensures Expand(s, on)[k].NoteOn?
    ensures k + 1 < |Expand(s, off)| && Expand(s, off)[k + 1].NoteOff?
    ensures Expand(s, off)[k + 1].channel == Expand(s, on)[k].channel
    ensures Expand(s, off)[k + 1].note == Expand(s, on)[k].note
  {
    assert Adjusted(s, on) == Adjusted(s, off) && Intervals(s, on) == Intervals(s, off);
    ExpandNoteOn(s, on);
    ExpandNoteOff(s, off);
  }

  /** Every event of a group is scheduled at its input event's time. */
  lemma ExpandKeepsTime(s: Scale, e: MidiEvent)
    ensures forall k :: 0 <= k < |Expand(s, e)| ==> Expand(s, e)[k].time == e.time
  {
  }

  /** Every output event is scheduled at the time of the input event whose
      group it belongs to, so a block in time order is rewritten into a block
      in time order, none of it later than the block's last input event. */
  lemma ExpandAllTimeOrdered(s: Scale, events: seq<MidiEvent>)
    requires TimeOrdered(events)
    ensures TimeOrdered(ExpandAll(s, events))
    ensures events != [] ==>
      forall x :: 0 <= x < |ExpandAll(s, events)| ==> ExpandAll(s, events)[x].time <= events[|events| - 1].time
  {
    var gs: seq<seq<MidiEvent>> := GroupsOf(s, events);
    var times: seq<int> := seq(|events|, i requires 0 <= i < |events| => events[i].time);
    forall i, k | 0 <= i < |gs| && 0 <= k < |gs[i]| ensures gs[i][k].time == times[i] {
      ExpandKeepsTime(s, events[i]);
    }
    ConcatOrdered(gs, times, (m: MidiEvent) => m.time);
  }

  /** Two blocks in a row leave the same current note as one block holding
      both, and an empty second block changes nothing. */
  lemma NoteAfterAppend(current: int, s: Scale, a: seq<MidiEvent>, b: seq<MidiEvent>)
    ensures NoteAfter(NoteAfter(current, s, a), s, b) == NoteAfter(current, s, a + b)
  {
    if b != [] {
      assert (a + b)[|a + b| - 1] == b[|b| - 1];
    } else {
      assert a + b == a;
    }
  }
}
