/** The plugin's editor, without its drawing: the two dropdowns that pick the
    key and the scale, the table from pitch-class ids to piano keys, and the
    timer that turns the processor's current note into the id of the key to
    highlight. */
module PluginEditor {
  import opened Scales
  import opened PluginProcessor

  /** The twelve keys of the one-octave piano the editor draws, C to B. */
  datatype PianoKey = KeyC | KeyDb | KeyD | KeyEb | KeyE | KeyF | KeyGb | KeyG | KeyAb | KeyA | KeyBb | KeyB

  /** How many semitones a key lies above C. */
  function Semitone(k: PianoKey): int {
    match k
    case KeyC => 0
    case KeyDb => 1
    case KeyD => 2
    case KeyEb => 3
    case KeyE => 4
    case KeyF => 5
    case KeyGb => 6
    case KeyG => 7
    case KeyAb => 8
    case KeyA => 9
    case KeyBb => 10
    case KeyB => 11
  }

  /** The id-to-key table (`itor`) the editor fills in its constructor. */
  function KeyTable(): map<int, PianoKey> {
    map[1 := KeyC, 2 := KeyDb, 3 := KeyD, 4 := KeyEb, 5 := KeyE, 6 := KeyF,
        7 := KeyGb, 8 := KeyG, 9 := KeyAb, 10 := KeyA, 11 := KeyBb, 12 := KeyB]
  }

  /** The table gives exactly the ids 1..12 a key each, in chromatic order
      from C, and every key of the octave gets an id. */
  lemma KeyTableIsChromatic()
    ensures forall id :: id in KeyTable() <==> 1 <= id <= 12
    ensures forall id :: id in KeyTable() ==> Semitone(KeyTable()[id]) == id - 1
    ensures forall k: PianoKey :: k in KeyTable().Values
  {
    var t := KeyTable();
    forall k: PianoKey ensures k in t.Values {
      var id := Semitone(k) + 1;
      assert id in t && t[id] == k;
    }
  }

  /** The 1-based pitch-class id of a positive note number: C is 1, B is 12. */
  function PitchClassId(n: int): (id: int)
    requires n > 0
    ensures 1 <= id <= 12
    ensures (n - (id - 1)) % 12 == 0
  {
    n % 12 + 1
  }

  /** Notes an octave apart get the same id. */
  lemma OctaveIndependent(n: int)
    requires n > 0
    ensures PitchClassId(n + 12) == PitchClassId(n)
  {
  }

  /** The key the editor highlights for a positive note is the key of the
      note's pitch class; for a multiple of 12 it is C. */
  lemma HighlightedKey(n: int)
    requires n > 0
    ensures PitchClassId(n) in KeyTable()
    ensures Semitone(KeyTable()[PitchClassId(n)]) == n % 12
    ensures n % 12 == 0 ==> KeyTable()[PitchClassId(n)] == KeyC
  {
    KeyTableIsChromatic();
  }

  /** A note number that is not positive (the "no note" sentinel -1, or note
      0) is no id of any key, so the next paint highlights no key.  The timer
      requests no repaint for it, so the last highlight stays on screen until
      some other repaint. */
  lemma NonPositiveHighlightsNothing(n: int)
    requires n <= 0
    ensures n !in KeyTable()
  {
  }

  /** An entry of a dropdown: the text shown and its item id. */
  datatype ComboItem = ComboItem(text: string, id: int)

  /** The text of the first item with the given id; empty when there is none. */
  function TextForId(items: seq<ComboItem>, id: int): string {
    if items == [] then ""
    else if items[0].id == id then items[0].text
    else TextForId(items[1..], id)
  }

  /** The items `setUpDropdown` adds for `options`, numbered from `first`. */
  function NumberedFrom(options: seq<string>, first: int): seq<ComboItem> {
    seq(|options|, i requires 0 <= i < |options| => ComboItem(options[i], first + i))
  }

  /** Items numbered consecutively from `first` show, for an id in their
      range, the option at that position, and nothing for any other id. */
  lemma {:induction false} TextOfNumbered(options: seq<string>, first: int, id: int)
    ensures first <= id < first + |options| ==> TextForId(NumberedFrom(options, first), id) == options[id - first]
    ensures !(first <= id < first + |options|) ==> TextForId(NumberedFrom(options, first), id) == ""
    decreases |options|
  {
    if options != [] {
      var items := NumberedFrom(options, first);
      assert items[1..] == NumberedFrom(options[1..], first + 1);
      TextOfNumbered(options[1..], first + 1, id);
    }
  }

  /** A dropdown list (a ComboBox): its items, the selected item id (0 for
      none), whether its text may be typed in, and its listeners. */
  class ComboBox {
    var items: seq<ComboItem>
    var selectedId: int
    var editableText: bool
    var listeners: set<object>

    constructor ()
      ensures items == [] && selectedId == 0 && !editableText && listeners == {}
    {
      items, selectedId, editableText, listeners := [], 0, false, {};
    }

    /** The text the dropdown shows: that of the selected item. */
    function GetText(): string
      reads this
    {
      TextForId(items, selectedId)
    }

    method AddItem(text: string, id: int)
      modifies this`items
      ensures items == old(items) + [ComboItem(text, id)]
    {
      items := items + [ComboItem(text, id)];
    }

    method SetEditableText(editable: bool)
      modifies this`editableText
      ensures editableText == editable
    {
      editableText := editable;
    }

    method SetSelectedId(id: int)
      modifies this`selectedId
      ensures selectedId == id
    {
      selectedId := id;
    }

    method AddListener(listener: object)
      modifies this`listeners
      ensures listeners == old(listeners) + {listener}
    {
      listeners := listeners + {listener};
    }
  }

  class MidiGenEditor {
    const audioProcessor: MidiGenProcessor
    /** The scale constructor `Scale(key, name)`, whose definition is not part
        of this model. */
    const makeScale: (string, string) -> Scale
    const keyDropdown: ComboBox
    const scaleDropdown: ComboBox
    var scale: Scale
    var itor: map<int, PianoKey>
    /** The id of the key to highlight, or the processor's raw note when that
        is not positive. */
    var currentNoteNumber: int
    /** How many repaints the editor has asked for. */
    var repaintRequests: nat

    /** Builds the editor for processor `p`: the scale "C" "Major" is handed
        to the processor, the dropdowns list `noteNames` and `scaleNames` with
        their first entries selected, and the key table is filled in. */
    constructor (p: MidiGenProcessor, makeScale: (string, string) -> Scale,
                 noteNames: seq<string>, scaleNames: seq<string>)
      modifies p`scale
      ensures audioProcessor == p && this.makeScale == makeScale
      ensures scale == makeScale("C", "Major") && p.scale == scale
      ensures fresh(keyDropdown) && fresh(scaleDropdown) && keyDropdown != scaleDropdown
      ensures keyDropdown.items == NumberedFrom(noteNames, 1) && keyDropdown.selectedId == 1
      ensures scaleDropdown.items == NumberedFrom(scaleNames, 1) && scaleDropdown.selectedId == 1
      ensures !keyDropdown.editableText && !scaleDropdown.editableText
      ensures keyDropdown.listeners == {this} && scaleDropdown.listeners == {this}
      ensures itor == KeyTable() && repaintRequests == 0
    {
      audioProcessor := p;
      this.makeScale := makeScale;
      scale := makeScale("C", "Major");
      keyDropdown := new ComboBox();
      scaleDropdown := new ComboBox();
      repaintRequests := 0;
      new;
      audioProcessor.SetScale(scale);
      SetUpDropdown(keyDropdown, noteNames, 1, true);
      SetUpDropdown(scaleDropdown, scaleNames, 1, true);
      itor := map[];
      itor := itor[1 := KeyC];
      itor := itor[2 := KeyDb];
      itor := itor[3 := KeyD];
      itor := itor[4 := KeyEb];
      itor := itor[5 := KeyE];
      itor := itor[6 := KeyF];
      itor := itor[7 := KeyGb];
      itor := itor[8 := KeyG];
      itor := itor[9 := KeyAb];
      itor := itor[10 := KeyA];
      itor := itor[11 := KeyBb];
      itor := itor[12 := KeyB];
    }

    method Repaint()
      modifies this`repaintRequests
      ensures repaintRequests == old(repaintRequests) + 1
    {
      repaintRequests := repaintRequests + 1;
    }

    /** A dropdown changed: when it is the key or the scale dropdown, a new
        scale is built from both dropdowns' texts and becomes the editor's and
        the processor's scale, and a repaint is requested; any other box
        changes nothing. */
    method ComboBoxChanged(box: ComboBox)
      modifies this`scale, this`repaintRequests, audioProcessor`scale
      ensures box == keyDropdown || box == scaleDropdown ==>
        && scale == makeScale(keyDropdown.GetText(), scaleDropdown.GetText())
        && audioProcessor.scale == scale
        && repaintRequests == old(repaintRequests) + 1
      ensures !(box == keyDropdown || box == scaleDropdown) ==>
        && scale == old(scale)
        && audioProcessor.scale == old(audioProcessor.scale)
        && repaintRequests == old(repaintRequests)
    {
      if box == keyDropdown || box == scaleDropdown {
        var newScale := makeScale(keyDropdown.GetText(), scaleDropdown.GetText());
        scale := newScale;
        audioProcessor.SetScale(newScale);
        Repaint();
      }
    }

    /** Adds `options` to `dropdown` with item ids 1, 2, ... in option order,
        makes its text read-only, selects `selectedOption`, and registers
        the editor as a listener when `addListener` holds. */
    method SetUpDropdown(dropdown: ComboBox, options: seq<string>, selectedOption: int, addListener: bool)
      modifies dropdown
      ensures dropdown.items == old(dropdown.items) + NumberedFrom(options, 1)
      ensures !dropdown.editableText && dropdown.selectedId == selectedOption
      ensures dropdown.listeners == if addListener then old(dropdown.listeners) + {this} else old(dropdown.listeners)
    {
      var i := 0;
      while i < |options|
        invariant 0 <= i <= |options|
        invariant dropdown.items == old(dropdown.items) + NumberedFrom(options[..i], 1)
        invariant dropdown.listeners == old(dropdown.listeners)
      {
        dropdown.AddItem(options[i], i + 1);
        assert NumberedFrom(options[..i + 1], 1) == NumberedFrom(options[..i], 1) + [ComboItem(options[i], i + 1)];
        i := i + 1;
      }
      assert options[..i] == options;
      dropdown.SetEditableText(false);
      dropdown.SetSelectedId(selectedOption);
      if addListener {
        dropdown.AddListener(this);
      }
    }

    /** The timer tick: reads the processor's current note; a positive note
        becomes its pitch-class id and asks for a repaint, anything else is
        stored as it is. */
    method TimerCallback()
      modifies this`currentNoteNumber, this`repaintRequests
      ensures var n := audioProcessor.currentNoteNumer;
        && (n > 0 ==> currentNoteNumber == PitchClassId(n) && repaintRequests == old(repaintRequests) + 1)
        && (n <= 0 ==> currentNoteNumber == n && repaintRequests == old(repaintRequests))
    {
      currentNoteNumber := audioProcessor.GetCurrentNoteNumber();
      if currentNoteNumber > 0 {
        currentNoteNumber := PitchClassId(currentNoteNumber);
        Repaint();
      }
    }
  }

  /** After `SetUpDropdown` on an empty dropdown, selecting item id `k` shows
      option `k - 1`, so the ids 1..|options| name the options in order. */
  lemma SelectedOptionText(options: seq<string>, k: int)
    requires 1 <= k <= |options|
    ensures TextForId(NumberedFrom(options, 1), k) == options[k - 1]
  {
    TextOfNumbered(options, 1, k);
  }
}
