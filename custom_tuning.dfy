/** The custom tuning editor: a copy of the tuning that the user raises or
    lowers one string at a time by a half step, and that is published to
    the parent after every edit. */
module CustomTuning {
  import opened Js
  import MusicTheory
  import GuitarData

  /** The chromatic names the editor cycles through. */
  const CHROMATIC_NOTES: seq<string> := ["C", "C#", "D", "D#", "E", "F", "F#", "G", "G#", "A", "A#", "B"]

  /** The starting tuning per number of strings. */
  const STANDARD_TUNINGS: map<int, seq<string>> := map[
    6 := ["E", "A", "D", "G", "B", "E"],
    7 := ["B", "E", "A", "D", "G", "B", "E"],
    8 := ["F#", "B", "E", "A", "D", "G", "B", "E"]
  ]

  /** The editor's name table is the pitch-class table of the music core. */
  lemma ChromaticIsNotes()
    ensures CHROMATIC_NOTES == MusicTheory.NOTES
  {
  }

  /** The standard tuning for a guitar type, or the 6-string one when the
      type has no entry. */
  function StandardFor(guitarType: int): (r: seq<string>)
    ensures |r| == (if guitarType in STANDARD_TUNINGS then guitarType else 6)
    ensures forall k :: 0 <= k < |r| ==> r[k] in CHROMATIC_NOTES
  {
    if guitarType in STANDARD_TUNINGS then STANDARD_TUNINGS[guitarType] else STANDARD_TUNINGS[6]
  }

  /** The editor's starting tunings agree with the preset table's defaults. */
  lemma StandardIsDefault(guitarType: int)
    ensures StandardFor(guitarType) == GuitarData.DefaultTuningForGuitarType(guitarType)
  {
    if guitarType == 7 {
    } else if guitarType == 8 {
    } else {
      assert guitarType !in STANDARD_TUNINGS || guitarType == 6;
    }
  }

  /** The name one half step up; a name outside the table has index -1 and
      so becomes the first name. */
  function NextName(note: string): (r: string)
    ensures r in CHROMATIC_NOTES
    ensures note !in CHROMATIC_NOTES ==> r == "C"
    ensures note == "B" ==> r == "C"
  {
    CHROMATIC_NOTES[Mod12(IndexOf(CHROMATIC_NOTES, note) + 1)]
  }

  /** The name one half step down; a name outside the table becomes the
      second-to-last name. */
  function PrevName(note: string): (r: string)
    ensures r in CHROMATIC_NOTES
    ensures note !in CHROMATIC_NOTES ==> r == "A#"
    ensures note == "C" ==> r == "B"
  {
    CHROMATIC_NOTES[Mod12(IndexOf(CHROMATIC_NOTES, note) - 1 + |CHROMATIC_NOTES|)]
  }

  lemma ChromaticDistinct(i: int)
    requires 0 <= i < 12
    ensures IndexOf(CHROMATIC_NOTES, CHROMATIC_NOTES[i]) == i
  {
    ChromaticIsNotes();
    MusicTheory.NotesDistinct();
    MusicTheory.IndexOfDistinct(CHROMATIC_NOTES, i);
  }

  /** Up moves each table name to its successor, wrapping after the last. */
  lemma NextOfChromatic(i: int)
    requires 0 <= i < 12
    ensures NextName(CHROMATIC_NOTES[i]) == CHROMATIC_NOTES[if i == 11 then 0 else i + 1]
  {
    ChromaticDistinct(i);
  }

  /** Down moves each table name to its predecessor, wrapping before the first. */
  lemma PrevOfChromatic(i: int)
    requires 0 <= i < 12
    ensures PrevName(CHROMATIC_NOTES[i]) == CHROMATIC_NOTES[if i == 0 then 11 else i - 1]
  {
    ChromaticDistinct(i);
    assert Mod12(i - 1 + 12) == if i == 0 then 11 else i - 1;
  }

  /** For a table name, a step up and a step down undo each other, in either order. */
  lemma UpDownInverse(note: string)
    requires note in CHROMATIC_NOTES
    ensures PrevName(NextName(note)) == note
    ensures NextName(PrevName(note)) == note
  {
    var i := IndexOf(CHROMATIC_NOTES, note);
    NextOfChromatic(i);
    PrevOfChromatic(i);
    var up := if i == 11 then 0 else i + 1;
    var down := if i == 0 then 11 else i - 1;
    PrevOfChromatic(up);
    NextOfChromatic(down);
  }

  /** A tuning whose every slot is a table name. */
  predicate Chromatic(t: seq<string>)
  {
    forall k :: 0 <= k < |t| ==> t[k] in CHROMATIC_NOTES
  }

  /** Moving one slot up and then down restores a chromatic tuning. */
  lemma SlotUpDownRestores(t: seq<string>, i: int)
    requires Chromatic(t) && 0 <= i < |t|
    ensures t[i := NextName(t[i])][i := PrevName(NextName(t[i]))] == t
  {
    UpDownInverse(t[i]);
  }

  /** The editor's state: the guitar type it was initialised for, its own
      copy of the tuning, and the tuning last published to the parent. */
  class TuningEditor {
    var guitarType: int
    var customTuning: seq<string>
    var tuning: seq<string>

    /** Every slot of the editor's copy holds a table name. */
    predicate Valid()
      reads this
    {
      Chromatic(customTuning)
    }

    /** Mounting: the copy starts as the standard tuning for the guitar type;
        the parent's tuning is left as it was passed in. */
    constructor(guitarType: int, tuning: seq<string>)
      ensures Valid()
      ensures this.guitarType == guitarType && this.tuning == tuning
      ensures customTuning == StandardFor(guitarType)
    {
      this.guitarType := guitarType;
      this.tuning := tuning;
      customTuning := StandardFor(guitarType);
    }

    /** A change of guitar type re-runs the initialisation. */
    method ChangeGuitarType(guitarType: int)
      modifies this
      ensures Valid()
      ensures this.guitarType == guitarType && customTuning == StandardFor(guitarType)
      ensures tuning == old(tuning)
    {
      this.guitarType := guitarType;
      customTuning := StandardFor(guitarType);
    }

    /** moveNoteUp: slot `stringIndex` goes one half step up; every other slot
        and the length stay; the new tuning is published. */
    method MoveNoteUp(stringIndex: int)
      requires 0 <= stringIndex < |customTuning|
      modifies this
      ensures old(Valid()) ==> Valid()
      ensures |customTuning| == |old(customTuning)|
      ensures customTuning[stringIndex] == NextName(old(customTuning)[stringIndex])
      ensures forall k :: 0 <= k < |customTuning| && k != stringIndex ==> customTuning[k] == old(customTuning)[k]
      ensures tuning == customTuning && guitarType == old(guitarType)
    {
      var currentNote := customTuning[stringIndex];
      var currentIndex := IndexOf(CHROMATIC_NOTES, currentNote);
      var newIndex := Mod12(currentIndex + 1);
      var newNote := CHROMATIC_NOTES[newIndex];
      var newTuning := customTuning;
      newTuning := newTuning[stringIndex := newNote];
      customTuning := newTuning;
      tuning := newTuning;
    }

    /** moveNoteDown: slot `stringIndex` goes one half step down; every other
        slot and the length stay; the new tuning is published. */
    method MoveNoteDown(stringIndex: int)
      requires 0 <= stringIndex < |customTuning|
      modifies this
      ensures old(Valid()) ==> Valid()
      ensures |customTuning| == |old(customTuning)|
      ensures customTuning[stringIndex] == PrevName(old(customTuning)[stringIndex])
      ensures forall k :: 0 <= k < |customTuning| && k != stringIndex ==> customTuning[k] == old(customTuning)[k]
      ensures tuning == customTuning && guitarType == old(guitarType)
    {
      var currentNote := customTuning[stringIndex];
      var currentIndex := IndexOf(CHROMATIC_NOTES, currentNote);
      var newIndex := Mod12(currentIndex - 1 + |CHROMATIC_NOTES|);
      var newNote := CHROMATIC_NOTES[newIndex];
      var newTuning := customTuning;
      newTuning := newTuning[stringIndex := newNote];
      customTuning := newTuning;
      tuning := newTuning;
    }

    /** resetToStandard: both the copy and the parent's tuning become the
        standard tuning for the guitar type. */
    method ResetToStandard()
      modifies this
      ensures Valid()
      ensures customTuning == StandardFor(guitarType) && tuning == customTuning
      ensures guitarType == old(guitarType)
    {
      customTuning := StandardFor(guitarType);
      tuning := customTuning;
    }
  }

  /** Raising and then lowering the same string restores the editor's tuning. */
  method UpThenDown(editor: TuningEditor, stringIndex: int)
    requires editor.Valid() && 0 <= stringIndex < |editor.customTuning|
    modifies editor
    ensures editor.customTuning == old(editor.customTuning) && editor.tuning == editor.customTuning
  {
    ghost var before := editor.customTuning;
    editor.MoveNoteUp(stringIndex);
    editor.MoveNoteDown(stringIndex);
    UpDownInverse(before[stringIndex]);
  }
}
