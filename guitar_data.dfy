/** The tuning preset table and the default tuning for a guitar type. */
module GuitarData {
  import opened Js
  import opened MusicTheory

  /** One preset: a display name, the open-string names from the lowest
      string up, and the number of strings. */
  datatype Preset = Preset(name: string, tuning: seq<string>, strings: int)

  /** The presets keyed by id, in declaration order. */
  const TUNING_PRESETS: seq<(string, Preset)> := [
    ("standard-6", Preset("Standard", ["E", "A", "D", "G", "B", "E"], 6)),
    ("drop-d", Preset("Drop D", ["D", "A", "D", "G", "B", "E"], 6)),
    ("drop-c", Preset("Drop C", ["C", "G", "C", "F", "A", "D"], 6)),
    ("dadgad", Preset("DADGAD", ["D", "A", "D", "G", "A", "D"], 6)),
    ("open-d", Preset("Open D", ["D", "A", "D", "F#", "A", "D"], 6)),
    ("open-g", Preset("Open G", ["D", "G", "D", "G", "B", "D"], 6)),
    ("standard-7", Preset("Standard 7-String", ["B", "E", "A", "D", "G", "B", "E"], 7)),
    ("drop-a", Preset("Drop A (7-String)", ["A", "E", "A", "D", "G", "B", "E"], 7)),
    ("standard-8", Preset("Standard 8-String", ["F#", "B", "E", "A", "D", "G", "B", "E"], 8)),
    ("drop-e", Preset("Drop E (8-String)", ["E", "B", "E", "A", "D", "G", "B", "E"], 8))
  ]

  /** A preset whose tuning has one name per string, each a chromatic name. */
  predicate WellFormedPreset(p: Preset)
  {
    |p.tuning| == p.strings && forall k :: 0 <= k < |p.tuning| ==> p.tuning[k] in NOTES
  }

  /** Every preset is well formed. */
  lemma PresetsWellFormed(i: int)
    requires 0 <= i < |TUNING_PRESETS|
    ensures WellFormedPreset(TUNING_PRESETS[i].1)
  {
  }

  /** Every open-string name of every preset has a pitch class. */
  lemma PresetNotesHaveIndex(i: int, k: int)
    requires 0 <= i < |TUNING_PRESETS|
    requires 0 <= k < |TUNING_PRESETS[i].1.tuning|
    ensures 0 <= NoteIndex(TUNING_PRESETS[i].1.tuning[k]) < 12
    ensures NOTES[NoteIndex(TUNING_PRESETS[i].1.tuning[k])] == TUNING_PRESETS[i].1.tuning[k]
  {
    PresetsWellFormed(i);
    var name := TUNING_PRESETS[i].1.tuning[k];
    var j := IndexOf(NOTES, name);
    NoteIndexRoundTrip(j);
  }

  /** The preset stored under an id, if any. */
  function PresetById(id: string): (r: Option<Preset>)
    ensures r.Some? <==> exists i :: 0 <= i < |TUNING_PRESETS| && TUNING_PRESETS[i].0 == id
    ensures r.Some? ==> WellFormedPreset(r.value)
  {
    PresetLookup(TUNING_PRESETS, id)
  }

  function PresetLookup(table: seq<(string, Preset)>, id: string): (r: Option<Preset>)
    requires forall i :: 0 <= i < |table| ==> WellFormedPreset(table[i].1)
    ensures r.Some? <==> exists i :: 0 <= i < |table| && table[i].0 == id
    ensures r.Some? ==> WellFormedPreset(r.value)
  {
    if |table| == 0 then None
    else if table[0].0 == id then Some(table[0].1)
    else
      var r := PresetLookup(table[1..], id);
      assert forall i :: 1 <= i < |table| ==> table[1..][i - 1] == table[i];
      r
  }

  /** getDefaultTuningForGuitarType: the standard tuning for 7 and 8 strings,
      the 6-string standard tuning for every other value. */
  function DefaultTuningForGuitarType(strings: int): (r: seq<string>)
    ensures |r| == (if strings == 7 || strings == 8 then strings else 6)
    ensures forall k :: 0 <= k < |r| ==> r[k] in NOTES
  {
    var i := if strings == 7 then 6 else if strings == 8 then 8 else 0;
    PresetsWellFormed(i);
    TUNING_PRESETS[i].1.tuning
  }

  /** The default tuning is the tuning of the matching "standard" preset. */
  lemma DefaultTuningIsStandardPreset(strings: int)
    ensures strings == 7 ==> PresetById("standard-7") == Some(Preset("Standard 7-String", DefaultTuningForGuitarType(strings), 7))
    ensures strings == 8 ==> PresetById("standard-8") == Some(Preset("Standard 8-String", DefaultTuningForGuitarType(strings), 8))
    ensures strings != 7 && strings != 8 ==> PresetById("standard-6") == Some(Preset("Standard", DefaultTuningForGuitarType(strings), 6))
  {
    if strings == 7 {
      PresetFirst(6);
    } else if strings == 8 {
      PresetFirst(8);
    } else {
      PresetFirst(0);
    }
  }

  /** The lookup by id finds entry i, whose id no earlier entry has. */
  lemma PresetFirst(i: int)
    requires 0 <= i < |TUNING_PRESETS|
    requires forall j :: 0 <= j < i ==> TUNING_PRESETS[j].0 != TUNING_PRESETS[i].0
    ensures PresetById(TUNING_PRESETS[i].0) == Some(TUNING_PRESETS[i].1)
  {
    PresetLookupFirst(TUNING_PRESETS, i);
  }

  lemma {:induction false} PresetLookupFirst(table: seq<(string, Preset)>, i: int)
    requires forall j :: 0 <= j < |table| ==> WellFormedPreset(table[j].1)
    requires 0 <= i < |table|
    requires forall j :: 0 <= j < i ==> table[j].0 != table[i].0
    ensures PresetLookup(table, table[i].0) == Some(table[i].1)
  {
    if i > 0 {
      assert forall j :: 1 <= j < |table| ==> table[1..][j - 1] == table[j];
      PresetLookupFirst(table[1..], i - 1);
    }
  }
}
