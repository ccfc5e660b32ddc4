/** Pitch classes, note names and the scale table (client/src/lib/music-theory.ts).
    Every function here is a pure lookup or comprehension over constant tables. */
module MusicTheory {
  import opened Js

  /** The twelve sharp-spelled pitch-class names; index = pitch class. */
  const NOTES: seq<string> := ["C", "C#", "D", "D#", "E", "F", "F#", "G", "G#", "A", "A#", "B"]

  datatype Scale = Scale(name: string, intervals: seq<int>, pattern: string, category: string)

  const IONIAN := Scale("Ionian (Major)", [0, 2, 4, 5, 7, 9, 11], "W-W-H-W-W-W-H", "modes")
  const DORIAN := Scale("Dorian", [0, 2, 3, 5, 7, 9, 10], "W-H-W-W-W-H-W", "modes")
  const PHRYGIAN := Scale("Phrygian", [0, 1, 3, 5, 7, 8, 10], "H-W-W-W-H-W-W", "modes")
  const LYDIAN := Scale("Lydian", [0, 2, 4, 6, 7, 9, 11], "W-W-W-H-W-W-H", "modes")
  const MIXOLYDIAN := Scale("Mixolydian", [0, 2, 4, 5, 7, 9, 10], "W-W-H-W-W-H-W", "modes")
  const AEOLIAN := Scale("Aeolian (Natural Minor)", [0, 2, 3, 5, 7, 8, 10], "W-H-W-W-H-W-W", "modes")
  const LOCRIAN := Scale("Locrian", [0, 1, 3, 5, 6, 8, 10], "H-W-W-H-W-W-W", "modes")
  const MAJOR_PENTATONIC := Scale("Major Pentatonic", [0, 2, 4, 7, 9], "W-W-WH-W-WH", "pentatonic")
  const MINOR_PENTATONIC := Scale("Minor Pentatonic", [0, 3, 5, 7, 10], "WH-W-W-WH-W", "pentatonic")
  const HARMONIC_MINOR := Scale("Harmonic Minor", [0, 2, 3, 5, 7, 8, 11], "W-H-W-W-H-WH-H", "other")
  const MELODIC_MINOR := Scale("Melodic Minor", [0, 2, 3, 5, 7, 9, 11], "W-H-W-W-W-W-H", "other")
  const BLUES := Scale("Blues Scale", [0, 3, 5, 6, 7, 10], "WH-W-H-H-WH-W", "other")
  const WHOLE_TONE := Scale("Whole Tone", [0, 2, 4, 6, 8, 10], "W-W-W-W-W-W", "other")

  /** The static scale table: (scale type, entry) pairs in source order. */
  const SCALES: seq<(string, Scale)> := [
    ("ionian", IONIAN),
    ("dorian", DORIAN),
    ("phrygian", PHRYGIAN),
    ("lydian", LYDIAN),
    ("mixolydian", MIXOLYDIAN),
    ("aeolian", AEOLIAN),
    ("locrian", LOCRIAN),
    ("major-pentatonic", MAJOR_PENTATONIC),
    ("minor-pentatonic", MINOR_PENTATONIC),
    ("harmonic-minor", HARMONIC_MINOR),
    ("melodic-minor", MELODIC_MINOR),
    ("blues", BLUES),
    ("whole-tone", WHOLE_TONE)
  ]

  /** `SCALES[scaleType]`: the entry under a key, or undefined. */
  function FindScale(scaleType: string): (r: Option<Scale>)
    ensures r.Some? <==> exists i :: 0 <= i < |SCALES| && SCALES[i].0 == scaleType
    ensures r.Some? ==> exists i :: 0 <= i < |SCALES| && SCALES[i] == (scaleType, r.value)
  {
    Lookup(SCALES, scaleType)
  }

  /** The value under the first entry with the given key. */
  function Lookup<V>(table: seq<(string, V)>, key: string): (r: Option<V>)
    ensures r.Some? <==> exists i :: 0 <= i < |table| && table[i].0 == key
    ensures r.Some? ==> exists i :: 0 <= i < |table| && table[i] == (key, r.value)
  {
    if |table| == 0 then None
    else if table[0].0 == key then Some(table[0].1)
    else
      var r := Lookup(table[1..], key);
      assert forall i :: 0 <= i < |table| - 1 ==> table[1..][i] == table[i + 1];
      r
  }

  /** The lookup finds the first entry with the key. */
  lemma {:induction false} LookupFirst<V>(table: seq<(string, V)>, i: int)
    requires 0 <= i < |table|
    requires forall j :: 0 <= j < i ==> table[j].0 != table[i].0
    ensures Lookup(table, table[i].0) == Some(table[i].1)
  {
    if i > 0 {
      LookupFirst(table[1..], i - 1);
    }
  }

  predicate StrictlyIncreasing(s: seq<int>)
  {
    forall i, j :: 0 <= i < j < |s| ==> s[i] < s[j]
  }

  lemma {:induction false} AdjacentIncreasing(s: seq<int>)
    requires forall i :: 0 <= i < |s| - 1 ==> s[i] < s[i + 1]
    ensures StrictlyIncreasing(s)
  {
    if |s| > 1 {
      var t := s[1..];
      AdjacentIncreasing(t);
      forall i, j | 0 <= i < j < |s| ensures s[i] < s[j] {
        if i == 0 {
          if j > 1 {
            assert s[1] == t[0] && s[j] == t[j - 1];
          }
        } else {
          assert s[i] == t[i - 1] && s[j] == t[j - 1];
        }
      }
    }
  }

  /** A well-formed interval list: starts at the root, strictly ascending, within one octave. */
  predicate WellFormedIntervals(s: seq<int>)
  {
    |s| > 0 && s[0] == 0 && StrictlyIncreasing(s) && forall i :: 0 <= i < |s| ==> 0 <= s[i] < 12
  }

  /** Semitones of one step letter of a scale pattern. */
  function StepSize(step: string): (n: nat)
    ensures n <= 3
  {
    if step == "W" then 2 else if step == "H" then 1 else if step == "WH" then 3 else 0
  }

  function StepTotal(steps: seq<string>): nat
  {
    if |steps| == 0 then 0 else StepTotal(steps[..|steps| - 1]) + StepSize(steps[|steps| - 1])
  }

  /** The pattern of a scale agrees with its interval list: one step per interval,
      step k is the distance from interval k to interval k+1 (the last step closes
      the octave). */
  predicate PatternMatches(sc: Scale)
  {
    StepsSpell(Split(sc.pattern, '-'), sc.intervals)
  }

  predicate StepsSpell(steps: seq<string>, intervals: seq<int>)
  {
    && |steps| == |intervals| >= 1
    && (forall k :: 0 <= k < |steps| - 1 ==> intervals[k + 1] - intervals[k] == StepSize(steps[k]))
    && 12 - intervals[|steps| - 1] == StepSize(steps[|steps| - 1])
  }

  /** Every table entry is a well-formed interval list. */
  lemma ScalesWellFormed(i: int)
    requires 0 <= i < |SCALES|
    ensures WellFormedIntervals(SCALES[i].1.intervals)
  {
    AdjacentIncreasing(SCALES[i].1.intervals);
  }

  /** A known scale type's intervals are well formed. */
  lemma FoundScaleWellFormed(scaleType: string)
    requires FindScale(scaleType).Some?
    ensures WellFormedIntervals(FindScale(scaleType).value.intervals)
  {
    var i :| 0 <= i < |SCALES| && SCALES[i] == (scaleType, FindScale(scaleType).value);
    ScalesWellFormed(i);
  }

  /** A scale whose pattern is the '-'-join of the given step names, each of
      which spans the distance to the next interval, matches its pattern. */
  lemma SpelledBy(sc: Scale, steps: seq<string>)
    requires |steps| >= 1 && sc.pattern == Join(steps, '-')
    requires forall k :: 0 <= k < |steps| ==> FreeOf(steps[k], '-')
    requires StepsSpell(steps, sc.intervals)
    ensures PatternMatches(sc)
  {
    JoinSplit(steps, '-');
    assert Split(sc.pattern, '-') == steps;
  }

  lemma IonianSteps()
    ensures IONIAN.pattern == Join(["W", "W", "H", "W", "W", "W", "H"], '-')
  {
    var steps := ["W", "W", "H", "W", "W", "W", "H"];
    assert Join(steps[6..], '-') == "H";
    assert Join(steps[5..], '-') == "W-H";
    assert Join(steps[4..], '-') == "W-W-H";
    assert Join(steps[3..], '-') == "W-W-W-H";
    assert Join(steps[2..], '-') == "H-W-W-W-H";
    assert Join(steps[1..], '-') == "W-H-W-W-W-H";
  }

  lemma IonianSpelled()
    ensures PatternMatches(IONIAN)
  {
    IonianSteps();
    SpelledBy(IONIAN, ["W", "W", "H", "W", "W", "W", "H"]);
  }

  lemma DorianSteps()
    ensures DORIAN.pattern == Join(["W", "H", "W", "W", "W", "H", "W"], '-')
  {
    var steps := ["W", "H", "W", "W", "W", "H", "W"];
    assert Join(steps[6..], '-') == "W";
    assert Join(steps[5..], '-') == "H-W";
    assert Join(steps[4..], '-') == "W-H-W";
    assert Join(steps[3..], '-') == "W-W-H-W";
    assert Join(steps[2..], '-') == "W-W-W-H-W";
    assert Join(steps[1..], '-') == "H-W-W-W-H-W";
  }

  lemma DorianSpelled()
    ensures PatternMatches(DORIAN)
  {
    DorianSteps();
    SpelledBy(DORIAN, ["W", "H", "W", "W", "W", "H", "W"]);
  }

  lemma PhrygianSteps()
    ensures PHRYGIAN.pattern == Join(["H", "W", "W", "W", "H", "W", "W"], '-')
  {
    var steps := ["H", "W", "W", "W", "H", "W", "W"];
    assert Join(steps[6..], '-') == "W";
    assert Join(steps[5..], '-') == "W-W";
    assert Join(steps[4..], '-') == "H-W-W";
    assert Join(steps[3..], '-') == "W-H-W-W";
    assert Join(steps[2..], '-') == "W-W-H-W-W";
    assert Join(steps[1..], '-') == "W-W-W-H-W-W";
  }

  lemma PhrygianSpelled()
    ensures PatternMatches(PHRYGIAN)
  {
    PhrygianSteps();
    SpelledBy(PHRYGIAN, ["H", "W", "W", "W", "H", "W", "W"]);
  }

  lemma LydianSteps()
    ensures LYDIAN.pattern == Join(["W", "W", "W", "H", "W", "W", "H"], '-')
  {
    var steps := ["W", "W", "W", "H", "W", "W", "H"];
    assert Join(steps[6..], '-') == "H";
    assert Join(steps[5..], '-') == "W-H";
    assert Join(steps[4..], '-') == "W-W-H";
    assert Join(steps[3..], '-') == "H-W-W-H";
    assert Join(steps[2..], '-') == "W-H-W-W-H";
    assert Join(steps[1..], '-') == "W-W-H-W-W-H";
  }

  lemma LydianSpelled()
    ensures PatternMatches(LYDIAN)
  {
    LydianSteps();
    SpelledBy(LYDIAN, ["W", "W", "W", "H", "W", "W", "H"]);
  }

  lemma MixolydianSteps()
    ensures MIXOLYDIAN.pattern == Join(["W", "W", "H", "W", "W", "H", "W"], '-')
  {
    var steps := ["W", "W", "H", "W", "W", "H", "W"];
    assert Join(steps[6..], '-') == "W";
    assert Join(steps[5..], '-') == "H-W";
    assert Join(steps[4..], '-') == "W-H-W";
    assert Join(steps[3..], '-') == "W-W-H-W";
    assert Join(steps[2..], '-') == "H-W-W-H-W";
    assert Join(steps[1..], '-') == "W-H-W-W-H-W";
  }

  lemma MixolydianSpelled()
    ensures PatternMatches(MIXOLYDIAN)
  {
    MixolydianSteps();
    SpelledBy(MIXOLYDIAN, ["W", "W", "H", "W", "W", "H", "W"]);
  }

  lemma AeolianSteps()
    ensures AEOLIAN.pattern == Join(["W", "H", "W", "W", "H", "W", "W"], '-')
  {
    var steps := ["W", "H", "W", "W", "H", "W", "W"];
    assert Join(steps[6..], '-') == "W";
    assert Join(steps[5..], '-') == "W-W";
    assert Join(steps[4..], '-') == "H-W-W";
    assert Join(steps[3..], '-') == "W-H-W-W";
    assert Join(steps[2..], '-') == "W-W-H-W-W";
    assert Join(steps[1..], '-') == "H-W-W-H-W-W";
  }

  lemma AeolianSpelled()
    ensures PatternMatches(AEOLIAN)
  {
    AeolianSteps();
    SpelledBy(AEOLIAN, ["W", "H", "W", "W", "H", "W", "W"]);
  }

  lemma LocrianSteps()
    ensures LOCRIAN.pattern == Join(["H", "W", "W", "H", "W", "W", "W"], '-')
  {
    var steps := ["H", "W", "W", "H", "W", "W", "W"];
    assert Join(steps[6..], '-') == "W";
    assert Join(steps[5..], '-') == "W-W";
    assert Join(steps[4..], '-') == "W-W-W";
    assert Join(steps[3..], '-') == "H-W-W-W";
    assert Join(steps[2..], '-') == "W-H-W-W-W";
    assert Join(steps[1..], '-') == "W-W-H-W-W-W";
  }

  lemma LocrianSpelled()
    ensures PatternMatches(LOCRIAN)
  {
    LocrianSteps();
    SpelledBy(LOCRIAN, ["H", "W", "W", "H", "W", "W", "W"]);
  }

  lemma MajorPentatonicSteps()
    ensures MAJOR_PENTATONIC.pattern == Join(["W", "W", "WH", "W", "WH"], '-')
  {
    var steps := ["W", "W", "WH", "W", "WH"];
    assert Join(steps[4..], '-') == "WH";
    assert Join(steps[3..], '-') == "W-WH";
    assert Join(steps[2..], '-') == "WH-W-WH";
    assert Join(steps[1..], '-') == "W-WH-W-WH";
  }

  lemma MajorPentatonicSpelled()
    ensures PatternMatches(MAJOR_PENTATONIC)
  {
    MajorPentatonicSteps();
    SpelledBy(MAJOR_PENTATONIC, ["W", "W", "WH", "W", "WH"]);
  }

  lemma MinorPentatonicSteps()
    ensures MINOR_PENTATONIC.pattern == Join(["WH", "W", "W", "WH", "W"], '-')
  {
    var steps := ["WH", "W", "W", "WH", "W"];
    assert Join(steps[4..], '-') == "W";
    assert Join(steps[3..], '-') == "WH-W";
    assert Join(steps[2..], '-') == "W-WH-W";
    assert Join(steps[1..], '-') == "W-W-WH-W";
  }

  lemma MinorPentatonicSpelled()
    ensures PatternMatches(MINOR_PENTATONIC)
  {
    MinorPentatonicSteps();
    SpelledBy(MINOR_PENTATONIC, ["WH", "W", "W", "WH", "W"]);
  }

  lemma HarmonicMinorSteps()
    ensures HARMONIC_MINOR.pattern == Join(["W", "H", "W", "W", "H", "WH", "H"], '-')
  {
    var steps := ["W", "H", "W", "W", "H", "WH", "H"];
    assert Join(steps[6..], '-') == "H";
    assert Join(steps[5..], '-') == "WH-H";
    assert Join(steps[4..], '-') == "H-WH-H";
    assert Join(steps[3..], '-') == "W-H-WH-H";
    assert Join(steps[2..], '-') == "W-W-H-WH-H";
    assert Join(steps[1..], '-') == "H-W-W-H-WH-H";
  }

  lemma HarmonicMinorSpelled()
    ensures PatternMatches(HARMONIC_MINOR)
  {
    HarmonicMinorSteps();
    SpelledBy(HARMONIC_MINOR, ["W", "H", "W", "W", "H", "WH", "H"]);
  }

  lemma MelodicMinorSteps()
    ensures MELODIC_MINOR.pattern == Join(["W", "H", "W", "W", "W", "W", "H"], '-')
  {
    var steps := ["W", "H", "W", "W", "W", "W", "H"];
    assert Join(steps[6..], '-') == "H";
    assert Join(steps[5..], '-') == "W-H";
    assert Join(steps[4..], '-') == "W-W-H";
    assert Join(steps[3..], '-') == "W-W-W-H";
    assert Join(steps[2..], '-') == "W-W-W-W-H";
    assert Join(steps[1..], '-') == "H-W-W-W-W-H";
  }

  lemma MelodicMinorSpelled()
    ensures PatternMatches(MELODIC_MINOR)
  {
    MelodicMinorSteps();
    SpelledBy(MELODIC_MINOR, ["W", "H", "W", "W", "W", "W", "H"]);
  }

  lemma BluesSteps()
    ensures BLUES.pattern == Join(["WH", "W", "H", "H", "WH", "W"], '-')
  {
    var steps := ["WH", "W", "H", "H", "WH", "W"];
    assert Join(steps[5..], '-') == "W";
    assert Join(steps[4..], '-') == "WH-W";
    assert Join(steps[3..], '-') == "H-WH-W";
    assert Join(steps[2..], '-') == "H-H-WH-W";
    assert Join(steps[1..], '-') == "W-H-H-WH-W";
  }

  lemma BluesSpelled()
    ensures PatternMatches(BLUES)
  {
    BluesSteps();
    SpelledBy(BLUES, ["WH", "W", "H", "H", "WH", "W"]);
  }

  lemma WholeToneSteps()
    ensures WHOLE_TONE.pattern == Join(["W", "W", "W", "W", "W", "W"], '-')
  {
    var steps := ["W", "W", "W", "W", "W", "W"];
    assert Join(steps[5..], '-') == "W";
    assert Join(steps[4..], '-') == "W-W";
    assert Join(steps[3..], '-') == "W-W-W";
    assert Join(steps[2..], '-') == "W-W-W-W";
    assert Join(steps[1..], '-') == "W-W-W-W-W";
  }

  lemma WholeToneSpelled()
    ensures PatternMatches(WHOLE_TONE)
  {
    WholeToneSteps();
    SpelledBy(WHOLE_TONE, ["W", "W", "W", "W", "W", "W"]);
  }

  /** Every table entry's display pattern spells its interval list. */
  lemma ScalePatternsMatch(i: int)
    requires 0 <= i < |SCALES|
    ensures PatternMatches(SCALES[i].1)
  {
    if i == 0 {
      assert SCALES[i].1 == IONIAN;
      IonianSpelled();
    } else if i == 1 {
      assert SCALES[i].1 == DORIAN;
      DorianSpelled();
    } else if i == 2 {
      assert SCALES[i].1 == PHRYGIAN;
      PhrygianSpelled();
    } else if i == 3 {
      assert SCALES[i].1 == LYDIAN;
      LydianSpelled();
    } else if i == 4 {
      assert SCALES[i].1 == MIXOLYDIAN;
      MixolydianSpelled();
    } else if i == 5 {
      assert SCALES[i].1 == AEOLIAN;
      AeolianSpelled();
    } else if i == 6 {
      assert SCALES[i].1 == LOCRIAN;
      LocrianSpelled();
    } else if i == 7 {
      assert SCALES[i].1 == MAJOR_PENTATONIC;
      MajorPentatonicSpelled();
    } else if i == 8 {
      assert SCALES[i].1 == MINOR_PENTATONIC;
      MinorPentatonicSpelled();
    } else if i == 9 {
      assert SCALES[i].1 == HARMONIC_MINOR;
      HarmonicMinorSpelled();
    } else if i == 10 {
      assert SCALES[i].1 == MELODIC_MINOR;
      MelodicMinorSpelled();
    } else if i == 11 {
      assert SCALES[i].1 == BLUES;
      BluesSpelled();
    } else {
      assert SCALES[i].1 == WHOLE_TONE;
      WholeToneSpelled();
    }
  }

  /** The steps of a matching pattern add up to one octave. */
  lemma PatternSumsToOctave(sc: Scale)
    requires WellFormedIntervals(sc.intervals) && PatternMatches(sc)
    ensures StepTotal(Split(sc.pattern, '-')) == 12
  {
    var steps := Split(sc.pattern, '-');
    PrefixTotals(sc, |steps| - 1);
    assert steps[..|steps|] == steps;
  }

  lemma {:induction false} PrefixTotals(sc: Scale, k: int)
    requires WellFormedIntervals(sc.intervals) && PatternMatches(sc)
    requires 0 <= k < |sc.intervals|
    ensures StepTotal(Split(sc.pattern, '-')[..k]) == sc.intervals[k]
  {
    var steps := Split(sc.pattern, '-');
    if k > 0 {
      PrefixTotals(sc, k - 1);
      assert steps[..k][..k - 1] == steps[..k - 1];
    }
  }

  /** The names validateNote accepts once upper-cased. */
  const VALID_NOTE_NAMES: seq<string> :=
    ["A", "A#", "AB", "B", "C", "C#", "CB", "D", "D#", "DB", "E", "F", "F#", "FB", "G", "G#", "GB"]

  /** validateNote: the empty string, or a listed name in any letter case.
      Its list holds exactly the names getNoteIndex knows except "EB": a
      name is accepted when its upper-case form has a pitch class, E-flat
      excepted. */
  function ValidateNote(note: string): (ok: bool)
    ensures ok <==> note == "" || (NoteIndex(ToUpper(note)) >= 0 && ToUpper(note) != "EB")
  {
    ValidIsIndexedButEB(ToUpper(note));
    ToUpper(note) in VALID_NOTE_NAMES || note == ""
  }

  /** The list of validateNote is the set of names getNoteIndex knows,
      without "EB". */
  lemma ValidIsIndexedButEB(s: string)
    ensures s in VALID_NOTE_NAMES <==> NoteIndex(s) >= 0 && s != "EB"
  {
    if s in VALID_NOTE_NAMES {
      ValidIsIndexed(s);
    }
    if NormalizeNote(s) in NOTES && s != "EB" {
      IndexedIsValid(s);
    }
  }

  /** Every listed name has a pitch class, and "EB" is not listed. */
  lemma ValidIsIndexed(s: string)
    requires s in VALID_NOTE_NAMES
    ensures NormalizeNote(s) in NOTES && s != "EB"
  {
    if IsListedFlat(s) {
      assert s == "AB" || s == "CB" || s == "DB" || s == "FB" || s == "GB";
    } else {
      assert s == "A" || s == "A#" || s == "B" || s == "C" || s == "C#" || s == "D" || s == "D#" ||
             s == "E" || s == "F" || s == "F#" || s == "G" || s == "G#";
    }
  }

  /** A name with a pitch class other than "EB" is listed. */
  lemma IndexedIsValid(s: string)
    requires NormalizeNote(s) in NOTES && s != "EB"
    ensures s in VALID_NOTE_NAMES
  {
    NormalizeChangesOnlyFlats(s);
    if IsListedFlat(s) {
      assert s == [s[0], 'B'];
    } else {
      var i :| 0 <= i < 12 && NOTES[i] == s;
      assert forall k :: 0 <= k < 12 ==> NOTES[k] in VALID_NOTE_NAMES;
    }
  }

  /** validateNote ignores letter case. */
  lemma ValidateIgnoresCase(note: string)
    ensures ValidateNote(note) == ValidateNote(ToUpper(note))
  {
    ToUpperIdempotent(note);
  }

  /** Every sharp name is valid. */
  lemma ValidateAcceptsNotes(i: int)
    requires 0 <= i < 12
    ensures ValidateNote(NOTES[i])
  {
    assert ToUpper(NOTES[i]) == NOTES[i];
  }

  /** Lower-case and mixed-case flats are valid, but E-flat (the list has no
      "EB") and B-sharp are not. */
  lemma ValidateExamples()
    ensures ValidateNote("ab") && ValidateNote("Gb")
    ensures !ValidateNote("Eb") && !ValidateNote("B#")
  {
    FlatSpellingsAccepted();
    EFlatAndBSharpRefused();
  }

  /** Lower-case "ab" and mixed-case "Gb" upper-case to listed flats. */
  lemma FlatSpellingsAccepted()
    ensures ValidateNote("ab") && ValidateNote("Gb")
  {
    assert ToUpper("ab") == "AB";
    assert ToUpper("Gb") == "GB";
  }

  /** "EB" is missing from the list, and no listed name is a B-sharp. */
  lemma EFlatAndBSharpRefused()
    ensures !ValidateNote("Eb") && !ValidateNote("B#")
  {
    assert ToUpper("Eb") == "EB";
    assert ToUpper("B#") == "B#";
    assert forall k :: 0 <= k < |VALID_NOTE_NAMES| ==> |VALID_NOTE_NAMES[k]| == 1 || VALID_NOTE_NAMES[k][0] != 'B';
  }

  /** normalizeNote: the sharp spelling of the six upper-case flat keys of its
      table, anything else unchanged. */
  function NormalizeNote(note: string): (r: string)
    ensures r == note || r in NOTES
  {
    match note
    case "AB" => "G#"
    case "CB" => "B"
    case "DB" => "C#"
    case "EB" => "D#"
    case "FB" => "E"
    case "GB" => "F#"
    case _ => note
  }

  /** A flat spelling as the table lists it: an upper-case letter that has a
      sharp below it, followed by an upper-case "B". */
  predicate IsListedFlat(note: string)
  {
    |note| == 2 && note[1] == 'B' && note[0] in "ACDEFG"
  }

  /** normalizeNote changes exactly the listed flats. */
  lemma NormalizeChangesOnlyFlats(note: string)
    ensures NormalizeNote(note) != note <==> IsListedFlat(note)
  {
    if IsListedFlat(note) {
      assert note == [note[0], 'B'];
      assert note[0] == 'A' || note[0] == 'C' || note[0] == 'D' || note[0] == 'E' || note[0] == 'F' || note[0] == 'G';
    }
  }

  /** Normalising twice is normalising once. */
  lemma NormalizeIdempotent(note: string)
    ensures NormalizeNote(NormalizeNote(note)) == NormalizeNote(note)
  {
    NormalizeChangesOnlyFlats(note);
    NormalizeChangesOnlyFlats(NormalizeNote(note));
  }

  /** getNoteIndex: the pitch class of a note name, or -1. */
  function NoteIndex(note: string): (r: int)
    ensures -1 <= r < 12
    ensures r >= 0 ==> NOTES[r] == NormalizeNote(note)
    ensures r == -1 <==> NormalizeNote(note) !in NOTES
  {
    IndexOf(NOTES, NormalizeNote(note))
  }

  lemma NotesDistinct()
    ensures forall i, j :: 0 <= i < j < 12 ==> NOTES[i] != NOTES[j]
  {
  }

  /** In a list without repeats, indexOf finds each element at its own position. */
  lemma IndexOfDistinct<T>(s: seq<T>, i: int)
    requires 0 <= i < |s|
    requires forall a, b :: 0 <= a < b < |s| ==> s[a] != s[b]
    ensures IndexOf(s, s[i]) == i
  {
  }

  /** The index of the i-th name is i. */
  lemma NoteIndexRoundTrip(i: int)
    requires 0 <= i < 12
    ensures NoteIndex(NOTES[i]) == i
  {
    NotesAreNotFlats(i);
    NormalizeChangesOnlyFlats(NOTES[i]);
    NotesDistinct();
    IndexOfDistinct(NOTES, i);
  }

  lemma NotesAreNotFlats(i: int)
    requires 0 <= i < 12
    ensures !IsListedFlat(NOTES[i])
  {
  }

  /** Names that normalise to the same sharp name share its index. */
  lemma SameIndexAsSharp(note: string, p: int)
    requires 0 <= p < 12 && NormalizeNote(note) == NOTES[p]
    ensures NoteIndex(note) == p
  {
    NoteIndexRoundTrip(p);
    NotesAreNotFlats(p);
    NormalizeChangesOnlyFlats(NOTES[p]);
  }

  /** One listed flat: its letter is sharp name n and it normalises to sharp name p. */
  lemma FlatCase(note: string, n: int, p: int)
    requires 0 <= n < 12 && 0 <= p < 12 && p == Mod12(n + 11)
    requires |note| >= 1 && NOTES[n] == [note[0]] && NormalizeNote(note) == NOTES[p]
    ensures NoteIndex(note) == Mod12(NoteIndex([note[0]]) + 11)
  {
    NoteIndexRoundTrip(n);
    SameIndexAsSharp(note, p);
  }

  /** A listed flat has the pitch class one semitone below its letter. */
  lemma FlatIsSemitoneBelow(note: string)
    requires IsListedFlat(note)
    ensures NoteIndex(note) == Mod12(NoteIndex([note[0]]) + 11)
  {
    assert note == [note[0], 'B'];
    if note[0] == 'A' {
      assert note == "AB" && NormalizeNote("AB") == NOTES[8];
      FlatCase(note, 9, 8);
    } else if note[0] == 'C' {
      assert note == "CB" && NormalizeNote("CB") == NOTES[11];
      FlatCase(note, 0, 11);
    } else if note[0] == 'D' {
      assert note == "DB" && NormalizeNote("DB") == NOTES[1];
      FlatCase(note, 2, 1);
    } else if note[0] == 'E' {
      assert note == "EB" && NormalizeNote("EB") == NOTES[3];
      FlatCase(note, 4, 3);
    } else if note[0] == 'F' {
      assert note == "FB" && NormalizeNote("FB") == NOTES[4];
      FlatCase(note, 5, 4);
    } else {
      assert note == "GB" && NormalizeNote("GB") == NOTES[6];
      FlatCase(note, 7, 6);
    }
  }

  /** Every name is a letter, optionally followed by a sharp sign. */
  lemma NoteNameShape(i: int)
    requires 0 <= i < 12
    ensures 1 <= |NOTES[i]| <= 2 && (|NOTES[i]| == 2 ==> NOTES[i][1] == '#')
  {
  }

  /** Flat spellings outside the table's exact upper-case keys, such as "Db"
      or "Bb", and the empty string have no index. */
  lemma UnlistedSpellingsHaveNoIndex(note: string)
    requires note == "Db" || note == "Bb" || note == ""
    ensures NoteIndex(note) == -1
  {
    NormalizeChangesOnlyFlats(note);
    var r := NoteIndex(note);
    if r >= 0 {
      NoteNameShape(r);
      assert false;
    }
  }

  /** getNoteIndex of an optional name: an undefined name has no index. */
  function NoteIndexOf(note: Option<string>): (r: int)
    ensures -1 <= r < 12
    ensures note.Some? ==> r == NoteIndex(note.value)
  {
    match note
    case None => -1
    case Some(n) => NoteIndex(n)
  }

  /** getNoteAtIndex: NOTES[index % 12] with JavaScript's remainder, so a
      negative index not divisible by 12 gives undefined. */
  function NoteAtIndex(index: int): (r: Option<string>)
    ensures index >= 0 ==> r == Some(NOTES[Mod12(index)])
    ensures 0 <= index < 12 ==> r == Some(NOTES[index])
    ensures r.None? <==> index < 0 && Mod12(-index) != 0
  {
    var k := Rem12(index);
    if k >= 0 then Some(NOTES[k]) else None
  }

  /** The names at the given intervals above a root index. */
  function NotesFrom(rootIndex: int, intervals: seq<int>): (r: seq<Option<string>>)
    ensures |r| == |intervals|
  {
    seq(|intervals|, k requires 0 <= k < |intervals| => NoteAtIndex(rootIndex + intervals[k]))
  }

  /** A recognised root transposed by a non-negative interval names the pitch
      class that many semitones above it; an unrecognised root (index -1) is
      off by one semitone, and undefined for the zero interval. */
  lemma NotesFromMeaning(rootIndex: int, ivs: seq<int>, k: int)
    requires -1 <= rootIndex < 12 && 0 <= k < |ivs| && 0 <= ivs[k]
    ensures rootIndex >= 0 ==> NotesFrom(rootIndex, ivs)[k] == Some(NOTES[Mod12(rootIndex + ivs[k])])
    ensures rootIndex == -1 ==> NotesFrom(rootIndex, ivs)[k] == if ivs[k] == 0 then None else Some(NOTES[Mod12(ivs[k] - 1)])
    ensures rootIndex >= 0 && ivs[k] == 0 ==> NotesFrom(rootIndex, ivs)[k] == Some(NOTES[rootIndex])
  {
  }

  /** getScaleNotes: one (possibly undefined) name per interval, or [] for an unknown scale. */
  function ScaleNotes(rootNote: string, scaleType: string): (r: seq<Option<string>>)
    ensures FindScale(scaleType).None? ==> r == []
    ensures FindScale(scaleType).Some? ==> |r| == |FindScale(scaleType).value.intervals|
  {
    match FindScale(scaleType)
    case None => []
    case Some(scale) => NotesFrom(NoteIndex(rootNote), scale.intervals)
  }

  /** A known scale's notes are its intervals transposed from the root's index,
      and those intervals are well formed. */
  lemma ScaleNotesOfKnown(rootNote: string, scaleType: string, sc: Scale)
    requires FindScale(scaleType) == Some(sc)
    ensures ScaleNotes(rootNote, scaleType) == NotesFrom(NoteIndex(rootNote), sc.intervals)
    ensures WellFormedIntervals(sc.intervals)
  {
    FoundScaleWellFormed(scaleType);
  }

  /** Well-formed intervals after the first are between 1 and 11. */
  lemma LaterIntervalsPositive(ivs: seq<int>, k: int)
    requires WellFormedIntervals(ivs) && 0 < k < |ivs|
    ensures 0 < ivs[k] < 12
  {
    assert ivs[0] < ivs[k];
  }

  /** For a recognised root, scale note k is the root transposed by interval k
      and the first note is the (normalised) root itself; for an unrecognised root
      the first note is undefined and note k > 0 is the name at interval k - 1. */
  lemma ScaleNotesMeaning(rootNote: string, scaleType: string, sc: Scale, k: int)
    requires FindScale(scaleType) == Some(sc) && 0 <= k < |sc.intervals|
    ensures var r := ScaleNotes(rootNote, scaleType);
            var idx := NoteIndex(rootNote);
            && |r| == |sc.intervals|
            && (idx >= 0 ==> 0 <= sc.intervals[k] && r[k] == Some(NOTES[Mod12(idx + sc.intervals[k])]))
            && (idx >= 0 ==> r[0] == Some(NormalizeNote(rootNote)))
            && (idx < 0 ==> r[0] == None && (k > 0 ==> 0 < sc.intervals[k] && r[k] == Some(NOTES[Mod12(sc.intervals[k] - 1)])))
  {
    var ivs := sc.intervals;
    var idx := NoteIndex(rootNote);
    ScaleNotesOfKnown(rootNote, scaleType, sc);
    NotesFromMeaning(idx, ivs, 0);
    if k > 0 {
      LaterIntervalsPositive(ivs, k);
    }
    NotesFromMeaning(idx, ivs, k);
  }

  const INTERVAL_NAMES: seq<string> := ["R", "b2", "2", "b3", "3", "4", "b5", "5", "b6", "6", "b7", "7"]

  /** getIntervalName, whose target may be undefined (the fretboard passes
      undefined names through). */
  function IntervalName(rootNote: string, targetNote: Option<string>): (r: string)
  {
    var interval := Rem12(NoteIndexOf(targetNote) - NoteIndex(rootNote) + 12);
    if 0 <= interval < 12 then INTERVAL_NAMES[interval] else ""
  }

  /** Every label comes from the twelve-entry table: the remainder is never negative
      because both indices are at least -1. */
  lemma IntervalNameInTable(rootNote: string, targetNote: Option<string>)
    ensures IntervalName(rootNote, targetNote) in INTERVAL_NAMES
  {
    var d := NoteIndexOf(targetNote) - NoteIndex(rootNote) + 12;
    assert 0 <= d && Rem12(d) >= 0;
  }

  /** Any name, recognised or not, is its own root. */
  lemma IntervalOfSelf(rootNote: string)
    ensures IntervalName(rootNote, Some(rootNote)) == "R"
  {
    assert NoteIndexOf(Some(rootNote)) - NoteIndex(rootNote) + 12 == 12;
    assert Rem12(12) == 0;
    assert INTERVAL_NAMES[0] == "R";
  }

  /** The label of a sharp name is its distance in semitones above the root,
      counted upwards modulo an octave. */
  lemma IntervalOfName(rootNote: string, t: int)
    requires 0 <= t < 12
    ensures IntervalName(rootNote, Some(NOTES[t])) == INTERVAL_NAMES[SemitonesAbove(NoteIndex(rootNote), t)]
  {
    NoteIndexRoundTrip(t);
    var r := NoteIndex(rootNote);
    var d := t - r + 12;
    assert NoteIndexOf(Some(NOTES[t])) - r + 12 == d;
    assert 0 <= d && Rem12(d) == Mod12(d) == SemitonesAbove(r, t);
    assert IntervalName(rootNote, Some(NOTES[t])) == INTERVAL_NAMES[Rem12(d)];
  }

  /** The distance in semitones from pitch class `from` up to pitch class `to`. */
  function SemitonesAbove(from: int, to: int): (d: int)
    requires from <= to + 12
    ensures 0 <= d < 12
  {
    Mod12(to - from + 12)
  }

  datatype FretboardNote = FretboardNote(note: Option<string>, interval: string, isRoot: bool, isInScale: bool, noteIndex: int)

  /** The cell of calculateFretboardNotes for one open string and fret. */
  function FretboardCell(openNote: string, fret: int, rootNote: string, scaleNoteIndices: seq<int>): FretboardNote
  {
    var noteIndex := Rem12(NoteIndex(openNote) + fret);
    var note := NoteAtIndex(noteIndex);
    FretboardNote(note, IntervalName(rootNote, note), note == Some(rootNote), noteIndex in scaleNoteIndices, noteIndex)
  }

  /** The pitch classes of a list of names, undefined names giving -1. */
  function IndicesOf(notes: seq<Option<string>>): (r: seq<int>)
    ensures |r| == |notes|
    ensures forall k :: 0 <= k < |notes| ==> -1 <= r[k] < 12
  {
    seq(|notes|, k requires 0 <= k < |notes| => NoteIndexOf(notes[k]))
  }

  /** The pitch classes of a scale's notes. */
  function ScaleNoteIndices(rootNote: string, scaleType: string): (r: seq<int>)
    ensures |r| == |ScaleNotes(rootNote, scaleType)|
  {
    IndicesOf(ScaleNotes(rootNote, scaleType))
  }

  /** The rows of the fretboard for given scale pitch classes. */
  function FretboardGrid(tuning: seq<string>, rootNote: string, indices: seq<int>, width: nat): (grid: seq<seq<FretboardNote>>)
    ensures |grid| == |tuning|
    ensures forall s :: 0 <= s < |grid| ==> |grid[s]| == width
    ensures forall s, fret :: 0 <= s < |grid| && 0 <= fret < width ==>
      grid[s][fret] == FretboardCell(tuning[s], fret, rootNote, indices)
  {
    seq(|tuning|, s requires 0 <= s < |tuning| =>
      seq(width, fret requires 0 <= fret < width => FretboardCell(tuning[s], fret, rootNote, indices)))
  }

  /** calculateFretboardNotes: one row per open string, one cell per fret 0..maxFrets
      (a negative fret count gives empty rows). */
  function FretboardNotes(tuning: seq<string>, rootNote: string, scaleType: string, maxFrets: int): (grid: seq<seq<FretboardNote>>)
    ensures |grid| == |tuning|
    ensures forall s :: 0 <= s < |grid| ==> |grid[s]| == (if maxFrets + 1 > 0 then maxFrets + 1 else 0)
    ensures forall s, fret :: 0 <= s < |grid| && 0 <= fret < |grid[s]| ==>
      grid[s][fret] == FretboardCell(tuning[s], fret, rootNote, ScaleNoteIndices(rootNote, scaleType))
  {
    FretboardGrid(tuning, rootNote, ScaleNoteIndices(rootNote, scaleType), if maxFrets + 1 > 0 then maxFrets + 1 else 0)
  }

  /** From a recognised root, the pitch class of a transposed name is the root
      index plus the interval, modulo an octave. */
  lemma IndexOfNoteFrom(idx: int, ivs: seq<int>, k: int)
    requires 0 <= idx < 12 && 0 <= k < |ivs| && 0 <= ivs[k]
    ensures IndicesOf(NotesFrom(idx, ivs))[k] == Mod12(idx + ivs[k])
  {
    var p := Mod12(idx + ivs[k]);
    NotesFromMeaning(idx, ivs, k);
    NoteIndexRoundTrip(p);
  }

  /** For a recognised root and a known scale, scale note indices are the root
      transposed by each interval. */
  lemma ScaleNoteIndicesMeaning(rootNote: string, scaleType: string, sc: Scale)
    requires NoteIndex(rootNote) >= 0 && FindScale(scaleType) == Some(sc)
    ensures |ScaleNoteIndices(rootNote, scaleType)| == |sc.intervals|
    ensures forall k :: 0 <= k < |sc.intervals| ==> 0 <= sc.intervals[k] && ScaleNoteIndices(rootNote, scaleType)[k] == Mod12(NoteIndex(rootNote) + sc.intervals[k])
  {
    var idx := NoteIndex(rootNote);
    ScaleNotesOfKnown(rootNote, scaleType, sc);
    var r := ScaleNoteIndices(rootNote, scaleType);
    var t := IndicesOf(NotesFrom(idx, sc.intervals));
    assert r == t;
    forall k | 0 <= k < |sc.intervals| ensures 0 <= sc.intervals[k] && r[k] == Mod12(idx + sc.intervals[k]) {
      IndexOfNoteFrom(idx, sc.intervals, k);
    }
  }

  /** A cell for a recognised open-string name: its pitch class, name, scale
      membership, root flag and interval label. */
  lemma FretboardCellFacts(openNote: string, fret: int, rootNote: string, indices: seq<int>)
    requires NoteIndex(openNote) >= 0 && 0 <= fret
    ensures var cell := FretboardCell(openNote, fret, rootNote, indices);
            var pc := Mod12(NoteIndex(openNote) + fret);
            && cell.noteIndex == pc
            && cell.note == Some(NOTES[pc])
            && (cell.isInScale <==> pc in indices)
            && (cell.isRoot <==> NOTES[pc] == rootNote)
            && cell.interval == INTERVAL_NAMES[SemitonesAbove(NoteIndex(rootNote), pc)]
  {
    var o := NoteIndex(openNote);
    var pc := Mod12(o + fret);
    var cell := FretboardCell(openNote, fret, rootNote, indices);
    assert cell.noteIndex == pc;
    assert cell.note == NoteAtIndex(pc) == Some(NOTES[pc]);
    IntervalOfName(rootNote, pc);
  }

  /** For a recognised root and a known scale, a pitch class is among the scale
      note indices exactly when it is the root transposed by one of the intervals. */
  lemma InScaleMeaning(rootNote: string, scaleType: string, sc: Scale, pc: int)
    requires NoteIndex(rootNote) >= 0 && FindScale(scaleType) == Some(sc)
    ensures pc in ScaleNoteIndices(rootNote, scaleType) <==>
      exists k :: 0 <= k < |sc.intervals| && 0 <= sc.intervals[k] && Mod12(NoteIndex(rootNote) + sc.intervals[k]) == pc
  {
    ScaleNoteIndicesMeaning(rootNote, scaleType, sc);
    TransposedMember(ScaleNoteIndices(rootNote, scaleType), NoteIndex(rootNote), sc.intervals, pc);
  }

  /** A list of transposed pitch classes holds exactly the transpositions. */
  lemma TransposedMember(indices: seq<int>, r: int, ivs: seq<int>, pc: int)
    requires 0 <= r && |indices| == |ivs|
    requires forall k :: 0 <= k < |ivs| ==> 0 <= ivs[k] && indices[k] == Mod12(r + ivs[k])
    ensures pc in indices <==> exists k :: 0 <= k < |ivs| && 0 <= ivs[k] && Mod12(r + ivs[k]) == pc
  {
    if pc in indices {
      var k :| 0 <= k < |indices| && indices[k] == pc;
      assert Mod12(r + ivs[k]) == pc;
    }
  }

  /** For recognised open-string and root names and a known scale, a cell holds
      the pitch class fret semitones above the open string, it is in the scale
      exactly when that pitch class is root + some scale interval, it is the
      root exactly when its name is the root name, and its interval label is
      the degree of that pitch class above the root. */
  lemma FretboardCellMeaning(tuning: seq<string>, rootNote: string, scaleType: string, sc: Scale, maxFrets: int, s: int, fret: int)
    requires 0 <= s < |tuning| && 0 <= fret <= maxFrets
    requires NoteIndex(tuning[s]) >= 0 && NoteIndex(rootNote) >= 0 && FindScale(scaleType) == Some(sc)
    ensures var cell := FretboardNotes(tuning, rootNote, scaleType, maxFrets)[s][fret];
            var pc := Mod12(NoteIndex(tuning[s]) + fret);
            && cell.noteIndex == pc
            && cell.note == Some(NOTES[pc])
            && (cell.isInScale <==> exists k :: 0 <= k < |sc.intervals| && 0 <= sc.intervals[k] && Mod12(NoteIndex(rootNote) + sc.intervals[k]) == pc)
            && (cell.isRoot <==> NOTES[pc] == rootNote)
            && cell.interval == INTERVAL_NAMES[SemitonesAbove(NoteIndex(rootNote), pc)]
  {
    var indices := ScaleNoteIndices(rootNote, scaleType);
    var cell := FretboardNotes(tuning, rootNote, scaleType, maxFrets)[s][fret];
    assert cell == FretboardCell(tuning[s], fret, rootNote, indices);
    FretboardCellFacts(tuning[s], fret, rootNote, indices);
    InScaleMeaning(rootNote, scaleType, sc, Mod12(NoteIndex(tuning[s]) + fret));
  }

  datatype ScaleInfo = ScaleInfo(name: string, notes: seq<Option<string>>, pattern: string)

  /** getScaleInfo: display name, notes and step pattern of a scale, or empty fields for an unknown one. */
  function GetScaleInfo(rootNote: string, scaleType: string): (info: ScaleInfo)
    ensures FindScale(scaleType).None? ==> info == ScaleInfo("", [], "")
    ensures FindScale(scaleType).Some? ==>
      && info.name == rootNote + " " + FindScale(scaleType).value.name
      && info.pattern == FindScale(scaleType).value.pattern
      && info.notes == ScaleNotes(rootNote, scaleType)
  {
    match FindScale(scaleType)
    case None => ScaleInfo("", [], "")
    case Some(scale) => ScaleInfo(rootNote + " " + scale.name, ScaleNotes(rootNote, scaleType), scale.pattern)
  }
}
