# Fret-Magic core, modelled in Dafny

Fret-Magic is a guitar-theory web application. It draws scales on a
fretboard, builds the triads of a scale with chord diagrams, turns
roman-numeral progressions into chords, lets the user retune the strings,
and generates arpeggios (timed tab events plus an ASCII tab) behind an HTTP
endpoint. This project models the computational core of that application,
all of it integer-centred, sequential and deterministic:

- **Pitch-class and scale layer** (`MusicTheory`, `music_theory.dfy`).
  - The twelve sharp-spelled note names and the static scale table.
  - Note validation, flat-to-sharp normalisation, and note index and name conversion.
  - Scale notes, interval labels, the fretboard grid and the scale info record.
- **Diatonic chords** (`Chords`, `ChordShapes`, `ChordProgressions`).
  - Triads on every scale degree, with quality names and one or two shapes each.
  - Shape transposition and ordinal suffixes.
  - The pad/truncate step that fits a fingering to the number of strings.
  - Roman-numeral progressions, the triad notes of a chord symbol, and single numeral-to-chord conversion.
- **Arpeggio generator** (`ChordParser`, `ArpeggioSequences`, `FretMapper`, `AsciiTab`, `Arpeggio`).
  - The chord-symbol parser and the cyclic pitch-class and string sequences.
  - The greedy fret mapper and the finger estimate.
  - The six-row ASCII tab writer and the event assembly.
- **Small supporting cores.**
  - `StepPattern`: step pattern to intervals.
  - `CustomTuning`: the custom-tuning editor, a class whose methods update its tuning.
  - `GuitarData`: the tuning preset table.
  - `Routes`: the validation and defaulting chain of the arpeggio endpoint, as a pure function.
- `Js`: the JavaScript primitives the code relies on.
  - Truncating `%`, `indexOf`, `includes`, `split`/`join`, case mapping (ASCII, and Latin-1 for lower case), `String(n)`, `Math.ceil`, `slice`.

Modelling choices:

- JavaScript's `%` truncates toward zero, so an unknown note (index -1) gives a -1 pitch class or an undefined name. The model writes this out with `Rem12` and `Option`.
- Costs of the fret mapper are exact multiples of 0.1, so they are kept as integers scaled by ten.
- Times are exact `real`s.
- Request fields are a small `Value` datatype that mirrors the JavaScript values the handler can see.
- Operations that loop or mutate in the source are methods.
  - Each is proved equal to a specification function, and the properties are lemmas about that function.
  - Parsing, sequence building, mapping, tab painting, pattern conversion, chord generation, progressions, the fingering fit and the tuning editor are all like this.
- The tuning editor is a class whose fields the methods update.

Behaviour of the source that the model keeps:

- A minor or diminished chord on a root that has only major shapes stored shows those major shapes (`Chords.MinorChordMayGetMajorShape`).
- `romanNumeralToChord` differs from `generateChordProgression` in three ways:
  - It marks "vii" minor rather than diminished.
  - It looks scale types up in the music-theory table, which has no "major".
  - Past the end of a short scale it yields "undefined" plus a suffix.
- The chord parser's minor and dominant marks only count at the start of a word. So "Am7" is a major triad with a minor seventh, and "C7" is a plain major triad.
- The parser's degree-sign test can never match.
- The updown pattern is mapped with the sweep string order, one forced string per note.

## Model

| member | source | states |
|---|---|---|
| Js.Rem12 | shared/arpeggio.ts:103 | JavaScript's truncating `% 12`: equals the Euclidean remainder for a non-negative operand, keeps the sign of a negative one (so -1 stays -1) and lies in (-12, 12) |
| Js.IndexOf | client/src/lib/music-theory.ts:111 | `indexOf`: -1 exactly when the value is absent, otherwise the position of its first occurrence |
| Js.IncludesMeaning | client/src/lib/chords.ts:556-558 | `includes` holds exactly when the text occurs at some position |
| Js.SplitJoin | client/src/components/chord-shapes.tsx:10 | `split` of a text at a separator, joined back with that separator, gives the text again |
| Js.JoinSplit | shared/arpeggio.ts:200-201 | joining separator-free lines and splitting the result gives back the lines |
| Js.DigitsValueOfNatToString | client/src/lib/chords.ts:271-272 | `String(n)` is a run of digits that `parseInt` reads back as n |
| MusicTheory.FindScale | client/src/lib/music-theory.ts:3-82 | `SCALES[scaleType]` is defined exactly for the thirteen keys of the table, and then it is the entry stored under that key |
| MusicTheory.LookupFirst | client/src/lib/music-theory.ts:3-82 | a keyed lookup returns the first entry with that key |
| MusicTheory.ScalesWellFormed | client/src/lib/music-theory.ts:3-82 | every scale's intervals start at 0, strictly increase and stay below 12 |
| MusicTheory.FoundScaleWellFormed | client/src/lib/music-theory.ts:119-120 | the intervals of any scale found by key are well formed |
| MusicTheory.ScalePatternsMatch | client/src/lib/music-theory.ts:3-82 | every scale's pattern has one step per interval, and step k (W=2, H=1, WH=3) is the distance from interval k to interval k+1, the last step closing the octave |
| MusicTheory.PatternSumsToOctave | client/src/lib/music-theory.ts:3-82 | the steps of every matching pattern add up to 12 semitones |
| MusicTheory.ValidateNote | client/src/lib/music-theory.ts:92-95 | validateNote accepts exactly the empty string and the names whose upper-case form has a chromatic index (getNoteIndex, lines 97-112) other than "EB" |
| MusicTheory.ValidIsIndexedButEB | client/src/lib/music-theory.ts:92-95 | a name is in validateNote's fixed list exactly when it has a chromatic index and is not "EB" |
| MusicTheory.ValidIsIndexed | client/src/lib/music-theory.ts:92-95 | every listed name normalises to a sharp-spelled note (getNoteIndex, lines 97-112) and none is "EB" |
| MusicTheory.IndexedIsValid | client/src/lib/music-theory.ts:92-95 | every name but "EB" that normalises to a sharp-spelled note is in the list |
| MusicTheory.FlatSpellingsAccepted | client/src/lib/music-theory.ts:92-95 | "ab" and "Gb" are valid |
| MusicTheory.EFlatAndBSharpRefused | client/src/lib/music-theory.ts:92-95 | "Eb" (the list has no "EB") and "B#" are not valid |
| MusicTheory.ValidateIgnoresCase | client/src/lib/music-theory.ts:94 | validation gives the same answer for a name and its upper-case form |
| MusicTheory.ValidateAcceptsNotes | client/src/lib/music-theory.ts:92-95 | every sharp-spelled note name is valid |
| MusicTheory.ValidateExamples | client/src/lib/music-theory.ts:92-95 | the four spellings above together: "ab" and "Gb" valid, "Eb" and "B#" not |
| MusicTheory.NormalizeNote | client/src/lib/music-theory.ts:97-107 | the result is either the name unchanged or a sharp-spelled note name |
| MusicTheory.NormalizeChangesOnlyFlats | client/src/lib/music-theory.ts:98-106 | normalizeNote changes a name exactly when it is one of AB, CB, DB, EB, FB, GB |
| MusicTheory.NormalizeIdempotent | client/src/lib/music-theory.ts:97-107 | normalising twice is the same as normalising once |
| MusicTheory.NoteIndex | client/src/lib/music-theory.ts:109-112 | getNoteIndex lies in [-1, 12); it is -1 exactly when the normalised name is not a note name, and otherwise names the normalised note |
| MusicTheory.NoteIndexRoundTrip | client/src/lib/music-theory.ts:109-112 | getNoteIndex(NOTES[i]) == i for every i in [0, 12) |
| MusicTheory.SameIndexAsSharp | client/src/lib/music-theory.ts:109-112 | a name that normalises to NOTES[p] has index p |
| MusicTheory.FlatIsSemitoneBelow | client/src/lib/music-theory.ts:98-106 | each listed flat has the pitch class one semitone below its letter |
| MusicTheory.UnlistedSpellingsHaveNoIndex | client/src/lib/music-theory.ts:109-112 | "Db", "Bb" and "" have index -1 |
| MusicTheory.NoteAtIndex | client/src/lib/music-theory.ts:114-116 | getNoteAtIndex is NOTES[index mod 12] for a non-negative index, and undefined exactly for a negative index that is not a multiple of 12 |
| MusicTheory.NotesFromMeaning | client/src/lib/music-theory.ts:123-125 | from a known root, name k is the pitch class interval k above it, the root itself for interval 0; from an unknown root (-1) it is undefined for interval 0 and one semitone low otherwise |
| MusicTheory.ScaleNotes | client/src/lib/music-theory.ts:118-126 | getScaleNotes is [] for an unknown scale and has one entry per interval otherwise |
| MusicTheory.ScaleNotesOfKnown | client/src/lib/music-theory.ts:118-126 | a known scale's notes are its intervals transposed from the root's index, and those intervals are well formed |
| MusicTheory.ScaleNotesMeaning | client/src/lib/music-theory.ts:118-126 | for a recognised root note k is NOTES[(root + interval k) mod 12] and note 0 is the normalised root; for an unrecognised root note 0 is undefined and note k > 0 is the name at interval k minus one |
| MusicTheory.IntervalNameInTable | client/src/lib/music-theory.ts:128-149 | for indices in [-1, 11] the label is always one of the twelve table labels |
| MusicTheory.IntervalOfSelf | client/src/lib/music-theory.ts:131-134 | any name, recognised or not, is labelled "R" against itself |
| MusicTheory.IntervalOfName | client/src/lib/music-theory.ts:128-149 | the label of a note name is the table entry for its distance in semitones above the root |
| MusicTheory.SemitonesAbove | client/src/lib/music-theory.ts:131 | the upward distance between two pitch classes lies in [0, 12) |
| MusicTheory.IndicesOf | client/src/lib/music-theory.ts:158 | one index per scale note, each in [-1, 12) |
| MusicTheory.FretboardGrid | client/src/lib/music-theory.ts:160-178 | one row per tuning string, `width` cells per row, cell (s, fret) built from open string s and that fret |
| MusicTheory.FretboardNotes | client/src/lib/music-theory.ts:151-179 | calculateFretboardNotes has one row per tuning string and maxFrets+1 cells per row, each the cell of that string and fret |
| MusicTheory.ScaleNoteIndicesMeaning | client/src/lib/music-theory.ts:157-158 | for a known root and scale, the scale note indices are the root transposed by each interval, mod 12 |
| MusicTheory.FretboardCellFacts | client/src/lib/music-theory.ts:163-176 | a cell's noteIndex is (open index + fret) mod 12, its note is that name, isInScale is membership of that index, isRoot is equality of the name with the root |
| MusicTheory.InScaleMeaning | client/src/lib/music-theory.ts:157-166 | for a known root and scale, a pitch class is among the scale indices exactly when it is the root plus one of the intervals |
| MusicTheory.FretboardCellMeaning | client/src/lib/music-theory.ts:151-179 | each grid cell holds the pitch class fret semitones above its open string; it is in the scale exactly when that pitch class is root + some interval; it is the root exactly when its name equals the root note; its label is that pitch class's degree above the root |
| MusicTheory.GetScaleInfo | client/src/lib/music-theory.ts:181-191 | an unknown scale gives empty name, notes and pattern; a known one gives "root name", the scale notes and the scale's pattern |
| ChordParser.MarkFromMeaning | shared/arpeggio.ts:62-67 | the minor and dominant-seventh scans find a mark exactly when one occurs: an "m" not followed by "aj", or a "7" not followed by a digit, at the start or after a non-letter |
| ChordParser.TriadIntervals | shared/arpeggio.ts:72-81 | the triad contains 0 and stays within the octave |
| ChordParser.SeventhIntervals | shared/arpeggio.ts:83-88 | the seventh's offsets lie in [6, 12) |
| ChordParser.ExtensionIntervals | shared/arpeggio.ts:90-93 | the ninth, eleventh and thirteenth enter reduced into the octave, in [2, 9] |
| ChordParser.ChordIntervalSet | shared/arpeggio.ts:57-94 | the symbol's offsets contain 0 and lie in [0, 12) |
| ChordParser.AscendingFrom | shared/arpeggio.ts:96 | the sort: a strictly increasing list holding exactly the set's members in range, starting with the lowest |
| ChordParser.ChordIntervalsWellFormed | shared/arpeggio.ts:57-97 | every parse starts at 0, strictly increases, stays below 12 and holds exactly the offsets of the symbol |
| ChordParser.ParseChordIntervals | shared/arpeggio.ts:57-97 | parseChordIntervals returns the sorted offsets of the symbol, a well-formed interval list |
| ChordParser.AddIntervals | shared/arpeggio.ts:60-93 | the set built from {0} holds the triad, the seventh and the extensions |
| ChordParser.AddTriad | shared/arpeggio.ts:72-81 | the if-chain adds exactly the triad specified by TriadIntervals; the examples below pin down the order diminished, augmented, minor, major |
| ChordParser.AddSeventh | shared/arpeggio.ts:83-88 | the if-chain adds to the triad exactly the seventh specified by SeventhIntervals; the examples below pin down the order maj7, m7b5, dim7, m7, dominant |
| ChordParser.AddExtensions | shared/arpeggio.ts:90-93 | the three tests add to the chord exactly the extensions specified by ExtensionIntervals |
| ChordParser.Normalize | shared/arpeggio.ts:96 | `((v % 12) + 12) % 12` leaves a set of offsets in [0, 12) unchanged |
| ChordParser.SortPitchClasses | shared/arpeggio.ts:96 | the counting sort returns the set's members in ascending order |
| ChordParser.DegreeSignNeverMatches | shared/arpeggio.ts:61-63 | the capital "Â" of the degree-sign test cannot occur in a lower-cased symbol, so only "dim" makes a chord diminished |
| ChordParser.IncreasingUnique | shared/arpeggio.ts:96 | two strictly increasing lists with the same members are equal, so the parse is determined by its set |
| ChordParser.EmptySymbolIsMajor | shared/arpeggio.ts:60-80 | the empty (or any unrecognised) symbol gives [0, 4, 7] |
| ChordParser.MajorSeventhExample | shared/arpeggio.ts:62-84 | "Gmaj7" gives [0, 4, 7, 11] |
| ChordParser.DiminishedSeventhExample | shared/arpeggio.ts:63-86 | "Cdim7" gives [0, 3, 6, 9] |
| ChordParser.MinorSeventhAfterLetterExample | shared/arpeggio.ts:62-68 | "Am7" gives [0, 4, 7, 10]: an "m" after the root letter is not minor, but "m7" still adds the minor seventh |
| ChordParser.SeventhAfterLetterExample | shared/arpeggio.ts:67 | "C7" gives [0, 4, 7]: a "7" after the root letter is not a dominant seventh |
| ChordParser.HalfDiminishedAfterLetterExample | shared/arpeggio.ts:62-85 | "Am7b5" gives [0, 4, 6, 7, 10] |
| ChordParser.MinorAfterSharpExample | shared/arpeggio.ts:62 | "C#m" gives [0, 3, 7]: after "#" the "m" starts a word |
| ChordParser.NinthExample | shared/arpeggio.ts:91 | "C9" gives [0, 2, 4, 7] |
| ArpeggioSequences.Down | shared/arpeggio.ts:110 | the corrected descent: the inner elements of the order reversed, two shorter than the order |
| ArpeggioSequences.DownAsWritten | shared/arpeggio.ts:110 | the descent as written: element i is order[n-3-i], two shorter than the order |
| ArpeggioSequences.RootedOrder | shared/arpeggio.ts:103 | one entry per interval; for a non-negative sum root + interval the entry is its pitch class in [0, 12) (congruent to it mod 12), for a negative sum (root index -1) it lies in (-12, 0] |
| ArpeggioSequences.RemainderCongruent | shared/arpeggio.ts:103 | the truncating remainder of a non-negative number by 12 lies in [0, 12) and differs from it by a multiple of 12 |
| ArpeggioSequences.Cycle | shared/arpeggio.ts:107-115 | the cycle as written is at least as long as the order and holds exactly the order's pitch classes, for every pattern (updown uses the descent `order.slice(0, -1).reverse().slice(1)`) |
| ArpeggioSequences.CycleIntended | shared/arpeggio.ts:107-115 | the cycle with the corrected descent of Findings: again at least as long as the order and holding exactly its pitch classes |
| ArpeggioSequences.BuildArpeggioPitchClasses | shared/arpeggio.ts:99-117 | buildArpeggioPitchClasses returns the arrangement, with the source's own updown descent, of the parsed chord over the root's index |
| ArpeggioSequences.Arrange | shared/arpeggio.ts:103-116 | the loop concatenates the cycle as written (updown: order then `order.slice(0, -1).reverse().slice(1)`) `ceil(length/n)+1` times and cuts to length |
| ArpeggioSequences.ArrangedMeaning | shared/arpeggio.ts:106-116 | for length >= 0 the result has exactly floor(length) elements, element i being the cycle element at i mod the cycle length |
| ArpeggioSequences.AscendingElements | shared/arpeggio.ts:103-116 | ascending (and any other pattern but descending and updown): element i is (root + ivls[i mod n]) with JavaScript's remainder |
| ArpeggioSequences.DescendingElements | shared/arpeggio.ts:107 | descending: element i is (root + ivls[n-1-(i mod n)]) |
| ArpeggioSequences.UpDownElements | shared/arpeggio.ts:108-112 | updown as written: with j = i mod the cycle length (2n-2 notes, n for one note), element i is (root + ivls[j]) for j < n and (root + ivls[2n-3-j]) after |
| ArpeggioSequences.UpDownCycleAsWritten | shared/arpeggio.ts:108-111 | the source's updown cycle has 2n-2 entries (n for one note): entry j is order[j] for j < n and order[2n-3-j] after |
| ArpeggioSequences.UpDownCycle | shared/arpeggio.ts:108-111 | the corrected updown cycle (CycleIntended) has 2n-2 entries (n for one note), entry j being the order at its up-down position |
| ArpeggioSequences.UpDownMovesByOne | shared/arpeggio.ts:108-111 | the corrected cycle moves exactly one position at every step, including the wrap back to its start |
| ArpeggioSequences.UpDownAsWrittenRepeatsBottom | shared/arpeggio.ts:110-111 | the cycle as written, for three or more notes, ends on its first note, and its descent skips the note below the top |
| ArpeggioSequences.UpDownAsWrittenExample | shared/arpeggio.ts:110-111 | for [0, 4, 7] the cycle as written is [0, 4, 7, 0]; corrected it is [0, 4, 7, 4] |
| ArpeggioSequences.RootedOrderRange | shared/arpeggio.ts:103 | for a root index in [-1, 12) and intervals in [0, 12), every entry of the rooted order lies in [-1, 12), and in [0, 12) for a known root |
| ArpeggioSequences.ArrangedRange | shared/arpeggio.ts:103 | every pitch class lies in [0, 12) for a known root and in [-1, 12) for the root index -1 |
| ArpeggioSequences.PitchClassesMeaning | shared/arpeggio.ts:99-117 | the pitch-class sequence has floor(length) entries, each in [0, 12) for a known root and at worst -1 otherwise |
| ArpeggioSequences.BuildStringTraversal | shared/arpeggio.ts:129-137 | buildStringTraversal concatenates the 5..0..5 cycle and cuts to length |
| ArpeggioSequences.StringTraversalMeaning | shared/arpeggio.ts:129-137 | floor(length) string indices, index i being [5,4,3,2,1,0,1,2,3,4,5][i mod 11], each in [0, 6) |
| FretMapper.PositionRange | shared/arpeggio.ts:119-127 | every position's window lies within [0, 15], has min <= max and spans at least four frets |
| FretMapper.FallbackRange | shared/arpeggio.ts:164 | the fallback window is [max(0, min-2), min(18, max+2)] and contains the position's window |
| FretMapper.ChooseMeaning | shared/arpeggio.ts:156-169 | the running best is absent exactly when there is no candidate, and otherwise is the first of the cheapest candidates (a later one replaces it only when strictly cheaper) |
| FretMapper.ChooseIsCheapest | shared/arpeggio.ts:156 | the choice is a candidate no dearer than any other candidate |
| FretMapper.FretCandsMeaning | shared/arpeggio.ts:151-157 | the candidates of one string are exactly its window frets that sound the pitch class, in ascending fret order, each priced by the cost formula |
| FretMapper.WindowCandsMeaning | shared/arpeggio.ts:148-158 | the candidates of a window are exactly the matching frets on the allowed strings |
| FretMapper.StringsFor | shared/arpeggio.ts:148 | a note may use all six strings, or the single string the string order names at its step |
| FretMapper.BestPickMeaning | shared/arpeggio.ts:145-172 | the pick lies on an allowed string, sounds the pitch class with midi == open string + fret, and lies in the fallback window; it is absent only when no fallback fret matches; when the position window has a match the pick is in that window and no matching fret there is cheaper |
| FretMapper.Cover | shared/arpeggio.ts:39 | every pitch class sounds within the first four frets above some open string of standard tuning |
| FretMapper.WindowCovers | shared/arpeggio.ts:151-157 | any four consecutive frets of the six strings hold every pitch class |
| FretMapper.AllStringsPick | shared/arpeggio.ts:148-158 | with all six strings and a window of at least four frets, every pitch class gets a pick in the window |
| FretMapper.StepMeaning | shared/arpeggio.ts:173-177 | one note keeps every placement sound and in the fallback window, and either places that note's pitch class or drops it |
| FretMapper.StepPlaces | shared/arpeggio.ts:145-177 | with all six strings a note of a known pitch class is always placed |
| FretMapper.SubsequenceLength | shared/arpeggio.ts:145-179 | a subsequence is no longer than its source |
| FretMapper.MapPrefixSound | shared/arpeggio.ts:145-179 | after any number of notes, every placement has midi == OPEN_STRING_MIDI[string] + fret, its midi mod 12 is its pitch class, and its fret is in the fallback window |
| FretMapper.MapPrefixSubsequence | shared/arpeggio.ts:145-179 | the placed pitch classes are the input's, in order, some possibly left out, so the output is no longer than the input |
| FretMapper.MapPrefixComplete | shared/arpeggio.ts:145-179 | without a string order, every note of a known pitch class is placed: the placed pitch classes are exactly the input |
| FretMapper.ScanString | shared/arpeggio.ts:151-157 | the fret loop over one string continues the running best over that string's candidates |
| FretMapper.ScanWindow | shared/arpeggio.ts:149-158 | the string loop yields the first cheapest candidate of the window |
| FretMapper.PickNote | shared/arpeggio.ts:147-172 | the window scan, then the fallback scan without the octave term when the window gave nothing |
| FretMapper.MapToFretboard | shared/arpeggio.ts:139-180 | mapToFretboard's loop, starting from prevFret at the window's middle and octave bias 3, equals the note-by-note mapping the lemmas above describe |
| AsciiTab.Round | shared/arpeggio.ts:195 | `Math.round` is within half of its argument, halves rounding up |
| AsciiTab.GridWidth | shared/arpeggio.ts:192 | each row has `steps * 2 + 1` cells |
| AsciiTab.Put | shared/arpeggio.ts:197-198 | writing a cell sets that cell (growing the row past its end, as a JavaScript array does) and leaves every other cell alone; a negative column changes nothing |
| AsciiTab.PutDigits | shared/arpeggio.ts:196-198 | the first digit goes to the column, a second only to the next column, nothing else changes |
| AsciiTab.Paint | shared/arpeggio.ts:193-199 | an event writes only into row 6 - string |
| AsciiTab.PaintEvent | shared/arpeggio.ts:194-198 | one iteration of the event loop paints that event |
| AsciiTab.RenderAsciiTab | shared/arpeggio.ts:189-202 | renderAsciiTab returns the six labelled lines of the grid painted with every event, joined by newlines |
| AsciiTab.PaintAllKeeps | shared/arpeggio.ts:192-199 | rows only grow, and a cell no event touches keeps its value |
| AsciiTab.PaintAllWrites | shared/arpeggio.ts:197 | an event's first digit stands in its cell unless a later event writes the same cell |
| AsciiTab.PaintAllShape | shared/arpeggio.ts:192-199 | when every write lands inside the grid, each row keeps its width and holds single characters |
| AsciiTab.TabLine | shared/arpeggio.ts:200 | each line is its label, "\|", one character per cell, "\|", and untouched cells show "-" |
| AsciiTab.TabMeaning | shared/arpeggio.ts:189-202 | the tab is six lines labelled e, B, G, D, A, E, each `label|` plus 2*steps+1 cells plus `|`, untouched cells being "-" |
| AsciiTab.TabSplits | shared/arpeggio.ts:200-201 | splitting the tab at newlines gives back exactly its six lines |
| Arpeggio.EstimateFinger | shared/arpeggio.ts:182-187 | estimateFinger is 0 exactly for fret 0, and otherwise clamp(fret - min + 1, 1, 4) |
| Arpeggio.MidiToNoteNameMeaning | shared/arpeggio.ts:51-55 | from MIDI 12 up the name is NOTES[midi mod 12] followed by the octave midi/12 - 1, and name and octave give back the MIDI number |
| Arpeggio.StepSeconds | shared/arpeggio.ts:209-210 | seconds per step times tempo times subdivision is 60 |
| Arpeggio.MappedOfMeaning | shared/arpeggio.ts:205-208 | the placements behind the events are sound, inside the fallback window, and no more than floor(length) |
| Arpeggio.EventsMeaning | shared/arpeggio.ts:211-217 | one event per placement, in order: event i starts at i steps, lasts 0.9 steps, has string = placement index + 1, the placement's fret, the MIDI note's name and the finger estimate |
| Arpeggio.GenerateArpeggioMeaning | shared/arpeggio.ts:204-224 | the meta block echoes the input; there are at most floor(length) events; event i is made from placement i and that placement is sound |
| Arpeggio.GenerateArpeggioComplete | shared/arpeggio.ts:204-208 | for a known key and a pattern other than sweep and updown, no note is dropped: exactly floor(length) events sounding the pattern's pitch classes in order |
| Arpeggio.StepsTab | shared/arpeggio.ts:193-199 | events on consecutive steps each write their first fret digit at cell 2i of their string's row, inside the grid |
| Arpeggio.GenerateArpeggioTab | shared/arpeggio.ts:218 | the ascii text is the tab of the generated events, and each event shows at cell 2i of its row |
| Arpeggio.StepColumn | shared/arpeggio.ts:195 | the event at time i * sps lands in column 2i |
| StepPattern.IntervalsOf | client/src/components/chord-shapes.tsx:9-27 | one offset per token, starting with 0 |
| StepPattern.PatternToIntervals | client/src/components/chord-shapes.tsx:9-27 | patternToIntervals returns as many offsets as there are '-'-separated tokens: 0, then the running total of the step sizes of all but the last token |
| StepPattern.TotalStep | client/src/components/chord-shapes.tsx:16-23 | each token adds 2 for W, 1 for H, 3 for WH and 0 otherwise to the running total |
| StepPattern.IntervalsNonDecreasing | client/src/components/chord-shapes.tsx:12-23 | the offsets never decrease |
| StepPattern.UnknownStepAddsNothing | client/src/components/chord-shapes.tsx:16-22 | a token other than W, H and WH adds nothing |
| StepPattern.LastTokenIgnored | client/src/components/chord-shapes.tsx:14 | the last token never contributes: replacing it changes nothing |
| StepPattern.SpelledIntervalsReproduced | client/src/components/chord-shapes.tsx:9-27 | a step list that spells an interval list starting at 0 converts back to that list |
| StepPattern.ScalePatternsReproduceIntervals | client/src/components/chord-shapes.tsx:47-50 | for every scale of the table, converting its pattern gives back its intervals |
| CustomTuning.ChromaticIsNotes | client/src/components/custom-tuning.tsx:14 | the editor's chromatic table is the note table of the music core |
| CustomTuning.StandardFor | client/src/components/custom-tuning.tsx:17-29 | the starting tuning has 6, 7 or 8 names for those guitar types and the 6-string tuning otherwise, each name chromatic |
| CustomTuning.StandardIsDefault | client/src/components/custom-tuning.tsx:17-21 | the editor's standard tunings agree with getDefaultTuningForGuitarType (guitar-data.ts lines 58-67) for every guitar type |
| CustomTuning.NextName | client/src/components/custom-tuning.tsx:35-37 | a step up gives a chromatic name, "C" after "B" and "C" for a name outside the table |
| CustomTuning.PrevName | client/src/components/custom-tuning.tsx:50-52 | a step down gives a chromatic name, "B" before "C" and "A#" for a name outside the table |
| CustomTuning.NextOfChromatic | client/src/components/custom-tuning.tsx:35-37 | up moves each chromatic name to its successor, wrapping B to C |
| CustomTuning.PrevOfChromatic | client/src/components/custom-tuning.tsx:50-52 | down moves each chromatic name to its predecessor, wrapping C to B |
| CustomTuning.UpDownInverse | client/src/components/custom-tuning.tsx:35-51 | for a chromatic name, up then down and down then up both restore it |
| CustomTuning.SlotUpDownRestores | client/src/components/custom-tuning.tsx:39-55 | raising and then lowering one slot of a chromatic tuning restores the tuning |
| CustomTuning.TuningEditor.constructor | client/src/components/custom-tuning.tsx:24-31 | mounting starts the copy as the standard tuning for the guitar type |
| CustomTuning.TuningEditor.ChangeGuitarType | client/src/components/custom-tuning.tsx:28-31 | a new guitar type re-initialises the copy to its standard tuning and leaves the parent's tuning alone |
| CustomTuning.TuningEditor.MoveNoteUp | client/src/components/custom-tuning.tsx:33-46 | slot stringIndex becomes the next name ("C" for a name outside the table); the length and every other slot stay; the parent receives the new tuning; a tuning of table names stays one |
| CustomTuning.TuningEditor.MoveNoteDown | client/src/components/custom-tuning.tsx:48-61 | slot stringIndex becomes the previous name ("A#" for a name outside the table); the length and every other slot stay; the parent receives the new tuning; a tuning of table names stays one |
| CustomTuning.TuningEditor.ResetToStandard | client/src/components/custom-tuning.tsx:74-78 | both the copy and the parent's tuning become the standard tuning for the guitar type |
| CustomTuning.UpThenDown | client/src/components/custom-tuning.tsx:33-61 | raising and then lowering the same string restores the editor's tuning |
| GuitarData.PresetsWellFormed | client/src/lib/guitar-data.ts:1-56 | every preset's tuning has as many names as its strings field, each a note name |
| GuitarData.PresetNotesHaveIndex | client/src/lib/guitar-data.ts:6-55 | every preset note has a pitch class (getNoteIndex >= 0) and is that pitch class's name |
| GuitarData.PresetById | client/src/lib/guitar-data.ts:1-56 | a preset is found exactly for the ids of the table, and it is well formed |
| GuitarData.PresetFirst | client/src/lib/guitar-data.ts:1-56 | the lookup of a table id returns the preset stored under it |
| GuitarData.DefaultTuningForGuitarType | client/src/lib/guitar-data.ts:58-67 | the default tuning has 7 or 8 names for 7 or 8 strings and 6 otherwise, each a note name |
| GuitarData.DefaultTuningIsStandardPreset | client/src/lib/guitar-data.ts:58-67 | the default is the tuning of preset standard-7 for 7, standard-8 for 8 and standard-6 for anything else |
| Routes.ToFiniteNumber | server/routes.ts:25-30 | `Number(v)` kept only when finite: numbers as they are, "" null and false as 0, true as 1, undefined and objects not finite; the empty array 0, an array of one number or string as that element, an array of one boolean or of two or more elements not finite |
| Routes.SingletonArrayLengthServed | server/routes.ts:25-28 | a length of [16] with a key and chord is served as length 16 |
| Routes.PairArrayLengthRefused | server/routes.ts:25-28 | a length of [1, 2] is refused as "invalid length" |
| Routes.InputOf | server/routes.ts:32-33 | the generator receives the key and chord strings, pattern and position unchanged (defaulted), and the coerced numbers |
| Routes.Handle | server/routes.ts:16-34 | the first failing check answers, in the order key, chord, length, tempo, subdivision, each failing exactly when its own test fails and every earlier one passes; no other error arises |
| Routes.HandleSuccess | server/routes.ts:23-34 | a request succeeds exactly when every check passes, and then length is in [1, 128], tempo in [30, 300], subdivision in [1, 8], and the result is the generated arpeggio |
| Routes.SuccessBounded | server/routes.ts:32-34 | a successful response echoes the request in its meta block and holds at most 128 events |
| Routes.DefaultsApply | server/routes.ts:20 | with only key and chord, the defaults ascending, low, 16, 120 and 2 apply |
| Routes.EmptyBodyRefused | server/routes.ts:18-23 | a missing body is refused with "key is required" |
| Routes.NullLengthRefused | server/routes.ts:20-28 | a null length takes no default, reads as 0 and is refused as an invalid length |
| Chords.ChromaticIsNotes | client/src/lib/chords.ts:265 | the chord module's chromatic table is the note table of the music core |
| Chords.ChromaticDistinct | client/src/lib/chords.ts:265 | `indexOf` finds every chromatic name at its own position |
| Chords.NthIsIndex | client/src/lib/chords.ts:313-314 | reading a scale note by degree gives that entry of the list |
| Chords.NameAboveIndex | client/src/lib/chords.ts:298-300 | the name k semitones above root r has pitch class (r + k) mod 12 |
| Chords.Below | client/src/lib/chords.ts:316-317 | the interval from one pitch class up to another is below 12 |
| Chords.BelowReaches | client/src/lib/chords.ts:316-317 | going that interval up from the lower note reaches the upper one |
| Chords.DistanceOfOffsets | client/src/lib/chords.ts:298-317 | the interval between two notes of a scale does not depend on the root: it is the difference of their offsets mod 12 |
| Chords.TriadIntervals | client/src/lib/chords.ts:561-569 | three offsets starting at 0 and increasing; the third is minor exactly for minor and diminished chords, the fifth perfect exactly for major and minor ones |
| Chords.NamesAbove | client/src/lib/chords.ts:298-300 | one name per interval |
| Chords.NamesAboveIndex | client/src/lib/chords.ts:298-300 | name k has pitch class (root + interval k) mod 12 |
| Chords.ChordNotes | client/src/lib/chords.ts:551-574 | getChordNotes is [] exactly when the root is not chromatic, and three notes otherwise |
| Chords.ChordNotePitch | client/src/lib/chords.ts:551-574 | note k is the root raised by interval k of the triad the symbol selects; note 0 is the root itself |
| Chords.MajSymbolIsMajor | client/src/lib/chords.ts:556 | "maj" cancels the minor mark ("Cmaj7" is major) while "Cm" is minor |
| Chords.FirstTwo | client/src/lib/chords.ts:359 | `slice(0, 2)`: a prefix of length min(2, length) |
| Chords.ReferenceShapes | client/src/lib/chords.ts:343 | the reference for transposition is the one A minor shape or the two C major shapes |
| Chords.ChordsUpTo | client/src/lib/chords.ts:305-362 | one chord per degree visited |
| Chords.Built | client/src/lib/chords.ts:305 | a list built per degree has one entry per degree |
| Chords.BuiltAt | client/src/lib/chords.ts:305 | its entry d is the value for degree d |
| Chords.ChordsForScale | client/src/lib/chords.ts:294-364 | generateChordsForScale is [] for a root outside the chromatic table and otherwise has one chord per scale interval |
| Chords.ChordsUpToAt | client/src/lib/chords.ts:305-362 | chord d of the loop is the chord built on degree d |
| Chords.ChordOfScaleDegree | client/src/lib/chords.ts:294-364 | chord d of the result is the chord built on degree d of the scale |
| Chords.DegreeChordRoot | client/src/lib/chords.ts:307 | the chord on degree d has the root raised by interval d as its root note |
| Chords.DegreeChordIntervals | client/src/lib/chords.ts:310-319 | its intervals are 0 and the distances from degree d up to degrees (d+2) mod n and (d+4) mod n |
| Chords.ScaleNoteDistance | client/src/lib/chords.ts:316-317 | the distance between two scale notes is the distance between their offsets, whatever the root |
| Chords.DegreeChordName | client/src/lib/chords.ts:321-327 | the chord name is the root plus "°" when third and fifth are 3 and 6, plus "m" when only the third is 3, and bare otherwise |
| Chords.TriadNameSuffix | client/src/lib/chords.ts:321-327 | the naming rule, stated once for any root, third and fifth |
| Chords.DegreeChordHasShapes | client/src/lib/chords.ts:330-359 | every chord gets one or two shapes: a stored one or a transposed reference |
| Chords.MajorScaleChordNames | client/src/lib/chords.ts:294-364 | in any major scale the triads are named root, m, m, root, root, m, ° degree by degree |
| Chords.MajorScaleThirds | client/src/lib/chords.ts:310-327 | the thirds and fifths of the major scale's seven degrees give those suffixes |
| Chords.SharpRootTransposesReference | client/src/lib/chords.ts:341-353 | C# major, which has no stored shapes, gets the C major shapes moved up one semitone |
| Chords.MinorRootUsesMinorShape | client/src/lib/chords.ts:334-335 | an A minor triad takes the stored Am shape |
| Chords.MinorChordMayGetMajorShape | client/src/lib/chords.ts:332-338 | a B minor triad on a 6-string takes the stored B major shapes, because MINOR_SHAPES has no "Bm" and BASIC_SHAPES has "B" |
| Chords.GenerateChordsForScale | client/src/lib/chords.ts:294-364 | the forEach loop returns exactly the chord list specified by ChordsForScale |
| Chords.ChordOfDegree | client/src/lib/chords.ts:306-359 | one loop iteration builds the chord on its degree |
| Chords.ShapesForChord | client/src/lib/chords.ts:330-359 | the shape selection (extended, then minor, then basic, then transposed reference, capped at two) equals the specified shapes |
| ChordShapes.OrdinalSuffix | client/src/lib/chords.ts:285-292 | getOrdinalSuffix always returns one of st, nd, rd, th |
| ChordShapes.OrdinalOfNatural | client/src/lib/chords.ts:285-292 | for n >= 0: "th" for 11-13 mod 100, else st, nd, rd for 1, 2, 3 mod 10, else th |
| ChordShapes.OrdinalOfNegative | client/src/lib/chords.ts:285-292 | a negative number always gets "th", because its truncating remainders are never 1, 2 or 3 |
| ChordShapes.OrdinalCentury | client/src/lib/chords.ts:285-292 | the suffix repeats every hundred |
| ChordShapes.DigitsEnd | client/src/lib/chords.ts:270 | `\d+` is greedy: the run of digits from p ends at the first non-digit |
| ChordShapes.OrdinalEndsRun | client/src/lib/chords.ts:270 | a match of `\d+(st\|nd\|rd\|th)` spans the whole digit run |
| ChordShapes.FirstOrdinal | client/src/lib/chords.ts:270 | the match found is the leftmost one, and none is found only when there is none |
| ChordShapes.TransposeName | client/src/lib/chords.ts:270-273 | a name without an ordinal is unchanged |
| ChordShapes.TransposeNameComposes | client/src/lib/chords.ts:270-273 | moving a name up a semitones then b semitones is moving it a + b |
| ChordShapes.TransposeNameByZero | client/src/lib/chords.ts:270-273 | moving a name by 0 keeps it when its ordinal is written canonically |
| ChordShapes.ShiftFret | client/src/lib/chords.ts:274-276 | a string is muted after the shift exactly when it was muted before, and a shift by zero changes nothing |
| ChordShapes.ShiftBarres | client/src/lib/chords.ts:277-280 | absent barres stay absent; each barre moves by the semitones and keeps its other fields |
| ChordShapes.TransposeShape | client/src/lib/chords.ts:267-283 | the name, fingering, barres and base fret move by the semitones; the fingers stay |
| ChordShapes.ShiftFingeringComposes | client/src/lib/chords.ts:274-276 | shifting by a >= 0 then b is shifting by a + b |
| ChordShapes.ShiftBarresComposes | client/src/lib/chords.ts:277-280 | shifting barres by a then b is shifting by a + b |
| ChordShapes.TransposeShapeComposes | client/src/lib/chords.ts:267-283 | transposing a shape by a >= 0 then b is transposing by a + b |
| ChordShapes.FitToStrings | client/src/lib/chords.ts:373-385 | the fingering gets exactly `strings` entries: muted strings and zero fingers are put in front of a short one, and a long one loses its first entries |
| ChordProgressions.DegreeKnown | client/src/lib/chords.ts:467-471 | a numeral has a degree exactly when it is a key of the numeral table |
| ChordProgressions.DegreeAt | client/src/lib/chords.ts:467-471 | each key of the numeral table maps to its own degree |
| ChordProgressions.ProgressionScale | client/src/lib/chords.ts:488-504 | the progression's scale has seven intervals, and an unlisted scale type falls back to major |
| ChordProgressions.FilterMap | client/src/lib/chords.ts:515-542 | a loop that skips some items is no longer than its input |
| ChordProgressions.ProgressionItems | client/src/lib/chords.ts:515-542 | at most one item per numeral |
| ChordProgressions.Progression | client/src/lib/chords.ts:481-549 | generateChordProgression is [] for a root outside the chromatic table and never longer than the numeral list |
| ChordProgressions.GenerateChordProgression | client/src/lib/chords.ts:481-549 | the for-of loop returns exactly the item list specified by Progression |
| ChordProgressions.ProgressionItemsAppend | client/src/lib/chords.ts:515-542 | the items of two numeral lists are the items of each, in order |
| ChordProgressions.UnknownNumeralSkipped | client/src/lib/chords.ts:516-517 | an unknown numeral contributes nothing, wherever it stands |
| ChordProgressions.KnownNumeralsKept | client/src/lib/chords.ts:515-542 | when every numeral is known there is one item per numeral, item k built from numeral k |
| ChordProgressions.ItemKeepsNumeral | client/src/lib/chords.ts:538 | each item carries its numeral unchanged |
| ChordProgressions.NumeralQuality | client/src/lib/chords.ts:520-521 | a known numeral is minor exactly when it is a lower-case key, and diminished exactly when it is "vii" |
| ChordProgressions.LowerIsMinor | client/src/lib/chords.ts:520 | an all lower-case numeral is minor |
| ChordProgressions.UpperIsMajor | client/src/lib/chords.ts:520 | a numeral with an upper-case letter and no "i" is not minor |
| ChordProgressions.ChromaticNamePlain | client/src/lib/chords.ts:556-558 | no chromatic name contains m, °, dim, + or aug |
| ChordProgressions.SymbolQualityOfName | client/src/lib/chords.ts:556-569 | for such a name, the bare name reads as major, name + "m" as minor and name + "°" as diminished |
| ChordProgressions.ItemTriad | client/src/lib/chords.ts:523-534 | an item's symbol reads back as its quality, and its notes are the root raised by that quality's triad |
| ChordProgressions.ItemQuality | client/src/lib/chords.ts:520-532 | diminished exactly for "vii", minor exactly for the other lower-case numerals, major exactly for the rest |
| ChordProgressions.ProgressionItemAt | client/src/lib/chords.ts:481-549 | with a chromatic root and known numerals, item k is the item for numeral k on the root's scale |
| ChordProgressions.UnknownScaleIsMajor | client/src/lib/chords.ts:504 | an unlisted scale type gives the same progression as "major" |
| ChordProgressions.ItemsIgnoreScaleType | client/src/lib/chords.ts:534 | once the scale notes are fixed, the scale type passed on to getChordNotes changes nothing |
| ChordProgressions.FlatSevenDegree | client/src/lib/chords.ts:468-470 | "bVII" and "VII" are both degree 6 |
| ChordProgressions.FlatSevenIsSeven | client/src/lib/chords.ts:515-541 | "bVII" builds the same chord as "VII": the flat is not applied |
| ChordProgressions.CMajorNotes | client/src/lib/chords.ts:509-511 | the C major scale notes are C D E F G A B |
| ChordProgressions.PopProgressionInC | client/src/lib/chords.ts:481-549 | I V vi IV in C major gives C, G, Am, F |
| ChordProgressions.ProgressionSymbolAt | client/src/lib/chords.ts:519-532 | symbol k is scale note degree(k) plus °, m or nothing by the numeral's quality |
| ChordProgressions.RomanNumeralToChord | client/src/lib/chords.ts:576-608 | romanNumeralToChord is "" for an unknown numeral, an unknown scale type or a root outside the chromatic table |
| ChordProgressions.RomanChordOnScale | client/src/lib/chords.ts:585-603 | otherwise the symbol is built on the scale notes of the music-theory scale |
| ChordProgressions.RomanChordInScale | client/src/lib/chords.ts:585-603 | within the scale it is the note at the degree's interval above the root plus the numeral's suffix |
| ChordProgressions.RomanChordPastScale | client/src/lib/chords.ts:592-603 | past the end of a short scale it is "undefined°", "undefinedm" or undefined |
| ChordProgressions.SeventhSymbolDisagrees | client/src/lib/chords.ts:521 | for "vii" generateChordProgression adds "°", while romanNumeralToChord (lines 593-601) adds "m" |
| ChordProgressions.RomanChordAgreesWithProgression | client/src/lib/chords.ts:576-608 | on a scale both tables hold alike, the two functions give the same symbol for every numeral but "vii" |
| ChordProgressions.IonianInBothTables | client/src/lib/chords.ts:490-492 | the ionian scale is the same in the music-theory table (music-theory.ts lines 4-9) and the progression table |
| ChordProgressions.MajorIsNoScaleType | client/src/lib/chords.ts:581-583 | romanNumeralToChord with scale type "major" is always "", as the music-theory table has no such key |

## Left out

- Rendering, audio and framework code stay outside the model, because they compute nothing the properties are about:
  - SVG and chord-diagram drawing beyond the fingering fit;
  - the React components' markup and state hooks, beyond the tuning editor;
  - the Express plumbing (request parsing, response objects, the status codes' transport).
- Floating point: times, durations and seconds per step are exact `real`s, and fret costs are integers scaled by ten. IEEE rounding is not modelled; all costs are exact multiples of 0.1, so the comparisons come out the same.
- Routes.ToFiniteNumber: `Number()` on strings is reduced to plain digit runs, which read as their decimal value. A request field is a `Value`: absent, null, a boolean, a finite or non-finite number, a string, an array or another object. Any other string is taken as not finite, so a request with "1.5", " 16" or "1e2" (or ["1.5"]) is refused where the server would accept it.
- Prototype properties of object literals are not modelled: keys such as "constructor" or "toString" are treated as absent from ROMAN_NUMERALS, SCALES, the shape tables and normalizeNote's flat-to-sharp map (music-theory.ts lines 98-106). The JavaScript lookups would return the inherited member there.
- MusicTheory.NormalizeNote: for a name such as "constructor" or "toString" the source's `noteMap[note] || note` returns the inherited function, not a string; the model returns the name unchanged, so its "unchanged or sharp-spelled" promise is weaker than the source only in that respect. getNoteIndex (lines 109-112) still gives -1 for such a name, as the model does, since NOTES holds no function.
- Js.ToLower and Js.ToUpper: map only ASCII letters (ToLower also Latin-1 capitals), not the whole Unicode case tables. For example "\u212Am" (KELVIN SIGN then "m") lower-cases to "km" in JavaScript, so the chord parser there does not read it as minor, while the model does; names outside these ranges can likewise validate or parse differently.
- The try/catch paths of generateChordProgression and romanNumeralToChord are not modelled, since nothing in the modelled code throws. In romanNumeralToChord the `require('./music-theory')` becomes a direct use of the scale table.
- The console logging in those catch blocks and the editor's `playStringNote` are I/O and are left out.
- CHORD_PATTERNS and noteNameToMidi are declared in the source but never used by the modelled operations, so they are not modelled.
- The chord-detector module and the note-name formatting imported by the components are not part of this model.
- Arpeggio.GenerateArpeggio: requires a non-zero tempo and subdivision. The endpoint never passes anything else; a direct call with 0 would divide by zero into Infinity.
- AsciiTab.RenderAsciiTab: requires every event string to be in 1..6. In the source another string number indexes a missing row and throws.
- CustomTuning.TuningEditor.MoveNoteUp: requires an index inside the tuning. In the source, an index past the end writes a new slot there, and a negative one sets a property that is not a slot.
- CustomTuning.TuningEditor.MoveNoteDown: requires an index inside the tuning, for the same reason.
- ChordShapes.FitToStrings: requires a non-negative string count, because for a negative count the source's second loop never ends: once the fingering is empty, `shift()` removes nothing and its length 0 stays above the count. The renderer's callers pass the string count of a tuning, which is never negative.
- ChordShapes.TransposeNameComposes: proved only for a first shift a >= 0. A negative first shift can write a "-" before the digits, and the next match then reads different digits.
- ChordShapes.TransposeNameByZero: holds only for a name whose ordinal number is written without leading zeros.
- Chords.GenerateChordsForScale: takes its intervals as natural numbers. The callers pass scale intervals, which are never negative.
- ChordProgressions.IonianInBothTables: agreement between the two scale tables is stated for ionian only. The other modes are checked entry by entry nowhere.

## Findings

| source | as written | input that shows it | evidently intended | confidence | as-written member | corrected member |
|---|---|---|---|---|---|---|
| shared/arpeggio.ts:110 | the updown descent is `order.slice(0, -1).reverse().slice(1)`, which drops the second-highest note and keeps the lowest | C major, pitch classes [0, 4, 7]: the cycle is C E G C, so the next cycle starts C C | the descent through the inner notes, `order.slice(1, -1).reverse()`, giving C E G E and a step of one chord tone at every turn | high, not executed | ArpeggioSequences.UpDownAsWrittenRepeatsBottom | ArpeggioSequences.UpDownMovesByOne |
