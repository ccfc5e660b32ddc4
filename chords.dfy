/** Diatonic chord builders (client/src/lib/chords.ts): the triad on each
    degree of a scale with up to two fingering shapes, the notes of a chord
    symbol, and chord progressions written in roman numerals. */
module Chords {
  import opened Js
  import MusicTheory
  import opened ChordShapes

  /** The chromatic names of chords.ts; index = pitch class. */
  const CHROMATIC_NOTES: seq<string> := ["C", "C#", "D", "D#", "E", "F", "F#", "G", "G#", "A", "A#", "B"]

  lemma ChromaticIsNotes()
    ensures CHROMATIC_NOTES == MusicTheory.NOTES
  {
  }

  /** indexOf finds each chromatic name at its own pitch class. */
  lemma ChromaticDistinct(i: int)
    requires 0 <= i < 12
    ensures IndexOf(CHROMATIC_NOTES, CHROMATIC_NOTES[i]) == i
  {
    ChromaticIsNotes();
    MusicTheory.NotesDistinct();
    MusicTheory.IndexOfDistinct(CHROMATIC_NOTES, i);
  }

  /** The name `k` semitones above pitch class `r` (k >= 0), as the source
      writes it: `CHROMATIC_NOTES[(r + k) % 12]`. */
  function NameAbove(r: nat, k: nat): string
  {
    Nth(CHROMATIC_NOTES, Mod12(r + k))
  }

  /** Element `i` of `s`, found by walking down the list (so that a proof
      about a symbolic position does not split on every element of a
      literal list). */
  function Nth<T>(s: seq<T>, i: nat): T
    requires i < |s|
  {
    if i == 0 then s[0] else Nth(s[1..], i - 1)
  }

  lemma {:induction false} NthIsIndex<T>(s: seq<T>, i: nat)
    requires i < |s|
    ensures Nth(s, i) == s[i]
  {
    if i > 0 {
      NthIsIndex(s[1..], i - 1);
    }
  }

  /** The name k semitones above pitch class r has pitch class r + k,
      reduced to one octave. */
  lemma NameAboveIndex(r: nat, k: nat)
    ensures IndexOf(CHROMATIC_NOTES, NameAbove(r, k)) == Mod12(r + k)
  {
    NthIsIndex(CHROMATIC_NOTES, Mod12(r + k));
    ChromaticDistinct(Mod12(r + k));
  }

  /** How far pitch class `b` lies below pitch class `a`, as the source
      computes it: `(a - b + 12) % 12`. */
  function Below(a: int, b: int): (d: nat)
    requires 0 <= a < 12 && 0 <= b < 12
    ensures d < 12
  {
    Mod12(a - b + 12)
  }

  /** Going up from `b` by `Below(a, b)` semitones reaches `a`. */
  lemma BelowReaches(a: int, b: int)
    requires 0 <= a < 12 && 0 <= b < 12
    ensures Mod12(b + Below(a, b)) == a
  {
    Mod12IsRemainder(a - b + 12);
    Mod12IsRemainder(b + Mod12(a - b + 12));
  }

  /** Subtracting remainders modulo 12 agrees with subtracting the numbers. */
  lemma RemainderDifference(p: int, q: int)
    ensures (p % 12 - q % 12 + 12) % 12 == (p - q) % 12
  {
    var qp, qq := p / 12, q / 12;
    assert p == 12 * qp + p % 12 && q == 12 * qq + q % 12;
    assert p - q == 12 * (qp - qq) + (p % 12 - q % 12);
  }

  /** The distance between two pitch classes above a common root is the
      difference of their offsets, reduced to one octave. */
  lemma DistanceOfOffsets(r: nat, a: nat, b: nat)
    ensures Below(Mod12(r + a), Mod12(r + b)) == (a as int - b) % 12
  {
    Mod12IsRemainder(r + a);
    Mod12IsRemainder(r + b);
    Mod12IsRemainder(Mod12(r + a) - Mod12(r + b) + 12);
    RemainderDifference(r + a, r + b);
  }

  /** Two values found at the same position of a list are equal. */
  lemma SameIndexSameName<T>(s: seq<T>, x: T, y: T)
    requires IndexOf(s, x) == IndexOf(s, y) >= 0
    ensures x == y
  {
  }

  // ---------------------------------------------------------------------
  // getChordNotes

  /** The quality of a triad. */
  datatype Quality = Major | Minor | Diminished | Augmented

  /** Semitones of root, third and fifth for each quality. */
  function TriadIntervals(q: Quality): (r: seq<nat>)
    ensures |r| == 3 && r[0] == 0 && r[1] < r[2] < 12
    ensures r[1] == 3 <==> q == Minor || q == Diminished
    ensures r[2] == 7 <==> q == Major || q == Minor
  {
    match q
    case Diminished => [0, 3, 6]
    case Augmented => [0, 4, 8]
    case Minor => [0, 3, 7]
    case Major => [0, 4, 7]
  }

  /** The quality a chord symbol asks for: a diminished mark ('°' or "dim")
      wins over an augmented one ('+' or "aug"), which wins over an 'm' that
      is not part of "maj"; anything else is major. */
  function SymbolQuality(chordSymbol: string): Quality
  {
    if Includes(chordSymbol, "°") || Includes(chordSymbol, "dim") then Diminished
    else if Includes(chordSymbol, "+") || Includes(chordSymbol, "aug") then Augmented
    else if Includes(chordSymbol, "m") && !Includes(chordSymbol, "maj") then Minor
    else Major
  }

  /** The names at the given intervals above pitch class `rootIndex`. */
  function NamesAbove(rootIndex: nat, ivs: seq<nat>): (r: seq<string>)
    ensures |r| == |ivs|
  {
    seq(|ivs|, k requires 0 <= k < |ivs| => NameAbove(rootIndex, ivs[k]))
  }

  /** Name k of `NamesAbove` has pitch class root + interval k, reduced to one octave. */
  lemma NamesAboveIndex(rootIndex: nat, ivs: seq<nat>, k: int)
    requires 0 <= k < |ivs|
    ensures IndexOf(CHROMATIC_NOTES, NamesAbove(rootIndex, ivs)[k]) == Mod12(rootIndex + ivs[k])
  {
    assert NamesAbove(rootIndex, ivs)[k] == NameAbove(rootIndex, ivs[k]);
    NameAboveIndex(rootIndex, ivs[k]);
  }

  /** Every name of `NamesAbove` has the pitch class of its interval above the root. */
  lemma NamesAboveIndices(rootIndex: nat, ivs: seq<nat>)
    ensures forall k :: 0 <= k < |ivs| ==> IndexOf(CHROMATIC_NOTES, NamesAbove(rootIndex, ivs)[k]) == Mod12(rootIndex + ivs[k])
  {
    forall k | 0 <= k < |ivs|
      ensures IndexOf(CHROMATIC_NOTES, NamesAbove(rootIndex, ivs)[k]) == Mod12(rootIndex + ivs[k])
    {
      NamesAboveIndex(rootIndex, ivs, k);
    }
  }

  /** getChordNotes: root, third and fifth of the symbol's quality above the
      root, or nothing for a root outside the chromatic names. The scale type
      is accepted and ignored, as in the source. */
  function ChordNotes(rootNote: string, scaleType: string, chordSymbol: string): (r: seq<string>)
    ensures IndexOf(CHROMATIC_NOTES, rootNote) == -1 <==> r == []
    ensures r != [] ==> |r| == 3
  {
    var rootIndex := IndexOf(CHROMATIC_NOTES, rootNote);
    if rootIndex == -1 then [] else NamesAbove(rootIndex, TriadIntervals(SymbolQuality(chordSymbol)))
  }

  /** Note k of a chord has the pitch class of the quality's interval k above
      the root; the first note is the root itself. */
  lemma ChordNotePitch(rootNote: string, scaleType: string, chordSymbol: string, k: int)
    requires IndexOf(CHROMATIC_NOTES, rootNote) >= 0 && 0 <= k < 3
    ensures IndexOf(CHROMATIC_NOTES, ChordNotes(rootNote, scaleType, chordSymbol)[k])
            == Mod12(IndexOf(CHROMATIC_NOTES, rootNote) + TriadIntervals(SymbolQuality(chordSymbol))[k])
    ensures ChordNotes(rootNote, scaleType, chordSymbol)[0] == rootNote
  {
    var rootIndex := IndexOf(CHROMATIC_NOTES, rootNote);
    var ivs := TriadIntervals(SymbolQuality(chordSymbol));
    var r := NamesAbove(rootIndex, ivs);
    assert ChordNotes(rootNote, scaleType, chordSymbol) == r;
    NamesAboveIndex(rootIndex, ivs, k);
    NamesAboveIndex(rootIndex, ivs, 0);
    SameIndexSameName(CHROMATIC_NOTES, r[0], rootNote);
  }

  /** "maj" keeps an 'm' from making a chord minor. */
  lemma MajSymbolIsMajor()
    ensures SymbolQuality("Cmaj7") == Major
    ensures SymbolQuality("Cm") == Minor
  {
    IncludesMeaning("Cmaj7", "°");
    IncludesMeaning("Cmaj7", "dim");
    IncludesMeaning("Cmaj7", "+");
    IncludesMeaning("Cmaj7", "aug");
    assert OccursAt("Cmaj7", 1, "maj");
    IncludesMeaning("Cmaj7", "maj");
    IncludesMeaning("Cm", "°");
    IncludesMeaning("Cm", "dim");
    IncludesMeaning("Cm", "+");
    IncludesMeaning("Cm", "aug");
    assert OccursAt("Cm", 1, "m");
    IncludesMeaning("Cm", "m");
    IncludesMeaning("Cm", "maj");
  }

  // ---------------------------------------------------------------------
  // generateChordsForScale

  /** One chord of a scale: its name, root, semitones of root, third and
      fifth above the root, and up to two fingering shapes. */
  datatype ChordProgression = ChordProgression(chordName: string, rootNote: string, intervals: seq<int>,
                                               shapes: seq<ChordShape>)

  /** A chord's name: '°' after the root for a minor third under a
      diminished fifth, otherwise 'm' for a minor third. */
  function TriadName(chordRoot: string, third: int, fifth: int): string
  {
    if third == 3 && fifth == 6 then chordRoot + "°"
    else if third == 3 then chordRoot + "m"
    else chordRoot
  }

  /** The stored shapes for a chord: 7- or 8-string shapes for the root and
      string count first, then a minor shape for a minor chord, then the
      6-string major shapes for the root, else none. */
  function BaseShapes(chordRoot: string, isMinor: bool, guitarType: int): seq<ChordShape>
  {
    if chordRoot in EXTENDED_SHAPES && guitarType in EXTENDED_SHAPES[chordRoot] then EXTENDED_SHAPES[chordRoot][guitarType]
    else if isMinor && chordRoot + "m" in MINOR_SHAPES then MINOR_SHAPES[chordRoot + "m"]
    else if chordRoot in BASIC_SHAPES then BASIC_SHAPES[chordRoot]
    else []
  }

  /** The shapes transposed when a chord has none stored: A minor for a minor
      chord, C major otherwise. */
  function ReferenceShapes(isMinor: bool): (r: seq<ChordShape>)
    ensures |r| == if isMinor then 1 else 2
  {
    if isMinor then (if "Am" in MINOR_SHAPES then MINOR_SHAPES["Am"] else [])
    else (if "C" in BASIC_SHAPES then BASIC_SHAPES["C"] else [])
  }

  /** The pitch class of the reference shapes' root: A = 9, C = 0. */
  function ReferenceRoot(isMinor: bool): nat
  {
    if isMinor then 9 else 0
  }

  function TransposeAll(shapes: seq<ChordShape>, semitones: int): (r: seq<ChordShape>)
    ensures |r| == |shapes|
  {
    seq(|shapes|, i requires 0 <= i < |shapes| => TransposeShape(shapes[i], semitones))
  }

  /** `shapes.slice(0, 2)`. */
  function FirstTwo<T>(s: seq<T>): (r: seq<T>)
    ensures |r| == if |s| < 2 then |s| else 2
    ensures r <= s
  {
    if |s| <= 2 then s else s[..2]
  }

  /** The shapes shown for a chord with the given root: its stored shapes,
      or else the reference shapes moved from the reference root up to the
      chord root; at most the first two of them. */
  function DegreeShapes(chordRoot: string, chordRootIndex: nat, isMinor: bool, guitarType: int): (r: seq<ChordShape>)
    requires chordRootIndex < 12
  {
    var base := BaseShapes(chordRoot, isMinor, guitarType);
    if |base| > 0 then FirstTwo(base)
    else FirstTwo(TransposeAll(ReferenceShapes(isMinor), Mod12(chordRootIndex - ReferenceRoot(isMinor) + 12)))
  }

  /** The chord on degree `d` of the scale with the given intervals above
      pitch class `rootIndex`: the scale notes two and four degrees higher
      (wrapping around the scale) give its third and fifth. */
  function DegreeChord(rootIndex: nat, ivs: seq<nat>, d: nat, guitarType: int): ChordProgression
    requires rootIndex < 12 && d < |ivs|
  {
    var names := NamesAbove(rootIndex, ivs);
    var t, f := Wrap(d + 2, |ivs|), Wrap(d + 4, |ivs|);
    NamesAboveIndex(rootIndex, ivs, d);
    NamesAboveIndex(rootIndex, ivs, t);
    NamesAboveIndex(rootIndex, ivs, f);
    var chordRootIndex := IndexOf(CHROMATIC_NOTES, names[d]);
    var third := Below(IndexOf(CHROMATIC_NOTES, names[t]), chordRootIndex);
    var fifth := Below(IndexOf(CHROMATIC_NOTES, names[f]), chordRootIndex);
    ChordProgression(TriadName(names[d], third, fifth), names[d], [0, third, fifth],
                     DegreeShapes(names[d], chordRootIndex, third == 3, guitarType))
  }

  /** The chords of the first `n` degrees, in order. */
  function ChordsUpTo(rootIndex: nat, ivs: seq<nat>, guitarType: int, n: nat): (r: seq<ChordProgression>)
    requires rootIndex < 12 && n <= |ivs|
    ensures |r| == n
  {
    Built((d: nat) requires d < |ivs| => DegreeChord(rootIndex, ivs, d, guitarType), n)
  }

  /** The values of `f` at 0, 1, ..., n - 1, appended one at a time. */
  function Built<T>(f: nat --> T, n: nat): (r: seq<T>)
    requires forall k: nat :: k < n ==> f.requires(k)
    ensures |r| == n
  {
    if n == 0 then [] else Built(f, n - 1) + [f(n - 1)]
  }

  /** Entry d of a built list is the value at d. */
  lemma {:induction false} BuiltAt<T>(f: nat --> T, n: nat, d: nat)
    requires forall k: nat :: k < n ==> f.requires(k)
    requires d < n
    ensures Built(f, n)[d] == f(d)
  {
    if d < n - 1 {
      BuiltAt(f, n - 1, d);
    }
  }

  /** generateChordsForScale as a value: no chords for a root outside the
      chromatic names, otherwise one chord per scale degree, in order. */
  function ChordsForScale(rootNote: string, scaleIntervals: seq<nat>, guitarType: int): (r: seq<ChordProgression>)
    ensures IndexOf(CHROMATIC_NOTES, rootNote) == -1 ==> r == []
    ensures IndexOf(CHROMATIC_NOTES, rootNote) >= 0 ==> |r| == |scaleIntervals|
  {
    var rootIndex := IndexOf(CHROMATIC_NOTES, rootNote);
    if rootIndex == -1 then [] else ChordsUpTo(rootIndex, scaleIntervals, guitarType, |scaleIntervals|)
  }

  /** Entry d of the chords built so far is the chord of degree d. */
  lemma ChordsUpToAt(rootIndex: nat, ivs: seq<nat>, guitarType: int, n: nat, d: nat)
    requires rootIndex < 12 && d < n <= |ivs|
    ensures ChordsUpTo(rootIndex, ivs, guitarType, n)[d] == DegreeChord(rootIndex, ivs, d, guitarType)
  {
    BuiltAt((d: nat) requires d < |ivs| => DegreeChord(rootIndex, ivs, d, guitarType), n, d);
  }

  /** The chord at position d of generateChordsForScale's result is the
      chord of scale degree d. */
  lemma ChordOfScaleDegree(rootNote: string, scaleIntervals: seq<nat>, guitarType: int, d: nat)
    requires IndexOf(CHROMATIC_NOTES, rootNote) >= 0 && d < |scaleIntervals|
    ensures ChordsForScale(rootNote, scaleIntervals, guitarType)[d]
            == DegreeChord(IndexOf(CHROMATIC_NOTES, rootNote), scaleIntervals, d, guitarType)
  {
    ChordsUpToAt(IndexOf(CHROMATIC_NOTES, rootNote), scaleIntervals, guitarType, |scaleIntervals|, d);
  }

  /** The chord of degree d is rooted on the scale note of degree d: the
      pitch class ivs[d] semitones above the scale root. */
  lemma DegreeChordRoot(rootIndex: nat, ivs: seq<nat>, d: nat, guitarType: int)
    requires rootIndex < 12 && d < |ivs|
    ensures IndexOf(CHROMATIC_NOTES, DegreeChord(rootIndex, ivs, d, guitarType).rootNote) == Mod12(rootIndex + ivs[d])
  {
    NamesAboveIndex(rootIndex, ivs, d);
  }

  /** The intervals of the chord of degree d are 0 and the distances, within
      one octave, from the scale note of degree d up to the scale notes two
      and four degrees higher, wrapping around the scale. */
  lemma DegreeChordIntervals(rootIndex: nat, ivs: seq<nat>, d: nat, guitarType: int)
    requires rootIndex < 12 && d < |ivs|
    ensures DegreeChord(rootIndex, ivs, d, guitarType).intervals
            == [0, Below(Mod12(ivs[Wrap(d + 2, |ivs|)]), Mod12(ivs[d])), Below(Mod12(ivs[Wrap(d + 4, |ivs|)]), Mod12(ivs[d]))]
  {
    ScaleNoteDistance(rootIndex, ivs, d, Wrap(d + 2, |ivs|));
    ScaleNoteDistance(rootIndex, ivs, d, Wrap(d + 4, |ivs|));
  }

  /** The distance from scale note d up to scale note k does not depend on
      the root of the scale. */
  lemma ScaleNoteDistance(rootIndex: nat, ivs: seq<nat>, d: nat, k: nat)
    requires d < |ivs| && k < |ivs|
    ensures var names := NamesAbove(rootIndex, ivs);
            0 <= IndexOf(CHROMATIC_NOTES, names[k]) < 12 && 0 <= IndexOf(CHROMATIC_NOTES, names[d]) < 12 &&
            Below(IndexOf(CHROMATIC_NOTES, names[k]), IndexOf(CHROMATIC_NOTES, names[d])) == Below(Mod12(ivs[k]), Mod12(ivs[d]))
  {
    ScaleNoteBelow(rootIndex, ivs, d, k);
    DistanceIgnoresRoot(rootIndex, ivs[k], ivs[d]);
  }

  /** Moving both notes by the same root keeps their distance. */
  lemma DistanceIgnoresRoot(r: nat, a: nat, b: nat)
    ensures Below(Mod12(r + a), Mod12(r + b)) == Below(Mod12(a), Mod12(b))
  {
    DistanceOfOffsets(r, a, b);
    DistanceOfOffsets(0, a, b);
  }

  /** The distance between two scale notes is the distance between their
      pitch classes. */
  lemma ScaleNoteBelow(rootIndex: nat, ivs: seq<nat>, d: nat, k: nat)
    requires d < |ivs| && k < |ivs|
    ensures var names := NamesAbove(rootIndex, ivs);
            0 <= IndexOf(CHROMATIC_NOTES, names[k]) < 12 && 0 <= IndexOf(CHROMATIC_NOTES, names[d]) < 12 &&
            Below(IndexOf(CHROMATIC_NOTES, names[k]), IndexOf(CHROMATIC_NOTES, names[d]))
            == Below(Mod12(rootIndex + ivs[k]), Mod12(rootIndex + ivs[d]))
  {
    NamesAboveIndex(rootIndex, ivs, k);
    NamesAboveIndex(rootIndex, ivs, d);
  }

  /** The name of a chord is its root followed by "°" when its third is 3
      semitones and its fifth 6, by "m" when only its third is 3, and by
      nothing otherwise. */
  lemma DegreeChordName(rootIndex: nat, ivs: seq<nat>, d: nat, guitarType: int)
    requires rootIndex < 12 && d < |ivs|
    ensures var c := DegreeChord(rootIndex, ivs, d, guitarType);
            |c.intervals| == 3 &&
            c.chordName == c.rootNote + (if c.intervals[1] == 3 && c.intervals[2] == 6 then "°"
                                         else if c.intervals[1] == 3 then "m" else "")
  {
    var names := NamesAbove(rootIndex, ivs);
    var t, f := Wrap(d + 2, |ivs|), Wrap(d + 4, |ivs|);
    NamesAboveIndex(rootIndex, ivs, d);
    NamesAboveIndex(rootIndex, ivs, t);
    NamesAboveIndex(rootIndex, ivs, f);
    var chordRootIndex := IndexOf(CHROMATIC_NOTES, names[d]);
    var third := Below(IndexOf(CHROMATIC_NOTES, names[t]), chordRootIndex);
    var fifth := Below(IndexOf(CHROMATIC_NOTES, names[f]), chordRootIndex);
    TriadNameSuffix(names[d], third, fifth);
  }

  lemma TriadNameSuffix(chordRoot: string, third: int, fifth: int)
    ensures TriadName(chordRoot, third, fifth)
            == chordRoot + (if third == 3 && fifth == 6 then "°" else if third == 3 then "m" else "")
  {
  }

  /** Every chord comes with one or two shapes. */
  lemma DegreeChordHasShapes(rootIndex: nat, ivs: seq<nat>, d: nat, guitarType: int)
    requires rootIndex < 12 && d < |ivs|
    ensures 1 <= |DegreeChord(rootIndex, ivs, d, guitarType).shapes| <= 2
  {
  }

  /** The intervals of the major scale. */
  const MAJOR_INTERVALS: seq<nat> := [0, 2, 4, 5, 7, 9, 11]

  /** On the major scale every root gives the qualities I, ii, iii, IV, V,
      vi and vii°: no suffix, "m", "m", none, none, "m" and "°". */
  lemma MajorScaleChordNames(rootIndex: nat, d: nat, guitarType: int)
    requires rootIndex < 12 && d < 7
    ensures var c := DegreeChord(rootIndex, MAJOR_INTERVALS, d, guitarType);
            c.chordName == c.rootNote + ["", "m", "m", "", "", "m", "°"][d]
  {
    var c := DegreeChord(rootIndex, MAJOR_INTERVALS, d, guitarType);
    DegreeChordName(rootIndex, MAJOR_INTERVALS, d, guitarType);
    DegreeChordIntervals(rootIndex, MAJOR_INTERVALS, d, guitarType);
    MajorScaleThirds(d);
    NameFromSuffix(c, ["", "m", "m", "", "", "m", "°"][d]);
  }

  lemma NameFromSuffix(c: ChordProgression, suffix: string)
    requires |c.intervals| == 3
    requires c.chordName == c.rootNote + (if c.intervals[1] == 3 && c.intervals[2] == 6 then "°"
                                          else if c.intervals[1] == 3 then "m" else "")
    requires (if c.intervals[1] == 3 && c.intervals[2] == 6 then "°" else if c.intervals[1] == 3 then "m" else "") == suffix
    ensures c.chordName == c.rootNote + suffix
  {
  }

  /** The thirds and fifths of the major scale's degrees, in semitones. */
  lemma MajorScaleThirds(d: nat)
    requires d < 7
    ensures var ivs := MAJOR_INTERVALS;
            var third := Below(Mod12(ivs[Wrap(d + 2, 7)]), Mod12(ivs[d]));
            var fifth := Below(Mod12(ivs[Wrap(d + 4, 7)]), Mod12(ivs[d]));
            (if third == 3 && fifth == 6 then "°" else if third == 3 then "m" else "")
            == ["", "m", "m", "", "", "m", "°"][d]
  {
    if d == 0 {} else if d == 1 {} else if d == 2 {} else if d == 3 {} else if d == 4 {} else if d == 5 {} else {}
  }

  /** A root with no stored shape (C# on a six-string) gets the C major
      shapes moved up one fret. */
  lemma SharpRootTransposesReference()
    ensures DegreeShapes("C#", 1, false, 6) == TransposeAll(BASIC_SHAPES["C"], 1)
  {
    assert "C#" !in EXTENDED_SHAPES && "C#" !in BASIC_SHAPES;
    assert Mod12(1 - ReferenceRoot(false) + 12) == 1;
  }

  /** A minor chord on A finds the stored A minor shape. */
  lemma MinorRootUsesMinorShape()
    ensures DegreeShapes("A", 9, true, 6) == MINOR_SHAPES["Am"]
  {
    assert 6 !in EXTENDED_SHAPES["A"];
    assert "A" + "m" == "Am";
  }

  /** A minor or diminished chord whose root has only major shapes stored
      gets those major shapes: Bm and B° are shown with the B major barre. */
  lemma MinorChordMayGetMajorShape()
    ensures DegreeShapes("B", 11, true, 6) == BASIC_SHAPES["B"]
    ensures BASIC_SHAPES["B"][0].name == "B Major Barre (2nd fret)"
  {
    assert "B" !in EXTENDED_SHAPES;
    assert "B" + "m" == "Bm";
    assert "Bm" !in MINOR_SHAPES;
  }

  /** generateChordsForScale: builds the chord of every scale degree in turn
      and appends it to the result. */
  method GenerateChordsForScale(rootNote: string, scaleIntervals: seq<nat>, guitarType: int)
    returns (chordProgressions: seq<ChordProgression>)
    ensures chordProgressions == ChordsForScale(rootNote, scaleIntervals, guitarType)
  {
    var rootIndex := IndexOf(CHROMATIC_NOTES, rootNote);
    if rootIndex == -1 {
      return [];
    }
    var scaleNotes := NamesAbove(rootIndex, scaleIntervals);
    chordProgressions := [];
    var degree := 0;
    while degree < |scaleIntervals|
      invariant 0 <= degree <= |scaleIntervals|
      invariant chordProgressions == ChordsUpTo(rootIndex, scaleIntervals, guitarType, degree)
    {
      var chord := ChordOfDegree(rootIndex, scaleIntervals, scaleNotes, degree, guitarType);
      chordProgressions := chordProgressions + [chord];
      degree := degree + 1;
    }
  }

  /** The body of the per-degree callback: third and fifth from the scale
      notes two and four degrees up, the name from the chord's quality, and
      the shapes. */
  method ChordOfDegree(rootIndex: nat, scaleIntervals: seq<nat>, scaleNotes: seq<string>, degree: nat, guitarType: int)
    returns (chord: ChordProgression)
    requires rootIndex < 12 && degree < |scaleIntervals| && scaleNotes == NamesAbove(rootIndex, scaleIntervals)
    ensures chord == DegreeChord(rootIndex, scaleIntervals, degree, guitarType)
  {
    var chordRoot := scaleNotes[degree];
    var thirdDegree := Wrap(degree + 2, |scaleNotes|);
    var fifthDegree := Wrap(degree + 4, |scaleNotes|);
    NamesAboveIndex(rootIndex, scaleIntervals, degree);
    NamesAboveIndex(rootIndex, scaleIntervals, thirdDegree);
    NamesAboveIndex(rootIndex, scaleIntervals, fifthDegree);
    var chordRootIndex := IndexOf(CHROMATIC_NOTES, chordRoot);
    var thirdInterval := Below(IndexOf(CHROMATIC_NOTES, scaleNotes[thirdDegree]), chordRootIndex);
    var fifthInterval := Below(IndexOf(CHROMATIC_NOTES, scaleNotes[fifthDegree]), chordRootIndex);
    var isMinor := thirdInterval == 3;
    var isDiminished := thirdInterval == 3 && fifthInterval == 6;
    var chordName := chordRoot;
    if isDiminished {
      chordName := chordName + "°";
    } else if isMinor {
      chordName := chordName + "m";
    }
    var shapes := ShapesForChord(chordRoot, chordRootIndex, isMinor, guitarType);
    chord := ChordProgression(chordName, chordRoot, [0, thirdInterval, fifthInterval], shapes);
  }

  /** Picks the stored shapes for a chord, or transposes the reference
      shapes when there are none, and keeps the first two. */
  method ShapesForChord(chordRoot: string, chordRootIndex: nat, isMinor: bool, guitarType: int)
    returns (result: seq<ChordShape>)
    requires chordRootIndex < 12
    ensures result == DegreeShapes(chordRoot, chordRootIndex, isMinor, guitarType)
  {
    var baseShapes: seq<ChordShape> := [];
    if chordRoot in EXTENDED_SHAPES && guitarType in EXTENDED_SHAPES[chordRoot] {
      baseShapes := EXTENDED_SHAPES[chordRoot][guitarType];
    } else if isMinor && chordRoot + "m" in MINOR_SHAPES {
      baseShapes := MINOR_SHAPES[chordRoot + "m"];
    } else if chordRoot in BASIC_SHAPES {
      baseShapes := BASIC_SHAPES[chordRoot];
    }
    var shapes: seq<ChordShape>;
    if |baseShapes| > 0 {
      shapes := baseShapes;
    } else {
      var referenceShapes := ReferenceShapes(isMinor);
      var transposeSemitones := Mod12(chordRootIndex - ReferenceRoot(isMinor) + 12);
      shapes := TransposeAll(referenceShapes, transposeSemitones);
    }
    result := FirstTwo(shapes);
  }
}
