/** Chord progressions written in roman numerals (client/src/lib/chords.ts):
    generateChordProgression and romanNumeralToChord. */
module ChordProgressions {
  import opened Js
  import MusicTheory
  import opened Chords

  /** A degree of a seven-note scale, counted from 0. */
  type ScaleDegree = d: nat | d < 7

  /** ROMAN_NUMERALS: the scale degree (counted from 0) of each numeral the
      generator knows. */
  const ROMAN_NUMERALS: seq<(string, ScaleDegree)> := [
    ("I", 0), ("ii", 1), ("iii", 2), ("IV", 3), ("V", 4), ("vi", 5), ("vii", 6),
    ("i", 0), ("II", 1), ("III", 2), ("iv", 3), ("v", 4), ("VI", 5), ("VII", 6),
    ("bVII", 6), ("bVI", 5), ("bIII", 2), ("bII", 1)
  ]

  /** The degree of a numeral, if it is one of ROMAN_NUMERALS. */
  function Degree(roman: string): (r: Option<ScaleDegree>)
  {
    MusicTheory.Lookup(ROMAN_NUMERALS, roman)
  }

  /** A numeral has a degree exactly when it is one of ROMAN_NUMERALS. */
  lemma DegreeKnown(roman: string)
    ensures Degree(roman).Some? <==> exists i :: 0 <= i < |ROMAN_NUMERALS| && ROMAN_NUMERALS[i].0 == roman
  {
  }

  const MINOR_INTERVALS: seq<nat> := [0, 2, 3, 5, 7, 8, 10]

  /** The scales generateChordProgression builds itself instead of importing
      them; "major" and "minor" are names of their own here. */
  const PROGRESSION_SCALES: seq<(string, seq<nat>)> := [
    ("major", MAJOR_INTERVALS),
    ("ionian", MAJOR_INTERVALS),
    ("minor", MINOR_INTERVALS),
    ("aeolian", MINOR_INTERVALS),
    ("dorian", [0, 2, 3, 5, 7, 9, 10]),
    ("phrygian", [0, 1, 3, 5, 7, 8, 10]),
    ("lydian", [0, 2, 4, 6, 7, 9, 11]),
    ("mixolydian", [0, 2, 4, 5, 7, 9, 10]),
    ("locrian", [0, 1, 3, 5, 6, 8, 10])
  ]

  /** `scaleMap[scaleType] || majorScale`: every scale here has seven notes,
      and a scale type outside the table falls back to the major scale. */
  function ProgressionScale(scaleType: string): (r: seq<nat>)
    ensures |r| == 7
    ensures (forall i :: 0 <= i < |PROGRESSION_SCALES| ==> PROGRESSION_SCALES[i].0 != scaleType) ==> r == MAJOR_INTERVALS
  {
    match MusicTheory.Lookup(PROGRESSION_SCALES, scaleType)
    case Some(ivs) => ivs
    case None => MAJOR_INTERVALS
  }

  /** A numeral is minor when it is all lower case or contains a lower-case i. */
  predicate IsMinorNumeral(roman: string)
  {
    roman == ToLower(roman) || Includes(roman, "i")
  }

  /** generateChordProgression's test for a diminished chord. */
  predicate IsDiminishedNumeral(roman: string)
  {
    Includes(roman, "°") || roman == "vii"
  }

  datatype ChordProgressionItem = ChordProgressionItem(symbol: string, roman: string, notes: seq<string>, quality: Quality)

  /** The item for a known numeral: the scale note of its degree, "°" or "m"
      after it for a diminished or minor numeral, and that symbol's notes. */
  function ProgressionItem(roman: string, degree: nat, scaleNotes: seq<string>, scaleType: string): ChordProgressionItem
    requires degree < |scaleNotes|
  {
    var chordRoot := scaleNotes[degree];
    var symbol := if IsDiminishedNumeral(roman) then chordRoot + "°"
                  else if IsMinorNumeral(roman) then chordRoot + "m"
                  else chordRoot;
    var quality := if IsDiminishedNumeral(roman) then Diminished
                   else if IsMinorNumeral(roman) then Minor
                   else Major;
    ChordProgressionItem(symbol, roman, ChordNotes(chordRoot, scaleType, symbol), quality)
  }

  /** The item for one numeral, or none for a numeral outside
      ROMAN_NUMERALS. */
  function ItemFor(scaleNotes: seq<string>, scaleType: string, roman: string): Option<ChordProgressionItem>
    requires |scaleNotes| == 7
  {
    match Degree(roman)
    case None => None
    case Some(degree) => Some(ProgressionItem(roman, degree, scaleNotes, scaleType))
  }

  /** The items for a list of numerals: one per known numeral, in order;
      unknown numerals are skipped. */
  function ProgressionItems(scaleNotes: seq<string>, scaleType: string, romans: seq<string>): (r: seq<ChordProgressionItem>)
    requires |scaleNotes| == 7
    ensures |r| <= |romans|
  {
    FilterMap((roman: string) requires |scaleNotes| == 7 => ItemFor(scaleNotes, scaleType, roman), romans)
  }

  /** The values `f` gives for the elements of `xs`, in order, leaving out
      the elements it gives none for. */
  function FilterMap<A(!new), B>(f: A --> Option<B>, xs: seq<A>): (r: seq<B>)
    requires forall x :: f.requires(x)
    ensures |r| <= |xs|
  {
    if xs == [] then []
    else
      var prev := FilterMap(f, xs[..|xs| - 1]);
      match f(xs[|xs| - 1])
      case None => prev
      case Some(y) => prev + [y]
  }

  lemma {:induction false} FilterMapAppend<A(!new), B>(f: A --> Option<B>, xs: seq<A>, ys: seq<A>)
    requires forall x :: f.requires(x)
    ensures FilterMap(f, xs + ys) == FilterMap(f, xs) + FilterMap(f, ys)
  {
    if ys == [] {
      assert xs + ys == xs;
    } else {
      var ys' := ys[..|ys| - 1];
      assert (xs + ys)[..|xs + ys| - 1] == xs + ys';
      assert (xs + ys)[|xs + ys| - 1] == ys[|ys| - 1];
      FilterMapAppend(f, xs, ys');
    }
  }

  lemma {:induction false} FilterMapAllSome<A(!new), B>(f: A --> Option<B>, xs: seq<A>)
    requires forall x :: f.requires(x)
    requires forall k :: 0 <= k < |xs| ==> f(xs[k]).Some?
    ensures |FilterMap(f, xs)| == |xs|
    ensures forall k :: 0 <= k < |xs| ==> FilterMap(f, xs)[k] == f(xs[k]).value
  {
    if xs != [] {
      var init := xs[..|xs| - 1];
      assert forall k :: 0 <= k < |init| ==> init[k] == xs[k];
      FilterMapAllSome(f, init);
    }
  }

  /** generateChordProgression as a value: nothing for a root outside the
      chromatic names, otherwise the items over the notes of the scale. */
  function Progression(rootNote: string, scaleType: string, romanNumerals: seq<string>): (r: seq<ChordProgressionItem>)
    ensures IndexOf(CHROMATIC_NOTES, rootNote) == -1 ==> r == []
    ensures |r| <= |romanNumerals|
  {
    var rootIndex := IndexOf(CHROMATIC_NOTES, rootNote);
    if rootIndex == -1 then []
    else ProgressionItems(NamesAbove(rootIndex, ProgressionScale(scaleType)), scaleType, romanNumerals)
  }

  /** generateChordProgression: walks the numerals, skipping unknown ones,
      and appends one item per known numeral. */
  method GenerateChordProgression(rootNote: string, scaleType: string, romanNumerals: seq<string>)
    returns (result: seq<ChordProgressionItem>)
    ensures result == Progression(rootNote, scaleType, romanNumerals)
  {
    var scale := ProgressionScale(scaleType);
    var rootIndex := IndexOf(CHROMATIC_NOTES, rootNote);
    if rootIndex == -1 {
      return [];
    }
    var scaleNotes := NamesAbove(rootIndex, scale);
    result := [];
    var i := 0;
    while i < |romanNumerals|
      invariant i <= |romanNumerals|
      invariant result == ProgressionItems(scaleNotes, scaleType, romanNumerals[..i])
    {
      var roman := romanNumerals[i];
      assert romanNumerals[..i + 1][..i] == romanNumerals[..i];
      var degree := Degree(roman);
      if degree.Some? {
        var chordRoot := scaleNotes[degree.value];
        var isMinor := IsMinorNumeral(roman);
        var isDiminished := IsDiminishedNumeral(roman);
        var symbol := chordRoot;
        var quality := Major;
        if isDiminished {
          symbol := symbol + "°";
          quality := Diminished;
        } else if isMinor {
          symbol := symbol + "m";
          quality := Minor;
        }
        var notes := ChordNotes(chordRoot, scaleType, symbol);
        result := result + [ChordProgressionItem(symbol, roman, notes, quality)];
      }
      i := i + 1;
    }
    assert romanNumerals[..|romanNumerals|] == romanNumerals;
  }

  // ---------------------------------------------------------------------
  // Properties of the progression

  /** The items of two lists of numerals one after the other are the items
      of each list, one after the other. */
  lemma ProgressionItemsAppend(scaleNotes: seq<string>, scaleType: string, a: seq<string>, b: seq<string>)
    requires |scaleNotes| == 7
    ensures ProgressionItems(scaleNotes, scaleType, a + b)
            == ProgressionItems(scaleNotes, scaleType, a) + ProgressionItems(scaleNotes, scaleType, b)
  {
    FilterMapAppend((roman: string) requires |scaleNotes| == 7 => ItemFor(scaleNotes, scaleType, roman), a, b);
  }

  /** A numeral that is not in ROMAN_NUMERALS leaves no trace in the result,
      wherever it stands. */
  lemma UnknownNumeralSkipped(scaleNotes: seq<string>, scaleType: string, a: seq<string>, u: string, b: seq<string>)
    requires |scaleNotes| == 7 && Degree(u).None?
    ensures ProgressionItems(scaleNotes, scaleType, a + [u] + b) == ProgressionItems(scaleNotes, scaleType, a + b)
  {
    ProgressionItemsAppend(scaleNotes, scaleType, a + [u], b);
    ProgressionItemsAppend(scaleNotes, scaleType, a, [u]);
    ProgressionItemsAppend(scaleNotes, scaleType, a, b);
    assert [u][..0] == [];
  }

  /** When every numeral is known there is one item per numeral, in the
      numerals' order, each built from its numeral's degree. */
  lemma KnownNumeralsKept(scaleNotes: seq<string>, scaleType: string, romans: seq<string>)
    requires |scaleNotes| == 7
    requires forall k :: 0 <= k < |romans| ==> Degree(romans[k]).Some?
    ensures var r := ProgressionItems(scaleNotes, scaleType, romans);
            |r| == |romans| &&
            forall k :: 0 <= k < |romans| ==>
              r[k] == ProgressionItem(romans[k], Degree(romans[k]).value, scaleNotes, scaleType)
  {
    FilterMapAllSome((roman: string) requires |scaleNotes| == 7 => ItemFor(scaleNotes, scaleType, roman), romans);
  }

  /** Each item carries its own numeral. */
  lemma ItemKeepsNumeral(roman: string, degree: nat, scaleNotes: seq<string>, scaleType: string)
    requires degree < |scaleNotes|
    ensures ProgressionItem(roman, degree, scaleNotes, scaleType).roman == roman
  {
  }

  /** The numerals written in lower case. */
  const LOWER_NUMERALS: seq<string> := ["ii", "iii", "vi", "vii", "i", "iv", "v"]

  /** Among the known numerals the lower-case ones are minor and the others
      major, and only "vii" is diminished. */
  lemma NumeralQuality(roman: string)
    requires Degree(roman).Some?
    ensures IsMinorNumeral(roman) <==> roman in LOWER_NUMERALS
    ensures IsDiminishedNumeral(roman) <==> roman == "vii"
  {
    var i :| 0 <= i < |ROMAN_NUMERALS| && ROMAN_NUMERALS[i].0 == roman;
    NumeralQualityAt(i);
  }

  lemma NumeralQualityAt(i: int)
    requires 0 <= i < |ROMAN_NUMERALS|
    ensures var roman := ROMAN_NUMERALS[i].0;
            (IsMinorNumeral(roman) <==> roman in LOWER_NUMERALS) &&
            (IsDiminishedNumeral(roman) <==> roman == "vii")
  {
    var roman := ROMAN_NUMERALS[i].0;
    IncludesNeedsFirst(roman, "°");
    if i in {1, 2, 5, 6, 7, 10, 11} {
      LowerIsMinor(roman);
    } else {
      UpperIsMajor(roman, |roman| - 1);
    }
  }

  /** A numeral of lower-case letters is minor. */
  lemma LowerIsMinor(s: string)
    requires forall k :: 0 <= k < |s| ==> IsAsciiLower(s[k])
    ensures IsMinorNumeral(s)
  {
    assert ToLower(s) == s;
  }

  /** A numeral with an upper-case letter and no lower-case i is major. */
  lemma UpperIsMajor(s: string, k: int)
    requires 0 <= k < |s| && IsAsciiUpper(s[k])
    requires forall j :: 0 <= j < |s| ==> s[j] != 'i'
    ensures !IsMinorNumeral(s)
  {
    ToLowerHasNoUpper(s, k);
    IncludesNeedsFirst(s, "i");
  }

  /** A note name of capital letters and sharps, as every chromatic name is. */
  predicate PlainName(n: string)
  {
    forall k :: 0 <= k < |n| ==> IsAsciiUpper(n[k]) || n[k] == '#'
  }

  lemma ChromaticNamePlain(x: string)
    requires IndexOf(CHROMATIC_NOTES, x) >= 0
    ensures PlainName(x)
  {
    ChromaticNamePlainAt(IndexOf(CHROMATIC_NOTES, x));
  }

  lemma ChromaticNamePlainAt(i: int)
    requires 0 <= i < 12
    ensures PlainName(CHROMATIC_NOTES[i])
  {
    if i == 0 {} else if i == 1 {} else if i == 2 {} else if i == 3 {} else if i == 4 {} else if i == 5 {}
    else if i == 6 {} else if i == 7 {} else if i == 8 {} else if i == 9 {} else if i == 10 {} else {}
  }

  /** getChordNotes reads the quality the generator meant from its symbols:
      a plain name is major, with "m" after it minor, with "°" diminished. */
  lemma SymbolQualityOfName(n: string)
    requires PlainName(n)
    ensures SymbolQuality(n) == Major
    ensures SymbolQuality(n + "m") == Minor
    ensures SymbolQuality(n + "°") == Diminished
  {
    NameIsMajor(n);
    NameWithMIsMinor(n);
    IncludesAt(n + "°", "°", |n|);
  }

  lemma NameIsMajor(n: string)
    requires PlainName(n)
    ensures SymbolQuality(n) == Major
  {
    IncludesNeedsFirst(n, "°");
    IncludesNeedsFirst(n, "dim");
    IncludesNeedsFirst(n, "+");
    IncludesNeedsFirst(n, "aug");
    IncludesNeedsFirst(n, "m");
  }

  lemma NameWithMIsMinor(n: string)
    requires PlainName(n)
    ensures SymbolQuality(n + "m") == Minor
  {
    var m := n + "m";
    assert forall k :: 0 <= k < |m| ==> m[k] == 'm' || IsAsciiUpper(m[k]) || m[k] == '#';
    IncludesNeedsFirst(m, "°");
    IncludesNeedsFirst(m, "dim");
    IncludesNeedsFirst(m, "+");
    IncludesNeedsFirst(m, "aug");
    IncludesAt(m, "m", |n|);
    IncludesMeaning(m, "maj");
    forall i | 0 <= i && i + 3 <= |m|
      ensures !OccursAt(m, i, "maj")
    {
      assert m[i..i + 3][1] == m[i + 1];
    }
  }

  /** An item's notes are the triad its quality names, built on the scale
      note of its degree, and the quality is the one getChordNotes reads
      back from the item's symbol. */
  lemma ItemTriad(roman: string, degree: nat, scaleNotes: seq<string>, scaleType: string)
    requires degree < |scaleNotes| && IndexOf(CHROMATIC_NOTES, scaleNotes[degree]) >= 0
    ensures var item := ProgressionItem(roman, degree, scaleNotes, scaleType);
            SymbolQuality(item.symbol) == item.quality &&
            item.notes == NamesAbove(IndexOf(CHROMATIC_NOTES, scaleNotes[degree]), TriadIntervals(item.quality))
  {
    var item := ProgressionItem(roman, degree, scaleNotes, scaleType);
    SymbolQualityMatches(item.symbol, item.quality, scaleNotes[degree]);
    NotesOfQuality(scaleNotes[degree], scaleType, item.symbol, item.quality);
  }

  lemma SymbolQualityMatches(symbol: string, quality: Quality, chordRoot: string)
    requires IndexOf(CHROMATIC_NOTES, chordRoot) >= 0
    requires (symbol == chordRoot + "°" && quality == Diminished)
          || (symbol == chordRoot + "m" && quality == Minor)
          || (symbol == chordRoot && quality == Major)
    ensures SymbolQuality(symbol) == quality
  {
    ChromaticNamePlain(chordRoot);
    SymbolQualityOfName(chordRoot);
  }

  lemma NotesOfQuality(chordRoot: string, scaleType: string, symbol: string, quality: Quality)
    requires IndexOf(CHROMATIC_NOTES, chordRoot) >= 0
    requires SymbolQuality(symbol) == quality
    ensures ChordNotes(chordRoot, scaleType, symbol) == NamesAbove(IndexOf(CHROMATIC_NOTES, chordRoot), TriadIntervals(quality))
  {
  }

  /** The quality of an item for a known numeral: diminished exactly for
      "vii", minor exactly for the other lower-case numerals, major
      otherwise. */
  lemma ItemQuality(roman: string, degree: nat, scaleNotes: seq<string>, scaleType: string)
    requires degree < |scaleNotes| && Degree(roman).Some?
    ensures var q := ProgressionItem(roman, degree, scaleNotes, scaleType).quality;
            (q == Diminished <==> roman == "vii") &&
            (q == Minor <==> roman in LOWER_NUMERALS && roman != "vii") &&
            (q == Major <==> roman !in LOWER_NUMERALS)
  {
    NumeralQuality(roman);
  }

  /** The item generateChordProgression makes for numeral k, when every
      numeral is known, is the item for that numeral's degree of the scale. */
  lemma ProgressionItemAt(rootNote: string, scaleType: string, romans: seq<string>, k: int)
    requires IndexOf(CHROMATIC_NOTES, rootNote) >= 0
    requires forall i :: 0 <= i < |romans| ==> Degree(romans[i]).Some?
    requires 0 <= k < |romans|
    ensures var r := Progression(rootNote, scaleType, romans);
            var scaleNotes := NamesAbove(IndexOf(CHROMATIC_NOTES, rootNote), ProgressionScale(scaleType));
            |r| == |romans| && r[k] == ProgressionItem(romans[k], Degree(romans[k]).value, scaleNotes, scaleType)
  {
    var scaleNotes := NamesAbove(IndexOf(CHROMATIC_NOTES, rootNote), ProgressionScale(scaleType));
    KnownNumeralsKept(scaleNotes, scaleType, romans);
  }

  /** A scale type outside generateChordProgression's table gives the same
      progression as "major": the scale type only chooses the scale. */
  lemma UnknownScaleIsMajor(rootNote: string, scaleType: string, romans: seq<string>)
    requires forall i :: 0 <= i < |PROGRESSION_SCALES| ==> PROGRESSION_SCALES[i].0 != scaleType
    ensures Progression(rootNote, scaleType, romans) == Progression(rootNote, "major", romans)
  {
    assert ProgressionScale("major") == MAJOR_INTERVALS;
    var rootIndex := IndexOf(CHROMATIC_NOTES, rootNote);
    if rootIndex != -1 {
      ItemsIgnoreScaleType(NamesAbove(rootIndex, MAJOR_INTERVALS), scaleType, "major", romans);
    }
  }

  /** getChordNotes does not look at its scale type, so neither do the items. */
  lemma ItemsIgnoreScaleType(scaleNotes: seq<string>, scaleType: string, other: string, romans: seq<string>)
    requires |scaleNotes| == 7
    ensures ProgressionItems(scaleNotes, scaleType, romans) == ProgressionItems(scaleNotes, other, romans)
  {
    var f := (roman: string) requires |scaleNotes| == 7 => ItemFor(scaleNotes, scaleType, roman);
    var g := (roman: string) requires |scaleNotes| == 7 => ItemFor(scaleNotes, other, roman);
    forall x
      ensures f(x) == g(x)
    {
    }
    FilterMapSame(f, g, romans);
  }

  lemma {:induction false} FilterMapSame<A(!new), B>(f: A --> Option<B>, g: A --> Option<B>, xs: seq<A>)
    requires forall x :: f.requires(x) && g.requires(x)
    requires forall x :: f(x) == g(x)
    ensures FilterMap(f, xs) == FilterMap(g, xs)
  {
    if xs != [] {
      FilterMapSame(f, g, xs[..|xs| - 1]);
    }
  }

  /** Each numeral of ROMAN_NUMERALS has the degree written beside it. */
  lemma DegreeAt(i: int)
    requires 0 <= i < |ROMAN_NUMERALS|
    ensures Degree(ROMAN_NUMERALS[i].0) == Some(ROMAN_NUMERALS[i].1)
  {
    MusicTheory.LookupFirst(ROMAN_NUMERALS, i);
  }

  /** A numeral equal to entry i of ROMAN_NUMERALS has that entry's degree. */
  lemma DegreeOf(roman: string, i: int)
    requires 0 <= i < |ROMAN_NUMERALS| && roman == ROMAN_NUMERALS[i].0
    ensures Degree(roman) == Some(ROMAN_NUMERALS[i].1)
  {
    DegreeAt(i);
  }

  /** "bVII" names the same degree as "VII" ... */
  lemma FlatSevenDegree()
    ensures Degree("bVII") == Degree("VII") == Some(6)
  {
    DegreeAt(13);
    DegreeAt(14);
  }

  /** ... and makes the same chord there; only the numeral differs. */
  lemma FlatSevenIsSeven(scaleNotes: seq<string>, scaleType: string)
    requires |scaleNotes| == 7
    ensures ProgressionItem("bVII", 6, scaleNotes, scaleType)
            == ProgressionItem("VII", 6, scaleNotes, scaleType).(roman := "bVII")
  {
    PlainMajorNumeral("VII", 0);
    PlainMajorNumeral("bVII", 1);
    SameItemShape("bVII", "VII", scaleNotes[6], scaleNotes, scaleType);
  }

  /** A numeral built from 'b', 'V' and 'I', with at least one capital, is
      neither minor nor diminished. */
  lemma PlainMajorNumeral(s: string, k: int)
    requires 0 <= k < |s| && s[k] in "VI"
    requires forall j :: 0 <= j < |s| ==> s[j] in "bVI"
    ensures !IsMinorNumeral(s) && !IsDiminishedNumeral(s)
  {
    UpperIsMajor(s, k);
    IncludesNeedsFirst(s, "°");
    assert s != "vii" by { assert forall j :: 0 <= j < |"vii"| ==> "vii"[j] !in "VI"; }
  }

  /** Two numerals that are neither minor nor diminished give the same
      chord on the same degree. */
  lemma SameItemShape(a: string, b: string, chordRoot: string, scaleNotes: seq<string>, scaleType: string)
    requires |scaleNotes| == 7 && chordRoot == scaleNotes[6]
    requires !IsMinorNumeral(a) && !IsDiminishedNumeral(a) && !IsMinorNumeral(b) && !IsDiminishedNumeral(b)
    ensures ProgressionItem(a, 6, scaleNotes, scaleType) == ProgressionItem(b, 6, scaleNotes, scaleType).(roman := a)
  {
  }

  /** I-V-vi-IV in C major gives C, G, Am and F. */
  lemma PopProgressionInC(rootNote: string, scaleType: string, romans: seq<string>)
    requires rootNote == "C" && scaleType == "major" && romans == POP_NUMERALS
    ensures var r := Progression(rootNote, scaleType, romans);
            |r| == 4 && r[0].symbol == "C" && r[1].symbol == "G" && r[2].symbol == "Am" && r[3].symbol == "F"
  {
    PopSymbol(rootNote, scaleType, romans, 0);
    PopSymbol(rootNote, scaleType, romans, 1);
    PopSymbol(rootNote, scaleType, romans, 2);
    PopSymbol(rootNote, scaleType, romans, 3);
  }

  lemma PopSymbol(rootNote: string, scaleType: string, romans: seq<string>, k: int)
    requires rootNote == "C" && scaleType == "major" && romans == POP_NUMERALS && 0 <= k < 4
    ensures var r := Progression(rootNote, scaleType, romans);
            |r| == 4 && r[k].symbol == ["C", "G", "Am", "F"][k]
  {
    var scaleNotes := NamesAbove(0, MAJOR_INTERVALS);
    var degree := [0, 4, 5, 3][k];
    var suffix := ["", "", "m", ""][k];
    assert IndexOf(CHROMATIC_NOTES, rootNote) == 0;
    assert ProgressionScale(scaleType) == MAJOR_INTERVALS;
    PopDegrees(romans);
    assert Degree(romans[k]) == Some(degree) by {
      if k == 0 {
      } else if k == 1 {
      } else if k == 2 {
      } else {
      }
    }
    PopQualities(romans);
    assert suffix == (if IsDiminishedNumeral(romans[k]) then "°" else if IsMinorNumeral(romans[k]) then "m" else "") by {
      if k == 0 {
      } else if k == 1 {
      } else if k == 2 {
      } else {
      }
    }
    ProgressionSymbolAt(rootNote, scaleType, romans, k, degree, suffix);
    PopChordNames(k);
  }

  lemma PopChordNames(k: int)
    requires 0 <= k < 4
    ensures NamesAbove(0, MAJOR_INTERVALS)[[0, 4, 5, 3][k]] + ["", "", "m", ""][k] == ["C", "G", "Am", "F"][k]
  {
    var names := NamesAbove(0, MAJOR_INTERVALS);
    CMajorNotes();
    if k == 0 {
      assert names[0] + "" == "C";
    } else if k == 1 {
      assert names[4] + "" == "G";
    } else if k == 2 {
      assert names[5] + "m" == "Am";
    } else {
      assert names[3] + "" == "F";
    }
  }

  const POP_NUMERALS: seq<string> := ["I", "V", "vi", "IV"]

  lemma PopDegrees(romans: seq<string>)
    requires romans == POP_NUMERALS
    ensures Degree(romans[0]) == Some(0) && Degree(romans[1]) == Some(4)
    ensures Degree(romans[2]) == Some(5) && Degree(romans[3]) == Some(3)
    ensures forall i :: 0 <= i < |romans| ==> Degree(romans[i]).Some?
  {
    DegreeOf(romans[0], 0);
    DegreeOf(romans[1], 4);
    DegreeOf(romans[2], 5);
    DegreeOf(romans[3], 3);
    AllOfFour(romans, (roman: string) => Degree(roman).Some?, romans[0], romans[1], romans[2], romans[3]);
  }

  /** A property of each of four values holds of every element of their list. */
  lemma AllOfFour<T>(xs: seq<T>, p: T -> bool, a: T, b: T, c: T, d: T)
    requires xs == [a, b, c, d] && p(a) && p(b) && p(c) && p(d)
    ensures forall i :: 0 <= i < |xs| ==> p(xs[i])
  {
  }

  lemma PopQualities(romans: seq<string>)
    requires romans == POP_NUMERALS
    ensures !IsMinorNumeral(romans[0]) && !IsDiminishedNumeral(romans[0])
    ensures !IsMinorNumeral(romans[1]) && !IsDiminishedNumeral(romans[1])
    ensures IsMinorNumeral(romans[2]) && !IsDiminishedNumeral(romans[2])
    ensures !IsMinorNumeral(romans[3]) && !IsDiminishedNumeral(romans[3])
  {
    PlainMajorNumeral(romans[0], 0);
    PlainMajorNumeral(romans[1], 0);
    PlainMajorNumeral(romans[3], 0);
    LowerIsMinor(romans[2]);
    IncludesNeedsFirst(romans[2], "°");
  }

  /** The notes of C major are the natural notes. */
  lemma CMajorNotes()
    ensures NamesAbove(0, MAJOR_INTERVALS) == ["C", "D", "E", "F", "G", "A", "B"]
  {
    var names := NamesAbove(0, MAJOR_INTERVALS);
    forall k | 0 <= k < 7
      ensures names[k] == ["C", "D", "E", "F", "G", "A", "B"][k]
    {
      assert names[k] == NameAbove(0, MAJOR_INTERVALS[k]);
      NthIsIndex(CHROMATIC_NOTES, Mod12(MAJOR_INTERVALS[k]));
      if k == 0 {
      } else if k == 1 {
      } else if k == 2 {
      } else if k == 3 {
      } else if k == 4 {
      } else if k == 5 {
      } else {
      }
    }
  }

  /** The symbol of item k is the scale note at the numeral's degree, with
      "°" for a diminished numeral, "m" for a minor one, nothing otherwise. */
  lemma ProgressionSymbolAt(rootNote: string, scaleType: string, romans: seq<string>, k: int, degree: nat, suffix: string)
    requires IndexOf(CHROMATIC_NOTES, rootNote) >= 0
    requires forall i :: 0 <= i < |romans| ==> Degree(romans[i]).Some?
    requires 0 <= k < |romans| && Degree(romans[k]) == Some(degree)
    requires suffix == (if IsDiminishedNumeral(romans[k]) then "°" else if IsMinorNumeral(romans[k]) then "m" else "")
    ensures var r := Progression(rootNote, scaleType, romans);
            var scaleNotes := NamesAbove(IndexOf(CHROMATIC_NOTES, rootNote), ProgressionScale(scaleType));
            |r| == |romans| && r[k].symbol == scaleNotes[degree] + suffix
  {
    ProgressionItemAt(rootNote, scaleType, romans, k);
  }

  /** A scale's intervals, all of which are at least 0, as naturals. */
  function Naturals(ivs: seq<int>): (r: seq<nat>)
    requires forall i :: 0 <= i < |ivs| ==> ivs[i] >= 0
    ensures |r| == |ivs| && forall i :: 0 <= i < |r| ==> r[i] == ivs[i]
  {
    seq(|ivs|, i requires 0 <= i < |ivs| => ivs[i] as nat)
  }

  /** The suffix romanNumeralToChord gives a numeral: it marks only numerals
      with "°" diminished, so "vii" comes out minor. */
  function RomanSuffix(roman: string): string
  {
    if Includes(roman, "°") then "°" else if IsMinorNumeral(roman) then "m" else ""
  }

  /** The symbol for a numeral on a degree of the given scale notes. A degree
      past the end of a short scale reads an undefined scale note:
      JavaScript then appends the suffix to the word "undefined", or returns
      undefined itself when there is no suffix, which is None here. */
  function SymbolOnDegree(roman: string, degree: nat, scaleNotes: seq<string>): (r: Option<string>)
  {
    var suffix := RomanSuffix(roman);
    if degree < |scaleNotes| then Some(scaleNotes[degree] + suffix)
    else if suffix == "" then None
    else Some("undefined" + suffix)
  }

  /** romanNumeralToChord: the chord symbol of one numeral in a scale of the
      music-theory table; an unknown numeral, scale type or root gives "". */
  function RomanNumeralToChord(roman: string, rootNote: string, scaleType: string): (r: Option<string>)
    ensures Degree(roman).None? ==> r == Some("")
    ensures MusicTheory.FindScale(scaleType).None? ==> r == Some("")
    ensures IndexOf(CHROMATIC_NOTES, rootNote) == -1 ==> r == Some("")
  {
    match Degree(roman)
    case None => Some("")
    case Some(degree) =>
      match MusicTheory.FindScale(scaleType)
      case None => Some("")
      case Some(scale) =>
        var rootIndex := IndexOf(CHROMATIC_NOTES, rootNote);
        if rootIndex == -1 then Some("")
        else
          MusicTheory.FoundScaleWellFormed(scaleType);
          SymbolOnDegree(roman, degree, NamesAbove(rootIndex, Naturals(scale.intervals)))
  }

  /** When numeral, scale type and root are all known, the result is the
      symbol on the numeral's degree of the root's scale. */
  lemma RomanChordOnScale(roman: string, rootNote: string, scaleType: string, degree: nat, scale: MusicTheory.Scale)
    requires Degree(roman) == Some(degree) && MusicTheory.FindScale(scaleType) == Some(scale)
    requires IndexOf(CHROMATIC_NOTES, rootNote) >= 0
    requires forall i :: 0 <= i < |scale.intervals| ==> scale.intervals[i] >= 0
    ensures RomanNumeralToChord(roman, rootNote, scaleType)
            == SymbolOnDegree(roman, degree, NamesAbove(IndexOf(CHROMATIC_NOTES, rootNote), Naturals(scale.intervals)))
  {
  }

  /** Inside the scale, the symbol is a chromatic name whose pitch class is
      the degree's interval above the root, followed by the numeral's suffix. */
  lemma RomanChordInScale(roman: string, rootNote: string, scaleType: string, degree: nat, scale: MusicTheory.Scale)
    requires Degree(roman) == Some(degree) && MusicTheory.FindScale(scaleType) == Some(scale)
    requires IndexOf(CHROMATIC_NOTES, rootNote) >= 0 && degree < |scale.intervals|
    ensures var r := RomanNumeralToChord(roman, rootNote, scaleType);
            r.Some? &&
            exists note :: r.value == note + RomanSuffix(roman) &&
              IndexOf(CHROMATIC_NOTES, note) == Mod12(IndexOf(CHROMATIC_NOTES, rootNote) + scale.intervals[degree])
  {
    MusicTheory.FoundScaleWellFormed(scaleType);
    var rootIndex := IndexOf(CHROMATIC_NOTES, rootNote);
    var ivs := Naturals(scale.intervals);
    RomanChordOnScale(roman, rootNote, scaleType, degree, scale);
    SymbolInRange(roman, degree, rootIndex, ivs);
  }

  lemma SymbolInRange(roman: string, degree: nat, rootIndex: nat, ivs: seq<nat>)
    requires degree < |ivs|
    ensures var r := SymbolOnDegree(roman, degree, NamesAbove(rootIndex, ivs));
            r.Some? &&
            exists note :: r.value == note + RomanSuffix(roman) &&
              IndexOf(CHROMATIC_NOTES, note) == Mod12(rootIndex + ivs[degree])
  {
    var note := NamesAbove(rootIndex, ivs)[degree];
    NamesAboveIndex(rootIndex, ivs, degree);
    assert SymbolOnDegree(roman, degree, NamesAbove(rootIndex, ivs)).value == note + RomanSuffix(roman);
  }

  /** Past the end of a short scale the chord root is undefined: a numeral
      with a suffix gives that suffix after "undefined", and a major numeral
      gives undefined itself. */
  lemma RomanChordPastScale(roman: string, rootNote: string, scaleType: string, degree: nat, scale: MusicTheory.Scale)
    requires Degree(roman) == Some(degree) && MusicTheory.FindScale(scaleType) == Some(scale)
    requires IndexOf(CHROMATIC_NOTES, rootNote) >= 0 && degree >= |scale.intervals|
    ensures var r := RomanNumeralToChord(roman, rootNote, scaleType);
            (Includes(roman, "°") ==> r == Some("undefined°")) &&
            (!Includes(roman, "°") && IsMinorNumeral(roman) ==> r == Some("undefinedm")) &&
            (!Includes(roman, "°") && !IsMinorNumeral(roman) ==> r.None?)
  {
    MusicTheory.FoundScaleWellFormed(scaleType);
    RomanChordOnScale(roman, rootNote, scaleType, degree, scale);
    SymbolPastEnd(roman, degree, NamesAbove(IndexOf(CHROMATIC_NOTES, rootNote), Naturals(scale.intervals)));
  }

  lemma SymbolPastEnd(roman: string, degree: nat, scaleNotes: seq<string>)
    requires degree >= |scaleNotes|
    ensures var r := SymbolOnDegree(roman, degree, scaleNotes);
            (Includes(roman, "°") ==> r == Some("undefined°")) &&
            (!Includes(roman, "°") && IsMinorNumeral(roman) ==> r == Some("undefinedm")) &&
            (!Includes(roman, "°") && !IsMinorNumeral(roman) ==> r.None?)
  {
    assert "undefined" + "°" == "undefined°";
    assert "undefined" + "m" == "undefinedm";
  }

  /** On the same scale notes, romanNumeralToChord and
      generateChordProgression name the same chord, except for "vii". */
  lemma SymbolAgreesWithItem(roman: string, degree: nat, scaleNotes: seq<string>, scaleType: string)
    requires degree < |scaleNotes| && roman != "vii"
    ensures SymbolOnDegree(roman, degree, scaleNotes) == Some(ProgressionItem(roman, degree, scaleNotes, scaleType).symbol)
  {
    ItemSymbol(roman, degree, scaleNotes, scaleType);
  }

  /** An item's symbol is its scale note followed by the suffix of its
      quality. */
  lemma ItemSymbol(roman: string, degree: nat, scaleNotes: seq<string>, scaleType: string)
    requires degree < |scaleNotes|
    ensures ProgressionItem(roman, degree, scaleNotes, scaleType).symbol
            == scaleNotes[degree] + (if IsDiminishedNumeral(roman) then "°" else if IsMinorNumeral(roman) then "m" else "")
  {
    assert scaleNotes[degree] + "" == scaleNotes[degree];
  }

  /** For "vii" they disagree: minor here, diminished in the progression. */
  lemma SeventhSymbolDisagrees(degree: nat, scaleNotes: seq<string>, scaleType: string)
    requires degree < |scaleNotes|
    ensures SymbolOnDegree("vii", degree, scaleNotes) == Some(scaleNotes[degree] + "m")
    ensures ProgressionItem("vii", degree, scaleNotes, scaleType).symbol == scaleNotes[degree] + "°"
  {
    LowerIsMinor("vii");
    IncludesNeedsFirst("vii", "°");
  }

  /** For a scale both tables share, romanNumeralToChord gives the symbol
      generateChordProgression gives, except for "vii". */
  lemma RomanChordAgreesWithProgression(roman: string, rootNote: string, scaleType: string, degree: nat, scale: MusicTheory.Scale)
    requires Degree(roman) == Some(degree) && MusicTheory.FindScale(scaleType) == Some(scale)
    requires IndexOf(CHROMATIC_NOTES, rootNote) >= 0 && scale.intervals == ProgressionScale(scaleType)
    requires roman != "vii"
    ensures var scaleNotes := NamesAbove(IndexOf(CHROMATIC_NOTES, rootNote), ProgressionScale(scaleType));
            RomanNumeralToChord(roman, rootNote, scaleType)
            == Some(ProgressionItem(roman, degree, scaleNotes, scaleType).symbol)
  {
    MusicTheory.FoundScaleWellFormed(scaleType);
    RomanChordOnScale(roman, rootNote, scaleType, degree, scale);
    assert Naturals(scale.intervals) == ProgressionScale(scaleType);
    SymbolAgreesWithItem(roman, degree, NamesAbove(IndexOf(CHROMATIC_NOTES, rootNote), ProgressionScale(scaleType)), scaleType);
  }

  /** "ionian" is in both tables with the same intervals, so the agreement
      above applies to it. */
  lemma IonianInBothTables()
    ensures MusicTheory.FindScale("ionian") == Some(MusicTheory.IONIAN)
    ensures MusicTheory.IONIAN.intervals == ProgressionScale("ionian")
  {
    MusicTheory.LookupFirst(MusicTheory.SCALES, 0);
    MusicTheory.LookupFirst(PROGRESSION_SCALES, 1);
  }

  /** "major" is not a key of the music-theory table, so romanNumeralToChord
      gives "" for it, while generateChordProgression accepts it. */
  lemma MajorIsNoScaleType(roman: string, rootNote: string, scaleType: string)
    requires scaleType == "major"
    ensures RomanNumeralToChord(roman, rootNote, scaleType) == Some("")
  {
    assert forall i :: 0 <= i < |MusicTheory.SCALES| ==> MusicTheory.SCALES[i].0 != scaleType;
  }
}
