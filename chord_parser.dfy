/** The chord-symbol parser of the arpeggio generator (shared/arpeggio.ts,
    parseChordIntervals): a symbol such as "Gmaj7" becomes the ascending list
    of its semitone offsets from the root. The symbol is lower-cased first, and
    every test below reads the lower-cased text. */
module ChordParser {
  import opened Js
  import opened MusicTheory

  /** `c` at position `i` is not preceded by a lower-case ASCII letter
      (the regular-expression prefix `(^|[^a-z])`). */
  predicate StartsWord(s: string, i: int)
    requires 0 <= i < |s|
  {
    i == 0 || !IsAsciiLower(s[i - 1])
  }

  /** An "m" at `i` that starts a word and is not followed by "aj". */
  predicate MinorMarkAt(s: string, i: int)
    requires 0 <= i < |s|
  {
    s[i] == 'm' && StartsWord(s, i) && !OccursAt(s, i + 1, "aj")
  }

  /** A "7" at `i` that starts a word and is not followed by a digit. */
  predicate SeventhMarkAt(s: string, i: int)
    requires 0 <= i < |s|
  {
    s[i] == '7' && StartsWord(s, i) && !(i + 1 < |s| && IsDigit(s[i + 1]))
  }

  predicate MinorMarkFrom(s: string, i: nat)
    decreases |s| - i
  {
    i < |s| && (MinorMarkAt(s, i) || MinorMarkFrom(s, i + 1))
  }

  predicate SeventhMarkFrom(s: string, i: nat)
    decreases |s| - i
  {
    i < |s| && (SeventhMarkAt(s, i) || SeventhMarkFrom(s, i + 1))
  }

  /** The scans find a mark exactly when one occurs at some position. */
  lemma {:induction false} MarkFromMeaning(s: string, i: nat)
    ensures MinorMarkFrom(s, i) <==> exists j :: i <= j < |s| && MinorMarkAt(s, j)
    ensures SeventhMarkFrom(s, i) <==> exists j :: i <= j < |s| && SeventhMarkAt(s, j)
    decreases |s| - i
  {
    if i < |s| {
      MarkFromMeaning(s, i + 1);
    }
  }

  /** `/(^|[^a-z])m(?!aj)/`: a minor "m". */
  predicate IsMinor(s: string) { MinorMarkFrom(s, 0) }

  /** Diminished: "dim", or the mis-encoded degree sign "Â°". The sign's capital
      letter can never survive lower-casing, so only "dim" counts in practice. */
  predicate IsDim(s: string) { Includes(s, "dim") || Includes(s, "\U{C2}\U{B0}") }

  predicate IsAug(s: string) { Includes(s, "aug") || Includes(s, "+") }

  predicate HasMaj7(s: string) { Includes(s, "maj7") }

  /** `/(^|[^a-z])7(?!\d)/`, unless the symbol is a major, diminished or
      half-diminished seventh. */
  predicate HasDom7(s: string)
  {
    SeventhMarkFrom(s, 0) && !HasMaj7(s) && !Includes(s, "dim7") && !Includes(s, "m7b5")
  }

  predicate HasMin7(s: string) { Includes(s, "m7") && !Includes(s, "maj7") && !Includes(s, "m7b5") }

  predicate IsHalfDim(s: string) { Includes(s, "m7b5") }

  predicate IsDim7(s: string) { Includes(s, "dim7") }

  /** The tests parseChordIntervals reads off the lower-cased symbol. */
  datatype Features = Features(
    isMinor: bool, isDim: bool, isAug: bool,
    hasMaj7: bool, hasDom7: bool, hasMin7: bool, isHalfDim: bool, isDim7: bool,
    has9: bool, has11: bool, has13: bool)

  function FeaturesOf(s: string): Features
  {
    Features(IsMinor(s), IsDim(s), IsAug(s),
      HasMaj7(s), HasDom7(s), HasMin7(s), IsHalfDim(s), IsDim7(s),
      Includes(s, "9"), Includes(s, "11"), Includes(s, "13"))
  }

  /** The triad, by priority diminished, augmented, minor, major. */
  function TriadIntervals(f: Features): (r: set<int>)
    ensures 0 in r
    ensures forall v :: v in r ==> 0 <= v < 12
  {
    if f.isDim then {0, 3, 6}
    else if f.isAug then {0, 4, 8}
    else if f.isMinor then {0, 3, 7}
    else {0, 4, 7}
  }

  /** The seventh, by priority major, half-diminished, diminished, minor, dominant. */
  function SeventhIntervals(f: Features): (r: set<int>)
    ensures forall v :: v in r ==> 6 <= v < 12
  {
    if f.hasMaj7 then {11}
    else if f.isHalfDim then {6, 10}
    else if f.isDim7 then {6, 9}
    else if f.hasMin7 then {10}
    else if f.hasDom7 then {10}
    else {}
  }

  /** The ninth, eleventh and thirteenth, reduced into the octave. */
  function ExtensionIntervals(f: Features): (r: set<int>)
    ensures forall v :: v in r ==> 2 <= v <= 9
  {
    (if f.has9 then {2} else {}) + (if f.has11 then {5} else {}) + (if f.has13 then {9} else {})
  }

  function IntervalSetOf(f: Features): (r: set<int>)
    ensures 0 in r
    ensures forall v :: v in r ==> 0 <= v < 12
  {
    TriadIntervals(f) + SeventhIntervals(f) + ExtensionIntervals(f)
  }

  /** The semitone offsets a symbol denotes. */
  function ChordIntervalSet(symbol: string): (r: set<int>)
    ensures 0 in r
    ensures forall v :: v in r ==> 0 <= v < 12
  {
    IntervalSetOf(FeaturesOf(ToLower(symbol)))
  }

  /** The members of `s` in [lo, 12), in ascending order. */
  function AscendingFrom(s: set<int>, lo: nat): (r: seq<int>)
    requires lo <= 12
    ensures StrictlyIncreasing(r)
    ensures forall v :: v in r <==> v in s && lo <= v < 12
    ensures lo in s && lo < 12 ==> |r| > 0 && r[0] == lo
    decreases 12 - lo
  {
    if lo == 12 then []
    else
      var rest := AscendingFrom(s, lo + 1);
      if lo in s then
        assert forall j :: 0 <= j < |rest| ==> rest[j] in rest;
        [lo] + rest
      else rest
  }

  /** The ascending offsets of a symbol: what parseChordIntervals returns. */
  function ChordIntervals(symbol: string): seq<int>
  {
    AscendingFrom(ChordIntervalSet(symbol), 0)
  }

  /** Every parse is a well-formed interval list: it starts at the root,
      ascends strictly and stays within one octave. It is never empty, so an
      unrecognised symbol still yields a chord. */
  lemma ChordIntervalsWellFormed(symbol: string)
    ensures WellFormedIntervals(ChordIntervals(symbol))
    ensures forall v :: v in ChordIntervals(symbol) <==> v in ChordIntervalSet(symbol)
  {
    AscendingWellFormed(ChordIntervalSet(symbol));
  }

  /** The ascending list of a set of pitch classes holding 0 is well formed. */
  lemma AscendingWellFormed(s: set<int>)
    requires 0 in s && forall v :: v in s ==> 0 <= v < 12
    ensures WellFormedIntervals(AscendingFrom(s, 0))
  {
    var r := AscendingFrom(s, 0);
    forall i | 0 <= i < |r| ensures 0 <= r[i] < 12 {
      assert r[i] in r;
    }
  }

  /** parseChordIntervals: reads the tests off the lower-cased symbol, builds
      the offset set, normalises every offset into [0, 12) and lists them in
      ascending order. */
  method ParseChordIntervals(symbol: string) returns (ivs: seq<int>)
    ensures ivs == ChordIntervals(symbol)
    ensures WellFormedIntervals(ivs)
  {
    var s := ToLower(symbol);
    var intervals := AddIntervals(FeaturesOf(s));
    var normalized := Normalize(intervals);
    ivs := SortPitchClasses(normalized);
    ChordIntervalsWellFormed(symbol);
  }

  /** The set-building part: starts from {0} and adds the triad, the seventh
      and the extensions one offset at a time. */
  method AddIntervals(f: Features) returns (intervals: set<int>)
    ensures intervals == IntervalSetOf(f)
  {
    intervals := AddTriad(f);
    intervals := AddSeventh(f, intervals);
    intervals := AddExtensions(f, intervals);
  }

  method AddTriad(f: Features) returns (intervals: set<int>)
    ensures intervals == TriadIntervals(f)
  {
    intervals := {0};
    if f.isDim {
      intervals := intervals + {3}; intervals := intervals + {6};
    } else if f.isAug {
      intervals := intervals + {4}; intervals := intervals + {8};
    } else if f.isMinor {
      intervals := intervals + {3}; intervals := intervals + {7};
    } else {
      intervals := intervals + {4}; intervals := intervals + {7};
    }
  }

  method AddSeventh(f: Features, triad: set<int>) returns (intervals: set<int>)
    ensures intervals == triad + SeventhIntervals(f)
  {
    intervals := triad;
    if f.hasMaj7 {
      intervals := intervals + {11};
    } else if f.isHalfDim {
      intervals := intervals + {6}; intervals := intervals + {10};
    } else if f.isDim7 {
      intervals := intervals + {6}; intervals := intervals + {9};
    } else if f.hasMin7 {
      intervals := intervals + {10};
    } else if f.hasDom7 {
      intervals := intervals + {10};
    }
  }

  method AddExtensions(f: Features, chord: set<int>) returns (intervals: set<int>)
    ensures intervals == chord + ExtensionIntervals(f)
  {
    intervals := chord;
    if f.has9 { intervals := intervals + {14 % 12}; }
    if f.has11 { intervals := intervals + {17 % 12}; }
    if f.has13 { intervals := intervals + {21 % 12}; }
  }

  /** `((v % 12) + 12) % 12` on every member, which keeps offsets in [0, 12)
      as they are. Every offset is non-negative, so JavaScript's remainder
      agrees with Dafny's. */
  function Normalize(intervals: set<int>): (r: set<int>)
    ensures (forall v :: v in intervals ==> 0 <= v < 12) ==> r == intervals
  {
    var r := set v | v in intervals :: ((v % 12) + 12) % 12;
    assert (forall v :: v in intervals ==> 0 <= v < 12) ==> r == intervals by {
      if forall v :: v in intervals ==> 0 <= v < 12 {
        forall v | v in intervals ensures ((v % 12) + 12) % 12 == v && v in r {
        }
      }
    }
    r
  }

  /** The sort: a counting pass from the highest pitch class down. */
  method SortPitchClasses(s: set<int>) returns (ivs: seq<int>)
    ensures ivs == AscendingFrom(s, 0)
  {
    ivs := [];
    var k := 12;
    while k > 0
      invariant 0 <= k <= 12
      invariant ivs == AscendingFrom(s, k)
    {
      k := k - 1;
      if k in s {
        ivs := [k] + ivs;
      }
    }
  }

  /** The degree-sign test reads the lower-cased symbol, in which the capital
      "Â" cannot occur: only "dim" can make a chord diminished. */
  lemma DegreeSignNeverMatches(symbol: string)
    ensures !Includes(ToLower(symbol), "\U{C2}\U{B0}")
    ensures IsDim(ToLower(symbol)) <==> Includes(ToLower(symbol), "dim")
  {
    var s := ToLower(symbol);
    var sign := "\U{C2}\U{B0}";
    IncludesMeaning(s, sign);
    forall i ensures !OccursAt(s, i, sign) {
      if 0 <= i && i + 2 <= |s| {
        ToLowerHasNoUpper(symbol, i);
        assert s[i..i + 2][0] == s[i];
      }
    }
  }

  /** Two strictly increasing lists with the same members are equal. */
  lemma {:induction false} IncreasingUnique(a: seq<int>, b: seq<int>)
    requires StrictlyIncreasing(a) && StrictlyIncreasing(b)
    requires forall v :: v in a <==> v in b
    ensures a == b
    decreases |a|
  {
    if |a| == 0 {
      assert forall v :: v !in b;
    } else {
      assert a[0] in a;
      assert |b| > 0 && b[0] in b;
      var i :| 0 <= i < |b| && b[i] == a[0];
      var j :| 0 <= j < |a| && a[j] == b[0];
      HeadIsLeast(b, i);
      HeadIsLeast(a, j);
      forall v ensures v in a[1..] <==> v in b[1..] {
        if v in a[1..] {
          var k :| 1 <= k < |a| && a[k] == v;
          assert a[0] < a[k] && a[k] in a;
          var m :| 0 <= m < |b| && b[m] == v;
          assert m != 0;
          assert b[1..][m - 1] == v;
        }
        if v in b[1..] {
          var k :| 1 <= k < |b| && b[k] == v;
          assert b[0] < b[k] && b[k] in b;
          var m :| 0 <= m < |a| && a[m] == v;
          assert m != 0;
          assert a[1..][m - 1] == v;
        }
      }
      IncreasingUnique(a[1..], b[1..]);
      assert a == [a[0]] + a[1..];
      assert b == [b[0]] + b[1..];
    }
  }

  lemma HeadIsLeast(s: seq<int>, i: int)
    requires StrictlyIncreasing(s) && 0 <= i < |s|
    ensures s[0] <= s[i]
  {
  }

  /** The ascending list of a set of pitch classes, given as a display. */
  lemma AscendingIs(s: set<int>, r: seq<int>)
    requires StrictlyIncreasing(r)
    requires forall v :: v in r <==> v in s && 0 <= v < 12
    ensures AscendingFrom(s, 0) == r
  {
    IncreasingUnique(AscendingFrom(s, 0), r);
  }

  /** An unrecognised symbol gives the major triad. */
  lemma EmptySymbolIsMajor()
    ensures ChordIntervals("") == [0, 4, 7]
  {
    assert ToLower("") == "";
    assert FeaturesOf("") == Features(false, false, false, false, false, false, false, false, false, false, false);
    assert ChordIntervalSet("") == {0, 4, 7};
    AscendingIs({0, 4, 7}, [0, 4, 7]);
  }

  /** Lower-casing a literal, character by character. */
  lemma LowerIs(s: string, t: string)
    requires |s| == |t| && forall i :: 0 <= i < |s| ==> LowerChar(s[i]) == t[i]
    ensures ToLower(s) == t
  {
  }

  /** A worked example: once the tests of a symbol are known, its offsets
      are the strictly increasing list of the resulting set. */
  lemma ExampleFrom(symbol: string, f: Features, r: seq<int>)
    requires FeaturesOf(ToLower(symbol)) == f
    requires forall i :: 0 <= i < |r| - 1 ==> r[i] < r[i + 1]
    requires forall v :: v in r <==> v in IntervalSetOf(f)
    ensures ChordIntervals(symbol) == r
  {
    AdjacentIncreasing(r);
    AscendingIs(IntervalSetOf(f), r);
  }

  lemma NoMinorMark(s: string)
    requires forall j :: 0 <= j < |s| ==> !MinorMarkAt(s, j)
    ensures !IsMinor(s)
  {
    MarkFromMeaning(s, 0);
  }

  lemma NoSeventhMark(s: string)
    requires forall j :: 0 <= j < |s| ==> !SeventhMarkAt(s, j)
    ensures !SeventhMarkFrom(s, 0)
  {
    MarkFromMeaning(s, 0);
  }

  lemma MajorSeventhTests()
    ensures FeaturesOf("gmaj7") == Features(false, false, false, true, false, false, false, false, false, false, false)
  {
    NoMinorMark("gmaj7");
    assert !IsDim("gmaj7");
    assert !IsAug("gmaj7");
    assert HasMaj7("gmaj7");
    assert !HasDom7("gmaj7");
    assert !HasMin7("gmaj7");
    assert !IsHalfDim("gmaj7");
    assert !IsDim7("gmaj7");
    assert !Includes("gmaj7", "9");
    assert !Includes("gmaj7", "11");
    assert !Includes("gmaj7", "13");
  }

  /** A major seventh: "Gmaj7" gives [0, 4, 7, 11]. */
  lemma MajorSeventhExample()
    ensures ChordIntervals("Gmaj7") == [0, 4, 7, 11]
  {
    assert FeaturesOf(ToLower("Gmaj7")) == Features(false, false, false, true, false, false, false, false, false, false, false) by {
      LowerIs("Gmaj7", "gmaj7");
      MajorSeventhTests();
    }
    assert IntervalSetOf(Features(false, false, false, true, false, false, false, false, false, false, false)) == {0, 4, 7, 11};
    ExampleFrom("Gmaj7", Features(false, false, false, true, false, false, false, false, false, false, false), [0, 4, 7, 11]);
  }

  lemma DiminishedSeventhTests()
    ensures FeaturesOf("cdim7") == Features(false, true, false, false, false, true, false, true, false, false, false)
  {
    NoMinorMark("cdim7");
    assert IsDim("cdim7");
    assert !IsAug("cdim7");
    assert !HasMaj7("cdim7");
    assert !HasDom7("cdim7");
    assert HasMin7("cdim7");
    assert !IsHalfDim("cdim7");
    assert IsDim7("cdim7");
    assert !Includes("cdim7", "9");
    assert !Includes("cdim7", "11");
    assert !Includes("cdim7", "13");
  }

  /** A diminished seventh: "Cdim7" gives [0, 3, 6, 9]; the diminished seventh
      outranks the "m7" the symbol also contains. */
  lemma DiminishedSeventhExample()
    ensures ChordIntervals("Cdim7") == [0, 3, 6, 9]
  {
    assert FeaturesOf(ToLower("Cdim7")) == Features(false, true, false, false, false, true, false, true, false, false, false) by {
      LowerIs("Cdim7", "cdim7");
      DiminishedSeventhTests();
    }
    assert IntervalSetOf(Features(false, true, false, false, false, true, false, true, false, false, false)) == {0, 3, 6, 9};
    ExampleFrom("Cdim7", Features(false, true, false, false, false, true, false, true, false, false, false), [0, 3, 6, 9]);
  }

  lemma MinorSeventhAfterLetterTests()
    ensures FeaturesOf("am7") == Features(false, false, false, false, false, true, false, false, false, false, false)
  {
    NoMinorMark("am7");
    assert !IsDim("am7");
    assert !IsAug("am7");
    assert !HasMaj7("am7");
    assert !HasDom7("am7");
    assert HasMin7("am7");
    assert !IsHalfDim("am7");
    assert !IsDim7("am7");
    assert !Includes("am7", "9");
    assert !Includes("am7", "11");
    assert !Includes("am7", "13");
  }

  /** "Am7" gives [0, 4, 7, 10]: the "m" follows the root letter, so the triad
      stays major and only the minor seventh is added. */
  lemma MinorSeventhAfterLetterExample()
    ensures ChordIntervals("Am7") == [0, 4, 7, 10]
  {
    assert FeaturesOf(ToLower("Am7")) == Features(false, false, false, false, false, true, false, false, false, false, false) by {
      LowerIs("Am7", "am7");
      MinorSeventhAfterLetterTests();
    }
    assert IntervalSetOf(Features(false, false, false, false, false, true, false, false, false, false, false)) == {0, 4, 7, 10};
    ExampleFrom("Am7", Features(false, false, false, false, false, true, false, false, false, false, false), [0, 4, 7, 10]);
  }

  lemma SeventhAfterLetterTests()
    ensures FeaturesOf("c7") == Features(false, false, false, false, false, false, false, false, false, false, false)
  {
    NoMinorMark("c7");
    assert !IsDim("c7");
    assert !IsAug("c7");
    assert !HasMaj7("c7");
    assert !HasDom7("c7");
    assert !HasMin7("c7");
    assert !IsHalfDim("c7");
    assert !IsDim7("c7");
    assert !Includes("c7", "9");
    assert !Includes("c7", "11");
    assert !Includes("c7", "13");
  }

  /** "C7" gives [0, 4, 7]: a "7" right after the root letter is not a dominant
      seventh mark. */
  lemma SeventhAfterLetterExample()
    ensures ChordIntervals("C7") == [0, 4, 7]
  {
    assert FeaturesOf(ToLower("C7")) == Features(false, false, false, false, false, false, false, false, false, false, false) by {
      LowerIs("C7", "c7");
      SeventhAfterLetterTests();
    }
    assert IntervalSetOf(Features(false, false, false, false, false, false, false, false, false, false, false)) == {0, 4, 7};
    ExampleFrom("C7", Features(false, false, false, false, false, false, false, false, false, false, false), [0, 4, 7]);
  }

  lemma HalfDiminishedAfterLetterTests()
    ensures FeaturesOf("am7b5") == Features(false, false, false, false, false, false, true, false, false, false, false)
  {
    NoMinorMark("am7b5");
    assert !IsDim("am7b5");
    assert !IsAug("am7b5");
    assert !HasMaj7("am7b5");
    assert !HasDom7("am7b5");
    assert !HasMin7("am7b5");
    assert IsHalfDim("am7b5");
    assert !IsDim7("am7b5");
    assert !Includes("am7b5", "9");
    assert !Includes("am7b5", "11");
    assert !Includes("am7b5", "13");
  }

  /** "Am7b5" gives [0, 4, 6, 7, 10]: a major triad plus the half-diminished
      offsets 6 and 10. */
  lemma HalfDiminishedAfterLetterExample()
    ensures ChordIntervals("Am7b5") == [0, 4, 6, 7, 10]
  {
    assert FeaturesOf(ToLower("Am7b5")) == Features(false, false, false, false, false, false, true, false, false, false, false) by {
      LowerIs("Am7b5", "am7b5");
      HalfDiminishedAfterLetterTests();
    }
    assert IntervalSetOf(Features(false, false, false, false, false, false, true, false, false, false, false)) == {0, 4, 6, 7, 10};
    ExampleFrom("Am7b5", Features(false, false, false, false, false, false, true, false, false, false, false), [0, 4, 6, 7, 10]);
  }

  lemma MinorAfterSharpTests()
    ensures FeaturesOf("c#m") == Features(true, false, false, false, false, false, false, false, false, false, false)
  {
    assert MinorMarkAt("c#m", 2);
    MarkFromMeaning("c#m", 0);
    assert !IsDim("c#m");
    assert !IsAug("c#m");
    assert !HasMaj7("c#m");
    assert !HasDom7("c#m");
    assert !HasMin7("c#m");
    assert !IsHalfDim("c#m");
    assert !IsDim7("c#m");
    assert !Includes("c#m", "9");
    assert !Includes("c#m", "11");
    assert !Includes("c#m", "13");
  }

  /** "C#m" gives [0, 3, 7]: after "#" the "m" starts a word, so it is minor. */
  lemma MinorAfterSharpExample()
    ensures ChordIntervals("C#m") == [0, 3, 7]
  {
    assert FeaturesOf(ToLower("C#m")) == Features(true, false, false, false, false, false, false, false, false, false, false) by {
      LowerIs("C#m", "c#m");
      MinorAfterSharpTests();
    }
    assert IntervalSetOf(Features(true, false, false, false, false, false, false, false, false, false, false)) == {0, 3, 7};
    ExampleFrom("C#m", Features(true, false, false, false, false, false, false, false, false, false, false), [0, 3, 7]);
  }

  lemma NinthTests()
    ensures FeaturesOf("c9") == Features(false, false, false, false, false, false, false, false, true, false, false)
  {
    NoMinorMark("c9");
    assert !IsDim("c9");
    assert !IsAug("c9");
    assert !HasMaj7("c9");
    assert !HasDom7("c9");
    assert !HasMin7("c9");
    assert !IsHalfDim("c9");
    assert !IsDim7("c9");
    assert Includes("c9", "9");
    assert !Includes("c9", "11");
    assert !Includes("c9", "13");
  }

  /** "C9" gives [0, 2, 4, 7]: the ninth enters reduced into the octave. */
  lemma NinthExample()
    ensures ChordIntervals("C9") == [0, 2, 4, 7]
  {
    assert FeaturesOf(ToLower("C9")) == Features(false, false, false, false, false, false, false, false, true, false, false) by {
      LowerIs("C9", "c9");
      NinthTests();
    }
    assert IntervalSetOf(Features(false, false, false, false, false, false, false, false, true, false, false)) == {0, 2, 4, 7};
    ExampleFrom("C9", Features(false, false, false, false, false, false, false, false, true, false, false), [0, 2, 4, 7]);
  }

}
