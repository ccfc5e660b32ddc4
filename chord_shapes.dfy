/** Chord shapes: their data tables, transposition to another root (which
    also renames the first ordinal of the shape's name), and the padding
    of a shape to the guitar's string count before it is drawn. */
module ChordShapes {
  import opened Js

  /** One string of a fingering: muted ('x') or a fret number, 0 being open. */
  datatype Fret = Muted | At(n: int)

  datatype Barre = Barre(fret: int, fromString: int, toString: int)

  /** A chord shape; `barres` is absent for shapes without a barre. */
  datatype ChordShape = ChordShape(name: string, fingering: seq<Fret>, barres: Option<seq<Barre>>,
                                   baseFret: int, fingers: seq<int>)

  /** Shapes for 7- and 8-string guitars, by chord root and string count. */
  const EXTENDED_SHAPES: map<string, map<int, seq<ChordShape>>> := map[
    "C" := map[
      7 := [
        ChordShape("C Major 7-String Open", [Muted, At(3), At(2), At(0), At(1), At(0), At(0)], None, 0, [0, 3, 2, 0, 1, 0, 0])
      ],
      8 := [
        ChordShape("C Major 8-String Open", [Muted, Muted, At(3), At(2), At(0), At(1), At(0), At(0)], None, 0, [0, 0, 3, 2, 0, 1, 0, 0])
      ]
    ],
    "D" := map[
      7 := [
        ChordShape("D Major 7-String Open", [Muted, Muted, At(0), At(2), At(3), At(2), At(0)], None, 0, [0, 0, 0, 1, 3, 2, 0])
      ],
      8 := [
        ChordShape("D Major 8-String Open", [Muted, Muted, Muted, At(0), At(2), At(3), At(2), At(0)], None, 0, [0, 0, 0, 0, 1, 3, 2, 0])
      ]
    ],
    "E" := map[
      7 := [
        ChordShape("E Major 7-String Open", [At(0), At(2), At(2), At(1), At(0), At(0), At(0)], None, 0, [0, 2, 3, 1, 0, 0, 0])
      ],
      8 := [
        ChordShape("E Major 8-String Open", [At(0), At(0), At(2), At(2), At(1), At(0), At(0), At(0)], None, 0, [0, 0, 2, 3, 1, 0, 0, 0])
      ]
    ],
    "F" := map[
      7 := [
        ChordShape("F Major 7-String Barre", [At(1), At(3), At(3), At(2), At(1), At(1), At(1)], Some([Barre(1, 0, 6)]), 0, [1, 3, 4, 2, 1, 1, 1])
      ],
      8 := [
        ChordShape("F Major 8-String Barre", [At(1), At(1), At(3), At(3), At(2), At(1), At(1), At(1)], Some([Barre(1, 0, 7)]), 0, [1, 1, 3, 4, 2, 1, 1, 1])
      ]
    ],
    "G" := map[
      7 := [
        ChordShape("G Major 7-String Open", [At(3), At(2), At(0), At(0), At(3), At(3), At(0)], None, 0, [3, 2, 0, 0, 1, 4, 0])
      ],
      8 := [
        ChordShape("G Major 8-String Open", [At(3), At(3), At(2), At(0), At(0), At(3), At(3), At(0)], None, 0, [2, 3, 1, 0, 0, 4, 5, 0])
      ]
    ],
    "A" := map[
      7 := [
        ChordShape("A Major 7-String Open", [Muted, At(0), At(2), At(2), At(2), At(0), At(0)], None, 0, [0, 0, 1, 2, 3, 0, 0])
      ],
      8 := [
        ChordShape("A Major 8-String Open", [Muted, Muted, At(0), At(2), At(2), At(2), At(0), At(0)], None, 0, [0, 0, 0, 1, 2, 3, 0, 0])
      ]
    ]
  ]

  /** Major shapes for a 6-string guitar, by chord root. */
  const BASIC_SHAPES: map<string, seq<ChordShape>> := map[
    "C" := [
      ChordShape("C Major Open", [Muted, At(3), At(2), At(0), At(1), At(0)], None, 0, [0, 3, 2, 0, 1, 0]),
      ChordShape("C Major Barre (3rd fret)", [At(3), At(3), At(5), At(5), At(5), At(3)], Some([Barre(3, 0, 5)]), 0, [1, 1, 3, 4, 4, 1])
    ],
    "D" := [
      ChordShape("D Major Open", [Muted, Muted, At(0), At(2), At(3), At(2)], None, 0, [0, 0, 0, 1, 3, 2]),
      ChordShape("D Major Barre (5th fret)", [At(5), At(5), At(7), At(7), At(7), At(5)], Some([Barre(5, 0, 5)]), 0, [1, 1, 3, 4, 4, 1])
    ],
    "E" := [
      ChordShape("E Major Open", [At(0), At(2), At(2), At(1), At(0), At(0)], None, 0, [0, 2, 3, 1, 0, 0])
    ],
    "F" := [
      ChordShape("F Major Barre (1st fret)", [At(1), At(1), At(3), At(3), At(3), At(1)], Some([Barre(1, 0, 5)]), 0, [1, 1, 3, 4, 4, 1])
    ],
    "G" := [
      ChordShape("G Major Open", [At(3), At(2), At(0), At(0), At(0), At(3)], None, 0, [3, 2, 0, 0, 0, 4]),
      ChordShape("G Major Barre (3rd fret)", [At(3), At(3), At(5), At(5), At(5), At(3)], Some([Barre(3, 0, 5)]), 0, [1, 1, 3, 4, 4, 1])
    ],
    "A" := [
      ChordShape("A Major Open", [Muted, At(0), At(2), At(2), At(2), At(0)], None, 0, [0, 0, 1, 2, 3, 0])
    ],
    "B" := [
      ChordShape("B Major Barre (2nd fret)", [At(2), At(2), At(4), At(4), At(4), At(2)], Some([Barre(2, 0, 5)]), 0, [1, 1, 3, 4, 4, 1])
    ]
  ]

  /** Minor shapes, by chord root followed by "m". */
  const MINOR_SHAPES: map<string, seq<ChordShape>> := map[
    "Am" := [
      ChordShape("A Minor Open", [Muted, At(0), At(2), At(2), At(1), At(0)], None, 0, [0, 0, 2, 3, 1, 0])
    ],
    "Dm" := [
      ChordShape("D Minor Open", [Muted, Muted, At(0), At(2), At(3), At(1)], None, 0, [0, 0, 0, 1, 3, 2])
    ],
    "Em" := [
      ChordShape("E Minor Open", [At(0), At(2), At(2), At(0), At(0), At(0)], None, 0, [0, 2, 3, 0, 0, 0])
    ]
  ]
  const ORDINAL_SUFFIXES: seq<string> := ["st", "nd", "rd", "th"]

  /** getOrdinalSuffix: "st", "nd" or "rd" after a last digit 1, 2 or 3
      unless the last two digits are 11, 12 or 13; "th" otherwise. The
      remainders are JavaScript's, negative for a negative number. */
  function OrdinalSuffix(num: int): (r: string)
    ensures r in ORDINAL_SUFFIXES
  {
    var j := Rem(num, 10);
    var k := Rem(num, 100);
    if j == 1 && k != 11 then "st"
    else if j == 2 && k != 12 then "nd"
    else if j == 3 && k != 13 then "rd"
    else "th"
  }

  /** On natural numbers: 11, 12 and 13 (and whatever ends in them) take
      "th", the rest follow their last digit. */
  lemma OrdinalOfNatural(n: nat)
    ensures 11 <= n % 100 <= 13 ==> OrdinalSuffix(n) == "th"
    ensures !(11 <= n % 100 <= 13) ==>
      OrdinalSuffix(n) == (if n % 10 == 1 then "st" else if n % 10 == 2 then "nd" else if n % 10 == 3 then "rd" else "th")
  {
    assert n % 100 == 11 ==> n % 10 == 1;
    assert n % 100 == 12 ==> n % 10 == 2;
    assert n % 100 == 13 ==> n % 10 == 3;
  }

  /** A negative number always takes "th": its remainders are never positive. */
  lemma OrdinalOfNegative(n: int)
    requires n < 0
    ensures OrdinalSuffix(n) == "th"
  {
  }

  /** The suffix repeats every hundred. */
  lemma OrdinalCentury(n: nat)
    ensures OrdinalSuffix(n + 100) == OrdinalSuffix(n)
  {
    assert (n + 100) % 10 == n % 10;
    assert (n + 100) % 100 == n % 100;
  }

  /** The regular expression `\d+(st|nd|rd|th)` matches s[p..q + 2], with
      its digits at s[p..q]. */
  predicate OrdinalAt(s: string, p: int, q: int)
  {
    && 0 <= p < q && q + 2 <= |s|
    && (forall i :: p <= i < q ==> IsDigit(s[i]))
    && s[q..q + 2] in ORDINAL_SUFFIXES
  }

  /** The end of the run of digits that starts at p. */
  function DigitsEnd(s: string, p: int): (q: int)
    requires 0 <= p <= |s|
    ensures p <= q <= |s|
    ensures forall i :: p <= i < q ==> IsDigit(s[i])
    ensures q < |s| ==> !IsDigit(s[q])
    decreases |s| - p
  {
    if p < |s| && IsDigit(s[p]) then DigitsEnd(s, p + 1) else p
  }

  /** Every suffix begins and ends with a letter. */
  lemma SuffixLetters(s: string, q: int)
    requires 0 <= q && q + 2 <= |s|
    ensures s[q..q + 2] in ORDINAL_SUFFIXES ==> !IsDigit(s[q]) && !IsDigit(s[q + 1])
  {
    assert s[q] == s[q..q + 2][0] && s[q + 1] == s[q..q + 2][1];
  }

  /** A match's digits are the whole run of digits from its start: the
      suffix begins with a letter, so the greedy `\d+` can neither stop
      short of it nor run past it. */
  lemma OrdinalEndsRun(s: string, p: int, q: int)
    requires OrdinalAt(s, p, q)
    ensures q == DigitsEnd(s, p)
  {
    var e := DigitsEnd(s, p);
    SuffixLetters(s, q);
  }

  lemma NoOrdinalAt(s: string, p: int)
    requires 0 <= p <= |s|
    requires var e := DigitsEnd(s, p); !(p < e && e + 2 <= |s| && s[e..e + 2] in ORDINAL_SUFFIXES)
    ensures forall q :: !OrdinalAt(s, p, q)
  {
    forall q | OrdinalAt(s, p, q)
      ensures false
    {
      OrdinalEndsRun(s, p, q);
    }
  }

  /** The leftmost match at or after `from`, as a non-global `replace` finds
      it: the start and the end of its digits. */
  function FirstOrdinal(s: string, from: int): (r: Option<(int, int)>)
    requires 0 <= from <= |s|
    ensures r.Some? ==> from <= r.value.0 && OrdinalAt(s, r.value.0, r.value.1)
    ensures r.Some? ==> forall p, q :: from <= p < r.value.0 ==> !OrdinalAt(s, p, q)
    ensures r.None? ==> forall p, q :: from <= p ==> !OrdinalAt(s, p, q)
    decreases |s| - from
  {
    if from == |s| then None
    else
      var q := DigitsEnd(s, from);
      if from < q && q + 2 <= |s| && s[q..q + 2] in ORDINAL_SUFFIXES then Some((from, q))
      else
        NoOrdinalAt(s, from);
        FirstOrdinal(s, from + 1)
  }

  /** The name with its first ordinal moved `semitones` on and given the
      matching suffix; a name without an ordinal is returned unchanged. */
  function TransposeName(name: string, semitones: int): (r: string)
    ensures FirstOrdinal(name, 0).None? ==> r == name
  {
    match FirstOrdinal(name, 0)
    case None => name
    case Some((p, q)) =>
      assert forall i :: 0 <= i < q - p ==> name[p..q][i] == name[p + i];
      var n := DigitsValue(name[p..q]) + semitones;
      ReplaceOrdinal(name, p, q, n)
  }

  /** `name` with the ordinal whose digits are name[p..q] replaced by n and
      its suffix. */
  function ReplaceOrdinal(name: string, p: int, q: int, n: int): string
    requires 0 <= p <= q && q + 2 <= |name|
  {
    name[..p] + IntToString(n) + OrdinalSuffix(n) + name[q + 2..]
  }

  /** The first ordinal does not start in the middle of a run of digits. */
  lemma DigitBeforeFirst(name: string, p: int, q: int)
    requires FirstOrdinal(name, 0) == Some((p, q)) && p > 0
    ensures !IsDigit(name[p - 1])
  {
    assert !OrdinalAt(name, p - 1, q);
  }

  /** Text that agrees with `name` before p, where `name` has no ordinal
      and no digit just before p, and that has a digit at p, has no ordinal
      starting before p either. */
  lemma NoOrdinalBefore(name: string, s: string, p: int)
    requires 0 <= p < |s| && p <= |name| && s[..p] == name[..p] && IsDigit(s[p])
    requires forall p', q' :: 0 <= p' < p ==> !OrdinalAt(name, p', q')
    requires p > 0 ==> !IsDigit(name[p - 1])
    ensures forall p', q' :: 0 <= p' < p ==> !OrdinalAt(s, p', q')
  {
    assert forall i :: 0 <= i < p ==> s[i] == name[i];
    forall p', q' | 0 <= p' < p
      ensures !OrdinalAt(s, p', q')
    {
      if 0 <= q' && q' + 2 <= p {
        assert s[q'..q' + 2] == name[q'..q' + 2];
        assert !OrdinalAt(name, p', q');
      } else if 0 <= q' < p && q' + 2 <= |s| {
        SuffixLetters(s, q');
      }
    }
  }

  /** A run of digits and a suffix spell an ordinal, between any two texts. */
  lemma OrdinalWritten(pre: string, t: string, u: string, post: string)
    requires |t| >= 1 && (forall i :: 0 <= i < |t| ==> IsDigit(t[i])) && u in ORDINAL_SUFFIXES
    ensures OrdinalAt(pre + t + u + post, |pre|, |pre| + |t|)
  {
    var s := pre + t + u + post;
    var e := |pre| + |t|;
    assert forall i :: |pre| <= i < e ==> s[i] == t[i - |pre|];
    assert s[e..e + 2] == u;
  }

  /** An ordinal with none before it is the first one. */
  lemma FirstOrdinalIs(s: string, p: int, e: int)
    requires OrdinalAt(s, p, e)
    requires forall p', q' :: 0 <= p' < p ==> !OrdinalAt(s, p', q')
    ensures FirstOrdinal(s, 0) == Some((p, e))
  {
    var r := FirstOrdinal(s, 0);
    assert r.Some? && r.value.0 == p;
    OrdinalEndsRun(s, p, e);
    OrdinalEndsRun(s, p, r.value.1);
  }

  /** Writing digits and a suffix in place of an ordinal with none before
      it, and no digit just before it, gives an ordinal with none before it. */
  lemma RewrittenOrdinalAt(name: string, p: int, q: int, t: string, u: string, s: string)
    requires OrdinalAt(name, p, q)
    requires forall p', q' :: 0 <= p' < p ==> !OrdinalAt(name, p', q')
    requires p > 0 ==> !IsDigit(name[p - 1])
    requires |t| >= 1 && (forall i :: 0 <= i < |t| ==> IsDigit(t[i])) && u in ORDINAL_SUFFIXES
    requires s == name[..p] + t + u + name[q + 2..]
    ensures OrdinalAt(s, p, p + |t|)
    ensures forall p', q' :: 0 <= p' < p ==> !OrdinalAt(s, p', q')
  {
    OrdinalWritten(name[..p], t, u, name[q + 2..]);
    assert s[..p] == name[..p];
    assert s[p] == t[0];
    NoOrdinalBefore(name, s, p);
  }

  /** Writing digits and a suffix in place of the first ordinal leaves the
      new ordinal the first one. */
  lemma {:induction false} RewrittenOrdinalFirst(name: string, p: int, q: int, t: string, u: string, s: string)
    requires FirstOrdinal(name, 0) == Some((p, q))
    requires |t| >= 1 && (forall i :: 0 <= i < |t| ==> IsDigit(t[i])) && u in ORDINAL_SUFFIXES
    requires s == name[..p] + t + u + name[q + 2..]
    ensures FirstOrdinal(s, 0) == Some((p, p + |t|))
  {
    if p > 0 {
      DigitBeforeFirst(name, p, q);
    }
    RewrittenOrdinalAt(name, p, q, t, u, s);
    FirstOrdinalIs(s, p, p + |t|);
  }

  /** The pieces of a concatenation, recovered by slicing. */
  lemma Pieces(s: string, x: string, y: string, z: string, w: string)
    requires s == x + y + z + w
    ensures s[..|x|] == x && s[|x|..|x| + |y|] == y && s[|x| + |y| + |z|..] == w
  {
  }

  /** Transposing text reads the number of its first ordinal. */
  lemma TransposeReads(s: string, p: int, e: int, t: string, v: int, b: int)
    requires FirstOrdinal(s, 0) == Some((p, e)) && s[p..e] == t
    requires (forall i :: 0 <= i < |t| ==> IsDigit(t[i])) && DigitsValue(t) == v
    ensures TransposeName(s, b) == ReplaceOrdinal(s, p, e, v + b)
  {
  }

  /** The digits `String(m)` writes read back as m. */
  lemma WrittenDigits(t: string, m: nat)
    requires t == NatToString(m)
    ensures |t| >= 1 && (forall i :: 0 <= i < |t| ==> IsDigit(t[i])) && DigitsValue(t) == m
  {
    DigitsValueOfNatToString(m);
  }

  /** Replacing an ordinal depends only on the text around it. */
  lemma ReplaceInContext(name: string, p: int, q: int, s: string, e: int, n: int)
    requires 0 <= p <= q && q + 2 <= |name| && p <= e && e + 2 <= |s|
    requires s[..p] == name[..p] && s[e + 2..] == name[q + 2..]
    ensures ReplaceOrdinal(s, p, e, n) == ReplaceOrdinal(name, p, q, n)
  {
  }

  /** The text around an ordinal written in place of another is the text
      that was around the old one. */
  lemma RewrittenPieces(name: string, p: int, q: int, t: string, u: string, s: string)
    requires 0 <= p <= q && q + 2 <= |name| && |u| == 2
    requires s == name[..p] + t + u + name[q + 2..]
    ensures p + |t| + 2 <= |s|
    ensures s[..p] == name[..p] && s[p..p + |t|] == t && s[p + |t| + 2..] == name[q + 2..]
  {
    Pieces(s, name[..p], t, u, name[q + 2..]);
  }

  /** Transposing text whose first ordinal was just written reads the
      written number back. */
  lemma TransposeRewritten(name: string, p: int, q: int, t: string, m: int, s: string, b: int)
    requires 0 <= p <= q && q + 2 <= |name| && p + |t| + 2 <= |s|
    requires (forall i :: 0 <= i < |t| ==> IsDigit(t[i])) && DigitsValue(t) == m
    requires s[..p] == name[..p] && s[p..p + |t|] == t && s[p + |t| + 2..] == name[q + 2..]
    requires FirstOrdinal(s, 0) == Some((p, p + |t|))
    ensures TransposeName(s, b) == ReplaceOrdinal(name, p, q, m + b)
  {
    var e := p + |t|;
    calc {
      TransposeName(s, b);
    == { TransposeReads(s, p, e, t, m, b); }
      ReplaceOrdinal(s, p, e, m + b);
    == { ReplaceInContext(name, p, q, s, e, m + b); }
      ReplaceOrdinal(name, p, q, m + b);
    }
  }

  /** Transposing a name by a non-negative amount and then by another is
      transposing it by their sum. */
  lemma TransposeNameComposes(name: string, a: int, b: int)
    requires a >= 0
    ensures TransposeName(TransposeName(name, a), b) == TransposeName(name, a + b)
  {
    var r := FirstOrdinal(name, 0);
    if r.Some? {
      var (p, q) := r.value;
      assert forall i :: 0 <= i < q - p ==> name[p..q][i] == name[p + i];
      var m: nat := DigitsValue(name[p..q]) + a;
      var t := NatToString(m);
      var u := OrdinalSuffix(m);
      var s := name[..p] + t + u + name[q + 2..];
      assert TransposeName(name, a) == s;
      WrittenDigits(t, m);
      RewrittenOrdinalFirst(name, p, q, t, u, s);
      RewrittenPieces(name, p, q, t, u, s);
      TransposeRewritten(name, p, q, t, m, s, b);
    }
  }

  /** A name whose first ordinal is written in the usual way, without
      leading zeros and with its proper suffix. */
  predicate CanonicalOrdinal(name: string)
  {
    match FirstOrdinal(name, 0)
    case None => true
    case Some((p, q)) =>
      && (forall i :: p <= i < q ==> IsDigit(name[i]))
      && name[p..q] == NatToString(DigitsValue(name[p..q]))
      && name[q..q + 2] == OrdinalSuffix(DigitsValue(name[p..q]))
  }

  /** Transposing a canonically written name by nothing leaves it unchanged. */
  lemma TransposeNameByZero(name: string)
    requires CanonicalOrdinal(name)
    ensures TransposeName(name, 0) == name
  {
    match FirstOrdinal(name, 0)
    case None =>
    case Some((p, q)) =>
      assert name == name[..p] + name[p..q] + name[q..q + 2] + name[q + 2..];
  }

  /** A muted or open string stays as it is; a fretted one moves. */
  function ShiftFret(f: Fret, semitones: int): (r: Fret)
    ensures r.Muted? <==> f.Muted?
    ensures semitones == 0 ==> r == f
  {
    if f == Muted || f == At(0) then f else At(f.n + semitones)
  }

  /** Every string of a fingering shifted as `ShiftFret` says. */
  function ShiftFingering(fs: seq<Fret>, semitones: int): seq<Fret>
  {
    seq(|fs|, i requires 0 <= i < |fs| => ShiftFret(fs[i], semitones))
  }

  /** Every barre moved by `semitones` frets, its string span kept; no
      barres stay no barres. */
  function ShiftBarres(barres: Option<seq<Barre>>, semitones: int): (r: Option<seq<Barre>>)
    ensures r.Some? <==> barres.Some?
    ensures r.Some? ==> |r.value| == |barres.value|
    ensures r.Some? ==> forall k :: 0 <= k < |r.value| ==>
      r.value[k] == barres.value[k].(fret := barres.value[k].fret + semitones)
  {
    match barres
    case None => None
    case Some(bs) => Some(seq(|bs|, k requires 0 <= k < |bs| => bs[k].(fret := bs[k].fret + semitones)))
  }

  /** transposeChordShape: the shape moved `semitones` up the neck. The
      name's first ordinal moves with it, the fretted strings, the barres
      and the base fret shift, and the muted and open strings and the
      fingers stay. */
  function TransposeShape(shape: ChordShape, semitones: int): (r: ChordShape)
    ensures r.name == TransposeName(shape.name, semitones)
    ensures r.fingering == ShiftFingering(shape.fingering, semitones)
    ensures r.barres == ShiftBarres(shape.barres, semitones)
    ensures r.baseFret == shape.baseFret + semitones && r.fingers == shape.fingers
  {
    shape.(
      name := TransposeName(shape.name, semitones),
      fingering := ShiftFingering(shape.fingering, semitones),
      barres := ShiftBarres(shape.barres, semitones),
      baseFret := shape.baseFret + semitones)
  }

  /** No fingering entry below the nut. */
  predicate NoNegativeFrets(shape: ChordShape)
  {
    forall i :: 0 <= i < |shape.fingering| && shape.fingering[i].At? ==> shape.fingering[i].n >= 0
  }

  /** Shifting a fingering twice, the first time upward, is shifting it by
      the sum, as long as no string is fretted below the nut. */
  lemma ShiftFingeringComposes(fs: seq<Fret>, a: int, b: int)
    requires a >= 0
    requires forall i :: 0 <= i < |fs| && fs[i].At? ==> fs[i].n >= 0
    ensures ShiftFingering(ShiftFingering(fs, a), b) == ShiftFingering(fs, a + b)
  {
  }

  /** Moving barres twice is moving them by the sum. */
  lemma ShiftBarresComposes(barres: Option<seq<Barre>>, a: int, b: int)
    ensures ShiftBarres(ShiftBarres(barres, a), b) == ShiftBarres(barres, a + b)
  {
    if barres.Some? {
      assert ShiftBarres(ShiftBarres(barres, a), b).value == ShiftBarres(barres, a + b).value;
    }
  }

  /** For a shape without negative frets, transposing up by one amount and
      then by another is transposing by their sum. */
  lemma TransposeShapeComposes(shape: ChordShape, a: int, b: int)
    requires a >= 0 && NoNegativeFrets(shape)
    ensures TransposeShape(TransposeShape(shape, a), b) == TransposeShape(shape, a + b)
  {
    TransposeNameComposes(shape.name, a, b);
    ShiftFingeringComposes(shape.fingering, a, b);
    ShiftBarresComposes(shape.barres, a, b);
  }

  /** A muted string prepended `k` times. */
  function MutedStrings(k: nat): seq<Fret>
  {
    seq(k, i => Muted)
  }

  /** An unplayed finger prepended `k` times. */
  function NoFingers(k: nat): seq<int>
  {
    seq(k, i => 0)
  }

  /** One more muted string and one more unplayed finger in front extend
      the padding by one. */
  lemma PadOneMore(k: nat)
    ensures [Muted] + MutedStrings(k) == MutedStrings(k + 1)
    ensures [0] + NoFingers(k) == NoFingers(k + 1)
  {
    assert ([Muted] + MutedStrings(k))[1..] == MutedStrings(k + 1)[1..];
    assert ([0] + NoFingers(k))[1..] == NoFingers(k + 1)[1..];
  }

  /** The fitting step of renderChordDiagram: muted strings (and no
      fingers) are added at the low end while the fingering is too short,
      and entries are dropped from the low end while it is too long; the
      fingers follow the fingering's count. The highest strings are always
      kept. */
  method FitToStrings(fingering: seq<Fret>, fingers: seq<int>, strings: int)
      returns (adjustedFingering: seq<Fret>, adjustedFingers: seq<int>)
    requires strings >= 0
    ensures |adjustedFingering| == strings
    ensures |fingering| <= strings ==>
      && adjustedFingering == MutedStrings(strings - |fingering|) + fingering
      && adjustedFingers == NoFingers(strings - |fingering|) + fingers
    ensures |fingering| > strings ==>
      && adjustedFingering == fingering[|fingering| - strings..]
      && adjustedFingers == fingers[if |fingering| - strings <= |fingers| then |fingering| - strings else |fingers|..]
    ensures |fingers| == |fingering| ==> |adjustedFingers| == strings
  {
    adjustedFingering := fingering;
    adjustedFingers := fingers;
    while |adjustedFingering| < strings
      invariant |fingering| <= |adjustedFingering|
      invariant |fingering| <= strings ==> |adjustedFingering| <= strings
      invariant |fingering| > strings ==> adjustedFingering == fingering && adjustedFingers == fingers
      invariant adjustedFingering == MutedStrings(|adjustedFingering| - |fingering|) + fingering
      invariant adjustedFingers == NoFingers(|adjustedFingering| - |fingering|) + fingers
      decreases strings - |adjustedFingering|
    {
      PadOneMore(|adjustedFingering| - |fingering|);
      adjustedFingering := [Muted] + adjustedFingering;
      adjustedFingers := [0] + adjustedFingers;
    }
    ghost var dropped := 0;
    assert fingering[0..] == fingering && fingers[0..] == fingers;
    while |adjustedFingering| > strings
      invariant |fingering| <= strings ==> |adjustedFingering| == strings
      invariant |fingering| <= strings ==> adjustedFingering == MutedStrings(strings - |fingering|) + fingering
      invariant |fingering| <= strings ==> adjustedFingers == NoFingers(strings - |fingering|) + fingers
      invariant |fingering| > strings ==> 0 <= dropped <= |fingering| - strings
      invariant |fingering| > strings ==> adjustedFingering == fingering[dropped..]
      invariant |fingering| > strings ==> adjustedFingers == fingers[if dropped <= |fingers| then dropped else |fingers|..]
      decreases |adjustedFingering|
    {
      adjustedFingering := adjustedFingering[1..];
      if |adjustedFingers| > 0 {
        adjustedFingers := adjustedFingers[1..];
      }
      dropped := dropped + 1;
    }
  }
}
