/** The cyclic sequences of the arpeggio generator (shared/arpeggio.ts):
    the pitch classes an arpeggio steps through, and the string order of the
    sweep traversal. Both repeat a short cycle enough times and cut the
    result to the requested length. */
module ArpeggioSequences {
  import opened Js
  import opened MusicTheory
  import opened ChordParser

  /** `k` copies of `cycle`, one after the other. */
  function Repeat<T>(cycle: seq<T>, k: int): (r: seq<T>)
    decreases k
  {
    if k <= 0 then [] else cycle + Repeat(cycle, k - 1)
  }

  lemma {:induction false} RepeatLength<T>(cycle: seq<T>, k: int)
    ensures |Repeat(cycle, k)| == if k <= 0 then 0 else k * |cycle|
    decreases k
  {
    if k > 0 {
      RepeatLength(cycle, k - 1);
    }
  }

  /** Every position of a repetition holds the cycle element at that
      position modulo the cycle length. */
  lemma {:induction false} RepeatIndex<T>(cycle: seq<T>, k: int, i: nat)
    requires i < |Repeat(cycle, k)|
    ensures |cycle| > 0 && Repeat(cycle, k)[i] == cycle[Wrap(i, |cycle|)]
    decreases k
  {
    if i >= |cycle| {
      RepeatIndex(cycle, k - 1, i - |cycle|);
    }
  }

  /** One more repetition appends one more copy of the cycle. */
  lemma {:induction false} RepeatSnoc<T>(cycle: seq<T>, k: nat)
    ensures Repeat(cycle, k + 1) == Repeat(cycle, k) + cycle
    decreases k
  {
    if k > 0 {
      RepeatSnoc(cycle, k - 1);
    }
  }

  function Reverse<T>(s: seq<T>): (r: seq<T>)
    ensures |r| == |s|
    ensures forall i :: 0 <= i < |s| ==> r[i] == s[|s| - 1 - i]
    ensures forall i :: 0 <= i < |s| ==> r[|s| - 1 - i] == s[i]
  {
    if |s| == 0 then [] else Reverse(s[1..]) + [s[0]]
  }

  /** The way back down of an up-down arpeggio: the inner elements of the
      list (all but its first and last), reversed, so that the cycle turns at
      the top and at the bottom without repeating either note. This is the
      corrected descent; `DownAsWritten` is the source's. */
  function Down<T>(order: seq<T>): (r: seq<T>)
    ensures |order| >= 2 ==> |r| == |order| - 2
    ensures |order| < 2 ==> r == []
    ensures forall i :: 0 <= i < |r| ==> r[i] == order[|order| - 2 - i]
  {
    if |order| < 2 then [] else Reverse(order[1..|order| - 1])
  }

  /** The descent as shared/arpeggio.ts writes it: the list without its last
      element, reversed, without its first element. That drops the element
      just below the top instead of the bottom one. */
  function DownAsWritten<T>(order: seq<T>): (r: seq<T>)
    ensures |order| >= 2 ==> |r| == |order| - 2
    ensures |order| < 2 ==> r == []
    ensures forall i :: 0 <= i < |r| ==> r[i] == order[|order| - 3 - i]
  {
    if |order| < 2 then [] else Reverse(order[..|order| - 1])[1..]
  }

  /** The chord's pitch classes over the root, in interval order: each is
      the pitch class of root plus interval, congruent to it modulo 12. An
      unknown root has index -1, and JavaScript's remainder then keeps a
      negative sum negative (-1 for the root itself). */
  function RootedOrder(rootIdx: int, ivls: seq<int>): (r: seq<int>)
    ensures |r| == |ivls|
    ensures forall i :: 0 <= i < |ivls| && rootIdx + ivls[i] >= 0 ==>
      0 <= r[i] < 12 && (rootIdx + ivls[i] - r[i]) % 12 == 0
    ensures forall i :: 0 <= i < |ivls| && rootIdx + ivls[i] < 0 ==> -12 < r[i] <= 0
  {
    RemainderCongruent();
    seq(|ivls|, i requires 0 <= i < |ivls| => Rem12(rootIdx + ivls[i]))
  }

  /** JavaScript's `%` by 12 of a non-negative number is its pitch class:
      in [0, 12) and congruent to it. */
  lemma RemainderCongruent()
    ensures forall a: int {:trigger Rem12(a)} :: a >= 0 ==> 0 <= Rem12(a) < 12 && (a - Rem12(a)) % 12 == 0
  {
    forall a: int | a >= 0
      ensures 0 <= Rem12(a) < 12 && (a - Rem12(a)) % 12 == 0
    {
      Rem12Remainder(a);
    }
  }

  /** The cycle a pattern repeats: the order itself, reversed for
      "descending", and up then back down, as the source descends, for
      "updown". Any other pattern, "sweep" included, repeats the ascending
      order. */
  function Cycle(order: seq<int>, pattern: Value): (r: seq<int>)
    ensures |r| >= |order|
    ensures forall x :: x in r <==> x in order
  {
    if pattern == Str("descending") then Reverse(order)
    else if pattern == Str("updown") then order + DownAsWritten(order)
    else order
  }

  /** The cycle with the corrected descent for "updown". */
  function CycleIntended(order: seq<int>, pattern: Value): (r: seq<int>)
    ensures |r| >= |order|
    ensures forall x :: x in r <==> x in order
  {
    if pattern == Str("descending") then Reverse(order)
    else if pattern == Str("updown") then order + Down(order)
    else order
  }

  /** How many cycles the source concatenates: one more than enough. */
  function CycleCount(length: real, n: nat): int
    requires n > 0
  {
    Ceil(length / n as real) + 1
  }

  /** The pitch-class sequence for a root index and a parsed interval list. */
  function ArrangedPitchClasses(rootIdx: int, ivls: seq<int>, length: real, pattern: Value): seq<int>
    requires |ivls| > 0
  {
    SliceTo(Repeat(Cycle(RootedOrder(rootIdx, ivls), pattern), CycleCount(length, |ivls|)), length)
  }

  /** The pitch-class sequence of an arpeggio. */
  function PitchClasses(root: string, chord: string, length: real, pattern: Value): seq<int>
  {
    ChordIntervalsWellFormed(chord);
    ArrangedPitchClasses(NoteIndex(root), ChordIntervals(chord), length, pattern)
  }

  /** buildArpeggioPitchClasses: parses the chord, then arranges it. */
  method BuildArpeggioPitchClasses(root: string, chord: string, length: real, pattern: Value)
    returns (pc: seq<int>)
    ensures pc == PitchClasses(root, chord, length, pattern)
  {
    var rootIdx := NoteIndex(root);
    var ivls := ParseChordIntervals(chord);
    pc := Arrange(rootIdx, ivls, length, pattern);
  }

  /** The loop of buildArpeggioPitchClasses: places the intervals over the
      root, orders them by the pattern and concatenates the cycle. */
  method Arrange(rootIdx: int, ivls: seq<int>, length: real, pattern: Value) returns (pc: seq<int>)
    requires |ivls| > 0
    ensures pc == ArrangedPitchClasses(rootIdx, ivls, length, pattern)
  {
    var order := RootedOrder(rootIdx, ivls);
    pc := [];
    var cycles := CycleCount(length, |order|);
    if pattern == Str("descending") {
      order := Reverse(order);
    }
    var cycle := order;
    if pattern == Str("updown") {
      var up := order;
      var down := if |order| < 2 then [] else Reverse(order[..|order| - 1])[1..];
      cycle := up + down;
    }
    assert cycle == Cycle(RootedOrder(rootIdx, ivls), pattern);
    var i := 0;
    while i < cycles
      invariant 0 <= i <= if cycles > 0 then cycles else 0
      invariant pc == Repeat(cycle, i)
    {
      RepeatSnoc(cycle, i);
      pc := pc + cycle;
      i := i + 1;
    }
    assert pc == Repeat(cycle, cycles);
    pc := SliceTo(pc, length);
  }

  /** Enough cycles are concatenated to cover a non-negative length. */
  lemma CyclesCover(length: real, n: nat, m: nat)
    requires length >= 0.0 && 0 < n <= m
    ensures CycleCount(length, n) >= 1
    ensures CycleCount(length, n) * m > length.Floor
  {
    var x := length / n as real;
    var c := Ceil(x);
    assert x >= 0.0;
    assert c as real * n as real >= length by {
      assert x * n as real == length;
    }
    assert (c + 1) * m >= (c + 1) * n;
    assert ((c + 1) * n) as real == c as real * n as real + n as real;
  }

  /** A cut of enough repetitions: exactly the integer part of the length,
      element i being the cycle element at i modulo the cycle length. */
  lemma RepeatCut<T>(cycle: seq<T>, k: int, length: real)
    requires length >= 0.0 && |cycle| > 0
    requires k * |cycle| > length.Floor
    ensures var r := SliceTo(Repeat(cycle, k), length);
      |r| == length.Floor &&
      forall i :: 0 <= i < |r| ==> r[i] == cycle[Wrap(i, |cycle|)]
  {
    RepeatLength(cycle, k);
    forall i | 0 <= i < length.Floor
      ensures Repeat(cycle, k)[i] == cycle[Wrap(i, |cycle|)]
    {
      RepeatIndex(cycle, k, i);
    }
  }

  /** For a non-negative length the arrangement has exactly the integer part
      of the length as its size, and element i is the cycle element at i
      modulo the cycle length. */
  lemma ArrangedMeaning(rootIdx: int, ivls: seq<int>, length: real, pattern: Value)
    requires |ivls| > 0 && length >= 0.0
    ensures var r := ArrangedPitchClasses(rootIdx, ivls, length, pattern);
      var cycle := Cycle(RootedOrder(rootIdx, ivls), pattern);
      |r| == length.Floor &&
      forall i :: 0 <= i < |r| ==> r[i] == cycle[Wrap(i, |cycle|)]
  {
    var cycle := Cycle(RootedOrder(rootIdx, ivls), pattern);
    CyclesCover(length, |ivls|, |cycle|);
    RepeatCut(cycle, CycleCount(length, |ivls|), length);
  }

  /** Ascending (and any pattern other than "descending" and "updown"):
      element i is the root plus the (i mod n)-th interval, reduced as
      JavaScript's `%` reduces it. */
  lemma AscendingElements(rootIdx: int, ivls: seq<int>, length: real, pattern: Value)
    requires |ivls| > 0 && length >= 0.0
    requires pattern != Str("descending") && pattern != Str("updown")
    ensures var r := ArrangedPitchClasses(rootIdx, ivls, length, pattern);
      |r| == length.Floor &&
      forall i :: 0 <= i < |r| ==> r[i] == Rem12(rootIdx + ivls[Wrap(i, |ivls|)])
  {
    ArrangedMeaning(rootIdx, ivls, length, pattern);
  }

  /** Descending walks the intervals from the top one down. */
  lemma DescendingElements(rootIdx: int, ivls: seq<int>, length: real)
    requires |ivls| > 0 && length >= 0.0
    ensures var r := ArrangedPitchClasses(rootIdx, ivls, length, Str("descending"));
      |r| == length.Floor &&
      forall i :: 0 <= i < |r| ==> r[i] == Rem12(rootIdx + ivls[|ivls| - 1 - Wrap(i, |ivls|)])
  {
    ArrangedMeaning(rootIdx, ivls, length, Str("descending"));
    var order := RootedOrder(rootIdx, ivls);
    assert Cycle(order, Str("descending")) == Reverse(order);
    var r := ArrangedPitchClasses(rootIdx, ivls, length, Str("descending"));
    forall i | 0 <= i < |r|
      ensures r[i] == Rem12(rootIdx + ivls[|ivls| - 1 - Wrap(i, |ivls|)])
    {
      var j := Wrap(i, |ivls|);
      assert r[i] == Reverse(order)[j];
    }
  }

  /** Up-down, as the source builds it, climbs all intervals and comes back
      down from the third-highest to the lowest: a cycle of 2n - 2 notes (n
      for a single note), step j >= n playing interval 2n - 3 - j. */
  lemma UpDownElements(rootIdx: int, ivls: seq<int>, length: real)
    requires |ivls| > 0 && length >= 0.0
    ensures var r := ArrangedPitchClasses(rootIdx, ivls, length, Str("updown"));
      var n := |ivls|;
      var period := if n >= 2 then 2 * n - 2 else n;
      |r| == length.Floor &&
      forall i :: 0 <= i < |r| ==>
        var j := Wrap(i, period);
        r[i] == Rem12(rootIdx + ivls[if j < n then j else 2 * n - 3 - j])
  {
    var order := RootedOrder(rootIdx, ivls);
    ArrangedMeaning(rootIdx, ivls, length, Str("updown"));
    UpDownCycleAsWritten(order);
  }

  /** The source's up-down cycle of an order: the order, then positions
      n - 3 down to 0. */
  lemma UpDownCycleAsWritten(order: seq<int>)
    ensures var n := |order|;
      var cycle := Cycle(order, Str("updown"));
      |cycle| == (if n >= 2 then 2 * n - 2 else n) &&
      forall j :: 0 <= j < |cycle| ==> cycle[j] == order[if j < n then j else 2 * n - 3 - j]
  {
  }

  /** The corrected up-down cycle of an order: the order, then its inner
      elements backwards. */
  lemma UpDownCycle(order: seq<int>)
    ensures var n := |order|;
      var cycle := CycleIntended(order, Str("updown"));
      |cycle| == (if n >= 2 then 2 * n - 2 else n) &&
      forall j :: 0 <= j < |cycle| ==> cycle[j] == order[UpDownPosition(n, j)]
  {
  }

  /** The position in the order that step j of the corrected up-down cycle
      plays. */
  function UpDownPosition(n: nat, j: nat): nat
  {
    if j < n then j else if 2 * n - 2 - j >= 0 then 2 * n - 2 - j else 0
  }

  /** The corrected cycle moves one position at every step, including the
      step from its end back to its start: it never repeats a note and never
      skips one. */
  lemma UpDownMovesByOne(n: nat, j: nat)
    requires n >= 2 && j < 2 * n - 2
    ensures var next := if j + 1 < 2 * n - 2 then j + 1 else 0;
      UpDownPosition(n, j) < n && UpDownPosition(n, next) < n &&
      (UpDownPosition(n, next) == UpDownPosition(n, j) + 1 ||
       UpDownPosition(n, next) == UpDownPosition(n, j) - 1)
  {
  }

  /** The source's cycle for three or more notes ends on the first note, the
      one the next cycle starts with, so the bottom note sounds twice in a
      row at every turn; and its descent visits positions n-3 down to 0, so
      the note below the top (position n-2) is never played on the way down. */
  lemma UpDownAsWrittenRepeatsBottom(order: seq<int>)
    requires |order| >= 3
    ensures var cycle := Cycle(order, Str("updown"));
      |cycle| == 2 * |order| - 2 && cycle[|cycle| - 1] == cycle[0]
    ensures forall i :: 0 <= i < |DownAsWritten(order)| ==>
      DownAsWritten(order)[i] == order[|order| - 3 - i]
  {
  }

  /** For C major, "updown" as written plays C E G C, C E G C, ...: the
      root twice at every turn and no E on the way down. */
  lemma UpDownAsWrittenExample()
    ensures Cycle([0, 4, 7], Str("updown")) == [0, 4, 7, 0]
    ensures CycleIntended([0, 4, 7], Str("updown")) == [0, 4, 7, 4]
  {
    assert DownAsWritten([0, 4, 7]) == [0];
    assert Down([0, 4, 7]) == [4];
  }

  /** Every pitch class lies in [0, 12) for a known root, and is at worst -1
      (the root of an unknown key, index -1) otherwise. */
  lemma ArrangedRange(rootIdx: int, ivls: seq<int>, length: real, pattern: Value)
    requires |ivls| > 0 && -1 <= rootIdx < 12
    requires forall j :: 0 <= j < |ivls| ==> 0 <= ivls[j] < 12
    ensures var r := ArrangedPitchClasses(rootIdx, ivls, length, pattern);
      forall i :: 0 <= i < |r| ==> -1 <= r[i] < 12 && (rootIdx >= 0 ==> 0 <= r[i])
  {
    var order := RootedOrder(rootIdx, ivls);
    var cycle := Cycle(order, pattern);
    var k := CycleCount(length, |ivls|);
    var r := ArrangedPitchClasses(rootIdx, ivls, length, pattern);
    RootedOrderRange(rootIdx, ivls);
    forall j | 0 <= j < |cycle| ensures -1 <= cycle[j] < 12 && (rootIdx >= 0 ==> 0 <= cycle[j]) {
      assert cycle[j] in order;
    }
    forall i | 0 <= i < |r| ensures -1 <= r[i] < 12 && (rootIdx >= 0 ==> 0 <= r[i]) {
      RepeatIndex(cycle, k, i);
    }
  }

  /** Every entry of the rooted order lies in [0, 12) for a known root and
      in [-1, 12) for the root index -1. */
  lemma RootedOrderRange(rootIdx: int, ivls: seq<int>)
    requires -1 <= rootIdx < 12
    requires forall j :: 0 <= j < |ivls| ==> 0 <= ivls[j] < 12
    ensures var order := RootedOrder(rootIdx, ivls);
      forall x :: x in order ==> -1 <= x < 12 && (rootIdx >= 0 ==> 0 <= x)
  {
    var order := RootedOrder(rootIdx, ivls);
    forall j | 0 <= j < |order| ensures -1 <= order[j] < 12 && (rootIdx >= 0 ==> 0 <= order[j]) {
      if rootIdx + ivls[j] < 0 {
        assert order[j] == Rem12(-1) == -1;
      }
    }
  }

  /** For a chord symbol: the sequence has the requested number of notes
      and stays within the pitch classes (or -1 for an unknown root). */
  lemma PitchClassesMeaning(root: string, chord: string, length: real, pattern: Value)
    requires length >= 0.0
    ensures var r := PitchClasses(root, chord, length, pattern);
      |r| == length.Floor &&
      forall i :: 0 <= i < |r| ==> -1 <= r[i] < 12 && (NoteIndex(root) >= 0 ==> 0 <= r[i])
  {
    ChordIntervalsWellFormed(chord);
    var ivls := ChordIntervals(chord);
    var idx := NoteIndex(root);
    assert PitchClasses(root, chord, length, pattern) == ArrangedPitchClasses(idx, ivls, length, pattern);
    ArrangedMeaning(idx, ivls, length, pattern);
    ArrangedRange(idx, ivls, length, pattern);
  }

  /** The string cycle of the sweep: from string index 5 (the high e) down
      to 0 (the low E) and back up, without repeating either end. */
  const SWEEP_CYCLE: seq<int> := [5, 4, 3, 2, 1, 0, 1, 2, 3, 4, 5]

  function StringTraversal(length: real): seq<int>
  {
    SliceTo(Repeat(SWEEP_CYCLE, CycleCount(length, |SWEEP_CYCLE|)), length)
  }

  /** buildStringTraversal: concatenates the sweep cycle in a loop. */
  method BuildStringTraversal(length: real) returns (order: seq<int>)
    ensures order == StringTraversal(length)
  {
    var up := [5, 4, 3, 2, 1, 0];
    var down := [1, 2, 3, 4, 5];
    var cycle := up + down;
    assert cycle == SWEEP_CYCLE;
    order := [];
    var i := 0;
    while i < Ceil(length / |cycle| as real) + 1
      invariant 0 <= i <= if CycleCount(length, |cycle|) > 0 then CycleCount(length, |cycle|) else 0
      invariant order == Repeat(cycle, i)
    {
      RepeatSnoc(cycle, i);
      order := order + cycle;
      i := i + 1;
    }
    assert order == Repeat(SWEEP_CYCLE, CycleCount(length, |SWEEP_CYCLE|));
    order := SliceTo(order, length);
  }

  /** A non-negative length yields exactly its integer part of string
      indices, following the sweep cycle; every index names one of the six
      strings. */
  lemma StringTraversalMeaning(length: real)
    requires length >= 0.0
    ensures var r := StringTraversal(length);
      |r| == length.Floor &&
      forall i :: 0 <= i < |r| ==> r[i] == SWEEP_CYCLE[Wrap(i, 11)] && 0 <= r[i] < 6
  {
    CyclesCover(length, 11, 11);
    RepeatCut(SWEEP_CYCLE, CycleCount(length, 11), length);
    assert forall j :: 0 <= j < 11 ==> 0 <= SWEEP_CYCLE[j] < 6;
  }
}
