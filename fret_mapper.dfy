/** The greedy fret mapper of the arpeggio generator (shared/arpeggio.ts,
    mapToFretboard): every pitch class of the sequence is placed on a string
    and fret of a six-string guitar in standard tuning, choosing the
    cheapest candidate in the position's fret window, and falling back to a
    window two frets wider when the position has none.

    Costs are kept as integers ten times the source's: the previous fret can
    be a half (the middle of the window), and the string and octave terms
    are tenths. */
module FretMapper {
  import opened Js

  /** MIDI numbers of the open strings, lowest (E2) first. */
  const OPEN_STRING_MIDI: seq<int> := [40, 45, 50, 55, 59, 64]

  /** The string indices, lowest string first. */
  const ALL_STRINGS: seq<int> := [0, 1, 2, 3, 4, 5]

  datatype FretRange = FretRange(min: int, max: int)

  /** positionRange: the fret window of a named position; any other value
      selects the whole neck up to fret 15. */
  function PositionRange(position: Value): (r: FretRange)
    ensures 0 <= r.min <= r.max <= 15
    ensures r.max - r.min >= 3
  {
    match position
    case Str("open") => FretRange(0, 3)
    case Str("low") => FretRange(1, 5)
    case Str("mid") => FretRange(5, 9)
    case Str("high") => FretRange(9, 14)
    case _ => FretRange(0, 15)
  }

  /** The fallback window: two frets wider on each side, within 0 and 18. */
  function FallbackRange(range: FretRange): (r: FretRange)
    ensures r.min == (if range.min - 2 > 0 then range.min - 2 else 0)
    ensures r.max == (if range.max + 2 < 18 then range.max + 2 else 18)
    ensures range.min >= 0 && range.max <= 18 ==> r.min <= range.min && range.max <= r.max
  {
    FretRange(if range.min - 2 > 0 then range.min - 2 else 0,
              if range.max + 2 < 18 then range.max + 2 else 18)
  }

  function Abs(x: int): nat { if x < 0 then -x else x }

  /** A candidate placement and its cost (times ten). */
  datatype Pick = Pick(str: int, fret: int, midi: int, cost: int)

  /** A placed note of the output. */
  datatype Placed = Placed(midi: int, str: int, fret: int)

  /** The string a note may be placed on: an index into the open strings.
      Any other value (JavaScript's `undefined` from indexing an empty
      string order) has no open string, so no fret of it matches. */
  predicate Matches(s: int, fret: int, pc: int)
  {
    0 <= s < 6 && OPEN_STRING_MIDI[s] + fret >= 0 && Mod12(OPEN_STRING_MIDI[s] + fret) == pc
  }

  /** Distance from the previous fret, a preference for higher strings and,
      in the position window only, distance from the current octave. */
  function Cost(s: int, fret: int, midi: int, prev10: int, bias: int, withOctave: bool): int
  {
    Abs(10 * fret - prev10) + (5 - s) + (if withOctave then 2 * Abs(midi / 12 - (bias + 1)) else 0)
  }

  function MakePick(s: int, fret: int, prev10: int, bias: int, withOctave: bool): Pick
    requires 0 <= s < 6
  {
    var midi := OPEN_STRING_MIDI[s] + fret;
    Pick(s, fret, midi, Cost(s, fret, midi, prev10, bias, withOctave))
  }

  /** The matching candidates on string `s`, frets lo .. f-1, in ascending
      fret order. */
  function FretCands(s: int, lo: int, f: int, pc: int, prev10: int, bias: int, withOctave: bool): seq<Pick>
    decreases f - lo
  {
    if f <= lo then []
    else
      var earlier := FretCands(s, lo, f - 1, pc, prev10, bias, withOctave);
      if Matches(s, f - 1, pc) then earlier + [MakePick(s, f - 1, prev10, bias, withOctave)] else earlier
  }

  /** The matching candidates of a window, string by string in the given
      order, each string by ascending fret: the order the source visits them. */
  function WindowCands(strings: seq<int>, lo: int, hi: int, pc: int, prev10: int, bias: int, withOctave: bool): seq<Pick>
  {
    if |strings| == 0 then []
    else
      var earlier := WindowCands(strings[..|strings| - 1], lo, hi, pc, prev10, bias, withOctave);
      earlier + FretCands(strings[|strings| - 1], lo, hi + 1, pc, prev10, bias, withOctave)
  }

  /** The running best: a later candidate replaces it only when strictly cheaper. */
  function Better(best: Option<Pick>, c: Pick): (r: Option<Pick>)
  {
    if best.None? || c.cost < best.value.cost then Some(c) else best
  }

  function Choose(cands: seq<Pick>): Option<Pick>
  {
    if |cands| == 0 then None else Better(Choose(cands[..|cands| - 1]), cands[|cands| - 1])
  }

  /** Candidate j is the first of the cheapest: every earlier candidate
      costs strictly more, every later one no less. */
  predicate FirstCheapest(cands: seq<Pick>, j: int)
  {
    && 0 <= j < |cands|
    && (forall i :: 0 <= i < j ==> cands[i].cost > cands[j].cost)
    && (forall i :: j < i < |cands| ==> cands[i].cost >= cands[j].cost)
  }

  /** A candidate no cheaper than the first cheapest keeps it first cheapest. */
  lemma KeepCheapest(init: seq<Pick>, last: Pick, j: int)
    requires FirstCheapest(init, j) && last.cost >= init[j].cost
    ensures FirstCheapest(init + [last], j) && (init + [last])[j] == init[j]
  {
    var cands := init + [last];
    forall i | j < i < |cands| ensures cands[i].cost >= cands[j].cost {
      if i < |init| {
        assert cands[i] == init[i];
      }
    }
  }

  /** A candidate strictly cheaper than all before it is the first cheapest. */
  lemma NewCheapest(init: seq<Pick>, last: Pick)
    requires forall i :: 0 <= i < |init| ==> init[i].cost > last.cost
    ensures FirstCheapest(init + [last], |init|)
  {
    var cands := init + [last];
    forall i | 0 <= i < |init| ensures cands[i].cost > cands[|init|].cost {
      assert cands[i] == init[i];
    }
  }

  /** The choice is made exactly when there is a candidate, and it is the
      first of the cheapest. */
  lemma {:induction false} ChooseMeaning(cands: seq<Pick>)
    ensures Choose(cands).None? <==> |cands| == 0
    ensures Choose(cands).Some? ==>
      exists j :: FirstCheapest(cands, j) && cands[j] == Choose(cands).value
  {
    if |cands| > 0 {
      var init := cands[..|cands| - 1];
      var last := cands[|cands| - 1];
      assert cands == init + [last];
      ChooseMeaning(init);
      if Choose(init).Some? && last.cost >= Choose(init).value.cost {
        var j :| FirstCheapest(init, j) && init[j] == Choose(init).value;
        KeepCheapest(init, last, j);
      } else {
        if Choose(init).Some? {
          var k :| FirstCheapest(init, k) && init[k] == Choose(init).value;
          assert forall i :: 0 <= i < |init| ==> init[i].cost > last.cost by {
            forall i | 0 <= i < |init| ensures init[i].cost > last.cost {
              if i != k {
                assert init[i].cost >= init[k].cost;
              }
            }
          }
        }
        NewCheapest(init, last);
      }
    }
  }

  /** Every candidate of a string is a matching fret of the window on it,
      priced by `Cost`; and every matching fret of the window is one. */
  lemma {:induction false} FretCandsMeaning(s: int, lo: int, f: int, pc: int, prev10: int, bias: int, withOctave: bool)
    ensures forall c :: c in FretCands(s, lo, f, pc, prev10, bias, withOctave) ==>
      0 <= c.str < 6 && c.str == s && lo <= c.fret < f && Matches(s, c.fret, pc)
      && c == MakePick(s, c.fret, prev10, bias, withOctave)
    ensures forall fret :: lo <= fret < f && Matches(s, fret, pc) ==>
      MakePick(s, fret, prev10, bias, withOctave) in FretCands(s, lo, f, pc, prev10, bias, withOctave)
    decreases f - lo
  {
    if f > lo {
      FretCandsMeaning(s, lo, f - 1, pc, prev10, bias, withOctave);
    }
  }

  lemma {:induction false} WindowCandsMeaning(strings: seq<int>, lo: int, hi: int, pc: int, prev10: int, bias: int, withOctave: bool)
    ensures forall c :: c in WindowCands(strings, lo, hi, pc, prev10, bias, withOctave) ==>
      0 <= c.str < 6 && c.str in strings && lo <= c.fret <= hi && Matches(c.str, c.fret, pc)
      && c == MakePick(c.str, c.fret, prev10, bias, withOctave)
    ensures forall k, fret :: 0 <= k < |strings| && lo <= fret <= hi && Matches(strings[k], fret, pc) ==>
      MakePick(strings[k], fret, prev10, bias, withOctave) in WindowCands(strings, lo, hi, pc, prev10, bias, withOctave)
  {
    if |strings| > 0 {
      var init := strings[..|strings| - 1];
      var s := strings[|strings| - 1];
      WindowCandsMeaning(init, lo, hi, pc, prev10, bias, withOctave);
      FretCandsMeaning(s, lo, hi + 1, pc, prev10, bias, withOctave);
      forall k, fret | 0 <= k < |strings| && lo <= fret <= hi && Matches(strings[k], fret, pc)
        ensures MakePick(strings[k], fret, prev10, bias, withOctave) in WindowCands(strings, lo, hi, pc, prev10, bias, withOctave)
      {
        if k < |strings| - 1 {
          assert strings[k] == init[k];
        }
      }
      forall c | c in WindowCands(strings, lo, hi, pc, prev10, bias, withOctave)
        ensures c.str in strings
      {
        if c in WindowCands(init, lo, hi, pc, prev10, bias, withOctave) {
          var k :| 0 <= k < |init| && init[k] == c.str;
          assert strings[k] == c.str;
        } else {
          assert strings[|strings| - 1] == c.str;
        }
      }
    }
  }

  /** The mapper's state between notes: the previous fret (times ten), the
      octave bias and the notes placed so far. */
  datatype MapState = MapState(prev10: int, bias: int, mapped: seq<Placed>)

  /** The strings a note may use: the one the string order names at this
      step, or all six. An empty order names none (`-1`, as `undefined`). */
  function StringsFor(stringOrder: Option<seq<int>>, i: nat): (r: seq<int>)
    ensures |r| >= 1
  {
    match stringOrder
    case None => ALL_STRINGS
    case Some(order) => if |order| == 0 then [-1] else [order[i % |order|]]
  }

  function InitialState(range: FretRange): MapState
  {
    MapState(5 * (range.min + range.max), 3, [])
  }

  /** The pick for one note: the best in the position window, else the best
      in the fallback window without the octave term. */
  function BestPick(prev10: int, bias: int, pc: int, strings: seq<int>, range: FretRange): Option<Pick>
  {
    var inWindow := Choose(WindowCands(strings, range.min, range.max, pc, prev10, bias, true));
    if inWindow.Some? then inWindow
    else
      var wide := FallbackRange(range);
      Choose(WindowCands(strings, wide.min, wide.max, pc, prev10, bias, false))
  }

  /** One note: place the pick, if any, and move the previous fret and the
      octave bias to it; a note without a pick is dropped. */
  function Step(st: MapState, pc: int, strings: seq<int>, range: FretRange): MapState
  {
    match BestPick(st.prev10, st.bias, pc, strings, range)
    case None => st
    case Some(p) => MapState(10 * p.fret, p.midi / 12 - 1, st.mapped + [Placed(p.midi, p.str, p.fret)])
  }

  /** The state after the first k notes, in the window `range`. */
  function MapPrefix(pcSeq: seq<int>, k: nat, range: FretRange, stringOrder: Option<seq<int>>): MapState
    requires k <= |pcSeq|
  {
    if k == 0 then InitialState(range)
    else Step(MapPrefix(pcSeq, k - 1, range, stringOrder), pcSeq[k - 1], StringsFor(stringOrder, k - 1), range)
  }

  function Mapping(pcSeq: seq<int>, position: Value, stringOrder: Option<seq<int>>): seq<Placed>
  {
    MapPrefix(pcSeq, |pcSeq|, PositionRange(position), stringOrder).mapped
  }

  /** The choice is one of the cheapest candidates. */
  lemma ChooseIsCheapest(cands: seq<Pick>, c: Pick)
    requires c in cands
    ensures Choose(cands).Some? && Choose(cands).value in cands && Choose(cands).value.cost <= c.cost
  {
    ChooseMeaning(cands);
    var j :| FirstCheapest(cands, j) && cands[j] == Choose(cands).value;
    var i :| 0 <= i < |cands| && cands[i] == c;
  }

  /** The pick for one note, in the position's window or its fallback:
      it lies on one of the given strings, sounds the wanted pitch class,
      has the fret inside the fallback window, and is absent only when no
      fret of the fallback window on those strings sounds it. When the
      position's own window has a matching fret, the pick is in that window
      and no matching fret of it is cheaper. */
  lemma BestPickMeaning(prev10: int, bias: int, pc: int, strings: seq<int>, range: FretRange)
    requires 0 <= range.min <= range.max <= 18
    ensures var best := BestPick(prev10, bias, pc, strings, range);
      best.Some? ==>
        && best.value.str in strings && 0 <= best.value.str < 6
        && Matches(best.value.str, best.value.fret, pc)
        && best.value.midi == OPEN_STRING_MIDI[best.value.str] + best.value.fret
        && FallbackRange(range).min <= best.value.fret <= FallbackRange(range).max
    ensures BestPick(prev10, bias, pc, strings, range).None? <==>
      !exists k, fret :: 0 <= k < |strings| && FallbackRange(range).min <= fret <= FallbackRange(range).max
        && Matches(strings[k], fret, pc)
    ensures (exists k, fret :: 0 <= k < |strings| && range.min <= fret <= range.max && Matches(strings[k], fret, pc)) ==>
      var best := BestPick(prev10, bias, pc, strings, range);
      best.Some? && range.min <= best.value.fret <= range.max
        && forall k, fret :: 0 <= k < |strings| && range.min <= fret <= range.max && Matches(strings[k], fret, pc) ==>
          best.value.cost <= MakePick(strings[k], fret, prev10, bias, true).cost
  {
    var wide := FallbackRange(range);
    var inner := WindowCands(strings, range.min, range.max, pc, prev10, bias, true);
    var outer := WindowCands(strings, wide.min, wide.max, pc, prev10, bias, false);
    WindowCandsMeaning(strings, range.min, range.max, pc, prev10, bias, true);
    WindowCandsMeaning(strings, wide.min, wide.max, pc, prev10, bias, false);
    ChooseMeaning(inner);
    ChooseMeaning(outer);
    forall k, fret | 0 <= k < |strings| && range.min <= fret <= range.max && Matches(strings[k], fret, pc)
      ensures BestPick(prev10, bias, pc, strings, range).Some?
      ensures BestPick(prev10, bias, pc, strings, range).value.cost <= MakePick(strings[k], fret, prev10, bias, true).cost
    {
      ChooseIsCheapest(inner, MakePick(strings[k], fret, prev10, bias, true));
    }
    if Choose(inner).Some? {
      assert Choose(inner).value in inner;
      var c := Choose(inner).value;
      var k :| 0 <= k < |strings| && strings[k] == c.str;
      assert wide.min <= c.fret <= wide.max;
      assert MakePick(strings[k], c.fret, prev10, bias, false) in outer;
    } else if Choose(outer).Some? {
      assert Choose(outer).value in outer;
    }
  }

  /** For the pitch class `u` semitones above a window's lowest fret: a
      string, the fret offset (at most 3) within the window at which that
      string sounds it, and the octave of the note sounded at the offset. */
  function Cover(u: int): (r: (int, int, int))
    requires 0 <= u < 12
    ensures 0 <= r.0 < 6 && 0 <= r.1 <= 3
    ensures OPEN_STRING_MIDI[r.0] + r.1 == u + 12 * r.2
  {
    if u == 0 then (1, 3, 4)
    else if u == 1 then (4, 2, 5)
    else if u <= 3 then (2, u - 2, 4)
    else if u <= 7 then (0, u - 4, 3)
    else if u == 8 then (3, 1, 4)
    else (1, u - 9, 3)
  }

  /** Any four consecutive frets of the six strings in standard tuning hold
      every pitch class. */
  lemma WindowCovers(lo: int, pc: int)
    requires lo >= 0 && 0 <= pc < 12
    ensures exists s, fret :: 0 <= s < 6 && lo <= fret <= lo + 3 && Matches(s, fret, pc)
  {
    var u := (pc - lo) % 12;
    var c := Cover(u);
    var n := OPEN_STRING_MIDI[c.0] + lo + c.1;
    assert n == pc + 12 * (c.2 - (pc - lo) / 12);
    Mod12IsRemainder(n);
    assert Matches(c.0, lo + c.1, pc);
  }

  /** With all six strings to choose from, a window of at least four frets
      always yields a pick for a pitch class. */
  lemma AllStringsPick(prev10: int, bias: int, pc: int, range: FretRange)
    requires 0 <= range.min && range.min + 3 <= range.max <= 18
    requires 0 <= pc < 12
    ensures BestPick(prev10, bias, pc, ALL_STRINGS, range).Some?
  {
    WindowCovers(range.min, pc);
    var s, fret :| 0 <= s < 6 && range.min <= fret <= range.min + 3 && Matches(s, fret, pc);
    assert ALL_STRINGS[s] == s;
    BestPickMeaning(prev10, bias, pc, ALL_STRINGS, range);
  }

  /** `a` is `b` with some elements left out, the rest in order. */
  predicate IsSubsequence(a: seq<int>, b: seq<int>)
    decreases |b|
  {
    |a| == 0
    || (|b| > 0
        && ((a[|a| - 1] == b[|b| - 1] && IsSubsequence(a[..|a| - 1], b[..|b| - 1]))
            || IsSubsequence(a, b[..|b| - 1])))
  }

  lemma {:induction false} SubsequenceLength(a: seq<int>, b: seq<int>)
    requires IsSubsequence(a, b)
    ensures |a| <= |b|
    decreases |b|
  {
    if |a| > 0 {
      if a[|a| - 1] == b[|b| - 1] && IsSubsequence(a[..|a| - 1], b[..|b| - 1]) {
        SubsequenceLength(a[..|a| - 1], b[..|b| - 1]);
      } else {
        SubsequenceLength(a, b[..|b| - 1]);
      }
    }
  }

  function PitchClassesOf(mapped: seq<Placed>): seq<int>
  {
    seq(|mapped|, j requires 0 <= j < |mapped| => Rem12(mapped[j].midi))
  }

  /** A placement on a real string, sounding its open note plus the fret,
      with the fret inside the window `w`. */
  predicate ValidPlacement(p: Placed, w: FretRange)
  {
    0 <= p.str < 6 && p.midi == OPEN_STRING_MIDI[p.str] + p.fret && p.midi >= 0 && w.min <= p.fret <= w.max
  }

  /** Every placement is sound and inside the window `w`, and the previous
      fret and the octave bias follow the last placement. */
  predicate SoundState(st: MapState, w: FretRange)
  {
    && (forall j :: 0 <= j < |st.mapped| ==> ValidPlacement(st.mapped[j], w))
    && (|st.mapped| > 0 ==>
          st.prev10 == 10 * st.mapped[|st.mapped| - 1].fret && st.bias == st.mapped[|st.mapped| - 1].midi / 12 - 1)
  }

  /** One note keeps the state sound, and places the note's pitch class or
      nothing. */
  lemma StepMeaning(st: MapState, pc: int, strings: seq<int>, range: FretRange)
    requires 0 <= range.min <= range.max <= 18
    requires SoundState(st, FallbackRange(range))
    ensures SoundState(Step(st, pc, strings, range), FallbackRange(range))
    ensures PitchClassesOf(Step(st, pc, strings, range).mapped) in {PitchClassesOf(st.mapped), PitchClassesOf(st.mapped) + [pc]}
  {
    BestPickMeaning(st.prev10, st.bias, pc, strings, range);
    match BestPick(st.prev10, st.bias, pc, strings, range)
    case None =>
    case Some(p) =>
      Mod12IsRemainder(p.midi);
      assert PitchClassesOf(st.mapped + [Placed(p.midi, p.str, p.fret)]) == PitchClassesOf(st.mapped) + [pc];
  }

  /** With all six strings, one note of a known pitch class is always placed. */
  lemma StepPlaces(st: MapState, pc: int, range: FretRange)
    requires 0 <= range.min && range.min + 3 <= range.max <= 18
    requires 0 <= pc < 12
    ensures PitchClassesOf(Step(st, pc, ALL_STRINGS, range).mapped) == PitchClassesOf(st.mapped) + [pc]
  {
    BestPickMeaning(st.prev10, st.bias, pc, ALL_STRINGS, range);
    AllStringsPick(st.prev10, st.bias, pc, range);
    var p := BestPick(st.prev10, st.bias, pc, ALL_STRINGS, range).value;
    Mod12IsRemainder(p.midi);
    assert PitchClassesOf(st.mapped + [Placed(p.midi, p.str, p.fret)]) == PitchClassesOf(st.mapped) + [pc];
  }

  lemma SubsequenceSnoc(a: seq<int>, b: seq<int>, x: int)
    requires IsSubsequence(a, b)
    ensures IsSubsequence(a, b + [x])
    ensures IsSubsequence(a + [x], b + [x])
  {
    assert (b + [x])[..|b|] == b;
    assert (a + [x])[..|a|] == a;
  }

  /** After any number of notes, every placement is sound and lies in the
      fallback window, and the previous fret and the octave bias follow the
      last placement. */
  lemma {:induction false} MapPrefixSound(pcSeq: seq<int>, k: nat, range: FretRange, stringOrder: Option<seq<int>>)
    requires k <= |pcSeq| && 0 <= range.min <= range.max <= 18
    ensures SoundState(MapPrefix(pcSeq, k, range, stringOrder), FallbackRange(range))
  {
    if k > 0 {
      MapPrefixSound(pcSeq, k - 1, range, stringOrder);
      StepMeaning(MapPrefix(pcSeq, k - 1, range, stringOrder), pcSeq[k - 1], StringsFor(stringOrder, k - 1), range);
    }
  }

  /** The placed pitch classes are those of the input, in order, with the
      unplaceable ones left out. */
  lemma {:induction false} MapPrefixSubsequence(pcSeq: seq<int>, k: nat, range: FretRange, stringOrder: Option<seq<int>>)
    requires k <= |pcSeq| && 0 <= range.min <= range.max <= 18
    ensures IsSubsequence(PitchClassesOf(MapPrefix(pcSeq, k, range, stringOrder).mapped), pcSeq[..k])
  {
    if k > 0 {
      var prev := MapPrefix(pcSeq, k - 1, range, stringOrder);
      var a := PitchClassesOf(prev.mapped);
      var b := pcSeq[..k - 1];
      var x := pcSeq[k - 1];
      assert IsSubsequence(a, b) by {
        MapPrefixSubsequence(pcSeq, k - 1, range, stringOrder);
      }
      assert PitchClassesOf(MapPrefix(pcSeq, k, range, stringOrder).mapped) in {a, a + [x]} by {
        MapPrefixSound(pcSeq, k - 1, range, stringOrder);
        StepMeaning(prev, x, StringsFor(stringOrder, k - 1), range);
      }
      assert pcSeq[..k] == b + [x];
      SubsequenceSnoc(a, b, x);
    }
  }

  /** With all six strings available, no note of a known pitch class is
      dropped. */
  lemma {:induction false} MapPrefixComplete(pcSeq: seq<int>, k: nat, range: FretRange)
    requires k <= |pcSeq| && 0 <= range.min && range.min + 3 <= range.max <= 18
    requires forall j :: 0 <= j < |pcSeq| ==> 0 <= pcSeq[j] < 12
    ensures PitchClassesOf(MapPrefix(pcSeq, k, range, None).mapped) == pcSeq[..k]
  {
    if k > 0 {
      MapPrefixComplete(pcSeq, k - 1, range);
      assert pcSeq[..k] == pcSeq[..k - 1] + [pcSeq[k - 1]];
      StepPlaces(MapPrefix(pcSeq, k - 1, range, None), pcSeq[k - 1], range);
    }
  }

  lemma ChooseSnoc(seen: seq<Pick>, c: Pick)
    ensures Choose(seen + [c]) == Better(Choose(seen), c)
  {
    assert (seen + [c])[..|seen|] == seen;
  }

  /** One more fret adds its candidate, if it matches, at the end. */
  lemma FretCandsNext(s: int, lo: int, f: int, pc: int, prev10: int, bias: int, withOctave: bool)
    requires lo <= f
    ensures FretCands(s, lo, f + 1, pc, prev10, bias, withOctave)
      == FretCands(s, lo, f, pc, prev10, bias, withOctave)
         + (if Matches(s, f, pc) then [MakePick(s, f, prev10, bias, withOctave)] else [])
  {
  }

  /** The fret loop over one string, continuing from the best of the
      candidates seen before it. */
  method ScanString(ghost before: seq<Pick>, best0: Option<Pick>, s: int, lo: int, hi: int, pc: int,
                    prev10: int, bias: int, withOctave: bool)
    returns (best: Option<Pick>)
    requires best0 == Choose(before)
    ensures best == Choose(before + FretCands(s, lo, hi + 1, pc, prev10, bias, withOctave))
  {
    best := best0;
    var fret := lo;
    ghost var seen := before;
    assert before + FretCands(s, lo, lo, pc, prev10, bias, withOctave) == before;
    while fret <= hi
      invariant lo <= fret && (lo <= hi + 1 ==> fret <= hi + 1) && (lo > hi ==> fret == lo)
      invariant seen == before + FretCands(s, lo, fret, pc, prev10, bias, withOctave)
      invariant best == Choose(seen)
    {
      FretCandsNext(s, lo, fret, pc, prev10, bias, withOctave);
      if Matches(s, fret, pc) {
        var c := MakePick(s, fret, prev10, bias, withOctave);
        ChooseSnoc(seen, c);
        if best.None? || c.cost < best.value.cost {
          best := Some(c);
        }
        assert seen + [c] == before + (FretCands(s, lo, fret, pc, prev10, bias, withOctave) + [c]);
        seen := seen + [c];
      } else {
        assert FretCands(s, lo, fret, pc, prev10, bias, withOctave) + [] == FretCands(s, lo, fret, pc, prev10, bias, withOctave);
      }
      fret := fret + 1;
    }
    if lo > hi + 1 {
      assert FretCands(s, lo, hi + 1, pc, prev10, bias, withOctave) == [];
    }
  }

  /** The candidate loop over one window: strings in the given order, frets
      ascending, keeping the first strictly cheapest. */
  method ScanWindow(strings: seq<int>, lo: int, hi: int, pc: int, prev10: int, bias: int, withOctave: bool)
    returns (best: Option<Pick>)
    ensures best == Choose(WindowCands(strings, lo, hi, pc, prev10, bias, withOctave))
  {
    best := None;
    var k := 0;
    while k < |strings|
      invariant 0 <= k <= |strings|
      invariant best == Choose(WindowCands(strings[..k], lo, hi, pc, prev10, bias, withOctave))
    {
      ghost var before := WindowCands(strings[..k], lo, hi, pc, prev10, bias, withOctave);
      best := ScanString(before, best, strings[k], lo, hi, pc, prev10, bias, withOctave);
      assert strings[..k + 1][..k] == strings[..k];
      k := k + 1;
    }
    assert strings[..|strings|] == strings;
  }

  /** The pick for one note: the window scan, then the fallback scan when the
      window has no candidate. */
  method PickNote(prev10: int, bias: int, pc: int, strings: seq<int>, range: FretRange)
    returns (best: Option<Pick>)
    ensures best == BestPick(prev10, bias, pc, strings, range)
  {
    best := ScanWindow(strings, range.min, range.max, pc, prev10, bias, true);
    if best.None? {
      var wide := FallbackRange(range);
      best := ScanWindow(strings, wide.min, wide.max, pc, prev10, bias, false);
    }
  }

  /** One iteration of the note loop: pick, then place the note and move
      the previous fret and the octave bias to it. */
  method PlaceNote(prev10: int, bias: int, mapped: seq<Placed>, pc: int, strings: seq<int>, range: FretRange)
    returns (prev10': int, bias': int, mapped': seq<Placed>)
    ensures MapState(prev10', bias', mapped') == Step(MapState(prev10, bias, mapped), pc, strings, range)
  {
    var best := PickNote(prev10, bias, pc, strings, range);
    prev10', bias', mapped' := prev10, bias, mapped;
    if best.Some? {
      prev10' := 10 * best.value.fret;
      mapped' := mapped + [Placed(best.value.midi, best.value.str, best.value.fret)];
      bias' := best.value.midi / 12 - 1;
    }
  }

  /** mapToFretboard: places the notes one by one. */
  method MapToFretboard(pcSeq: seq<int>, position: Value, stringOrder: Option<seq<int>>)
    returns (mapped: seq<Placed>)
    ensures mapped == Mapping(pcSeq, position, stringOrder)
  {
    var range := PositionRange(position);
    var prev10 := 5 * (range.min + range.max);
    mapped := [];
    var bias := 3;
    var i := 0;
    while i < |pcSeq|
      invariant 0 <= i <= |pcSeq|
      invariant MapState(prev10, bias, mapped) == MapPrefix(pcSeq, i, range, stringOrder)
    {
      prev10, bias, mapped := PlaceNote(prev10, bias, mapped, pcSeq[i], StringsFor(stringOrder, i), range);
      i := i + 1;
    }
  }
}
