/** The arpeggio generator's entry point (shared/arpeggio.ts,
    generateArpeggio): the chord's pitch classes in the requested pattern,
    placed on the fretboard, timed step by step, with a finger estimate per
    note and the ASCII tab of the whole. */
module Arpeggio {
  import opened Js
  import opened MusicTheory
  import opened ArpeggioSequences
  import opened FretMapper
  import opened AsciiTab

  /** The generator's input. Pattern and position are whatever the request
      carried; the numbers are exact. */
  datatype ArpeggioInput = ArpeggioInput(
    key: string, chord: string, pattern: Value, position: Value,
    length: real, tempo: real, subdivision: real)

  datatype Meta = Meta(key: string, chord: string, pattern: Value, position: Value, tempo: real, subdivision: real)

  datatype ArpeggioResult = ArpeggioResult(meta: Meta, events: seq<ArpeggioEvent>, ascii: string)

  /** estimateFinger: open strings need no finger; otherwise the fret's
      distance into the position, counted from 1 and clamped to 1 .. 4. */
  function EstimateFinger(fret: int, position: Value): (r: int)
    ensures r == 0 <==> fret == 0
    ensures fret != 0 ==> 1 <= r <= 4
    ensures var rel := fret - PositionRange(position).min + 1;
      fret != 0 ==> r == (if rel < 1 then 1 else if rel > 4 then 4 else rel)
  {
    if fret == 0 then 0
    else
      var rel := fret - PositionRange(position).min + 1;
      var atLeastOne := if rel > 1 then rel else 1;
      var capped := if atLeastOne < 4 then atLeastOne else 4;
      if capped > 1 then capped else 1
  }

  /** midiToNoteName: the pitch-class name and the octave, C4 being 60. A
      negative number whose remainder is not 0 has no name (`undefined`). */
  function MidiToNoteName(midi: int): string
  {
    var name := match NoteAtIndex(midi) case Some(n) => n case None => "undefined";
    name + IntToString(midi / 12 - 1)
  }

  /** From C-1 up, the name is the pitch class spelled with sharps followed
      by the octave's digits, and the two give back the MIDI number. */
  lemma MidiToNoteNameMeaning(midi: int)
    requires midi >= 12
    ensures MidiToNoteName(midi) == NOTES[Mod12(midi)] + NatToString(midi / 12 - 1)
    ensures 12 * (DigitsValue(NatToString(midi / 12 - 1)) + 1) + NoteIndex(NOTES[Mod12(midi)]) == midi
  {
    DigitsValueOfNatToString(midi / 12 - 1);
    NoteIndexRoundTrip(Mod12(midi));
    Mod12IsRemainder(midi);
  }

  /** The string order the sweep and updown patterns impose. */
  function StringOrderFor(pattern: Value, length: real): Option<seq<int>>
  {
    if pattern == Str("sweep") || pattern == Str("updown") then Some(StringTraversal(length)) else None
  }

  /** Seconds per step: a beat of 60 / tempo seconds split into
      `subdivision` steps. */
  function StepSeconds(tempo: real, subdivision: real): (sps: real)
    requires tempo != 0.0 && subdivision != 0.0
    ensures sps != 0.0
    ensures sps * tempo * subdivision == 60.0
  {
    (60.0 / tempo) / subdivision
  }

  function MakeEvent(m: Placed, i: nat, sps: real, position: Value): ArpeggioEvent
  {
    ArpeggioEvent(i as real * sps, sps * 0.9, MidiToNoteName(m.midi), m.str + 1, m.fret, EstimateFinger(m.fret, position))
  }

  function Events(mapped: seq<Placed>, sps: real, position: Value): seq<ArpeggioEvent>
  {
    seq(|mapped|, i requires 0 <= i < |mapped| => MakeEvent(mapped[i], i, sps, position))
  }

  /** The placements behind the events: the pattern's pitch classes of the
      normalised key, mapped with the pattern's string order. */
  function MappedOf(input: ArpeggioInput): seq<Placed>
  {
    Mapping(PitchClasses(NormalizeNote(input.key), input.chord, input.length, input.pattern),
            input.position, StringOrderFor(input.pattern, input.length))
  }

  /** The placements are sound, inside the position's fallback window, and
      no more than the requested length. */
  lemma MappedOfMeaning(input: ArpeggioInput)
    ensures forall j :: 0 <= j < |MappedOf(input)| ==>
      ValidPlacement(MappedOf(input)[j], FallbackRange(PositionRange(input.position)))
    ensures input.length >= 0.0 ==> |MappedOf(input)| <= input.length.Floor
  {
    var key := NormalizeNote(input.key);
    var pcSeq := PitchClasses(key, input.chord, input.length, input.pattern);
    var stringOrder := StringOrderFor(input.pattern, input.length);
    MapPrefixSound(pcSeq, |pcSeq|, PositionRange(input.position), stringOrder);
    MapPrefixSubsequence(pcSeq, |pcSeq|, PositionRange(input.position), stringOrder);
    assert pcSeq[..|pcSeq|] == pcSeq;
    SubsequenceLength(PitchClassesOf(MappedOf(input)), pcSeq);
    if input.length >= 0.0 {
      PitchClassesMeaning(key, input.chord, input.length, input.pattern);
    }
  }

  /** Event i of an arpeggio, made from placement `m`: it starts at i steps
      and lasts nine tenths of a step; it names the placement's string
      counted from 1 (1 the lowest), its fret, the name of its MIDI note and
      the finger estimate for the fret. */
  predicate EventAt(ev: ArpeggioEvent, m: Placed, i: int, sps: real, position: Value)
  {
    && ev.time == i as real * sps
    && ev.duration == sps * 9.0 / 10.0
    && ev.str == m.str + 1
    && ev.fret == m.fret
    && ev.note == MidiToNoteName(m.midi)
    && ev.finger == EstimateFinger(m.fret, position)
  }

  /** One event per placement, in order; with sound placements every event
      names one of the six strings. */
  lemma EventsMeaning(mapped: seq<Placed>, sps: real, position: Value)
    ensures |Events(mapped, sps, position)| == |mapped|
    ensures forall i :: 0 <= i < |mapped| ==> EventAt(Events(mapped, sps, position)[i], mapped[i], i, sps, position)
    ensures (forall j :: 0 <= j < |mapped| ==> 0 <= mapped[j].str < 6) ==> ValidStrings(Events(mapped, sps, position))
    ensures OnSteps(Events(mapped, sps, position), sps)
  {
  }

  /** generateArpeggio. The key is normalised once here and again by the
      note lookup, which changes nothing. */
  function GenerateArpeggio(input: ArpeggioInput): ArpeggioResult
    requires input.tempo != 0.0 && input.subdivision != 0.0
  {
    var mapped := MappedOf(input);
    var sps := StepSeconds(input.tempo, input.subdivision);
    var events := Events(mapped, sps, input.position);
    MappedOfMeaning(input);
    EventsMeaning(mapped, sps, input.position);
    assert forall j :: 0 <= j < |mapped| ==> 0 <= mapped[j].str < 6;
    ArpeggioResult(
      Meta(input.key, input.chord, input.pattern, input.position, input.tempo, input.subdivision),
      events,
      Tab(events, sps, input.length))
  }

  /** The result echoes the request and has at most `length` events; event
      i is made from placement i as `EventAt` describes, and that placement
      is a sound one (its MIDI note is its open string plus its fret) inside
      the position's fallback window. */
  lemma GenerateArpeggioMeaning(input: ArpeggioInput)
    requires input.tempo != 0.0 && input.subdivision != 0.0 && input.length >= 0.0
    ensures GenerateArpeggio(input).meta
      == Meta(input.key, input.chord, input.pattern, input.position, input.tempo, input.subdivision)
    ensures |GenerateArpeggio(input).events| == |MappedOf(input)| <= input.length.Floor
    ensures forall i :: 0 <= i < |MappedOf(input)| ==>
      && EventAt(GenerateArpeggio(input).events[i], MappedOf(input)[i], i, StepSeconds(input.tempo, input.subdivision), input.position)
      && ValidPlacement(MappedOf(input)[i], FallbackRange(PositionRange(input.position)))
  {
    MappedOfMeaning(input);
    EventsMeaning(MappedOf(input), StepSeconds(input.tempo, input.subdivision), input.position);
  }

  /** For the ascending and descending patterns of a known key, no note is
      dropped: there are exactly `length` events, and placement i (behind
      event i) sounds the i-th pitch class of the pattern. */
  lemma GenerateArpeggioComplete(input: ArpeggioInput)
    requires input.tempo != 0.0 && input.subdivision != 0.0 && input.length >= 0.0
    requires input.pattern != Str("sweep") && input.pattern != Str("updown")
    requires NoteIndex(input.key) >= 0
    ensures |GenerateArpeggio(input).events| == input.length.Floor
    ensures PitchClassesOf(MappedOf(input)) == PitchClasses(input.key, input.chord, input.length, input.pattern)
  {
    var key := NormalizeNote(input.key);
    NormalizeIdempotent(input.key);
    assert NoteIndex(key) == NoteIndex(input.key);
    var pcSeq := PitchClasses(key, input.chord, input.length, input.pattern);
    assert pcSeq == PitchClasses(input.key, input.chord, input.length, input.pattern);
    PitchClassesMeaning(key, input.chord, input.length, input.pattern);
    MapPrefixComplete(pcSeq, |pcSeq|, PositionRange(input.position));
    assert pcSeq[..|pcSeq|] == pcSeq;
    EventsMeaning(MappedOf(input), StepSeconds(input.tempo, input.subdivision), input.position);
  }

  /** What the tab of `events` shows: every event names a string, writes
      both digits inside a tab of `length` steps, and its first fret digit
      stands at cell 2i of its string's line. */
  predicate TabShows(events: seq<ArpeggioEvent>, sps: real, length: real)
    requires length >= 0.0
  {
    && ValidStrings(events)
    && InGrid(events, sps, GridWidth(length))
    && forall i :: 0 <= i < |events| ==>
      var row := PaintAll(InitialGrid(GridWidth(length)), events, sps)[6 - events[i].str];
      2 * i < |row| && row[2 * i] == [IntToString(events[i].fret)[0]]
  }

  /** Events on consecutive steps, each naming a string, and no more than
      `length` of them, show in the tab as `TabShows` says. */
  lemma StepsTab(events: seq<ArpeggioEvent>, sps: real, length: real)
    requires sps != 0.0 && length >= 0.0 && |events| <= length.Floor
    requires ValidStrings(events) && OnSteps(events, sps)
    ensures TabShows(events, sps, length)
  {
    StepsInGrid(events, sps, length);
    StepsWrite(events, sps, length);
  }

  /** The events of a generated arpeggio show in its tab as `TabShows`
      says (six lines of `2 * length + 1` cells with event i's first fret
      digit at cell 2i), and its ascii text is the tab of those events. */
  lemma GenerateArpeggioTab(input: ArpeggioInput)
    requires input.tempo != 0.0 && input.subdivision != 0.0 && input.length >= 0.0
    ensures TabShows(GenerateArpeggio(input).events, StepSeconds(input.tempo, input.subdivision), input.length)
    ensures GenerateArpeggio(input).ascii
      == Tab(GenerateArpeggio(input).events, StepSeconds(input.tempo, input.subdivision), input.length)
  {
    var sps := StepSeconds(input.tempo, input.subdivision);
    var mapped := MappedOf(input);
    var events := GenerateArpeggio(input).events;
    assert |events| <= input.length.Floor && ValidStrings(events) && OnSteps(events, sps) by {
      MappedOfMeaning(input);
      EventsMeaning(mapped, sps, input.position);
    }
    StepsTab(events, sps, input.length);
  }

  /** Event i starts at step i. */
  predicate OnSteps(events: seq<ArpeggioEvent>, sps: real)
  {
    forall i :: 0 <= i < |events| ==> events[i].time == i as real * sps
  }

  /** Events on consecutive steps, no more than `length` of them, write
      inside a tab of `length` steps. */
  lemma StepsInGrid(events: seq<ArpeggioEvent>, sps: real, length: real)
    requires sps != 0.0 && length >= 0.0 && |events| <= length.Floor && OnSteps(events, sps)
    ensures InGrid(events, sps, GridWidth(length))
  {
    forall i | 0 <= i < |events|
      ensures Column(events[i].time, sps) == Some(2 * i)
    {
      StepColumn(i, sps);
    }
  }

  /** Events on consecutive steps never overwrite each other's first digit. */
  lemma StepsWrite(events: seq<ArpeggioEvent>, sps: real, length: real)
    requires sps != 0.0 && ValidStrings(events) && OnSteps(events, sps)
    ensures forall i :: 0 <= i < |events| ==>
      var row := PaintAll(InitialGrid(GridWidth(length)), events, sps)[6 - events[i].str];
      2 * i < |row| && row[2 * i] == [IntToString(events[i].fret)[0]]
  {
    var w := GridWidth(length);
    forall i | 0 <= i < |events|
      ensures Column(events[i].time, sps) == Some(2 * i)
    {
      StepColumn(i, sps);
    }
    forall i | 0 <= i < |events|
      ensures var row := PaintAll(InitialGrid(w), events, sps)[6 - events[i].str];
        2 * i < |row| && row[2 * i] == [IntToString(events[i].fret)[0]]
    {
      PaintAllWrites(InitialGrid(w), events, sps, i);
    }
  }

  /** The step at time i * sps rounds back to i. */
  lemma StepColumn(i: nat, sps: real)
    requires sps != 0.0
    ensures Column(i as real * sps, sps) == Some(2 * i)
  {
    assert (i as real * sps) / sps == i as real;
  }
}
