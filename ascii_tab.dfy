/** The ASCII tablature writer of the arpeggio generator (shared/arpeggio.ts,
    renderAsciiTab): six rows of `-` cells, high string first, into which
    every event writes the digits of its fret at the column of its step.

    A row is kept as a sequence of cells. A write past the end of a row
    grows it the way a JavaScript array grows: the skipped cells are holes,
    which `join('')` prints as nothing, so they are empty cells here. */
module AsciiTab {
  import opened Js

  /** A note of the generated arpeggio. `str` counts 1 .. 6 from the lowest
      string (MIDI 40) up; `time` and `duration` are exact seconds. */
  datatype ArpeggioEvent = ArpeggioEvent(time: real, duration: real, note: string, str: int, fret: int, finger: int)

  /** The row labels, top row (the high e string) first. */
  const STRING_NAMES: seq<string> := ["e", "B", "G", "D", "A", "E"]

  /** `Math.round`: halves round up. */
  function Round(x: real): (r: int)
    ensures x - 0.5 < r as real <= x + 0.5
  {
    (x + 0.5).Floor
  }

  /** The column an event writes to: twice its rounded step. A step length of
      zero makes the column NaN or infinite, which names no cell. */
  function Column(time: real, sps: real): Option<int>
  {
    if sps == 0.0 then None else Some(2 * Round(time / sps))
  }

  /** The number of cells per row, `steps * 2 + 1` as an array length
      (truncated, never negative). */
  function GridWidth(steps: real): (w: nat)
    ensures steps >= 0.0 ==> w == (2.0 * steps + 1.0).Floor
    ensures w as real <= (if steps >= 0.0 then 2.0 * steps + 1.0 else 0.0) < w as real + 1.0 || (steps < 0.0 && w == 0)
  {
    if 2.0 * steps + 1.0 < 1.0 then 0 else (2.0 * steps + 1.0).Floor
  }

  function Blank(width: nat): seq<string>
  {
    seq(width, _ => "-")
  }

  function InitialGrid(width: nat): seq<seq<string>>
  {
    seq(6, _ => Blank(width))
  }

  /** Assigns a cell: a negative column is not an array index and changes
      nothing; a column past the end grows the row with holes. */
  function Put(row: seq<string>, col: int, cell: string): (r: seq<string>)
    ensures col < 0 ==> r == row
    ensures 0 <= col ==> |r| == if col < |row| then |row| else col + 1
    ensures 0 <= col ==> r[col] == cell
    ensures forall j :: 0 <= j < |row| && j != col ==> r[j] == row[j]
  {
    if col < 0 then row
    else if col < |row| then row[col := cell]
    else row + seq(col - |row|, _ => "") + [cell]
  }

  /** The digits of a fret written from `col`: the first digit there, the
      second in the next cell when that cell exists after the first write. */
  function PutDigits(row: seq<string>, col: int, fretStr: string): (r: seq<string>)
    requires |fretStr| >= 1
    ensures |r| >= |row|
    ensures 0 <= col ==> col < |r| && r[col] == [fretStr[0]]
    ensures forall j :: 0 <= j < |row| && j != col && !(j == col + 1 && |fretStr| > 1) ==> r[j] == row[j]
  {
    var first := Put(row, col, [fretStr[0]]);
    if |fretStr| > 1 && col + 1 < |first| then Put(first, col + 1, [fretStr[1]]) else first
  }

  /** One event: its fret digits from its column on row `6 - str`. */
  function Paint(grid: seq<seq<string>>, ev: ArpeggioEvent, sps: real): (g: seq<seq<string>>)
    requires |grid| == 6 && 1 <= ev.str <= 6
    ensures |g| == 6
    ensures forall r :: 0 <= r < 6 && r != 6 - ev.str ==> g[r] == grid[r]
  {
    match Column(ev.time, sps)
    case None => grid
    case Some(col) => grid[6 - ev.str := PutDigits(grid[6 - ev.str], col, IntToString(ev.fret))]
  }

  predicate ValidStrings(events: seq<ArpeggioEvent>)
  {
    forall k :: 0 <= k < |events| ==> 1 <= events[k].str <= 6
  }

  /** The grid after the events, in order. */
  function PaintAll(grid: seq<seq<string>>, events: seq<ArpeggioEvent>, sps: real): (g: seq<seq<string>>)
    requires |grid| == 6 && ValidStrings(events)
    ensures |g| == 6
  {
    if |events| == 0 then grid
    else Paint(PaintAll(grid, events[..|events| - 1], sps), events[|events| - 1], sps)
  }

  function Concat(cells: seq<string>): string
  {
    if |cells| == 0 then "" else Concat(cells[..|cells| - 1]) + cells[|cells| - 1]
  }

  function TabLines(grid: seq<seq<string>>): seq<string>
    requires |grid| == 6
  {
    seq(6, i requires 0 <= i < 6 => STRING_NAMES[i] + "|" + Concat(grid[i]) + "|")
  }

  function Tab(events: seq<ArpeggioEvent>, sps: real, steps: real): string
    requires ValidStrings(events)
  {
    Join(TabLines(PaintAll(InitialGrid(GridWidth(steps)), events, sps)), '\n')
  }

  /** One iteration of the event loop: the writes into the event's row. */
  method PaintEvent(cols: seq<seq<string>>, ev: ArpeggioEvent, sps: real) returns (cols': seq<seq<string>>)
    requires |cols| == 6 && 1 <= ev.str <= 6
    ensures cols' == Paint(cols, ev, sps)
  {
    cols' := cols;
    var stringIdx := 6 - ev.str;
    var fretStr := IntToString(ev.fret);
    var col := Column(ev.time, sps);
    if col.Some? {
      cols' := cols'[stringIdx := Put(cols'[stringIdx], col.value, [fretStr[0]])];
      if |fretStr| > 1 && col.value + 1 < |cols'[stringIdx]| {
        cols' := cols'[stringIdx := Put(cols'[stringIdx], col.value + 1, [fretStr[1]])];
      }
    }
  }

  /** renderAsciiTab: fills the grid event by event, then joins the labelled
      rows. An event string outside 1 .. 6 has no row (the source throws). */
  method RenderAsciiTab(events: seq<ArpeggioEvent>, sps: real, steps: real) returns (ascii: string)
    requires ValidStrings(events)
    ensures ascii == Tab(events, sps, steps)
  {
    var width := GridWidth(steps);
    var cols := InitialGrid(width);
    var k := 0;
    while k < |events|
      invariant 0 <= k <= |events|
      invariant cols == PaintAll(InitialGrid(width), events[..k], sps)
    {
      cols := PaintEvent(cols, events[k], sps);
      assert events[..k + 1][..k] == events[..k];
      k := k + 1;
    }
    assert events[..|events|] == events;
    ascii := Join(TabLines(cols), '\n');
  }

  /** Whether an event may write cell `j` of row `r`. */
  predicate Touches(ev: ArpeggioEvent, sps: real, r: int, j: int)
  {
    && 6 - ev.str == r
    && Column(ev.time, sps).Some?
    && (j == Column(ev.time, sps).value
        || (j == Column(ev.time, sps).value + 1 && |IntToString(ev.fret)| > 1))
  }

  /** No event of the list touches cell `j` of row `r`. */
  predicate Untouched(events: seq<ArpeggioEvent>, sps: real, r: int, j: int)
  {
    forall k :: 0 <= k < |events| ==> !Touches(events[k], sps, r, j)
  }

  lemma PaintKeeps(grid: seq<seq<string>>, ev: ArpeggioEvent, sps: real, r: int, j: int)
    requires |grid| == 6 && 1 <= ev.str <= 6
    requires 0 <= r < 6 && 0 <= j < |grid[r]| && !Touches(ev, sps, r, j)
    ensures |Paint(grid, ev, sps)[r]| >= |grid[r]|
    ensures Paint(grid, ev, sps)[r][j] == grid[r][j]
  {
  }

  /** Rows only grow, and a cell no event touches keeps its value. */
  lemma {:induction false} PaintAllKeeps(grid: seq<seq<string>>, events: seq<ArpeggioEvent>, sps: real, r: int, j: int)
    requires |grid| == 6 && ValidStrings(events)
    requires 0 <= r < 6 && 0 <= j < |grid[r]|
    requires Untouched(events, sps, r, j)
    ensures |PaintAll(grid, events, sps)[r]| >= |grid[r]|
    ensures PaintAll(grid, events, sps)[r][j] == grid[r][j]
  {
    if |events| > 0 {
      PaintAllKeeps(grid, events[..|events| - 1], sps, r, j);
      PaintKeeps(PaintAll(grid, events[..|events| - 1], sps), events[|events| - 1], sps, r, j);
    }
  }

  /** An event's first digit stands in its cell unless a later event
      touches that cell. */
  lemma {:induction false} PaintAllWrites(grid: seq<seq<string>>, events: seq<ArpeggioEvent>, sps: real, k: int)
    requires |grid| == 6 && ValidStrings(events)
    requires 0 <= k < |events| && Column(events[k].time, sps).Some?
    requires var c := Column(events[k].time, sps).value;
      c >= 0 && forall m :: k < m < |events| ==> !Touches(events[m], sps, 6 - events[k].str, c)
    ensures var c := Column(events[k].time, sps).value;
      var row := PaintAll(grid, events, sps)[6 - events[k].str];
      c < |row| && row[c] == [IntToString(events[k].fret)[0]]
  {
    var c := Column(events[k].time, sps).value;
    var r := 6 - events[k].str;
    var init := events[..|events| - 1];
    if k < |events| - 1 {
      assert init[k] == events[k];
      PaintAllWrites(grid, init, sps, k);
      PaintKeeps(PaintAll(grid, init, sps), events[|events| - 1], sps, r, c);
    }
  }

  /** Every event of the list lands inside the grid of width `w`, both its
      digits included. */
  predicate InGrid(events: seq<ArpeggioEvent>, sps: real, w: nat)
  {
    forall k :: 0 <= k < |events| ==>
      Column(events[k].time, sps).Some? && 0 <= Column(events[k].time, sps).value && Column(events[k].time, sps).value + 1 < w
  }

  predicate SingleChars(cells: seq<string>)
  {
    forall j :: 0 <= j < |cells| ==> |cells[j]| == 1
  }

  /** When every write lands inside the grid, every row keeps its width and
      every cell holds one character. */
  lemma {:induction false} PaintAllShape(w: nat, events: seq<ArpeggioEvent>, sps: real)
    requires ValidStrings(events) && InGrid(events, sps, w)
    ensures forall r :: 0 <= r < 6 ==>
      |PaintAll(InitialGrid(w), events, sps)[r]| == w && SingleChars(PaintAll(InitialGrid(w), events, sps)[r])
  {
    if |events| > 0 {
      PaintAllShape(w, events[..|events| - 1], sps);
    }
  }

  lemma {:induction false} ConcatSingles(cells: seq<string>)
    requires SingleChars(cells)
    ensures |Concat(cells)| == |cells|
    ensures forall j :: 0 <= j < |cells| ==> Concat(cells)[j] == cells[j][0]
  {
    if |cells| > 0 {
      ConcatSingles(cells[..|cells| - 1]);
    }
  }

  /** A line built from a one-character name and one-character cells:
      `name|`, the cells' characters, `|`. */
  lemma LineShape(name: string, cells: seq<string>)
    requires |name| == 1 && SingleChars(cells)
    ensures var line := name + "|" + Concat(cells) + "|";
      && |line| == |cells| + 3
      && line[0] == name[0] && line[1] == '|' && line[|line| - 1] == '|'
      && forall j :: 0 <= j < |cells| ==> line[2 + j] == cells[j][0]
  {
    ConcatSingles(cells);
  }

  /** One line of the tab: `label|`, one character per cell, `|`. */
  lemma TabLine(events: seq<ArpeggioEvent>, sps: real, steps: real, r: int)
    requires ValidStrings(events) && InGrid(events, sps, GridWidth(steps)) && 0 <= r < 6
    ensures var line := TabLines(PaintAll(InitialGrid(GridWidth(steps)), events, sps))[r];
      && |line| == GridWidth(steps) + 3
      && line[0] == STRING_NAMES[r][0] && line[1] == '|' && line[|line| - 1] == '|'
      && forall j :: 0 <= j < GridWidth(steps) && Untouched(events, sps, r, j) ==> line[2 + j] == '-'
  {
    var w := GridWidth(steps);
    var grid := PaintAll(InitialGrid(w), events, sps);
    var cells := grid[r];
    assert |cells| == w && SingleChars(cells) by {
      PaintAllShape(w, events, sps);
    }
    var line := TabLines(grid)[r];
    assert line == STRING_NAMES[r] + "|" + Concat(cells) + "|";
    LineShape(STRING_NAMES[r], cells);
    forall j | 0 <= j < w && Untouched(events, sps, r, j)
      ensures cells[j] == "-"
    {
      PaintAllKeeps(InitialGrid(w), events, sps, r, j);
    }
  }

  /** The rendered tab: six lines labelled e, B, G, D, A, E from the top,
      each `label|` then the cells then `|`. When every write lands inside
      the grid, each line has `2 * steps + 1` cells, and a cell no event
      touches is `-`. */
  lemma TabMeaning(events: seq<ArpeggioEvent>, sps: real, steps: real)
    requires ValidStrings(events) && InGrid(events, sps, GridWidth(steps))
    ensures var lines := TabLines(PaintAll(InitialGrid(GridWidth(steps)), events, sps));
      && Tab(events, sps, steps) == Join(lines, '\n')
      && |lines| == 6
      && forall r :: 0 <= r < 6 ==>
        && |lines[r]| == GridWidth(steps) + 3
        && lines[r][0] == STRING_NAMES[r][0] && lines[r][1] == '|' && lines[r][|lines[r]| - 1] == '|'
        && forall j :: 0 <= j < GridWidth(steps) && Untouched(events, sps, r, j) ==> lines[r][2 + j] == '-'
  {
    forall r | 0 <= r < 6 {
      TabLine(events, sps, steps, r);
    }
  }

  /** Splitting the tab at newlines gives back its six lines. */
  lemma TabSplits(events: seq<ArpeggioEvent>, sps: real, steps: real)
    requires ValidStrings(events) && InGrid(events, sps, GridWidth(steps))
    ensures |Split(Tab(events, sps, steps), '\n')| == 6
  {
    var w := GridWidth(steps);
    var grid := PaintAll(InitialGrid(w), events, sps);
    var lines := TabLines(grid);
    forall r | 0 <= r < 6 ensures FreeOf(lines[r], '\n')
    {
      NoNewlines(w, events, sps, r);
      ConcatFree(grid[r]);
    }
    JoinSplit(lines, '\n');
  }

  /** No cell holds a newline: cells are `-`, holes, or fret digits. */
  lemma {:induction false} NoNewlines(w: nat, events: seq<ArpeggioEvent>, sps: real, r: int)
    requires ValidStrings(events) && 0 <= r < 6
    ensures forall j :: 0 <= j < |PaintAll(InitialGrid(w), events, sps)[r]| ==>
      FreeOf(PaintAll(InitialGrid(w), events, sps)[r][j], '\n')
  {
    if |events| > 0 {
      NoNewlines(w, events[..|events| - 1], sps, r);
    }
  }

  lemma {:induction false} ConcatFree(cells: seq<string>)
    requires forall j :: 0 <= j < |cells| ==> FreeOf(cells[j], '\n')
    ensures FreeOf(Concat(cells), '\n')
  {
    if |cells| > 0 {
      ConcatFree(cells[..|cells| - 1]);
    }
  }
}
