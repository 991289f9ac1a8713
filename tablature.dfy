/** The tab renderer: a grid of six rows of '-', one per string with the high
    e string on top, into which each note's fret number is written at a column
    cursor that moves two columns per sixteenth; the grid is framed by a
    title, a scale line and two rules of 60 '='. */
module Tablature {
  import opened Guitar
  import opened Digits

  const NoNotes: string := "No notes to display"
  const Rule: string := seq(60, _ => '=')
  const Labels: seq<string> := ["e|", "B|", "G|", "D|", "A|", "E|"]

  /** Columns the notes move the cursor by: two per unit of duration. */
  function Advance(ns: seq<GuitarNote>): (w: int)
    ensures AllWellFormed(ns) ==> w >= 0
  {
    if ns == [] then 0 else Advance(ns[..|ns| - 1]) + ns[|ns| - 1].duration * 2
  }

  /** The length of every grid row: the columns of all notes plus two. */
  function Width(ns: seq<GuitarNote>): (w: int)
    ensures AllWellFormed(ns) ==> w >= 2
  {
    Advance(ns) + 2
  }

  /** The cursor column where note k starts: 1 plus the columns of the notes
      before it. */
  function Start(ns: seq<GuitarNote>, k: nat): int
    requires k <= |ns|
  {
    1 + Advance(ns[..k])
  }

  /** The cursor moves by twice a note's duration past that note. */
  lemma StartStep(ns: seq<GuitarNote>, k: nat)
    requires k < |ns|
    ensures Start(ns, k + 1) == Start(ns, k) + 2 * ns[k].duration
  {
    assert ns[..k + 1][..k] == ns[..k];
  }

  /** Cursor positions never go backwards. */
  lemma {:induction false} StartMonotone(ns: seq<GuitarNote>, j: nat, k: nat)
    requires AllWellFormed(ns)
    requires j <= k <= |ns|
    ensures 1 <= Start(ns, j) <= Start(ns, k)
    decreases k - j
  {
    assert AllWellFormed(ns[..j]) by {
      assert forall i :: 0 <= i < j ==> ns[..j][i] == ns[i];
    }
    if j < k {
      StartStep(ns, j);
      StartMonotone(ns, j + 1, k);
    }
  }

  /** Every note starts inside its row, so at least the first character of
      each fret text is written, and the cursor ends one column short of the
      row's end. */
  lemma StartInRow(ns: seq<GuitarNote>, k: nat)
    requires AllWellFormed(ns)
    requires k < |ns|
    ensures 1 <= Start(ns, k) < Width(ns)
    ensures Start(ns, |ns|) == Width(ns) - 1
  {
    assert ns[..|ns|] == ns;
    StartStep(ns, k);
    StartMonotone(ns, k + 1, |ns|);
    StartMonotone(ns, 0, k);
  }

  /** The decimal text of a note's fret, as written into the grid. */
  function FretText(n: GuitarNote): string {
    IntToDecimal(n.fret)
  }

  /** Note k writes cell (row, col): the row of its string (high e on top) and
      a column among those its fret text covers from its start column. */
  predicate Covers(ns: seq<GuitarNote>, k: nat, row: int, col: int)
    requires k < |ns|
  {
    row == 5 - ns[k].stringIndex && Start(ns, k) <= col < Start(ns, k) + |FretText(ns[k])|
  }

  /** The character in cell (row, col) once the first n notes are placed. */
  function Painted(ns: seq<GuitarNote>, n: nat, row: int, col: int): char
    requires n <= |ns|
  {
    if n == 0 then '-'
    else if Covers(ns, n - 1, row, col) then FretText(ns[n - 1])[col - Start(ns, n - 1)]
    else Painted(ns, n - 1, row, col)
  }

  /** A cell no note covers keeps its '-'. */
  lemma {:induction false} PaintedUntouched(ns: seq<GuitarNote>, n: nat, row: int, col: int)
    requires n <= |ns|
    requires forall j :: 0 <= j < n ==> !Covers(ns, j, row, col)
    ensures Painted(ns, n, row, col) == '-'
  {
    if n > 0 {
      PaintedUntouched(ns, n - 1, row, col);
    }
  }

  /** A covered cell shows the character of the last note that covers it:
      later notes overwrite earlier ones. */
  lemma {:induction false} PaintedLastWriter(ns: seq<GuitarNote>, n: nat, k: nat, row: int, col: int)
    requires k < n <= |ns|
    requires Covers(ns, k, row, col)
    requires forall j :: k < j < n ==> !Covers(ns, j, row, col)
    ensures Painted(ns, n, row, col) == FretText(ns[k])[col - Start(ns, k)]
  {
    if n - 1 > k {
      PaintedLastWriter(ns, n - 1, k, row, col);
    }
  }

  /** The content of grid row `row` after all notes are placed; characters
      that would fall at or past the row's end are not there. */
  function RowText(ns: seq<GuitarNote>, row: int): (line: string)
    requires AllWellFormed(ns)
  {
    seq(Width(ns), c => Painted(ns, |ns|, row, c))
  }

  lemma TwoDigitText(n: GuitarNote)
    requires 0 <= n.fret <= 99
    ensures 1 <= |FretText(n)| <= 2
  {
    if n.fret >= 10 {
      assert FretText(n) == NatToDecimal(n.fret / 10) + [DigitChar(n.fret % 10)];
    }
  }

  /** When the frets fit, no later note covers a cell of an earlier one and
      no character is cut at the row's end, so every note's fret text shows in
      full in its string's row, from its start column on. */
  lemma {:induction false} NoteShown(ns: seq<GuitarNote>, k: nat, i: nat)
    requires AllWellFormed(ns) && FretsFit(ns)
    requires k < |ns| && i < |FretText(ns[k])|
    ensures Start(ns, k) + i < Width(ns)
    ensures RowText(ns, 5 - ns[k].stringIndex)[Start(ns, k) + i] == FretText(ns[k])[i]
  {
    var row, col := 5 - ns[k].stringIndex, Start(ns, k) + i;
    TwoDigitText(ns[k]);
    StartStep(ns, k);
    StartInRow(ns, k);
    StartMonotone(ns, k + 1, |ns|);
    forall j | k < j < |ns|
      ensures !Covers(ns, j, row, col)
    {
      StartMonotone(ns, k + 1, j);
    }
    PaintedLastWriter(ns, |ns|, k, row, col);
  }

  /** The lines of a tab: the title, the scale line, a rule, the six labelled
      rows from the high e string down, and a closing rule. */
  function TabLines(conf: Config, ns: seq<GuitarNote>, title: string): seq<string>
    requires AllWellFormed(ns)
  {
    ["\n" + title, "Scale: " + ModeValue(conf.scaleMode) + " in " + conf.rootNote, Rule]
    + seq(6, r requires 0 <= r < 6 => Labels[r] + RowText(ns, r) + "|")
    + [Rule]
  }

  /** Lines joined with a newline between each two. */
  function JoinLines(ls: seq<string>): string {
    if ls == [] then ""
    else if |ls| == 1 then ls[0]
    else ls[0] + "\n" + JoinLines(ls[1..])
  }

  /** The joined text starts with the first line. */
  lemma JoinLinesPrefix(ls: seq<string>)
    requires |ls| > 0
    ensures |JoinLines(ls)| >= |ls[0]| && JoinLines(ls)[..|ls[0]|] == ls[0]
  {
  }

  /** What the renderer produces for a note list. */
  function Render(conf: Config, ns: seq<GuitarNote>, title: string): string
    requires AllWellFormed(ns)
  {
    if ns == [] then NoNotes else JoinLines(TabLines(conf, ns, title))
  }

  /** The placeholder is produced for the empty note list and only for it:
      every real tab starts with a newline and the title. */
  lemma RenderPlaceholder(conf: Config, ns: seq<GuitarNote>, title: string)
    requires AllWellFormed(ns)
    ensures Render(conf, ns, title) == NoNotes <==> ns == []
    ensures ns != [] ==> var tab := Render(conf, ns, title);
      |tab| > |title| && tab[..|title| + 1] == "\n" + title
  {
    if ns != [] {
      var ls := TabLines(conf, ns, title);
      JoinLinesPrefix(ls);
      assert Render(conf, ns, title)[0] == '\n';
    }
  }

  /** The grid holds the cells as they are once the first n notes are placed. */
  ghost predicate GridShows(grid: array2<char>, notes: seq<GuitarNote>, n: nat)
    requires n <= |notes|
    reads grid
  {
    forall r, c :: 0 <= r < grid.Length0 && 0 <= c < grid.Length1 ==> grid[r, c] == Painted(notes, n, r, c)
  }

  /** Place note k: write its fret text into the row of its string from the
      cursor on, leaving out characters at or past the end of the row. */
  method PlaceNote(grid: array2<char>, notes: seq<GuitarNote>, k: nat, position: int)
    requires k < |notes| && WellFormed(notes[k])
    requires grid.Length0 == 6 && position == Start(notes, k) && position >= 1
    requires GridShows(grid, notes, k)
    modifies grid
    ensures GridShows(grid, notes, k + 1)
  {
    var note := notes[k];
    var stringIdx := 5 - note.stringIndex;
    var fretStr := IntToDecimal(note.fret);
    for charIdx := 0 to |fretStr|
      invariant forall r, c :: 0 <= r < 6 && 0 <= c < grid.Length1 ==>
        grid[r, c] == if r == stringIdx && position <= c < position + charIdx
                      then fretStr[c - position] else Painted(notes, k, r, c)
    {
      if position + charIdx < grid.Length1 {
        grid[stringIdx, position + charIdx] := fretStr[charIdx];
      }
    }
  }

  /** Assemble the lines of a tab around a filled grid and join them. */
  method AssembleTab(conf: Config, notes: seq<GuitarNote>, title: string, grid: array2<char>) returns (tab: string)
    requires AllWellFormed(notes)
    requires grid.Length0 == 6 && grid.Length1 == Width(notes)
    requires GridShows(grid, notes, |notes|)
    ensures tab == JoinLines(TabLines(conf, notes, title))
  {
    var output := ["\n" + title, "Scale: " + ModeValue(conf.scaleMode) + " in " + conf.rootNote, Rule];
    for r := 0 to 6
      invariant |output| == 3 + r
      invariant output[..3] == TabLines(conf, notes, title)[..3]
      invariant forall i :: 0 <= i < r ==> output[3 + i] == Labels[i] + RowText(notes, i) + "|"
    {
      var line := seq(grid.Length1, c requires 0 <= c < grid.Length1 reads grid => grid[r, c]);
      assert line == RowText(notes, r);
      output := output + [Labels[r] + line + "|"];
    }
    output := output + [Rule];
    assert output == TabLines(conf, notes, title);
    tab := JoinLines(output);
  }

  /** The renderer: allocate six rows of '-' of the computed width, place the
      notes one after the other while the cursor moves by twice each note's
      duration, then assemble the lines. */
  method NotesToTab(conf: Config, notes: seq<GuitarNote>, title: string) returns (tab: string)
    requires AllWellFormed(notes)
    ensures tab == Render(conf, notes, title)
  {
    if notes == [] {
      return NoNotes;
    }
    var totalLength := Width(notes);
    var grid := new char[6, totalLength]((_, _) => '-');
    var position := 1;
    for k := 0 to |notes|
      invariant position == Start(notes, k) && position >= 1
      invariant GridShows(grid, notes, k)
    {
      PlaceNote(grid, notes, k, position);
      StartStep(notes, k);
      position := position + notes[k].duration * 2;
    }
    tab := AssembleTab(conf, notes, title, grid);
  }
}
