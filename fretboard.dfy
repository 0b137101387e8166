/**
 * The fretboard itself and what a click on one of its cells does: the six
 * open strings, the cells of the board, the scale chosen from the controls,
 * and the highlight pass that marks every cell of a selected string whose
 * note and octave belong to the scale, the tonic's name set apart.
 */
module Fretboard {
  import opened Wrappers
  import opened Pitch
  import opened Scales
  import opened Harmony
  import opened Display
  import opened Membership

  /** An open string: its number (1 is the highest), its note and its octave. */
  datatype OpenString = OpenString(number: int, note: string, octave: int)

  /** Standard tuning, from string 6 (E2) to string 1 (E4). */
  const OpenNotes: seq<OpenString> := [
    OpenString(6, "E", 2), OpenString(5, "A", 2), OpenString(4, "D", 3),
    OpenString(3, "G", 3), OpenString(2, "B", 3), OpenString(1, "E", 4)
  ]

  /** The highest fret drawn; every string has the cells 0 to FretCount. */
  const FretCount := 15

  /** The data a cell carries: its string number and its fret. */
  datatype Cell = Cell(stringNumber: int, fret: int)

  /** `strings.find(s => s.string === number)`, scanning from position i. */
  function FindFrom(strings: seq<OpenString>, number: int, i: nat): (r: Option<OpenString>)
    requires i <= |strings|
    ensures r.Some? ==> r.value in strings && r.value.number == number
    ensures r.None? <==> forall k :: i <= k < |strings| ==> strings[k].number != number
    decreases |strings| - i
  {
    if i == |strings| then None
    else if strings[i].number == number then Some(strings[i])
    else FindFrom(strings, number, i + 1)
  }

  /** The string found from position i is the first one from i on with that number, as `find` returns. */
  lemma {:induction false} FindFromFirst(strings: seq<OpenString>, number: int, i: nat)
    requires i <= |strings|
    ensures FindFrom(strings, number, i).Some? ==>
      exists k :: i <= k < |strings| && strings[k] == FindFrom(strings, number, i).value
        && forall k' :: i <= k' < k ==> strings[k'].number != number
    decreases |strings| - i
  {
    if i < |strings| && strings[i].number != number {
      FindFromFirst(strings, number, i + 1);
    }
  }

  /** `openNotes.find(s => s.string === number)`. */
  function FindString(number: int): (r: Option<OpenString>)
    ensures r.Some? <==> 1 <= number <= 6
    ensures r.Some? ==> r.value in OpenNotes && r.value.number == number
  {
    FindFrom(OpenNotes, number, 0)
  }

  /** Every string is tuned to a note of the display table. */
  lemma FindStringNote(number: int)
    requires 1 <= number <= 6
    ensures NoteIndex(FindString(number).value.note) >= 0
  {
    assert Chromatic[4] == "E" && Chromatic[9] == "A" && Chromatic[2] == "D";
    assert Chromatic[7] == "G" && Chromatic[11] == "B";
    NoteIndexMissing(FindString(number).value.note);
  }

  /**
   * The cells createFretboard adds, row by row: the strings in reverse
   * order of OpenNotes (string 1 first), each with frets 0 to FretCount.
   */
  function BoardCells(): (r: seq<Cell>)
    ensures |r| == |OpenNotes| * (FretCount + 1)
  {
    seq(|OpenNotes| * (FretCount + 1), j requires 0 <= j < |OpenNotes| * (FretCount + 1) =>
      Cell(OpenNotes[|OpenNotes| - 1 - j / (FretCount + 1)].number, j % (FretCount + 1)))
  }

  /** A cell whose handler can run: its string exists and its fret is on the board. */
  predicate OnBoard(c: Cell)
  {
    1 <= c.stringNumber <= |OpenNotes| && 0 <= c.fret <= FretCount
  }

  /** Cell j of the board is fret j mod 16 of string j div 16 + 1. */
  lemma BoardCell(j: int)
    requires 0 <= j < |BoardCells()|
    ensures BoardCells()[j] == Cell(j / (FretCount + 1) + 1, j % (FretCount + 1))
  {
    var row := j / (FretCount + 1);
    assert 0 <= row < 6;
    assert OpenNotes[0].number == 6 && OpenNotes[1].number == 5 && OpenNotes[2].number == 4;
    assert OpenNotes[3].number == 3 && OpenNotes[4].number == 2 && OpenNotes[5].number == 1;
  }

  /** The board holds every string-and-fret pair exactly once, in row order. */
  lemma BoardCellsExact()
    ensures forall j :: 0 <= j < |BoardCells()| ==> OnBoard(BoardCells()[j])
    ensures forall n, f :: 1 <= n <= 6 && 0 <= f <= FretCount ==>
      BoardCells()[(n - 1) * (FretCount + 1) + f] == Cell(n, f)
    ensures forall j, k :: 0 <= j < k < |BoardCells()| ==> BoardCells()[j] != BoardCells()[k]
  {
    var b := BoardCells();
    forall j | 0 <= j < |b|
      ensures OnBoard(b[j])
    {
      BoardCell(j);
    }
    forall n, f | 1 <= n <= 6 && 0 <= f <= FretCount
      ensures b[(n - 1) * (FretCount + 1) + f] == Cell(n, f)
    {
      var j := (n - 1) * (FretCount + 1) + f;
      BoardCell(j);
      assert j / (FretCount + 1) == n - 1 && j % (FretCount + 1) == f;
    }
    forall j, k | 0 <= j < k < |b|
      ensures b[j] != b[k]
    {
      BoardCell(j);
      BoardCell(k);
    }
  }

  /** getSelectedStrings: the checked string numbers, or string 1 alone when none is checked. */
  function SelectedStrings(checkedValues: seq<int>): (r: seq<int>)
    ensures |r| > 0
    ensures |checkedValues| > 0 ==> r == checkedValues
    ensures |checkedValues| == 0 ==> r == [1]
  {
    if |checkedValues| > 0 then checkedValues else [1]
  }

  /** `scaleTypeSelect?.value || 'major'`: a missing select or an empty value falls back to "major". */
  function SelectedScaleType(selectValue: Option<string>): (r: string)
    ensures r != ""
    ensures selectValue.Some? && selectValue.value != "" ==> r == selectValue.value
    ensures selectValue.None? || selectValue.value == "" ==> ModeOf(r) == Major
  {
    if selectValue.Some? && selectValue.value != "" then selectValue.value else "major"
  }

  /**
   * The scale a click draws: the root in every octave from 1 to 7 when the
   * full-board box is checked, the one octave from the clicked note otherwise.
   */
  function ClickScale(note: string, octave: int, mode: Mode, showFull: bool): (r: seq<ScaleNote>)
    ensures !showFull ==> |r| == |Pattern(mode)| + 1 && r[0] == ScaleNote(Normalize(note), octave)
    ensures showFull ==> |r| == (if RootIndex(note) >= 0 then 7 * (|Pattern(mode)| + 1) else 0)
  {
    if showFull then AllOctaves(note, mode) else FullScale(note, octave, mode)
  }

  /** `scaleNotes.some(s => s.note === note && s.octave === octave)`, from position i on. */
  function InScaleFrom(scaleNotes: seq<ScaleNote>, note: string, octave: int, i: nat): (b: bool)
    requires i <= |scaleNotes|
    ensures b <==> exists k :: i <= k < |scaleNotes| && scaleNotes[k] == ScaleNote(note, octave)
    decreases |scaleNotes| - i
  {
    if i == |scaleNotes| then false
    else (scaleNotes[i].note == note && scaleNotes[i].octave == octave)
         || InScaleFrom(scaleNotes, note, octave, i + 1)
  }

  /** The highlight test: is the pair (note, octave) one of the scale's entries? */
  function InScale(scaleNotes: seq<ScaleNote>, note: string, octave: int): (b: bool)
    ensures b <==> ScaleNote(note, octave) in scaleNotes
  {
    InScaleFrom(scaleNotes, note, octave, 0)
  }

  /** How the highlight pass leaves a cell. */
  datatype CellMark = Plain | Highlighted | Tonic

  /** The note and octave a cell on an existing string shows. */
  function CellNote(c: Cell): (r: Fretted)
    requires FindString(c.stringNumber).Some? && c.fret >= 0
    ensures r.note.Some?
  {
    FindStringNote(c.stringNumber);
    var s := FindString(c.stringNumber).value;
    NoteAndOctave(s.note, s.octave, c.fret)
  }

  /**
   * The mark one cell gets: nothing on an unselected string; otherwise a
   * highlight when its normalised note in its octave is in the scale, and
   * the tonic mark as well when that note is the clicked note's name.
   */
  function CellMarkFor(scaleNotes: seq<ScaleNote>, tonicNote: string, selected: seq<int>, c: Cell): (r: CellMark)
    requires c.stringNumber in selected ==> OnBoard(c)
    ensures r != Plain <==>
      c.stringNumber in selected && ScaleNote(Normalize(CellNote(c).note.value), CellNote(c).octave) in scaleNotes
    ensures r == Tonic <==> r != Plain && Normalize(CellNote(c).note.value) == tonicNote
  {
    if c.stringNumber !in selected then Plain
    else
      var shown := CellNote(c);
      var normNote := Normalize(shown.note.value);
      if !InScale(scaleNotes, normNote, shown.octave) then Plain
      else if normNote == tonicNote then Tonic
      else Highlighted
  }

  /** The highlight pass over the cells, in document order. */
  method MarkCells(cells: seq<Cell>, scaleNotes: seq<ScaleNote>, tonicNote: string, selected: seq<int>)
    returns (marks: seq<CellMark>)
    requires forall j :: 0 <= j < |cells| ==> OnBoard(cells[j])
    ensures |marks| == |cells|
    ensures forall j :: 0 <= j < |cells| ==> marks[j] == CellMarkFor(scaleNotes, tonicNote, selected, cells[j])
  {
    marks := [];
    for j := 0 to |cells|
      invariant |marks| == j
      invariant forall i :: 0 <= i < j ==> marks[i] == CellMarkFor(scaleNotes, tonicNote, selected, cells[i])
    {
      var mark := CellMarkFor(scaleNotes, tonicNote, selected, cells[j]);
      marks := marks + [mark];
    }
  }

  /** The state of the page's controls when a cell is clicked. */
  datatype Controls = Controls(lockScale: bool, scaleSelect: Option<string>, showFull: bool, checkedStrings: seq<int>)

  /** What a click writes: the scale, the degree readout, the progression rows and the cell marks. */
  datatype ClickView = ClickView(
    scaleNotes: seq<ScaleNote>, degrees: seq<DegreeLabel>, rows: seq<RowView>, marks: seq<CellMark>)

  /**
   * handleCellClick without its sound: with the scale locked nothing is
   * redrawn (None); otherwise the scale from the clicked note and the
   * selected type, the two panels, and the marks of every cell.
   */
  method HandleCellClick(stringData: OpenString, fret: int, controls: Controls, cells: seq<Cell>)
    returns (view: Option<ClickView>)
    requires stringData in OpenNotes && 0 <= fret
    requires forall j :: 0 <= j < |cells| ==> OnBoard(cells[j])
    ensures controls.lockScale <==> view.None?
    ensures view.Some? ==>
      var scaleType := SelectedScaleType(controls.scaleSelect);
      var clicked := NoteAndOctave(stringData.note, stringData.octave, fret);
      clicked.note.Some?
      && view.value.scaleNotes == ClickScale(clicked.note.value, clicked.octave, ModeOf(scaleType), controls.showFull)
      && view.value.degrees == Readout(view.value.scaleNotes, ChordTypesForScale(scaleType))
      && view.value.rows == ProgressionRows(view.value.scaleNotes, ModeOf(scaleType))
      && |view.value.marks| == |cells|
      && forall j :: 0 <= j < |cells| ==>
           view.value.marks[j] == CellMarkFor(view.value.scaleNotes, Normalize(clicked.note.value),
                                              SelectedStrings(controls.checkedStrings), cells[j])
    ensures view.Some? && fret <= FretCount ==>
      forall j :: 0 <= j < |cells| ==>
        view.value.marks[j] == ClickMark(Cell(stringData.number, fret), ModeOf(SelectedScaleType(controls.scaleSelect)),
                                         controls.showFull, SelectedStrings(controls.checkedStrings), cells[j])
  {
    OpenNoteInTable(stringData);
    NoteIndexMissing(stringData.note);
    var clicked := NoteAndOctave(stringData.note, stringData.octave, fret);
    if controls.lockScale {
      return None;
    }
    var note := clicked.note.value;
    var scaleType := SelectedScaleType(controls.scaleSelect);
    var scaleNotes;
    if controls.showFull {
      scaleNotes := ComputeFullScaleAllOctaves(note, scaleType);
    } else {
      scaleNotes := ComputeFullScale(note, clicked.octave, scaleType);
    }
    var degrees := ShowScaleDegrees(scaleType, scaleNotes);
    var rows := RenderProgressions(scaleNotes, scaleType);
    var selected := SelectedStrings(controls.checkedStrings);
    var tonicNote := Normalize(note);
    var marks := MarkCells(cells, scaleNotes, tonicNote, selected);
    view := Some(ClickView(scaleNotes, degrees, rows, marks));
  }

  /** Every open string is tuned to a note of the display table. */
  lemma OpenNoteInTable(s: OpenString)
    requires s in OpenNotes
    ensures s.note in Chromatic && FindString(s.number) == Some(s)
  {
    assert Chromatic[4] == "E" && Chromatic[9] == "A" && Chromatic[2] == "D";
    assert Chromatic[7] == "G" && Chromatic[11] == "B";
  }

  /**
   * The semitone index (C0 is 0) a board cell sounds: its open string's
   * plus its fret. The getFrequency index of the cell's note is this
   * number (CellPitchSounds).
   */
  function CellPitch(c: Cell): int
    requires OnBoard(c)
  {
    var s := FindString(c.stringNumber).value;
    NoteIndex(s.note) + 12 * s.octave + c.fret
  }

  /** The mark a cell gets after a click on `click`, with the scale that click draws. */
  function ClickMark(click: Cell, mode: Mode, showFull: bool, selected: seq<int>, c: Cell): CellMark
    requires OnBoard(click) && OnBoard(c)
  {
    var shown := CellNote(click);
    CellMarkFor(ClickScale(shown.note.value, shown.octave, mode, showFull), Normalize(shown.note.value), selected, c)
  }

  /**
   * The name and octave a cell shows, once normalised, are the note of the
   * normalised table at the pitch it sounds.
   */
  lemma CellPitchShown(c: Cell)
    requires OnBoard(c)
    ensures var shown := CellNote(c);
      ScaleNote(Normalize(shown.note.value), shown.octave) == NoteAtPitch(NormalizedChromatic, CellPitch(c))
  {
    var s := FindString(c.stringNumber).value;
    FindStringNote(c.stringNumber);
    FrettedAtPitch(s.note, s.octave, c.fret, CellNote(c), CellPitch(c));
  }

  /** The semitone index getFrequency computes for the note a cell shows is the cell's pitch. */
  lemma CellPitchSounds(c: Cell)
    requires OnBoard(c)
    ensures PitchIndex(CellNote(c).note.value, CellNote(c).octave) == CellPitch(c)
  {
    var s := FindString(c.stringNumber).value;
    FindStringNote(c.stringNumber);
    NoteIndexMissing(s.note);
    NoteAndOctavePitch(s.note, s.octave, c.fret);
    PitchIndexChromatic(NoteIndex(s.note), s.octave);
  }

  /** Every cell of the board sounds between E2 and the fifteenth fret of E4. */
  lemma CellPitchRange(c: Cell)
    requires OnBoard(c)
    ensures 28 <= CellPitch(c) <= 67
  {
    assert Chromatic[4] == "E" && Chromatic[9] == "A" && Chromatic[2] == "D";
    assert Chromatic[7] == "G" && Chromatic[11] == "B";
    IndexOfTables(4);
    IndexOfTables(9);
    IndexOfTables(2);
    IndexOfTables(7);
    IndexOfTables(11);
  }

  /** Two cells on selected strings that sound the same pitch get the same mark, whatever the scale. */
  lemma SamePitchSameMark(scaleNotes: seq<ScaleNote>, tonicNote: string, selected: seq<int>, c1: Cell, c2: Cell)
    requires OnBoard(c1) && OnBoard(c2)
    requires c1.stringNumber in selected && c2.stringNumber in selected
    requires CellPitch(c1) == CellPitch(c2)
    ensures CellMarkFor(scaleNotes, tonicNote, selected, c1) == CellMarkFor(scaleNotes, tonicNote, selected, c2)
  {
    CellPitchShown(c1);
    CellPitchShown(c2);
  }

  /**
   * On a selected string the mark depends only on the pitch the cell sounds:
   * lit when the note of that pitch is in the scale, the tonic when its name
   * is also the tonic's.
   */
  lemma MarkBySound(scaleNotes: seq<ScaleNote>, tonicNote: string, selected: seq<int>, c: Cell)
    requires OnBoard(c) && c.stringNumber in selected
    ensures CellMarkFor(scaleNotes, tonicNote, selected, c) != Plain <==>
      NoteAtPitch(NormalizedChromatic, CellPitch(c)) in scaleNotes
    ensures CellMarkFor(scaleNotes, tonicNote, selected, c) == Tonic <==>
      NoteAtPitch(NormalizedChromatic, CellPitch(c)) in scaleNotes
      && NoteAtPitch(NormalizedChromatic, CellPitch(c)).note == tonicNote
  {
    CellPitchShown(c);
  }

  /** The clicked cell's note, as a root, sits at the clicked pitch. */
  lemma ClickRoot(click: Cell)
    requires OnBoard(click)
    ensures RootIndex(CellNote(click).note.value) == CellPitch(click) % 12
    ensures RootIndex(CellNote(click).note.value) + 12 * CellNote(click).octave == CellPitch(click)
    ensures Normalize(CellNote(click).note.value) == NoteAtPitch(NormalizedChromatic, CellPitch(click)).note
  {
    CellPitchShown(click);
    NameIndex(CellPitch(click));
  }

  /**
   * One-octave view: a cell on a selected string lights up exactly when it
   * sounds the clicked pitch raised by the sum of the first k steps of the
   * pattern, for some k from 0 to the pattern's length.
   */
  lemma OneOctaveMarks(click: Cell, mode: Mode, selected: seq<int>, c: Cell)
    requires OnBoard(click) && OnBoard(c) && c.stringNumber in selected
    ensures var steps := Pattern(mode);
      ClickMark(click, mode, false, selected, c) != Plain <==>
        exists k :: 0 <= k <= |steps| && CellPitch(c) == CellPitch(click) + PrefixSum(steps, k)
  {
    var root := CellNote(click);
    var steps := Pattern(mode);
    ClickRoot(click);
    MarkBySound(FullScale(root.note.value, root.octave, mode), Normalize(root.note.value), selected, c);
    InFullScale(root.note.value, root.octave, mode, CellPitch(c));
    var rootIndex := RootIndex(root.note.value);
    if ClickMark(click, mode, false, selected, c) != Plain {
      var k :| 0 <= k <= |steps| && CellPitch(c) == DegreePitch(rootIndex, root.octave, steps, k);
      assert CellPitch(c) == CellPitch(click) + PrefixSum(steps, k);
    }
    if exists k :: 0 <= k <= |steps| && CellPitch(c) == CellPitch(click) + PrefixSum(steps, k) {
      var k :| 0 <= k <= |steps| && CellPitch(c) == CellPitch(click) + PrefixSum(steps, k);
      assert CellPitch(c) == DegreePitch(rootIndex, root.octave, steps, k);
    }
  }

  /**
   * Full-board view: a cell on a selected string lights up exactly when it
   * sounds the clicked note's pitch class in some octave from 1 to 7, raised
   * by the sum of the first k steps of the pattern.
   */
  lemma FullBoardMarks(click: Cell, mode: Mode, selected: seq<int>, c: Cell)
    requires OnBoard(click) && OnBoard(c) && c.stringNumber in selected
    ensures var steps := Pattern(mode);
      ClickMark(click, mode, true, selected, c) != Plain <==>
        exists o, k :: 1 <= o <= 7 && 0 <= k <= |steps|
          && CellPitch(c) == DegreePitch(CellPitch(click) % 12, o, steps, k)
  {
    var root := CellNote(click);
    ClickRoot(click);
    MarkBySound(AllOctaves(root.note.value, mode), Normalize(root.note.value), selected, c);
    InAllOctaves(root.note.value, mode, CellPitch(c), CellPitch(click) % 12);
  }

  /**
   * One-octave view: the tonic mark falls on exactly the cells that sound
   * the clicked pitch or the pitch an octave above it.
   */
  lemma OneOctaveTonic(click: Cell, mode: Mode, selected: seq<int>, c: Cell)
    requires OnBoard(click) && OnBoard(c) && c.stringNumber in selected
    ensures ClickMark(click, mode, false, selected, c) == Tonic <==>
      CellPitch(c) == CellPitch(click) || CellPitch(c) == CellPitch(click) + 12
  {
    var root := CellNote(click);
    ClickRoot(click);
    MarkBySound(FullScale(root.note.value, root.octave, mode), Normalize(root.note.value), selected, c);
    OneOctaveMarks(click, mode, selected, c);
    PatternSteps(mode);
    PatternSum(mode);
    TablesDistinct();
    RootNameInOctave(NormalizedChromatic, Pattern(mode), CellPitch(c), CellPitch(click));
  }

  /**
   * Full-board view: the tonic mark falls on exactly the cells that sound
   * the clicked note's pitch class, in whatever octave.
   */
  lemma FullBoardTonic(click: Cell, mode: Mode, selected: seq<int>, c: Cell)
    requires OnBoard(click) && OnBoard(c) && c.stringNumber in selected
    ensures ClickMark(click, mode, true, selected, c) == Tonic <==> CellPitch(c) % 12 == CellPitch(click) % 12
  {
    var root := CellNote(click);
    var p, p0 := CellPitch(c), CellPitch(click);
    ClickRoot(click);
    MarkBySound(AllOctaves(root.note.value, mode), Normalize(root.note.value), selected, c);
    FullBoardMarks(click, mode, selected, c);
    if ClickMark(click, mode, true, selected, c) == Tonic {
      TablesDistinct();
      SameName(NormalizedChromatic, p, p0);
    }
    if p % 12 == p0 % 12 {
      CellPitchRange(c);
      assert p == DegreePitch(p0 % 12, p / 12, Pattern(mode), 0);
    }
  }

  /** The clicked cell, on a selected string, is always marked as the tonic, in either view. */
  lemma ClickedCellTonic(click: Cell, mode: Mode, showFull: bool, selected: seq<int>)
    requires OnBoard(click) && click.stringNumber in selected
    ensures ClickMark(click, mode, showFull, selected, click) == Tonic
  {
    if showFull {
      FullBoardTonic(click, mode, selected, click);
    } else {
      OneOctaveTonic(click, mode, selected, click);
    }
  }

  /** The row-order position of a board cell among the cells createFretboard adds. */
  function BoardPosition(c: Cell): (j: int)
    requires OnBoard(c)
    ensures 0 <= j < |OpenNotes| * (FretCount + 1)
  {
    (c.stringNumber - 1) * (FretCount + 1) + c.fret
  }

  /** The board holds each of its cells at that cell's row-order position. */
  lemma BoardIndex(c: Cell)
    requires OnBoard(c)
    ensures BoardCells()[BoardPosition(c)] == c
  {
    BoardCellsExact();
  }

  /**
   * A click on the board createFretboard draws: every cell of the board
   * gets the mark the click gives it, at its row-order position, and the
   * clicked cell itself is the tonic when its string is selected.
   */
  method ClickBoard(stringData: OpenString, fret: int, controls: Controls) returns (view: Option<ClickView>)
    requires stringData in OpenNotes && 0 <= fret <= FretCount
    ensures controls.lockScale <==> view.None?
    ensures view.Some? ==>
      var click := Cell(stringData.number, fret);
      var mode := ModeOf(SelectedScaleType(controls.scaleSelect));
      var selected := SelectedStrings(controls.checkedStrings);
      OnBoard(click)
      && |view.value.marks| == |OpenNotes| * (FretCount + 1)
      && (forall c :: OnBoard(c) ==>
            view.value.marks[BoardPosition(c)] == ClickMark(click, mode, controls.showFull, selected, c))
      && (click.stringNumber in selected ==> view.value.marks[BoardPosition(click)] == Tonic)
  {
    var cells := BoardCells();
    BoardCellsExact();
    OpenNoteInTable(stringData);
    view := HandleCellClick(stringData, fret, controls, cells);
    if view.Some? {
      var click := Cell(stringData.number, fret);
      var mode := ModeOf(SelectedScaleType(controls.scaleSelect));
      var selected := SelectedStrings(controls.checkedStrings);
      forall c | OnBoard(c)
        ensures view.value.marks[BoardPosition(c)] == ClickMark(click, mode, controls.showFull, selected, c)
      {
        BoardIndex(c);
      }
      if click.stringNumber in selected {
        ClickedCellTonic(click, mode, controls.showFull, selected);
      }
    }
  }
}
