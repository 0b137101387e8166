/**
 * The two text panels the script fills after a click: the scale-degree
 * readout (showScaleDegrees) and the progression rows (renderProgressions).
 * Each panel is the list of strings written into its cells, in order; the
 * DOM elements that receive them are not modelled.
 */
module Display {
  import opened Wrappers
  import opened Pitch
  import opened Scales
  import opened Harmony

  /** The readout has one note cell and one chord cell per degree, seven in all. */
  const DegreeCount := 7

  /** Each progression row has four chord cells. */
  const MaxChordsPerRow := 4

  /** The texts of one degree's note and chord cells. */
  datatype DegreeLabel = DegreeLabel(note: string, chord: string)

  /**
   * Degree i of the readout: the note name of entry i of the scale, or ''
   * when the scale is shorter; the chord is that text followed by the
   * quality whenever the chord list has an entry i, and '' otherwise.
   */
  function DegreeSlot(scaleNotes: seq<ScaleNote>, chordTypes: seq<Quality>, i: nat): (r: DegreeLabel)
    ensures r.note == (if i < |scaleNotes| then scaleNotes[i].note else "")
    ensures r.chord == "" <==> i >= |chordTypes|
    ensures i < |chordTypes| ==> r.chord == r.note + Suffix(chordTypes[i])
  {
    var noteText := if i < |scaleNotes| then scaleNotes[i].note else "";
    DegreeLabel(noteText, if i < |chordTypes| then noteText + Suffix(chordTypes[i]) else "")
  }

  /** The whole readout: the seven degree slots in order. */
  function Readout(scaleNotes: seq<ScaleNote>, chordTypes: seq<Quality>): (r: seq<DegreeLabel>)
    ensures |r| == DegreeCount
    ensures forall i :: 0 <= i < DegreeCount ==> r[i] == DegreeSlot(scaleNotes, chordTypes, i)
  {
    seq(DegreeCount, i requires 0 <= i => DegreeSlot(scaleNotes, chordTypes, i))
  }

  /** showScaleDegrees: fill the seven degree slots from the scale and the mode's chord list. */
  method ShowScaleDegrees(scaleType: string, scaleNotes: seq<ScaleNote>) returns (labels: seq<DegreeLabel>)
    ensures labels == Readout(scaleNotes, ChordTypesForScale(scaleType))
  {
    labels := FillDegrees(scaleNotes, ChordTypesForScale(scaleType));
  }

  /** The loop of showScaleDegrees, over the chord list it looked up. */
  method FillDegrees(scaleNotes: seq<ScaleNote>, chordTypes: seq<Quality>) returns (labels: seq<DegreeLabel>)
    ensures labels == Readout(scaleNotes, chordTypes)
  {
    labels := [];
    for i := 0 to DegreeCount
      invariant labels == Readout(scaleNotes, chordTypes)[..i]
    {
      var noteText := "";
      if i < |scaleNotes| {
        noteText := scaleNotes[i].note;
      }
      var chord := "";
      if i < |chordTypes| {
        chord := noteText + Suffix(chordTypes[i]);
      }
      labels := labels + [DegreeLabel(noteText, chord)];
    }
  }

  /**
   * Slot i of a progression row: '' past the end of the numerals (or for an
   * empty numeral); '?' when the numeral is not a key of romanToIndex, the
   * scale has no entry at its degree or the mode lists no chord there; the
   * note at the degree followed by the chord's quality otherwise.
   */
  function ChordSlot(steps: seq<string>, i: nat, scaleNotes: seq<ScaleNote>, chordTypes: seq<Quality>): (r: string)
    ensures r == "" <==> i >= |steps| || steps[i] == ""
    ensures r != "" && r != "?" ==>
      RomanToIndex(steps[i]).Some? &&
      var d := RomanToIndex(steps[i]).value;
      d < |scaleNotes| && d < |chordTypes| && r == scaleNotes[d].note + Suffix(chordTypes[d])
  {
    if i >= |steps| || steps[i] == "" then ""
    else match RomanToIndex(steps[i])
      case None => "?"
      case Some(d) =>
        if d < |scaleNotes| && d < |chordTypes| then scaleNotes[d].note + Suffix(chordTypes[d]) else "?"
  }

  /** One rendered progression: its name and its four chord cells. */
  datatype RowView = RowView(name: string, chords: seq<string>)

  /** The four chord cells of a progression. */
  function RowChords(p: Progression, scaleNotes: seq<ScaleNote>, chordTypes: seq<Quality>): (r: seq<string>)
    ensures |r| == MaxChordsPerRow
    ensures forall i :: 0 <= i < MaxChordsPerRow ==> r[i] == ChordSlot(p.steps, i, scaleNotes, chordTypes)
  {
    seq(MaxChordsPerRow, i requires 0 <= i => ChordSlot(p.steps, i, scaleNotes, chordTypes))
  }

  /** The rows shown for a mode: one per progression of its catalogue entry, or of the major one. */
  function ProgressionRows(scaleNotes: seq<ScaleNote>, m: Mode): (r: seq<RowView>)
    ensures |r| == |ProgressionsFor(m)|
    ensures forall k :: 0 <= k < |r| ==> r[k].name == ProgressionsFor(m)[k].name
  {
    Rows(scaleNotes, ProgressionsFor(m), ChordTypes(m))
  }

  /** renderProgressions: one row per progression, four chord cells per row. */
  method RenderProgressions(scaleNotes: seq<ScaleNote>, scaleType: string) returns (rows: seq<RowView>)
    ensures rows == ProgressionRows(scaleNotes, ModeOf(scaleType))
  {
    var m := ModeOf(scaleType);
    rows := FillRows(scaleNotes, ProgressionsFor(m), ChordTypes(m));
  }

  /** The rows for a list of progressions and a chord list. */
  function Rows(scaleNotes: seq<ScaleNote>, progressionDefs: seq<Progression>, chordTypes: seq<Quality>): (r: seq<RowView>)
    ensures |r| == |progressionDefs|
    ensures forall k :: 0 <= k < |r| ==> r[k] == RowView(progressionDefs[k].name, RowChords(progressionDefs[k], scaleNotes, chordTypes))
  {
    seq(|progressionDefs|, k requires 0 <= k < |progressionDefs| =>
      RowView(progressionDefs[k].name, RowChords(progressionDefs[k], scaleNotes, chordTypes)))
  }

  /** The loops of renderProgressions, over the progressions and chord list it looked up. */
  method FillRows(scaleNotes: seq<ScaleNote>, progressionDefs: seq<Progression>, chordTypes: seq<Quality>)
    returns (rows: seq<RowView>)
    ensures rows == Rows(scaleNotes, progressionDefs, chordTypes)
  {
    ghost var spec := Rows(scaleNotes, progressionDefs, chordTypes);
    rows := [];
    for k := 0 to |progressionDefs|
      invariant rows == spec[..k]
    {
      var p := progressionDefs[k];
      var chords: seq<string> := [];
      for i := 0 to MaxChordsPerRow
        invariant chords == RowChords(p, scaleNotes, chordTypes)[..i]
      {
        var chord := "";
        if i < |p.steps| && p.steps[i] != "" {
          var idx := RomanToIndex(p.steps[i]);
          if idx.Some? && idx.value < |scaleNotes| {
            chord := if idx.value < |chordTypes| then scaleNotes[idx.value].note + Suffix(chordTypes[idx.value]) else "?";
          } else {
            chord := "?";
          }
        }
        chords := chords + [chord];
      }
      assert RowChords(p, scaleNotes, chordTypes)[..MaxChordsPerRow] == RowChords(p, scaleNotes, chordTypes);
      assert chords == RowChords(p, scaleNotes, chordTypes);
      assert spec[k] == RowView(p.name, chords);
      rows := rows + [RowView(p.name, chords)];
    }
  }

  /** The readout depends on the scale only through the names of its first seven entries. */
  lemma ReadoutByNames(a: seq<ScaleNote>, b: seq<ScaleNote>, chordTypes: seq<Quality>)
    requires |a| >= DegreeCount && |b| >= DegreeCount
    requires forall i :: 0 <= i < DegreeCount ==> a[i].note == b[i].note
    ensures Readout(a, chordTypes) == Readout(b, chordTypes)
  {
    assert forall i :: 0 <= i < DegreeCount ==> Readout(a, chordTypes)[i] == Readout(b, chordTypes)[i];
  }

  /** The names of the triads of C major, each spelled as its root followed by its quality. */
  lemma ChordNamesInC()
    ensures "C" + Suffix(Maj) == "Cmaj" && "D" + Suffix(Min) == "Dmin" && "E" + Suffix(Min) == "Emin"
    ensures "F" + Suffix(Maj) == "Fmaj" && "G" + Suffix(Maj) == "Gmaj" && "A" + Suffix(Min) == "Amin"
    ensures "B" + Suffix(Dim) == "Bdim"
  {
    assert "C" + "maj" == "Cmaj" && "D" + "min" == "Dmin" && "E" + "min" == "Emin";
    assert "F" + "maj" == "Fmaj" && "G" + "maj" == "Gmaj" && "A" + "min" == "Amin";
    assert "B" + "dim" == "Bdim";
  }

  /** A scale naming C D E F G A B reads with the chords Cmaj Dmin Emin Fmaj Gmaj Amin Bdim in major. */
  lemma ReadoutNamedCMajor(notes: seq<ScaleNote>)
    requires |notes| >= DegreeCount
    requires notes[0].note == "C" && notes[1].note == "D" && notes[2].note == "E" && notes[3].note == "F"
    requires notes[4].note == "G" && notes[5].note == "A" && notes[6].note == "B"
    ensures Readout(notes, ChordTypes(Major))
              == [DegreeLabel("C", "Cmaj"), DegreeLabel("D", "Dmin"), DegreeLabel("E", "Emin"),
                  DegreeLabel("F", "Fmaj"), DegreeLabel("G", "Gmaj"), DegreeLabel("A", "Amin"),
                  DegreeLabel("B", "Bdim")]
  {
    var r := Readout(notes, ChordTypes(Major));
    assert r[0] == DegreeLabel("C", "C" + "maj");
    assert r[1] == DegreeLabel("D", "D" + "min");
    assert r[2] == DegreeLabel("E", "E" + "min");
    assert r[3] == DegreeLabel("F", "F" + "maj");
    assert r[4] == DegreeLabel("G", "G" + "maj");
    assert r[5] == DegreeLabel("A", "A" + "min");
    assert r[6] == DegreeLabel("B", "B" + "dim");
    ChordNamesInC();
  }

  /** C major reads C D E F G A B with the chords Cmaj Dmin Emin Fmaj Gmaj Amin Bdim. */
  lemma ReadoutCMajor(octave: int)
    ensures Readout(FullScale("C", octave, Major), ChordTypes(Major))
              == [DegreeLabel("C", "Cmaj"), DegreeLabel("D", "Dmin"), DegreeLabel("E", "Emin"),
                  DegreeLabel("F", "Fmaj"), DegreeLabel("G", "Gmaj"), DegreeLabel("A", "Amin"),
                  DegreeLabel("B", "Bdim")]
  {
    FullScaleCMajor(octave);
    ReadoutNamedCMajor(FullScale("C", octave, Major));
  }

  /**
   * The chord cells: for a seven-note mode and a scale of at least seven
   * notes, the chord on degree i is the degree's note followed by the
   * quality of the triad stacked in thirds on it; the pentatonic and blues
   * modes leave every chord cell empty.
   */
  lemma ReadoutChords(scaleNotes: seq<ScaleNote>, m: Mode, i: nat)
    requires i < DegreeCount
    ensures |Pattern(m)| == 7 && |scaleNotes| >= 7 ==>
      exists q :: StackedTriads(Pattern(m), 0)[i] == Some(q)
        && Readout(scaleNotes, ChordTypes(m))[i].chord == scaleNotes[i].note + Suffix(q)
    ensures |Pattern(m)| != 7 ==> Readout(scaleNotes, ChordTypes(m))[i].chord == ""
  {
    ChordTypesStackThirds(m);
    if |Pattern(m)| == 7 {
      var q := ChordTypes(m)[i];
      assert StackedTriads(Pattern(m), 0)[i] == Some(q);
    }
  }

  /**
   * The readout under the two views of a scale. When the mode has six or
   * seven steps, the seven-octave list and the one-octave scale (in any
   * octave) give the same readout, whatever the chord list. With five
   * steps they differ in the seventh slot: the one-octave scale has only
   * six entries and leaves it empty, while the seven-octave list continues
   * with the root of the next octave.
   */
  lemma ReadoutViews(rootNote: string, m: Mode, octave: int, chordTypes: seq<Quality>)
    requires RootIndex(rootNote) >= 0
    ensures |Pattern(m)| >= 6 ==>
      Readout(AllOctaves(rootNote, m), chordTypes) == Readout(FullScale(rootNote, octave, m), chordTypes)
    ensures |Pattern(m)| == 5 ==>
      Readout(FullScale(rootNote, octave, m), chordTypes)[6].note == ""
      && Readout(AllOctaves(rootNote, m), chordTypes)[6].note == Normalize(rootNote)
  {
    var n := |Pattern(m)|;
    PatternSteps(m);
    AllOctavesLength(rootNote, m);
    if n >= 6 {
      forall i | 0 <= i < DegreeCount
        ensures AllOctaves(rootNote, m)[i].note == FullScale(rootNote, octave, m)[i].note
      {
        FirstOctaveAt(rootNote, m, i);
        FullScaleNames(rootNote, m, 1, octave, i);
      }
      ReadoutByNames(AllOctaves(rootNote, m), FullScale(rootNote, octave, m), chordTypes);
    } else if n == 5 {
      AllOctavesAt(rootNote, m, 2, 0);
    }
  }

  /** Only a non-empty numeral can be a key of romanToIndex. */
  lemma ResolvedNumeralNonEmpty(numeral: string)
    requires RomanToIndex(numeral).Some?
    ensures numeral != ""
  {
    RomanToIndexRead(numeral);
  }

  /**
   * The pentatonic and blues modes, which have no progressions of their
   * own and no chord list, show the major progressions with '?' in every
   * cell that has a numeral.
   */
  lemma RowsWithoutChords(scaleNotes: seq<ScaleNote>, m: Mode, k: nat, i: nat)
    requires |Pattern(m)| != 7
    requires k < |ProgressionRows(scaleNotes, m)| && i < MaxChordsPerRow
    ensures ProgressionRows(scaleNotes, m)[k].name == Catalogue(Major).value[k].name
    ensures ProgressionRows(scaleNotes, m)[k].chords[i] == (if i < |Catalogue(Major).value[k].steps| then "?" else "")
  {
    ChordTypesStackThirds(m);
    assert Catalogue(m).None?;
    var steps := ProgressionsFor(m)[k].steps;
    if i < |steps| {
      CatalogueResolves(m, k, i);
      ResolvedNumeralNonEmpty(steps[i]);
    }
  }

  /**
   * For a seven-note mode and a scale of at least seven notes, no cell
   * shows '?': cell i of a progression is the note at the degree its
   * numeral denotes followed by the chord's quality, and '' past the end.
   */
  lemma RowsWithChords(scaleNotes: seq<ScaleNote>, m: Mode, k: nat, i: nat)
    requires |Pattern(m)| == 7 && |scaleNotes| >= 7
    requires k < |ProgressionRows(scaleNotes, m)| && i < MaxChordsPerRow
    ensures var steps := ProgressionsFor(m)[k].steps;
      if i < |steps| then
        RomanToIndex(steps[i]).Some? &&
        var d := RomanToIndex(steps[i]).value;
        d == NumeralDegree(steps[i]) < 7 && d < |ChordTypes(m)|
        && ProgressionRows(scaleNotes, m)[k].chords[i] == scaleNotes[d].note + Suffix(ChordTypes(m)[d])
      else ProgressionRows(scaleNotes, m)[k].chords[i] == ""
  {
    ChordTypesStackThirds(m);
    var steps := ProgressionsFor(m)[k].steps;
    if i < |steps| {
      CatalogueResolves(m, k, i);
      RomanToIndexRead(steps[i]);
      ResolvedNumeralNonEmpty(steps[i]);
    }
  }

  /** A cell whose numeral resolves to a degree the scale and the chord list both cover shows that chord. */
  lemma SlotResolved(steps: seq<string>, i: nat, scaleNotes: seq<ScaleNote>, chordTypes: seq<Quality>, d: nat)
    requires i < |steps| && RomanToIndex(steps[i]) == Some(d)
    requires d < |scaleNotes| && d < |chordTypes|
    ensures ChordSlot(steps, i, scaleNotes, chordTypes) == scaleNotes[d].note + Suffix(chordTypes[d])
  {
    ResolvedNumeralNonEmpty(steps[i]);
  }

  /** Over a scale naming C, F, G and A on degrees 0, 3, 4 and 5, I–V–vi–IV shows Cmaj Gmaj Amin Fmaj. */
  lemma PopProgressionNamed(notes: seq<ScaleNote>)
    requires |notes| >= DegreeCount
    requires notes[0].note == "C" && notes[3].note == "F" && notes[4].note == "G" && notes[5].note == "A"
    ensures ProgressionRows(notes, Major)[0].name == "I–V–vi–IV"
    ensures ProgressionRows(notes, Major)[0].chords[0] == "Cmaj"
    ensures ProgressionRows(notes, Major)[0].chords[1] == "Gmaj"
    ensures ProgressionRows(notes, Major)[0].chords[2] == "Amin"
    ensures ProgressionRows(notes, Major)[0].chords[3] == "Fmaj"
  {
    CatalogueNumerals();
    var p := ProgressionsFor(Major)[0];
    assert p == Progression("I–V–vi–IV", ["I", "V", "vi", "IV"]);
    var chordTypes := ChordTypes(Major);
    SlotResolved(p.steps, 0, notes, chordTypes, 0);
    SlotResolved(p.steps, 1, notes, chordTypes, 4);
    SlotResolved(p.steps, 2, notes, chordTypes, 5);
    SlotResolved(p.steps, 3, notes, chordTypes, 3);
    ChordNamesInC();
  }

  /** The first major progression, I–V–vi–IV, over C major shows Cmaj Gmaj Amin Fmaj. */
  lemma PopProgressionInC(octave: int)
    ensures var row := ProgressionRows(FullScale("C", octave, Major), Major)[0];
      row.name == "I–V–vi–IV"
      && row.chords[0] == "Cmaj" && row.chords[1] == "Gmaj" && row.chords[2] == "Amin" && row.chords[3] == "Fmaj"
  {
    FullScaleCMajor(octave);
    PopProgressionNamed(FullScale("C", octave, Major));
  }
}
