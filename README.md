# Fretboard music theory in Dafny

This project models the music-theory engine of an interactive guitar
fretboard page (`script.js`). The page draws six strings in standard tuning
with frets 0 to 15. A click on a cell plays the note and then draws a scale
from the clicked note: it fills a seven-degree readout of note names and
triad chords, renders the chord progressions of the chosen scale type, and
highlights every cell of the selected strings whose note and octave belong
to the scale. The clicked note's name gets the tonic mark.

The model has six modules:

- `Pitch` (`pitch.dfy`) holds the two twelve-name tables, getNoteIndex,
  getNoteAndOctave and normalizeNote. Its getNoteAndOctave keeps
  JavaScript's truncating `%` and `Math.floor`, and gives `undefined`
  (`None`) for a negative index. It also holds the integer semitone index
  behind getFrequency.
- `Scales` (`scales.dfy`) holds the scale patterns and the
  `table[type] || table.major` fallback. computeFullScale and
  computeFullScaleAllOctaves are imperative methods, each proved equal to
  a closed-form function.
- `Harmony` (`harmony.dfy`) holds getChordTypesForScale, the progression
  catalogue and the `romanToIndex` object literal. Its duplicate keys are
  modelled as an ordered entry list; the later entry wins, as in
  JavaScript.
- `Display` (`display.dfy`) holds the slot logic of showScaleDegrees and
  renderProgressions, as loops proved against the functions that specify
  them.
- `Membership` (`membership.dfy`) re-reads scale membership by sounding
  pitch. A fretted note, once normalised, is the note at the semitone it
  sounds. A scale from a known root holds exactly the semitones the root
  reaches by prefix sums of its pattern.
- `Fretboard` (`fretboard.dfy`) holds the tuning, the board's cells, the
  controls, the highlight test and handleCellClick. On a selected string,
  handleCellClick's mark depends only on the pitch a cell sounds. In the
  one-octave view a cell lights up exactly when it sounds the clicked
  pitch raised by a prefix sum of the steps; the tonic mark then falls on
  the clicked pitch and its octave. In the full-board view the tonic mark
  falls on every cell of the clicked pitch class. `ClickBoard` runs a click
  over the board createFretboard builds, so these lemmas about a click's
  marks speak about the marks handleCellClick writes.

A degree slot with a chord quality but no scale note shows the bare
quality (`"" + "maj"`), not an empty label, as showScaleDegrees does
(`Display.DegreeSlot`).

## Model

| member | source | states |
|---|---|---|
| Pitch.IndexOf | script.js:84 | indexOf returns -1 or a position in range that holds the value |
| Pitch.IndexOfFirst | script.js:84 | indexOf gives -1 exactly when the value is absent, and otherwise its first occurrence |
| Pitch.NoteIndex | script.js:83-85 | getNoteIndex is -1 or a position of the display table holding that name |
| Pitch.NoteIndexMissing | script.js:83-85 | getNoteIndex is -1 exactly for names outside the display table |
| Pitch.Normalize | script.js:126-128 | the result holds no '/', and a name without '/' is unchanged |
| Pitch.NormalizeCuts | script.js:126-128 | a name with a '/' keeps exactly the prefix before its first '/' |
| Pitch.NormalizeIdempotent | script.js:126-128 | normalizing twice is normalizing once |
| Pitch.NormalizedFixed | script.js:126-128 | normalized names hold no '/' and are left unchanged |
| Pitch.JsRem | script.js:89 | JavaScript `%` stays strictly within (-12, 12), agrees with the Euclidean remainder for non-negative operands and is at most 0 for negative ones |
| Pitch.JsRemOdd | script.js:89 | `-a % b` is `-(a % b)`: with the clause for non-negative dividends this fixes the truncated remainder for every dividend, so `-1 % 12` is -1 |
| Pitch.NoteAndOctave | script.js:87-95 | a defined note is a display-table name, and a non-negative index always gives a defined note |
| Pitch.TablesDistinct | script.js:6-7 | each table has twelve pairwise different names |
| Pitch.NormalizeChromatic | script.js:6-7 | normalizing display name k gives normalized name k |
| Pitch.IndexOfTables | script.js:6-7 | looking up table entry k finds position k, in both tables |
| Pitch.PitchIndexNormalized | script.js:97-100 | the frequency index of normalized name k in octave o is k + 12o |
| Pitch.PitchIndexChromatic | script.js:97-100 | a display name has the same frequency index as its normalized name |
| Pitch.PitchIndex | script.js:97-100 | getFrequency's semitone index: for a known name, twelve times the octave plus the name's position in the normalized table; for an unknown name, one below the octave's C, as findIndex's -1 gives |
| Pitch.NoteAndOctaveClosedForm | script.js:87-95 | for a known note and a non-negative index, the result is name (i+fret) mod 12, shifted by (i+fret) div 12 octaves |
| Pitch.NoteAndOctaveOpen | script.js:87-95 | fret 0 of a known note shows that note in its own octave |
| Pitch.NoteAndOctavePeriodic | script.js:87-95 | twelve frets higher shows the same name one octave up |
| Pitch.NoteAndOctavePitch | script.js:87-102 | fretting raises the frequency index by exactly `fret` semitones |
| Pitch.NoteAndOctaveUnknownOpen | script.js:87-95 | an unknown open note shows `undefined` one octave down (index -1 floors to -1) |
| Pitch.NoteAndOctaveUnknownFretted | script.js:87-95 | an unknown note fretted at fret f ≥ 1 shows display name (f−1) mod 12 in octave baseOctave + (f−1) div 12, as if its index were -1 |
| Pitch.A4Reference | script.js:99 | A4 has frequency index 57, the 440 Hz reference |
| Scales.ModeNamed | script.js:130-143 | a found mode has the searched name, and None means no mode has that name |
| Scales.Pattern | script.js:130-143 | every scalePatterns entry has five to seven steps |
| Scales.PatternSteps | script.js:130-143 | every pattern has 5 to 7 steps, each of one to three semitones |
| Scales.PatternSum | script.js:130-143 | every pattern climbs exactly one octave |
| Scales.ModeOf | script.js:146 | a catalogue name selects its mode, and any other name selects major |
| Scales.Run | script.js:150-160 | a run has one entry more than the pattern has steps |
| Scales.FullScale | script.js:145-163 | the one-octave scale has one entry more than the pattern has steps |
| Scales.RootIndex | script.js:148 | the findIndex of the normalized root is -1 or the position in the normalized table that holds it |
| Scales.PushRun | script.js:150-160 | the forEach walk appends exactly the run from the start index |
| Scales.ComputeFullScale | script.js:145-163 | computeFullScale returns the closed-form one-octave scale of the selected mode |
| Scales.ScanMeetsRoot | script.js:171-173 | the octave scan meets the root exactly at the root's findIndex position |
| Scales.RunFromIndex | script.js:174-185 | the run found by the scan is the one-octave scale from that root |
| Scales.ComputeFullScaleAllOctaves | script.js:165-191 | computeFullScaleAllOctaves returns the closed-form seven-octave list of the selected mode |
| Scales.AllOctaves | script.js:165-191 | the seven-octave list holds seven runs of steps + 1 entries for a known root, and nothing for an unknown one |
| Scales.RunAt | script.js:153-160 | entry k of a run is the note PrefixSum(k) semitones above the root |
| Scales.RunOctaves | script.js:153-160 | a run over an octave-wide pattern stays within its octave and the next, with octaves never decreasing |
| Scales.RunEndsOctaveUp | script.js:153-160 | a run over steps summing to 12 ends on its root name one octave up |
| Scales.PitchOfNoteAtPitch | script.js:97-100 | the frequency index of the note at semitone p is p |
| Scales.FullScalePitch | script.js:145-163 | entry k sounds PrefixSum(k) semitones above the root |
| Scales.FullScaleAscends | script.js:145-163 | pitches strictly rise, octaves never fall, and every octave is the root's or the next |
| Scales.FullScaleEndsOctaveUp | script.js:145-163 | the last entry is the normalized root one octave up |
| Scales.MajorRun | script.js:153-160 | the major walk from C gives C D E F G A B C' |
| Scales.FullScaleCMajor | script.js:145-163 | C major is C D E F G A B in the root octave, then C one octave up |
| Scales.OctaveRunsLength | script.js:170-188 | the runs of octaves 1 to n hold n times (steps + 1) entries |
| Scales.OctaveRunsAt | script.js:170-188 | entry k of octave o's run sits at position (o-1)(steps+1)+k |
| Scales.AllOctavesLength | script.js:165-191 | an unknown root gives an empty list, and a known root gives seven runs |
| Scales.AllOctavesAt | script.js:165-191 | entry (o−1)(steps+1)+k of the seven-octave list is entry k of the one-octave scale from octave o |
| Scales.FirstOctaveAt | script.js:165-191 | the seven-octave list opens with the scale from octave 1 |
| Scales.FullScaleNames | script.js:145-163 | the scale's note names do not depend on the starting octave |
| Scales.RunNames | script.js:153-160 | the names along a walk do not depend on the octave it starts in |
| Harmony.ChordTypesStackThirds | script.js:214-241 | each seven-note mode's quality list is the triads stacked in thirds on its own pattern; other modes list none |
| Harmony.ChordTypes | script.js:214-241 | a mode's quality list has one quality per degree for the seven-note modes and is empty for the pentatonic and blues modes |
| Harmony.ChordTypesForScale | script.js:214-241 | a catalogue name gets its mode's list, and any other name gets the switch's default major list |
| Harmony.ModeTriads | script.js:214-241 | every seven-note mode's list agrees degree by degree with its stacked triads |
| Harmony.Catalogue | script.js:244-279 | a mode has its own progressions exactly when it has seven notes, and each of them has one to four numerals |
| Harmony.ProgressionsFor | script.js:302 | a listed mode gets its own progressions, and an unlisted mode gets major's |
| Harmony.Lookup | script.js:304-314 | a found value comes from an entry with that key |
| Harmony.LookupFound | script.js:304-314 | a key is found exactly when some entry has it |
| Harmony.LookupLast | script.js:304-314 | the value found is that of the last entry with the key, as a later key in an object literal overrides an earlier one |
| Harmony.RomanToIndex | script.js:304-314 | a numeral that resolves names a degree below 7 |
| Harmony.MajorKeyNumeralsRead | script.js:306-307 | every major-key numeral maps to the degree its digits denote |
| Harmony.RomanEntriesRead | script.js:304-314 | every entry maps its numeral to the degree the numeral denotes |
| Harmony.RomanToIndexEntries | script.js:304-314 | duplicate keys carry equal values, so the object returns every entry's value |
| Harmony.RomanToIndexRead | script.js:304-314 | a numeral resolves exactly when listed, and then to the degree it denotes (below 7) |
| Harmony.CatalogueNumerals | script.js:304-314 | each numeral used by the catalogue maps to its degree |
| Harmony.MajorCatalogueResolves | script.js:245-250 | every numeral of the major progressions resolves |
| Harmony.MinorCataloguesResolve | script.js:251-279 | every numeral of the minor, harmonic and melodic minor progressions resolves |
| Harmony.MinorModalCataloguesResolve | script.js:256-262 | every numeral of the dorian and phrygian progressions resolves |
| Harmony.ModalCataloguesResolve | script.js:263-271 | every numeral of the lydian, mixolydian and locrian progressions resolves |
| Harmony.CatalogueResolves | script.js:244-314 | every numeral of every progression shown for a mode resolves to a degree below 7 |
| Display.DegreeSlot | script.js:285-287 | the note text is the scale entry's name or empty; the chord is empty exactly when there is no quality, and is otherwise note plus quality |
| Display.Readout | script.js:284-294 | seven slots, slot i being DegreeSlot i |
| Display.ShowScaleDegrees | script.js:281-295 | showScaleDegrees writes the readout of the scale with the selected type's qualities |
| Display.FillDegrees | script.js:284-294 | the degree loop produces the readout |
| Display.ChordSlot | script.js:330-342 | a cell is empty exactly past the steps or on an empty numeral; any other text but '?' is the resolved degree's note plus its quality |
| Display.RowChords | script.js:330-348 | four cells, cell i being ChordSlot i |
| Display.RenderProgressions | script.js:297-352 | renderProgressions writes the rows of the selected type's progressions |
| Display.ProgressionRows | script.js:297-302 | one row per progression of the mode's list, or of major's, each under its progression's name |
| Display.Rows | script.js:321-351 | one row per progression, holding its name and its four cells |
| Display.FillRows | script.js:321-351 | the progression loops produce those rows |
| Display.ReadoutByNames | script.js:284-294 | the readout depends only on the first seven names of the scale |
| Display.ReadoutNamedCMajor | script.js:281-295 | names C D E F G A B in major read Cmaj Dmin Emin Fmaj Gmaj Amin Bdim |
| Display.ReadoutCMajor | script.js:281-295 | C major reads Cmaj Dmin Emin Fmaj Gmaj Amin Bdim |
| Display.ReadoutChords | script.js:281-295 | a seven-note mode's chord at each degree is the note plus the stacked-thirds quality; other modes show no chords |
| Display.ReadoutViews | script.js:366-371 | for six- and seven-note modes both views give the same readout; a pentatonic's seventh slot is empty in one octave and the root in all octaves |
| Display.ResolvedNumeralNonEmpty | script.js:334-335 | only a non-empty numeral resolves |
| Display.RowsWithoutChords | script.js:297-352 | pentatonic and blues modes show the major progressions with '?' in every cell that has a numeral |
| Display.RowsWithChords | script.js:297-352 | over a full scale, a seven-note mode's cell shows the degree's note plus its quality |
| Display.SlotResolved | script.js:334-338 | a cell whose degree both lists cover shows that chord |
| Display.PopProgressionNamed | script.js:297-352 | I–V–vi–IV over names C F G A shows Cmaj Gmaj Amin Fmaj |
| Display.PopProgressionInC | script.js:297-352 | I–V–vi–IV over C major shows Cmaj Gmaj Amin Fmaj |
| Membership.ShownNote | script.js:87-95 | a fretted known note, normalized, is normalized name (i+fret) mod 12 in the shifted octave |
| Membership.FrettedAtPitch | script.js:87-95 | a fretted known note, normalized, is the note at the semitone it sounds |
| Membership.NameIndex | script.js:148 | the findIndex of the note at semitone p is p mod 12 |
| Membership.SameName | script.js:7 | two semitones share a name exactly when they share a pitch class |
| Membership.NoteAtPitchInjective | script.js:7 | name plus octave determines the semitone |
| Membership.FullScaleAt | script.js:145-163 | entry k of a known root's scale is the note at its k-th degree pitch |
| Membership.InFullScale | script.js:145-163 | the note at semitone p is in the scale exactly when p is a degree pitch of the root |
| Membership.InOctaveRuns | script.js:170-188 | a note is in the runs exactly when it is in one octave's run |
| Membership.InAllOctaves | script.js:165-191 | the note at p is in the seven-octave list exactly when p is a degree pitch of the root in some octave 1 to 7 |
| Membership.RootNameInOctave | script.js:153-160 | within one octave of degrees, exactly the root and its octave carry the root's name |
| Fretboard.FindFrom | script.js:385 | a found string has the number, and None means no string from i on has it |
| Fretboard.FindFromFirst | script.js:385 | the string found is the first one from position i on with that number, as `find` returns |
| Fretboard.FindString | script.js:385 | `openNotes.find` succeeds exactly for strings 1 to 6, returning that string |
| Fretboard.FindStringNote | script.js:9-16 | every string is tuned to a display-table note |
| Fretboard.BoardCells | script.js:34-43 | the board has 6 × 16 cells |
| Fretboard.BoardCell | script.js:34-43 | cell j is fret j mod 16 of string j div 16 + 1 |
| Fretboard.BoardCellsExact | script.js:25-80 | every cell is on the board, every string-and-fret pair is there, and no cell repeats |
| Fretboard.SelectedStrings | script.js:193-196 | the checked strings, or string 1 alone when none is checked; never empty |
| Fretboard.SelectedScaleType | script.js:363 | a non-empty select value is used as is; a missing or empty one selects the major scale; the result is never empty |
| Fretboard.ClickScale | script.js:365-367 | the one-octave view draws steps + 1 notes opening on the clicked note, and the full view seven runs for a known root |
| Fretboard.InScaleFrom | script.js:389 | `some` from position i is true exactly when an entry from i on matches |
| Fretboard.InScale | script.js:389 | the `some` test is true exactly when the note and octave are in the scale |
| Fretboard.CellNote | script.js:384-386 | every board cell shows a defined note |
| Fretboard.CellMarkFor | script.js:380-399 | a cell is lit exactly when its string is selected and its normalized note and octave are in the scale; it is the tonic exactly when lit and its name is the tonic's |
| Fretboard.MarkCells | script.js:380-399 | the highlight pass gives every cell its CellMarkFor mark |
| Fretboard.HandleCellClick | script.js:355-402 | when locked, nothing is redrawn; otherwise the scale of the selected view and type is drawn, both panels follow from it, and every cell gets the mark the click gives it (ClickMark) |
| Fretboard.OpenNoteInTable | script.js:9-16 | every open string's note is a display name, and find returns that string |
| Fretboard.CellPitchShown | script.js:384-387 | a cell's normalized note and octave are the note at the semitone it sounds |
| Fretboard.CellPitchSounds | script.js:356-357 | the frequency index of a cell's note is the cell's semitone |
| Fretboard.CellPitchRange | script.js:9-23 | every cell sounds between E2 (index 28, the open low E) and G5 (index 67, fret 15 of the high E) |
| Fretboard.SamePitchSameMark | script.js:380-399 | two selected cells sounding the same pitch get the same mark |
| Fretboard.MarkBySound | script.js:380-399 | on a selected string, the mark depends only on the note at the sounded semitone |
| Fretboard.ClickRoot | script.js:356-377 | the clicked note as a root sits at the clicked pitch, and the tonic is that pitch's name |
| Fretboard.OneOctaveMarks | script.js:366-399 | in the one-octave view a selected cell is lit exactly when it sounds the clicked pitch plus a prefix sum of the steps |
| Fretboard.FullBoardMarks | script.js:366-399 | in the full view a selected cell is lit exactly when it sounds a degree pitch of the clicked pitch class in some octave 1 to 7 |
| Fretboard.OneOctaveTonic | script.js:377-397 | in the one-octave view the tonic marks exactly the clicked pitch and the pitch an octave above |
| Fretboard.FullBoardTonic | script.js:377-397 | in the full view the tonic marks exactly the cells of the clicked pitch class |
| Fretboard.BoardPosition | script.js:34-43 | every board cell has a row-order position among the 6 × 16 cells |
| Fretboard.BoardIndex | script.js:34-43 | the board holds each cell at its row-order position |
| Fretboard.ClickBoard | script.js:25-80 | a click on the drawn board marks every cell as the click's ClickMark, at its position, and the clicked cell is the tonic when its string is selected |
| Fretboard.ClickedCellTonic | script.js:355-399 | the clicked cell, on a selected string, is always marked tonic |

## Left out

- Rendering is left out: DOM elements, the fret header row, cell colours and gradients, CSS classes, `clearHighlights` and the clear button. The model computes what is written, never how it is drawn.
- Sound is left out: `playNote` (Web Audio) and the floating-point part of `getFrequency`. Only its integer semitone index (`Pitch.PitchIndex`) is modelled; the frequency is 440 · 2^((index − 57)/12).
- Event wiring is left out: click listeners, checkbox reads, `parseInt` of the cells' data attributes and the unused module-level `lockScale` constant. The controls a click reads are a `Controls` value, the cells an explicit list of `Cell`s, and string numbers are integers.
- The note trainer, timers and randomness are not part of this model.
- ShowScaleDegrees: the unused `rootNote` and `rootOctave` parameters of showScaleDegrees are dropped.
- ModeOf: a scale-type name equal to a property every JavaScript object inherits (such as `constructor`) is treated like any unknown name (major), not as that property.
- HandleCellClick: it requires the clicked string to be one of the six open strings, as every listener created by createFretboard passes one of them.
- CellMarkFor: it requires a cell on a selected string to be on the board; the board only creates cells for strings 1 to 6 and frets 0 to 15.
