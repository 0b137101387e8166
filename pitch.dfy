/**
 * The pitch model of the fretboard script: the two chromatic tables, note-name
 * lookup, the normalisation of dual display names, the fret-to-note mapping
 * and the integer semitone index behind the frequency computation.
 */
module Pitch {
  import opened Wrappers

  /** The display table: the five black keys carry both spellings. */
  const Chromatic: seq<string> :=
    ["C", "C#/Db", "D", "D#/Eb", "E", "F", "F#/Gb", "G", "G#/Ab", "A", "A#/Bb", "B"]

  /** The same twelve pitch classes, each under its single sharp name. */
  const NormalizedChromatic: seq<string> :=
    ["C", "C#", "D", "D#", "E", "F", "F#", "G", "G#", "A", "A#", "B"]

  /** Semitone index of A4, the 440 Hz reference of the frequency formula. */
  const A4Index: int := 9 + 12 * 4

  /** `Array.prototype.indexOf`: the first position of `x` in `s`, or -1. */
  function IndexOf<T(==)>(s: seq<T>, x: T): (r: int)
    ensures -1 <= r < |s|
    ensures 0 <= r ==> s[r] == x
  {
    IndexFrom(s, x, 0)
  }

  /** The scan behind IndexOf, from position `i` on. */
  function IndexFrom<T(==)>(s: seq<T>, x: T, i: nat): (r: int)
    requires i <= |s|
    ensures r == -1 || i <= r < |s|
    ensures 0 <= r ==> s[r] == x
    decreases |s| - i
  {
    if i == |s| then -1
    else if s[i] == x then i
    else IndexFrom(s, x, i + 1)
  }

  /** The scan from `i` finds nothing exactly when `x` is absent from `s[i..]`, and otherwise stops at the first hit. */
  lemma {:induction false} IndexFromFirst<T>(s: seq<T>, x: T, i: nat)
    requires i <= |s|
    ensures IndexFrom(s, x, i) == -1 <==> forall k :: i <= k < |s| ==> s[k] != x
    ensures forall k :: i <= k < IndexFrom(s, x, i) ==> s[k] != x
    decreases |s| - i
  {
    if i < |s| && s[i] != x {
      IndexFromFirst(s, x, i + 1);
    }
  }

  /** indexOf answers -1 exactly for an absent value, and otherwise its first occurrence. */
  lemma IndexOfFirst<T>(s: seq<T>, x: T)
    ensures IndexOf(s, x) == -1 <==> x !in s
    ensures 0 <= IndexOf(s, x) ==> x !in s[..IndexOf(s, x)]
  {
    IndexFromFirst(s, x, 0);
    var r := IndexOf(s, x);
    if r == -1 {
      assert forall k :: 0 <= k < |s| ==> s[k] != x;
    } else {
      assert forall k :: 0 <= k < r ==> s[..r][k] != x;
    }
  }

  /** getNoteIndex: the position of a display name in the display table. */
  function NoteIndex(note: string): (r: int)
    ensures -1 <= r < 12
    ensures 0 <= r ==> Chromatic[r] == note
  {
    IndexOf(Chromatic, note)
  }

  /** getNoteIndex gives -1 exactly for a name outside the display table. */
  lemma NoteIndexMissing(note: string)
    ensures NoteIndex(note) == -1 <==> note !in Chromatic
  {
    IndexOfFirst(Chromatic, note);
  }

  /**
   * normalizeNote: a name holding a '/' is cut down to the part before the
   * first '/' (its sharp spelling); any other name is returned unchanged.
   */
  function Normalize(note: string): (r: string)
    ensures '/' !in r
    ensures '/' !in note ==> r == note
  {
    IndexOfFirst(note, '/');
    if '/' in note then note[..IndexOf(note, '/')] else note
  }

  /** A name holding a '/' keeps exactly what precedes its first '/'. */
  lemma NormalizeCuts(note: string)
    requires '/' in note
    ensures Normalize(note) <= note && note[|Normalize(note)|] == '/'
  {
    IndexOfFirst(note, '/');
  }

  /** JavaScript's `%`: the remainder of a division truncated towards zero. */
  function JsRem(a: int, b: int): (r: int)
    requires b > 0
    ensures -b < r < b
    ensures a >= 0 ==> r == a % b
    ensures a < 0 ==> r <= 0
  {
    if a >= 0 then a % b else -((-a) % b)
  }

  /** JavaScript's `%` is odd in its dividend: `-a % b` is `-(a % b)`, so `-1 % 12` is -1. */
  lemma JsRemOdd(a: int, b: int)
    requires b > 0
    ensures JsRem(-a, b) == -JsRem(a, b)
  {
  }

  /** The note and octave a cell shows; `note` is None where the source reads `undefined`. */
  datatype Fretted = Fretted(note: Option<string>, octave: int)

  /**
   * getNoteAndOctave: the display note and octave at `fret` on a string tuned
   * to `baseNote` in `baseOctave`. The index wraps with JavaScript's `%` and the
   * octave shift is `Math.floor`, which is Dafny's `/` for the divisor 12.
   */
  function NoteAndOctave(baseNote: string, baseOctave: int, fret: int): (r: Fretted)
    ensures r.note.Some? ==> r.note.value in Chromatic
    ensures NoteIndex(baseNote) + fret >= 0 ==> r.note.Some?
  {
    var noteIndex := NoteIndex(baseNote);
    // chromatic.length, written out so that the divisor is a constant
    var newIndex := JsRem(noteIndex + fret, 12);
    var octaveShift := (noteIndex + fret) / 12;
    Fretted(if 0 <= newIndex then Some(Chromatic[newIndex]) else None, baseOctave + octaveShift)
  }

  /**
   * The integer part of getFrequency: the semitone index of a note, counted
   * from C0 through the normalised table. The frequency is 440 Hz times two
   * to the power (PitchIndex - A4Index) / 12.
   */
  function PitchIndex(note: string, octave: int): (r: int)
    ensures Normalize(note) in NormalizedChromatic ==>
      12 * octave <= r < 12 * octave + 12 && NormalizedChromatic[r - 12 * octave] == Normalize(note)
    ensures Normalize(note) !in NormalizedChromatic ==> r == 12 * octave - 1
  {
    IndexOfFirst(NormalizedChromatic, Normalize(note));
    IndexOf(NormalizedChromatic, Normalize(note)) + 12 * octave
  }

  /** Twelve names, no two alike. */
  predicate Distinct12(names: seq<string>)
  {
    |names| == 12 && forall i, j :: 0 <= i < j < 12 ==> names[i] != names[j]
  }

  /** Each table holds twelve different names. */
  lemma TablesDistinct()
    ensures Distinct12(Chromatic) && Distinct12(NormalizedChromatic)
  {
  }

  /** normalizeNote takes each display name to the normalised name of the same pitch class. */
  lemma NormalizeChromatic(k: int)
    requires 0 <= k < 12
    ensures Normalize(Chromatic[k]) == NormalizedChromatic[k]
  {
  }

  /** Looking a table entry up again finds its own position. */
  lemma IndexOfTables(k: int)
    requires 0 <= k < 12
    ensures IndexOf(Chromatic, Chromatic[k]) == k
    ensures IndexOf(NormalizedChromatic, NormalizedChromatic[k]) == k
  {
    TablesDistinct();
    IndexFromFirst(Chromatic, Chromatic[k], 0);
    IndexFromFirst(NormalizedChromatic, NormalizedChromatic[k], 0);
  }

  /** normalizeNote is idempotent. */
  lemma NormalizeIdempotent(note: string)
    ensures Normalize(Normalize(note)) == Normalize(note)
  {
  }

  /** Normalised names hold no '/', so normalizeNote leaves them unchanged. */
  lemma NormalizedFixed(k: int)
    requires 0 <= k < 12
    ensures '/' !in NormalizedChromatic[k]
    ensures Normalize(NormalizedChromatic[k]) == NormalizedChromatic[k]
  {
  }

  /** A normalised name and an octave sit at that name's index plus twelve per octave. */
  lemma PitchIndexNormalized(k: int, octave: int)
    requires 0 <= k < 12
    ensures PitchIndex(NormalizedChromatic[k], octave) == k + 12 * octave
  {
    NormalizedFixed(k);
    IndexOfTables(k);
  }

  /** A display name sounds at the same semitone index as its normalised name. */
  lemma PitchIndexChromatic(k: int, octave: int)
    requires 0 <= k < 12
    ensures PitchIndex(Chromatic[k], octave) == k + 12 * octave
  {
    NormalizeChromatic(k);
    PitchIndexNormalized(k, octave);
  }

  /**
   * For an open note in the display table, the fret mapping is the display
   * name at index (i + fret) mod 12 in octave baseOctave + (i + fret) div 12.
   */
  lemma NoteAndOctaveClosedForm(baseNote: string, baseOctave: int, fret: int)
    requires baseNote in Chromatic
    requires NoteIndex(baseNote) + fret >= 0
    ensures var i := NoteIndex(baseNote);
            NoteAndOctave(baseNote, baseOctave, fret)
              == Fretted(Some(Chromatic[(i + fret) % 12]), baseOctave + (i + fret) / 12)
  {
  }

  /** Within one octave the wrap-around changes nothing. */
  lemma WithinOctave(x: int)
    requires 0 <= x < 12
    ensures JsRem(x, 12) == x && x / 12 == 0
  {
  }

  /** Twelve semitones more is the same remainder and one more octave. */
  lemma OctaveUp(x: int)
    requires x >= 0
    ensures JsRem(x + 12, 12) == JsRem(x, 12) && (x + 12) / 12 == x / 12 + 1
    ensures x == 12 * (x / 12) + JsRem(x, 12)
  {
  }

  /** The open string (fret 0) shows its own note and octave. */
  lemma NoteAndOctaveOpen(baseNote: string, baseOctave: int)
    requires baseNote in Chromatic
    ensures NoteAndOctave(baseNote, baseOctave, 0) == Fretted(Some(baseNote), baseOctave)
  {
    NoteIndexMissing(baseNote);
    WithinOctave(NoteIndex(baseNote));
  }

  /** Twelve frets higher is the same display name exactly one octave up. */
  lemma NoteAndOctavePeriodic(baseNote: string, baseOctave: int, fret: int)
    requires NoteIndex(baseNote) + fret >= 0
    ensures NoteAndOctave(baseNote, baseOctave, fret + 12).note == NoteAndOctave(baseNote, baseOctave, fret).note
    ensures NoteAndOctave(baseNote, baseOctave, fret + 12).octave == NoteAndOctave(baseNote, baseOctave, fret).octave + 1
  {
    OctaveUp(NoteIndex(baseNote) + fret);
  }

  /** Fretting raises the semitone index, and so the frequency, by exactly `fret` semitones. */
  lemma NoteAndOctavePitch(baseNote: string, baseOctave: int, fret: int)
    requires baseNote in Chromatic
    requires NoteIndex(baseNote) + fret >= 0
    ensures var r := NoteAndOctave(baseNote, baseOctave, fret);
            r.note.Some? && PitchIndex(r.note.value, r.octave) == PitchIndex(baseNote, baseOctave) + fret
  {
    var i := NoteIndex(baseNote);
    var r := NoteAndOctave(baseNote, baseOctave, fret);
    NoteIndexMissing(baseNote);
    FretArithmetic(i + fret, baseOctave);
    PitchIndexChromatic(i, baseOctave);
    PitchIndexChromatic(JsRem(i + fret, 12), r.octave);
  }

  /** A non-negative index splits into its wrapped index and the octave shift it adds. */
  lemma FretArithmetic(x: int, baseOctave: int)
    requires x >= 0
    ensures 0 <= JsRem(x, 12) < 12
    ensures JsRem(x, 12) + 12 * (baseOctave + x / 12) == x + 12 * baseOctave
  {
  }

  /**
   * An open note missing from the display table has index -1. At fret 0 the
   * note is `undefined` and the octave one lower.
   */
  lemma NoteAndOctaveUnknownOpen(baseNote: string, baseOctave: int)
    requires baseNote !in Chromatic
    ensures NoteAndOctave(baseNote, baseOctave, 0) == Fretted(None, baseOctave - 1)
  {
    assert JsRem(-1, 12) == -1 && -1 / 12 == -1;
  }

  /**
   * From fret 1 on, an open note missing from the display table shows the
   * name at index (fret - 1) mod 12 in octave baseOctave + (fret - 1) div 12,
   * as a B one octave lower would.
   */
  lemma NoteAndOctaveUnknownFretted(baseNote: string, baseOctave: int, fret: int)
    requires baseNote !in Chromatic
    requires fret >= 1
    ensures NoteAndOctave(baseNote, baseOctave, fret)
              == Fretted(Some(Chromatic[(fret - 1) % 12]), baseOctave + (fret - 1) / 12)
  {
  }

  /** A4 is the reference semitone index 57. */
  lemma A4Reference()
    ensures PitchIndex("A", 4) == A4Index == 57
  {
    PitchIndexNormalized(9, 4);
  }
}
