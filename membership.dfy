/**
 * Scale membership by sounding pitch: the note a fretted string shows,
 * normalised, is the note of the normalised table at the semitone it
 * sounds, and the one-octave and all-octaves scales from a known root hold
 * exactly the semitones the root reaches by prefix sums of its pattern.
 */
module Membership {
  import opened Pitch
  import opened Scales

  /** The note and octave shown at `fret`, normalised: entry x mod 12 of the normalised table, x div 12 octaves up. */
  lemma ShownNote(baseNote: string, baseOctave: int, fret: int, index: int, octave: int)
    requires NoteIndex(baseNote) >= 0 && fret >= 0
    requires index == (NoteIndex(baseNote) + fret) % 12 && octave == baseOctave + (NoteIndex(baseNote) + fret) / 12
    ensures NoteAndOctave(baseNote, baseOctave, fret).note.Some?
    ensures var shown := NoteAndOctave(baseNote, baseOctave, fret);
      ScaleNote(Normalize(shown.note.value), shown.octave) == ScaleNote(NormalizedChromatic[index], octave)
  {
    NoteIndexMissing(baseNote);
    NoteAndOctaveClosedForm(baseNote, baseOctave, fret);
    NormalizeChromatic(index);
  }

  /** Semitone p, written as x semitones above C of `baseOctave`, is name x mod 12 in octave `baseOctave` + x div 12. */
  lemma NoteAtPitchShift(names: seq<string>, p: int, x: int, baseOctave: int, index: int, octave: int)
    requires |names| == 12 && x >= 0 && p == x + 12 * baseOctave
    requires index == x % 12 && octave == baseOctave + x / 12
    ensures NoteAtPitch(names, p) == ScaleNote(names[index], octave)
  {
    JoinPitch(x);
    SplitPitch(p, index, octave);
  }

  /**
   * Fretting a string tuned to a note of the display table shows, once
   * normalised, the note of the normalised table at the pitch it sounds.
   */
  lemma FrettedAtPitch(baseNote: string, baseOctave: int, fret: int, shown: Fretted, p: int)
    requires NoteIndex(baseNote) >= 0 && fret >= 0
    requires shown == NoteAndOctave(baseNote, baseOctave, fret) && p == NoteIndex(baseNote) + 12 * baseOctave + fret
    ensures shown.note.Some? && ScaleNote(Normalize(shown.note.value), shown.octave) == NoteAtPitch(NormalizedChromatic, p)
  {
    var x := NoteIndex(baseNote) + fret;
    var index, octave := x % 12, baseOctave + x / 12;
    ShownNote(baseNote, baseOctave, fret, index, octave);
    NoteAtPitchShift(NormalizedChromatic, p, x, baseOctave, index, octave);
  }

  /** The normalised name of the note at semitone p is found at p mod 12 of the normalised table. */
  lemma NameIndex(p: int)
    ensures IndexOf(NormalizedChromatic, NoteAtPitch(NormalizedChromatic, p).note) == p % 12
  {
    IndexOfTables(p % 12);
  }

  /** Spelled from twelve distinct names, two semitone indices have the same name exactly when they are whole octaves apart. */
  lemma SameName(names: seq<string>, p: int, q: int)
    requires Distinct12(names)
    ensures NoteAtPitch(names, p).note == NoteAtPitch(names, q).note <==> p % 12 == q % 12
  {
    if p % 12 < q % 12 {
      assert names[p % 12] != names[q % 12];
    } else if q % 12 < p % 12 {
      assert names[q % 12] != names[p % 12];
    }
  }

  /** Spelled from twelve distinct names, the note at a semitone index determines the index. */
  lemma NoteAtPitchInjective(names: seq<string>, p: int, q: int)
    requires Distinct12(names)
    requires NoteAtPitch(names, p) == NoteAtPitch(names, q)
    ensures p == q
  {
    SameName(names, p, q);
    JoinPitch(p);
    JoinPitch(q);
  }

  /** The pitch of degree k of the pattern over the root at `rootIndex` in octave o. */
  function DegreePitch(rootIndex: int, o: int, steps: seq<int>, k: nat): int
    requires k <= |steps|
  {
    rootIndex + 12 * o + PrefixSum(steps, k)
  }

  /** Entry k of a one-octave scale from a known root, as the note at its semitone index. */
  lemma FullScaleAt(rootNote: string, octave: int, mode: Mode, k: nat)
    requires RootIndex(rootNote) >= 0 && k <= |Pattern(mode)|
    ensures FullScale(rootNote, octave, mode)[k]
              == NoteAtPitch(NormalizedChromatic, DegreePitch(RootIndex(rootNote), octave, Pattern(mode), k))
  {
    RunFromIndex(rootNote, octave, mode, RootIndex(rootNote));
    RunAt(NormalizedChromatic, RootIndex(rootNote), octave, Pattern(mode), k);
  }

  /**
   * A list whose entry k is the note at `base` plus the first k steps holds
   * exactly those pitches.
   */
  lemma InStepped(names: seq<string>, scale: seq<ScaleNote>, rootIndex: int, octave: int, steps: seq<int>, p: int)
    requires Distinct12(names)
    requires |scale| == |steps| + 1
    requires forall k :: 0 <= k < |scale| ==> scale[k] == NoteAtPitch(names, DegreePitch(rootIndex, octave, steps, k))
    ensures NoteAtPitch(names, p) in scale <==>
      exists k :: 0 <= k <= |steps| && p == DegreePitch(rootIndex, octave, steps, k)
  {
    if NoteAtPitch(names, p) in scale {
      var k :| 0 <= k < |scale| && scale[k] == NoteAtPitch(names, p);
      NoteAtPitchInjective(names, p, DegreePitch(rootIndex, octave, steps, k));
      assert k <= |steps| && p == DegreePitch(rootIndex, octave, steps, k);
    }
    if exists k :: 0 <= k <= |steps| && p == DegreePitch(rootIndex, octave, steps, k) {
      var k :| 0 <= k <= |steps| && p == DegreePitch(rootIndex, octave, steps, k);
      assert scale[k] == NoteAtPitch(names, p);
      assert NoteAtPitch(names, p) in scale;
    }
  }

  /** The one-octave scale from a known root holds exactly the pitches the root raised by a prefix sum of its steps. */
  lemma InFullScale(rootNote: string, octave: int, mode: Mode, p: int)
    requires RootIndex(rootNote) >= 0
    ensures NoteAtPitch(NormalizedChromatic, p) in FullScale(rootNote, octave, mode) <==>
      exists k :: 0 <= k <= |Pattern(mode)| && p == DegreePitch(RootIndex(rootNote), octave, Pattern(mode), k)
  {
    var scale := FullScale(rootNote, octave, mode);
    forall k | 0 <= k < |scale|
      ensures scale[k] == NoteAtPitch(NormalizedChromatic, DegreePitch(RootIndex(rootNote), octave, Pattern(mode), k))
    {
      FullScaleAt(rootNote, octave, mode, k);
    }
    TablesDistinct();
    InStepped(NormalizedChromatic, scale, RootIndex(rootNote), octave, Pattern(mode), p);
  }

  /** A note is in the runs of octaves 1 to `last` exactly when it is in the run of one of those octaves. */
  lemma {:induction false} InOctaveRuns(rootNote: string, mode: Mode, last: int, x: ScaleNote)
    ensures x in OctaveRuns(rootNote, mode, last) <==> exists o :: 1 <= o <= last && x in FullScale(rootNote, o, mode)
    decreases last
  {
    if last >= 1 {
      InOctaveRuns(rootNote, mode, last - 1, x);
    }
  }

  /**
   * The all-octaves scale from a known root holds exactly the pitches of the
   * root in an octave from 1 to 7 raised by a prefix sum of its steps.
   */
  lemma InAllOctaves(rootNote: string, mode: Mode, p: int, base: int)
    requires base == RootIndex(rootNote) && base >= 0
    ensures NoteAtPitch(NormalizedChromatic, p) in AllOctaves(rootNote, mode) <==>
      exists o, k :: 1 <= o <= 7 && 0 <= k <= |Pattern(mode)|
        && p == DegreePitch(base, o, Pattern(mode), k)
  {
    var x := NoteAtPitch(NormalizedChromatic, p);
    InOctaveRuns(rootNote, mode, 7, x);
    if x in AllOctaves(rootNote, mode) {
      var o :| 1 <= o <= 7 && x in FullScale(rootNote, o, mode);
      InFullScale(rootNote, o, mode, p);
    }
    if exists o, k :: 1 <= o <= 7 && 0 <= k <= |Pattern(mode)| && p == DegreePitch(base, o, Pattern(mode), k) {
      var o, k :| 1 <= o <= 7 && 0 <= k <= |Pattern(mode)| && p == DegreePitch(base, o, Pattern(mode), k);
      InFullScale(rootNote, o, mode, p);
    }
  }

  /** Two pitches of the same class at most an octave apart are the same pitch or an octave apart. */
  lemma WholeOctaves(p: int, p0: int)
    requires p % 12 == p0 % 12 && p0 <= p <= p0 + 12
    ensures p == p0 || p == p0 + 12
  {
    JoinPitch(p);
    JoinPitch(p0);
  }

  /**
   * Within one octave of degrees above a root, the degrees that carry the
   * root's name are exactly the root itself and its octave.
   */
  lemma RootNameInOctave(names: seq<string>, steps: seq<int>, p: int, p0: int)
    requires Distinct12(names) && ValidSteps(steps) && PrefixSum(steps, |steps|) == 12
    ensures ((exists k :: 0 <= k <= |steps| && p == p0 + PrefixSum(steps, k))
        && NoteAtPitch(names, p).note == NoteAtPitch(names, p0).note) <==>
      p == p0 || p == p0 + 12
  {
    SameName(names, p, p0);
    if exists k :: 0 <= k <= |steps| && p == p0 + PrefixSum(steps, k) {
      var k :| 0 <= k <= |steps| && p == p0 + PrefixSum(steps, k);
      PrefixSumGrows(steps, 0, k);
      PrefixSumGrows(steps, k, |steps|);
      if p % 12 == p0 % 12 {
        WholeOctaves(p, p0);
      }
    }
    if p == p0 + 12 {
      JoinPitch(p0);
      assert p == p0 + PrefixSum(steps, |steps|);
      assert p % 12 == p0 % 12;
    }
    if p == p0 {
      assert p == p0 + PrefixSum(steps, 0);
    }
  }
}
