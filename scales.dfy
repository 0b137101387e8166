/**
 * The scale engine: the catalogue of interval patterns, the one-octave walk
 * from a root (computeFullScale) and its repetition from every root in
 * octaves 1 to 7 (computeFullScaleAllOctaves).
 */
module Scales {
  import opened Wrappers
  import opened Pitch

  /** The scale types of the catalogue, one per key of scalePatterns. */
  datatype Mode =
    | Major | Minor | HarmonicMinor | MelodicMinor
    | PentatonicMajor | PentatonicMinor | Blues
    | Dorian | Phrygian | Lydian | Mixolydian | Locrian

  /** The key under which a mode is stored. */
  function ModeName(m: Mode): string
  {
    match m
    case Major => "major"
    case Minor => "minor"
    case HarmonicMinor => "harmonicMinor"
    case MelodicMinor => "melodicMinor"
    case PentatonicMajor => "pentatonicMajor"
    case PentatonicMinor => "pentatonicMinor"
    case Blues => "blues"
    case Dorian => "dorian"
    case Phrygian => "phrygian"
    case Lydian => "lydian"
    case Mixolydian => "mixolydian"
    case Locrian => "locrian"
  }

  /** Looks a scale-type name up among the catalogue keys; None for any other name. */
  function ModeNamed(name: string): (r: Option<Mode>)
    ensures r.Some? ==> ModeName(r.value) == name
    ensures r.None? ==> forall m: Mode :: ModeName(m) != name
  {
    if name == "major" then Some(Major)
    else if name == "minor" then Some(Minor)
    else if name == "harmonicMinor" then Some(HarmonicMinor)
    else if name == "melodicMinor" then Some(MelodicMinor)
    else if name == "pentatonicMajor" then Some(PentatonicMajor)
    else if name == "pentatonicMinor" then Some(PentatonicMinor)
    else if name == "blues" then Some(Blues)
    else if name == "dorian" then Some(Dorian)
    else if name == "phrygian" then Some(Phrygian)
    else if name == "lydian" then Some(Lydian)
    else if name == "mixolydian" then Some(Mixolydian)
    else if name == "locrian" then Some(Locrian)
    else None
  }

  /** scalePatterns: the semitone steps of each mode, root to octave. */
  function Pattern(m: Mode): (r: seq<int>)
    ensures 5 <= |r| <= 7
  {
    match m
    case Major => [2, 2, 1, 2, 2, 2, 1]
    case Minor => [2, 1, 2, 2, 1, 2, 2]
    case HarmonicMinor => [2, 1, 2, 2, 1, 3, 1]
    case MelodicMinor => [2, 1, 2, 2, 2, 2, 1]
    case PentatonicMajor => [2, 2, 3, 2, 3]
    case PentatonicMinor => [3, 2, 2, 3, 2]
    case Blues => [3, 2, 1, 1, 3, 2]
    case Dorian => [2, 1, 2, 2, 2, 1, 2]
    case Phrygian => [1, 2, 2, 2, 1, 2, 2]
    case Lydian => [2, 2, 2, 1, 2, 2, 1]
    case Mixolydian => [2, 2, 1, 2, 2, 1, 2]
    case Locrian => [1, 2, 2, 1, 2, 2, 2]
  }

  /** The sum of the first k steps. */
  function PrefixSum(steps: seq<int>, k: nat): int
    requires k <= |steps|
  {
    if k == 0 then 0 else PrefixSum(steps, k - 1) + steps[k - 1]
  }

  /** Steps that move up by at least one semitone and at most an octave. */
  predicate ValidSteps(steps: seq<int>)
  {
    forall j :: 0 <= j < |steps| ==> 1 <= steps[j] <= 12
  }

  /** Every pattern has five to seven steps of one to three semitones each. */
  lemma PatternSteps(m: Mode)
    ensures ValidSteps(Pattern(m))
    ensures forall j :: 0 <= j < |Pattern(m)| ==> Pattern(m)[j] <= 3
    ensures 5 <= |Pattern(m)| <= 7
  {
  }

  /** Every pattern climbs exactly one octave. */
  lemma PatternSum(m: Mode)
    ensures PrefixSum(Pattern(m), |Pattern(m)|) == 12
  {
    match m
    case Major => assert PrefixSum([2, 2, 1, 2, 2, 2, 1], 7) == 12;
    case Minor => assert PrefixSum([2, 1, 2, 2, 1, 2, 2], 7) == 12;
    case HarmonicMinor => assert PrefixSum([2, 1, 2, 2, 1, 3, 1], 7) == 12;
    case MelodicMinor => assert PrefixSum([2, 1, 2, 2, 2, 2, 1], 7) == 12;
    case PentatonicMajor => assert PrefixSum([2, 2, 3, 2, 3], 5) == 12;
    case PentatonicMinor => assert PrefixSum([3, 2, 2, 3, 2], 5) == 12;
    case Blues => assert PrefixSum([3, 2, 1, 1, 3, 2], 6) == 12;
    case Dorian => assert PrefixSum([2, 1, 2, 2, 2, 1, 2], 7) == 12;
    case Phrygian => assert PrefixSum([1, 2, 2, 2, 1, 2, 2], 7) == 12;
    case Lydian => assert PrefixSum([2, 2, 2, 1, 2, 2, 1], 7) == 12;
    case Mixolydian => assert PrefixSum([2, 2, 1, 2, 2, 1, 2], 7) == 12;
    case Locrian => assert PrefixSum([1, 2, 2, 1, 2, 2, 2], 7) == 12;
  }

  /**
   * The `table[scaleType] || table['major']` lookup shared by the scale,
   * chord and progression tables: the named mode, major for any other name.
   */
  function ModeOf(scaleType: string): (m: Mode)
    ensures ModeNamed(scaleType).Some? ==> m == ModeNamed(scaleType).value
    ensures ModeNamed(scaleType).None? ==> m == Major
  {
    match ModeNamed(scaleType)
    case Some(m) => m
    case None => Major
  }

  /** A scale entry: a normalised note name and an octave. */
  datatype ScaleNote = ScaleNote(note: string, octave: int)

  /**
   * The note sounding at semitone index p (C0 is 0), spelled from a table of
   * twelve names. The script always spells from the normalised table; the
   * walk is stated for any twelve names so that its arithmetic does not
   * depend on the spellings.
   */
  function NoteAtPitch(names: seq<string>, p: int): ScaleNote
    requires |names| == 12
  {
    ScaleNote(names[p % 12], p / 12)
  }

  /** The note reached from semitone `base` after the first k steps. */
  function Reached(names: seq<string>, base: int, steps: seq<int>, k: nat): ScaleNote
    requires |names| == 12
    requires k <= |steps|
  {
    NoteAtPitch(names, base + PrefixSum(steps, k))
  }

  /**
   * A run: the root name in its octave, then, for each k from 1, the note
   * reached from the root's semitone index (`index` in the table, in
   * `octave`) after the first k steps.
   */
  function Run(names: seq<string>, root: string, index: int, octave: int, steps: seq<int>): (r: seq<ScaleNote>)
    requires |names| == 12
    ensures |r| == |steps| + 1
  {
    seq(|steps| + 1, k requires 0 <= k <= |steps| =>
      if k == 0 then ScaleNote(root, octave) else Reached(names, index + 12 * octave, steps, k))
  }

  /**
   * The one-octave scale as a closed form: the normalised root in its
   * octave, then the note at the root's semitone index plus the sum of the
   * first k steps. A root missing from the table walks from index -1, as
   * the script's findIndex result does.
   */
  function FullScale(rootNote: string, rootOctave: int, mode: Mode): (r: seq<ScaleNote>)
    ensures |r| == |Pattern(mode)| + 1
  {
    Run(NormalizedChromatic, Normalize(rootNote), RootIndex(rootNote), rootOctave, Pattern(mode))
  }

  /** `normalizedChromatic.findIndex(n => n === normalizeNote(rootNote))`: -1 when the root is not in the table. */
  function RootIndex(rootNote: string): (r: int)
    ensures -1 <= r < 12
    ensures 0 <= r ==> NormalizedChromatic[r] == Normalize(rootNote)
  {
    IndexOf(NormalizedChromatic, Normalize(rootNote))
  }

  /** Semitone index `index + 12 * octave` splits back into its index and octave. */
  lemma SplitPitch(p: int, index: int, octave: int)
    requires 0 <= index < 12 && p == index + 12 * octave
    ensures p % 12 == index && p / 12 == octave
  {
  }

  /** Every semitone index is its remainder plus twelve times its octave. */
  lemma JoinPitch(p: int)
    ensures 0 <= p % 12 < 12 && p == p % 12 + 12 * (p / 12)
  {
  }

  /** The semitone index `index + 12 * octave` names the table entry `index` in `octave`. */
  lemma NoteAtPitchWithin(names: seq<string>, p: int, index: int, octave: int)
    requires |names| == 12
    requires 0 <= index < 12 && p == index + 12 * octave
    ensures NoteAtPitch(names, p) == ScaleNote(names[index], octave)
  {
    SplitPitch(p, index, octave);
  }

  /**
   * The push-and-walk shared by computeFullScale and
   * computeFullScaleAllOctaves: push the root, then for each step add it to
   * the running index, wrap past 11 into the next octave, and push the note
   * reached. The list `acc` is what was pushed before.
   */
  method PushRun(acc: seq<ScaleNote>, root: string, start: int, octave: int, intervals: seq<int>)
    returns (out: seq<ScaleNote>)
    requires -1 <= start < 12
    requires ValidSteps(intervals)
    ensures out == acc + Run(NormalizedChromatic, root, start, octave, intervals)
  {
    ghost var run := Run(NormalizedChromatic, root, start, octave, intervals);
    var index := start;
    var currentOctave := octave;
    out := acc + [ScaleNote(root, octave)];
    for j := 0 to |intervals|
      invariant out == acc + run[..j + 1]
      invariant (if j == 0 then -1 else 0) <= index < 12
      invariant index + 12 * currentOctave == start + 12 * octave + PrefixSum(intervals, j)
    {
      index := index + intervals[j];
      if index >= 12 {
        index := index - 12;
        currentOctave := currentOctave + 1;
      }
      RunExtend(NormalizedChromatic, root, start, octave, intervals, j, index, currentOctave);
      out := out + [ScaleNote(NormalizedChromatic[index], currentOctave)];
    }
    assert run[..|intervals| + 1] == run;
  }

  /** One more step of the walk extends the run by the note at the new index and octave. */
  lemma RunExtend(names: seq<string>, root: string, start: int, octave: int, steps: seq<int>, j: nat, index: int, o: int)
    requires |names| == 12
    requires j < |steps| && 0 <= index < 12
    requires index + 12 * o == start + 12 * octave + PrefixSum(steps, j + 1)
    ensures var run := Run(names, root, start, octave, steps);
            run[..j + 2] == run[..j + 1] + [ScaleNote(names[index], o)]
  {
    var run := Run(names, root, start, octave, steps);
    NoteAtPitchWithin(names, start + 12 * octave + PrefixSum(steps, j + 1), index, o);
    assert run[j + 1] == ScaleNote(names[index], o);
  }

  /** computeFullScale: the root, then the walk over the mode's steps. */
  method ComputeFullScale(rootNote: string, rootOctave: int, scaleType: string) returns (scale: seq<ScaleNote>)
    ensures scale == FullScale(rootNote, rootOctave, ModeOf(scaleType))
  {
    var intervals := Pattern(ModeOf(scaleType));
    PatternSteps(ModeOf(scaleType));
    var rootNorm := Normalize(rootNote);
    var index := IndexOf(NormalizedChromatic, rootNorm);
    scale := PushRun([], rootNorm, index, rootOctave, intervals);
  }

  /** The runs of computeFullScaleAllOctaves for octaves 1 to `last`, in order. */
  function OctaveRuns(rootNote: string, mode: Mode, last: int): seq<ScaleNote>
    decreases last
  {
    if last < 1 then [] else OctaveRuns(rootNote, mode, last - 1) + FullScale(rootNote, last, mode)
  }

  /**
   * What computeFullScaleAllOctaves returns: one full run from the root in
   * each of octaves 1 to 7 when the normalised root is in the table, and
   * nothing otherwise.
   */
  function AllOctaves(rootNote: string, mode: Mode): (r: seq<ScaleNote>)
    ensures |r| == (if RootIndex(rootNote) >= 0 then 7 * (|Pattern(mode)| + 1) else 0)
  {
    OctaveRunsLength(rootNote, mode, 7);
    if RootIndex(rootNote) >= 0 then OctaveRuns(rootNote, mode, 7) else []
  }

  /** The scan of the normalised table meets the root exactly at its index. */
  lemma ScanMeetsRoot(rootNorm: string, chromIndex: int)
    requires 0 <= chromIndex < 12
    ensures NormalizedChromatic[chromIndex] == rootNorm <==> IndexOf(NormalizedChromatic, rootNorm) == chromIndex
  {
    IndexOfTables(chromIndex);
  }

  /** The run found by the scan at `chromIndex` is the one-octave scale from that root. */
  lemma RunFromIndex(rootNote: string, octave: int, mode: Mode, chromIndex: int)
    requires 0 <= chromIndex < 12
    requires RootIndex(rootNote) == chromIndex
    ensures FullScale(rootNote, octave, mode)
              == Run(NormalizedChromatic, NormalizedChromatic[chromIndex], chromIndex, octave, Pattern(mode))
  {
  }

  /** computeFullScaleAllOctaves: scan octaves 1..7 and the twelve table slots for the root. */
  method ComputeFullScaleAllOctaves(rootNote: string, scaleType: string) returns (allNotes: seq<ScaleNote>)
    ensures allNotes == AllOctaves(rootNote, ModeOf(scaleType))
  {
    var mode := ModeOf(scaleType);
    var rootNorm := Normalize(rootNote);
    var intervals := Pattern(mode);
    PatternSteps(mode);
    ghost var found := IndexOf(NormalizedChromatic, rootNorm);
    allNotes := [];
    for octave := 1 to 8
      invariant allNotes == if found >= 0 then OctaveRuns(rootNote, mode, octave - 1) else []
    {
      ghost var before := allNotes;
      for chromIndex := 0 to 12
        invariant allNotes == before + if 0 <= found < chromIndex then FullScale(rootNote, octave, mode) else []
      {
        var currentNote := NormalizedChromatic[chromIndex];
        ScanMeetsRoot(rootNorm, chromIndex);
        if currentNote == rootNorm {
          allNotes := PushRun(allNotes, currentNote, chromIndex, octave, intervals);
          RunFromIndex(rootNote, octave, mode, chromIndex);
        }
      }
    }
  }

  /** With rising steps the running sum grows by at least one and at most twelve per step. */
  lemma {:induction false} PrefixSumGrows(steps: seq<int>, j: nat, k: nat)
    requires ValidSteps(steps)
    requires j <= k <= |steps|
    ensures PrefixSum(steps, j) + (k - j) <= PrefixSum(steps, k) <= PrefixSum(steps, j) + 12 * (k - j)
    decreases k
  {
    if j < k {
      PrefixSumGrows(steps, j, k - 1);
    }
  }

  /** Entry k of a run is the note PrefixSum(steps, k) semitones above its start. */
  lemma RunAt(names: seq<string>, index: int, octave: int, steps: seq<int>, k: nat)
    requires |names| == 12
    requires 0 <= index < 12
    requires k <= |steps|
    ensures Run(names, names[index], index, octave, steps)[k]
              == NoteAtPitch(names, index + 12 * octave + PrefixSum(steps, k))
  {
    if k == 0 {
      NoteAtPitchWithin(names, index + 12 * octave + PrefixSum(steps, k), index, octave);
    }
  }

  /** Entry k of a run, when its semitone index is known as table index `i` in octave `o`. */
  lemma RunNote(names: seq<string>, index: int, octave: int, steps: seq<int>, k: nat, i: int, o: int)
    requires |names| == 12
    requires 0 <= index < 12 && 0 <= i < 12
    requires k <= |steps|
    requires index + 12 * octave + PrefixSum(steps, k) == i + 12 * o
    ensures Run(names, names[index], index, octave, steps)[k] == ScaleNote(names[i], o)
  {
    RunAt(names, index, octave, steps, k);
    NoteAtPitchWithin(names, index + 12 * octave + PrefixSum(steps, k), i, o);
  }

  /** A semitone offset of at most an octave above an index in the table stays within one octave. */
  lemma OctaveBounds(index: int, octave: int, d: int)
    requires 0 <= index < 12
    requires 0 <= d <= 12
    ensures octave <= (index + 12 * octave + d) / 12 <= octave + 1
  {
  }

  /** Floor division by twelve is monotone. */
  lemma DivMonotone(a: int, b: int)
    requires a <= b
    ensures a / 12 <= b / 12
  {
  }

  /**
   * The octaves of a run over rising steps that climb one octave never
   * decrease, and each lies in the start's octave or the next.
   */
  lemma RunOctaves(names: seq<string>, index: int, octave: int, steps: seq<int>)
    requires |names| == 12
    requires 0 <= index < 12
    requires ValidSteps(steps) && PrefixSum(steps, |steps|) == 12
    ensures var s := Run(names, names[index], index, octave, steps);
            forall k :: 0 <= k < |s| ==> octave <= s[k].octave <= octave + 1
    ensures var s := Run(names, names[index], index, octave, steps);
            forall j, k :: 0 <= j <= k < |s| ==> s[j].octave <= s[k].octave
  {
    var s := Run(names, names[index], index, octave, steps);
    var base := index + 12 * octave;
    forall k | 0 <= k < |s|
      ensures s[k].octave == (base + PrefixSum(steps, k)) / 12
      ensures octave <= s[k].octave <= octave + 1
    {
      RunAt(names, index, octave, steps, k);
      PrefixSumGrows(steps, k, |steps|);
      PrefixSumGrows(steps, 0, k);
      OctaveBounds(index, octave, PrefixSum(steps, k));
    }
    forall j, k | 0 <= j <= k < |s|
      ensures s[j].octave <= s[k].octave
    {
      PrefixSumGrows(steps, j, k);
      DivMonotone(base + PrefixSum(steps, j), base + PrefixSum(steps, k));
    }
  }

  /** A run over steps summing to twelve ends on its start note one octave up. */
  lemma RunEndsOctaveUp(names: seq<string>, index: int, octave: int, steps: seq<int>)
    requires |names| == 12
    requires 0 <= index < 12
    requires PrefixSum(steps, |steps|) == 12
    ensures var s := Run(names, names[index], index, octave, steps);
            s[|s| - 1] == ScaleNote(names[index], octave + 1)
  {
    RunNote(names, index, octave, steps, |steps|, index, octave + 1);
  }

  /** Name and octave of a normalised note recover its semitone index. */
  lemma PitchOfNoteAtPitch(p: int)
    ensures PitchIndex(NoteAtPitch(NormalizedChromatic, p).note, NoteAtPitch(NormalizedChromatic, p).octave) == p
  {
    JoinPitch(p);
    PitchIndexNormalized(p % 12, p / 12);
  }

  /**
   * For a root in the table, entry k of the scale sounds the sum of the
   * first k steps above the root: its semitone index is the root's plus
   * PrefixSum(steps, k).
   */
  lemma FullScalePitch(rootNote: string, rootOctave: int, mode: Mode, k: nat)
    requires RootIndex(rootNote) >= 0
    requires k <= |Pattern(mode)|
    ensures var s := FullScale(rootNote, rootOctave, mode);
            PitchIndex(s[k].note, s[k].octave) == PitchIndex(rootNote, rootOctave) + PrefixSum(Pattern(mode), k)
  {
    var i := RootIndex(rootNote);
    var s := FullScale(rootNote, rootOctave, mode);
    var p := i + 12 * rootOctave + PrefixSum(Pattern(mode), k);
    RunFromIndex(rootNote, rootOctave, mode, i);
    RunAt(NormalizedChromatic, i, rootOctave, Pattern(mode), k);
    assert s[k] == NoteAtPitch(NormalizedChromatic, p);
    PitchOfNoteAtPitch(p);
    assert PitchIndex(s[k].note, s[k].octave) == p;
    assert PitchIndex(rootNote, rootOctave) == i + 12 * rootOctave;
  }

  /**
   * For a root in the table the scale rises strictly in pitch, its octaves
   * never decrease, and every entry lies in the root's octave or the next.
   */
  lemma FullScaleAscends(rootNote: string, rootOctave: int, mode: Mode)
    requires RootIndex(rootNote) >= 0
    ensures var s := FullScale(rootNote, rootOctave, mode);
            forall j, k :: 0 <= j < k < |s| ==>
              PitchIndex(s[j].note, s[j].octave) < PitchIndex(s[k].note, s[k].octave)
    ensures var s := FullScale(rootNote, rootOctave, mode);
            forall j, k :: 0 <= j <= k < |s| ==> s[j].octave <= s[k].octave
    ensures var s := FullScale(rootNote, rootOctave, mode);
            forall k :: 0 <= k < |s| ==> rootOctave <= s[k].octave <= rootOctave + 1
  {
    var i := RootIndex(rootNote);
    var s := FullScale(rootNote, rootOctave, mode);
    PatternSteps(mode);
    PatternSum(mode);
    RunFromIndex(rootNote, rootOctave, mode, i);
    RunOctaves(NormalizedChromatic, i, rootOctave, Pattern(mode));
    forall j, k | 0 <= j < k < |s|
      ensures PitchIndex(s[j].note, s[j].octave) < PitchIndex(s[k].note, s[k].octave)
    {
      FullScalePitch(rootNote, rootOctave, mode, j);
      FullScalePitch(rootNote, rootOctave, mode, k);
      PrefixSumGrows(Pattern(mode), j, k);
    }
  }

  /** For a root in the table the last entry is the root's pitch class one octave up. */
  lemma FullScaleEndsOctaveUp(rootNote: string, rootOctave: int, mode: Mode)
    requires RootIndex(rootNote) >= 0
    ensures var s := FullScale(rootNote, rootOctave, mode);
            s[|s| - 1] == ScaleNote(Normalize(rootNote), rootOctave + 1)
  {
    var i := RootIndex(rootNote);
    RunFromIndex(rootNote, rootOctave, mode, i);
    PatternSum(mode);
    RunEndsOctaveUp(NormalizedChromatic, i, rootOctave, Pattern(mode));
  }

  /** The major steps from C, spelled out note by note. */
  lemma MajorRun(octave: int)
    ensures Run(NormalizedChromatic, "C", 0, octave, Pattern(Major))
              == [ScaleNote("C", octave), ScaleNote("D", octave), ScaleNote("E", octave),
                  ScaleNote("F", octave), ScaleNote("G", octave), ScaleNote("A", octave),
                  ScaleNote("B", octave), ScaleNote("C", octave + 1)]
  {
    var steps := Pattern(Major);
    var nc := NormalizedChromatic;
    assert nc[0] == "C";
    RunNote(nc, 0, octave, steps, 1, 2, octave);
    RunNote(nc, 0, octave, steps, 2, 4, octave);
    RunNote(nc, 0, octave, steps, 3, 5, octave);
    RunNote(nc, 0, octave, steps, 4, 7, octave);
    RunNote(nc, 0, octave, steps, 5, 9, octave);
    RunNote(nc, 0, octave, steps, 6, 11, octave);
    RunNote(nc, 0, octave, steps, 7, 0, octave + 1);
  }

  /** C major is C D E F G A B in the root's octave and C one octave up. */
  lemma FullScaleCMajor(octave: int)
    ensures FullScale("C", octave, Major)
              == [ScaleNote("C", octave), ScaleNote("D", octave), ScaleNote("E", octave),
                  ScaleNote("F", octave), ScaleNote("G", octave), ScaleNote("A", octave),
                  ScaleNote("B", octave), ScaleNote("C", octave + 1)]
  {
    assert Normalize("C") == "C";
    IndexOfTables(0);
    MajorRun(octave);
  }

  /** Each run adds one more than the number of steps. */
  lemma {:induction false} OctaveRunsLength(rootNote: string, mode: Mode, last: nat)
    ensures |OctaveRuns(rootNote, mode, last)| == last * (|Pattern(mode)| + 1)
  {
    if last > 0 {
      OctaveRunsLength(rootNote, mode, last - 1);
    }
  }

  /** Entry k of the run from octave o sits at position (o - 1) * (steps + 1) + k. */
  lemma {:induction false} OctaveRunsAt(rootNote: string, mode: Mode, last: nat, o: int, k: nat)
    requires 1 <= o <= last
    requires k <= |Pattern(mode)|
    ensures (o - 1) * (|Pattern(mode)| + 1) + k < |OctaveRuns(rootNote, mode, last)|
    ensures OctaveRuns(rootNote, mode, last)[(o - 1) * (|Pattern(mode)| + 1) + k]
              == FullScale(rootNote, o, mode)[k]
  {
    var n := |Pattern(mode)| + 1;
    OctaveRunsLength(rootNote, mode, last - 1);
    OctaveRunsLength(rootNote, mode, last);
    if o < last {
      OctaveRunsAt(rootNote, mode, last - 1, o, k);
    }
  }

  /** The all-octaves list is empty for a root outside the table and holds seven runs otherwise. */
  lemma AllOctavesLength(rootNote: string, mode: Mode)
    ensures RootIndex(rootNote) < 0 ==> AllOctaves(rootNote, mode) == []
    ensures RootIndex(rootNote) >= 0 ==> |AllOctaves(rootNote, mode)| == 7 * (|Pattern(mode)| + 1)
  {
    OctaveRunsLength(rootNote, mode, 7);
  }

  /**
   * For a root in the table, entry k of run o - 1 of the all-octaves list
   * is entry k of the one-octave scale from the root in octave o, for every
   * octave o from 1 to 7.
   */
  lemma AllOctavesAt(rootNote: string, mode: Mode, o: int, k: nat)
    requires RootIndex(rootNote) >= 0
    requires 1 <= o <= 7 && k <= |Pattern(mode)|
    ensures (o - 1) * (|Pattern(mode)| + 1) + k < |AllOctaves(rootNote, mode)|
    ensures AllOctaves(rootNote, mode)[(o - 1) * (|Pattern(mode)| + 1) + k] == FullScale(rootNote, o, mode)[k]
  {
    OctaveRunsAt(rootNote, mode, 7, o, k);
  }

  /** The all-octaves list opens with the one-octave scale from the root in octave 1. */
  lemma FirstOctaveAt(rootNote: string, mode: Mode, k: nat)
    requires RootIndex(rootNote) >= 0 && k <= |Pattern(mode)|
    ensures k < |AllOctaves(rootNote, mode)| && AllOctaves(rootNote, mode)[k] == FullScale(rootNote, 1, mode)[k]
  {
    AllOctavesAt(rootNote, mode, 1, k);
    assert (1 - 1) * (|Pattern(mode)| + 1) + k == k;
  }

  /** Moving a semitone index by whole octaves keeps its note name. */
  lemma NoteAtPitchOctaves(names: seq<string>, p: int, o: int)
    requires |names| == 12
    ensures NoteAtPitch(names, p + 12 * o).note == NoteAtPitch(names, p).note
    ensures NoteAtPitch(names, p + 12 * o).octave == NoteAtPitch(names, p).octave + o
  {
    JoinPitch(p);
    SplitPitch(p + 12 * o, p % 12, p / 12 + o);
  }

  /** The note names of the one-octave scale do not depend on the octave it starts in. */
  lemma FullScaleNames(rootNote: string, mode: Mode, o1: int, o2: int, k: nat)
    requires k <= |Pattern(mode)|
    ensures FullScale(rootNote, o1, mode)[k].note == FullScale(rootNote, o2, mode)[k].note
  {
    RunNames(NormalizedChromatic, Normalize(rootNote), RootIndex(rootNote), o1, o2, Pattern(mode), k);
  }

  /** The names along a run do not depend on the octave it starts in. */
  lemma RunNames(names: seq<string>, root: string, index: int, o1: int, o2: int, steps: seq<int>, k: nat)
    requires |names| == 12 && k <= |steps|
    ensures Run(names, root, index, o1, steps)[k].note == Run(names, root, index, o2, steps)[k].note
  {
    if k > 0 {
      var base := index + PrefixSum(steps, k);
      NoteAtPitchOctaves(names, base, o1);
      NoteAtPitchOctaves(names, base, o2);
      assert index + 12 * o1 + PrefixSum(steps, k) == base + 12 * o1;
      assert index + 12 * o2 + PrefixSum(steps, k) == base + 12 * o2;
    }
  }
}
