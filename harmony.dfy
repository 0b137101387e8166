/**
 * The harmony tables of the fretboard script: the triad quality on each
 * scale degree (getChordTypesForScale), the named progressions of each mode
 * (progressionByScaleType) and the roman-numeral lookup (romanToIndex).
 */
module Harmony {
  import opened Wrappers
  import opened Scales

  /** A triad quality, shown as the suffix of a chord name. */
  datatype Quality = Maj | Min | Dim | Aug

  /** The suffix written after the root note of a chord. */
  function Suffix(q: Quality): (r: string)
    ensures |r| == 3
  {
    match q
    case Maj => "maj"
    case Min => "min"
    case Dim => "dim"
    case Aug => "aug"
  }

  /**
   * getChordTypesForScale: the quality of the triad on each degree. The
   * three pentatonic and blues modes have none; the switch's default is the
   * major list, which ModeOf already selects for a name outside the catalogue.
   */
  function ChordTypes(m: Mode): (r: seq<Quality>)
    ensures |r| == (if |Pattern(m)| == 7 then 7 else 0)
  {
    match m
    case Major => [Maj, Min, Min, Maj, Maj, Min, Dim]
    case Minor => [Min, Dim, Maj, Min, Min, Maj, Maj]
    case HarmonicMinor => [Min, Dim, Aug, Min, Maj, Maj, Dim]
    case MelodicMinor => [Min, Min, Aug, Maj, Maj, Dim, Dim]
    case PentatonicMajor => []
    case PentatonicMinor => []
    case Blues => []
    case Dorian => [Min, Min, Maj, Maj, Min, Dim, Maj]
    case Phrygian => [Min, Maj, Maj, Min, Dim, Maj, Min]
    case Lydian => [Maj, Maj, Min, Dim, Maj, Min, Min]
    case Mixolydian => [Maj, Min, Dim, Maj, Min, Min, Maj]
    case Locrian => [Dim, Maj, Min, Min, Maj, Maj, Min]
  }

  /** getChordTypesForScale on the select's raw value. */
  function ChordTypesForScale(scaleType: string): (r: seq<Quality>)
    ensures ModeNamed(scaleType).Some? ==> r == ChordTypes(ModeNamed(scaleType).value)
    ensures ModeNamed(scaleType).None? ==> r == [Maj, Min, Min, Maj, Maj, Min, Dim]
  {
    ChordTypes(ModeOf(scaleType))
  }

  /** The semitones covered by `n` consecutive steps from degree `d`, wrapping round the pattern. */
  function Span(steps: seq<int>, d: nat, n: nat): int
    requires d + n <= 2 * |steps|
    decreases n
  {
    if n == 0 then 0
    else (if d < |steps| then steps[d] else steps[d - |steps|]) + Span(steps, d + 1, n - 1)
  }

  /** The quality of a triad whose third and fifth lie `third` and `fifth` semitones above its root. */
  function TriadOf(third: int, fifth: int): Option<Quality>
  {
    if third == 4 && fifth == 7 then Some(Maj)
    else if third == 3 && fifth == 7 then Some(Min)
    else if third == 3 && fifth == 6 then Some(Dim)
    else if third == 4 && fifth == 8 then Some(Aug)
    else None
  }

  /**
   * Music theory's reference for the chord table: the triads built by
   * stacking thirds (every other scale note) on degrees d, d+1, ... of the
   * pattern.
   */
  function StackedTriads(steps: seq<int>, d: nat): (r: seq<Option<Quality>>)
    requires 4 <= |steps|
    requires d <= |steps|
    ensures |r| == |steps| - d
    decreases |steps| - d
  {
    if d == |steps| then []
    else [TriadOf(Span(steps, d, 2), Span(steps, d, 4))] + StackedTriads(steps, d + 1)
  }

  /** Whether the triads stacked on degrees d, d+1, ... of `steps` have the qualities `qs` lists for them. */
  predicate Agrees(steps: seq<int>, qs: seq<Quality>, d: nat)
    requires 4 <= |steps| == |qs|
    requires d <= |steps|
    decreases |steps| - d
  {
    d == |steps| || (TriadOf(Span(steps, d, 2), Span(steps, d, 4)) == Some(qs[d]) && Agrees(steps, qs, d + 1))
  }

  lemma {:induction false} AgreesStacked(steps: seq<int>, qs: seq<Quality>, d: nat)
    requires 4 <= |steps| == |qs|
    requires d <= |steps|
    requires Agrees(steps, qs, d)
    ensures forall k :: d <= k < |steps| ==> StackedTriads(steps, d)[k - d] == Some(qs[k])
    decreases |steps| - d
  {
    if d < |steps| {
      AgreesStacked(steps, qs, d + 1);
    }
  }

  // The table row of each seven-note mode, checked degree by degree against
  // the stacked thirds of its pattern (one lemma per mode keeps each
  // evaluation small).
  lemma MajorTriads() ensures Agrees(Pattern(Major), ChordTypes(Major), 0) { }
  lemma MinorTriads() ensures Agrees(Pattern(Minor), ChordTypes(Minor), 0) { }
  lemma HarmonicMinorTriads() ensures Agrees(Pattern(HarmonicMinor), ChordTypes(HarmonicMinor), 0) { }
  lemma MelodicMinorTriads() ensures Agrees(Pattern(MelodicMinor), ChordTypes(MelodicMinor), 0) { }
  lemma DorianTriads() ensures Agrees(Pattern(Dorian), ChordTypes(Dorian), 0) { }
  lemma PhrygianTriads() ensures Agrees(Pattern(Phrygian), ChordTypes(Phrygian), 0) { }
  lemma LydianTriads() ensures Agrees(Pattern(Lydian), ChordTypes(Lydian), 0) { }
  lemma MixolydianTriads() ensures Agrees(Pattern(Mixolydian), ChordTypes(Mixolydian), 0) { }
  lemma LocrianTriads() ensures Agrees(Pattern(Locrian), ChordTypes(Locrian), 0) { }

  /**
   * The chord table agrees with music theory: for the seven-note modes the
   * quality on every degree is the one obtained by stacking thirds on the
   * mode's own steps; the five- and six-note modes list no chords.
   */
  lemma ChordTypesStackThirds(m: Mode)
    ensures |ChordTypes(m)| == (if |Pattern(m)| == 7 then 7 else 0)
    ensures |Pattern(m)| == 7 ==>
      forall d :: 0 <= d < 7 ==> StackedTriads(Pattern(m), 0)[d] == Some(ChordTypes(m)[d])
  {
    ModeTriads(m);
    if |Pattern(m)| == 7 {
      AgreesStacked(Pattern(m), ChordTypes(m), 0);
    }
  }

  /** The table row of a seven-note mode agrees with the triads stacked on its steps. */
  lemma ModeTriads(m: Mode)
    ensures |Pattern(m)| == 7 ==> Agrees(Pattern(m), ChordTypes(m), 0)
  {
    match m
    case Major => MajorTriads();
    case Minor => MinorTriads();
    case HarmonicMinor => HarmonicMinorTriads();
    case MelodicMinor => MelodicMinorTriads();
    case Dorian => DorianTriads();
    case Phrygian => PhrygianTriads();
    case Lydian => LydianTriads();
    case Mixolydian => MixolydianTriads();
    case Locrian => LocrianTriads();
    case PentatonicMajor =>
    case PentatonicMinor =>
    case Blues =>
  }

  /** A named chord progression: roman numerals for scale degrees. */
  datatype Progression = Progression(name: string, steps: seq<string>)

  /**
   * progressionByScaleType: the progressions listed for a mode; the
   * pentatonic and blues modes have no entry.
   */
  function Catalogue(m: Mode): (r: Option<seq<Progression>>)
    ensures r.Some? <==> |Pattern(m)| == 7
    ensures r.Some? ==> forall k :: 0 <= k < |r.value| ==> 0 < |r.value[k].steps| <= 4
  {
    match m
    case Major => Some([
      Progression("I–V–vi–IV", ["I", "V", "vi", "IV"]),
      Progression("ii–V–I", ["ii", "V", "I"]),
      Progression("I–vi–IV–V", ["I", "vi", "IV", "V"]),
      Progression("I–IV–V", ["I", "IV", "V"])])
    case Minor => Some([
      Progression("i–iv–v-i", ["i", "iv", "v", "i"]),
      Progression("i–VI–III–VII", ["i", "VI", "III", "VII"]),
      Progression("ii°–V–i", ["ii°", "V", "i"])])
    case Dorian => Some([
      Progression("i–IV–v", ["i", "IV", "v"]),
      Progression("i–VII–IV", ["i", "VII", "IV"])])
    case Phrygian => Some([Progression("i–II–v", ["i", "II", "v"])])
    case Lydian => Some([Progression("I–II–V", ["I", "II", "V"])])
    case Mixolydian => Some([Progression("I–VII–IV", ["I", "VII", "IV"])])
    case Locrian => Some([Progression("i°–VII–v", ["i°", "VII", "v"])])
    case HarmonicMinor => Some([
      Progression("i–iv–V", ["i", "iv", "V"]),
      Progression("i–VI–III–VII", ["i", "VI", "III", "VII"])])
    case MelodicMinor => Some([Progression("i–II–V", ["i", "II", "V"])])
    case PentatonicMajor => None
    case PentatonicMinor => None
    case Blues => None
  }

  /** `progressionByScaleType[scaleType] || progressionByScaleType['major']`. */
  function ProgressionsFor(m: Mode): (r: seq<Progression>)
    ensures Catalogue(m).Some? ==> r == Catalogue(m).value
    ensures Catalogue(m).None? ==> r == Catalogue(Major).value
  {
    if Catalogue(m).Some? then Catalogue(m).value else Catalogue(Major).value
  }

  // The romanToIndex object literal, entry by entry in the order written,
  // in its three groups; "VI", "III", "VII" and "ii°" appear twice.

  /** The numerals of the degrees of a major key, in either case. */
  const MajorKeyNumerals: seq<(string, nat)> := [
    ("I", 0), ("ii", 1), ("II", 1), ("iii", 2), ("III", 2), ("IV", 3),
    ("V", 4), ("vi", 5), ("VI", 5), ("vii", 6), ("VII", 6)]

  /** The numerals of the degrees of a minor key. */
  const MinorKeyNumerals: seq<(string, nat)> := [
    ("i", 0), ("ii°", 1), ("iv", 3), ("v", 4), ("VI", 5), ("III", 2), ("VII", 6)]

  /** The numerals of diminished degrees. */
  const DiminishedNumerals: seq<(string, nat)> := [("ii°", 1), ("i°", 0)]

  const RomanEntries: seq<(string, nat)> := MajorKeyNumerals + MinorKeyNumerals + DiminishedNumerals

  /**
   * The value an object literal built from the first `n` entries holds for
   * `key`: a later entry with the same key overrides an earlier one.
   */
  function Lookup<K(==), V>(entries: seq<(K, V)>, key: K, n: nat): (r: Option<V>)
    requires n <= |entries|
    ensures r.Some? ==> exists i :: 0 <= i < n && entries[i] == (key, r.value)
  {
    if n == 0 then None
    else if entries[n - 1].0 == key then Some(entries[n - 1].1)
    else Lookup(entries, key, n - 1)
  }

  /** `romanToIndex[r]`: the degree a numeral names, or None (`undefined`). */
  function RomanToIndex(numeral: string): (r: Option<nat>)
    ensures r.Some? ==> r.value < 7
  {
    Lookup(RomanEntries, numeral, |RomanEntries|)
  }

  /** The value found is that of the last entry with the key: a later entry overrides an earlier one. */
  lemma {:induction false} LookupLast<K, V>(entries: seq<(K, V)>, key: K, n: nat)
    requires n <= |entries|
    ensures Lookup(entries, key, n).Some? ==>
      exists i :: 0 <= i < n && entries[i] == (key, Lookup(entries, key, n).value)
        && forall j :: i < j < n ==> entries[j].0 != key
  {
    if n > 0 && entries[n - 1].0 != key {
      LookupLast(entries, key, n - 1);
    }
  }

  /** Every key among the first `n` entries is found, and a missing key is not. */
  lemma {:induction false} LookupFound<K, V>(entries: seq<(K, V)>, key: K, n: nat)
    requires n <= |entries|
    ensures Lookup(entries, key, n).Some? <==> exists i :: 0 <= i < n && entries[i].0 == key
  {
    if n > 0 && entries[n - 1].0 != key {
      LookupFound(entries, key, n - 1);
      assert forall i :: 0 <= i < n && entries[i].0 == key ==> i < n - 1;
    }
  }

  /** The value of a roman digit written in either case; zero for any other character (such as '°'). */
  function DigitValue(c: char): (v: int)
    ensures 0 <= v <= 5
  {
    if c == 'I' || c == 'i' then 1 else if c == 'V' || c == 'v' then 5 else 0
  }

  /**
   * The value of the roman numeral s[k..], with the subtractive rule (a
   * digit smaller than the next one counts negatively).
   */
  function RomanValueFrom(s: string, k: nat): int
    requires k <= |s|
    decreases |s| - k
  {
    if k == |s| then 0
    else if k + 1 < |s| && DigitValue(s[k]) < DigitValue(s[k + 1]) then RomanValueFrom(s, k + 1) - DigitValue(s[k])
    else DigitValue(s[k]) + RomanValueFrom(s, k + 1)
  }

  /** The scale degree (from 0) a numeral denotes, read from its digits alone. */
  function NumeralDegree(numeral: string): int
  {
    RomanValueFrom(numeral, 0) - 1
  }

  /** Whether an entry maps its numeral to the degree the numeral denotes, one of the seven. */
  predicate ReadsAsDegree(entry: (string, nat))
  {
    entry.1 == NumeralDegree(entry.0) < 7
  }

  /** The major-key group reads as written (checked apart, being the longest). */
  lemma MajorKeyNumeralsRead()
    ensures forall e :: e in MajorKeyNumerals ==> ReadsAsDegree(e)
  {
  }

  /**
   * romanToIndex agrees with reading the numerals: every entry maps its
   * numeral to the degree the numeral denotes, whatever its case or a
   * trailing '°'. In particular the duplicated keys repeat the same degree.
   */
  lemma RomanEntriesRead()
    ensures forall i :: 0 <= i < |RomanEntries| ==> ReadsAsDegree(RomanEntries[i])
  {
    MajorKeyNumeralsRead();
    assert forall e :: e in MinorKeyNumerals ==> ReadsAsDegree(e);
    assert forall e :: e in DiminishedNumerals ==> ReadsAsDegree(e);
    forall i | 0 <= i < |RomanEntries|
      ensures ReadsAsDegree(RomanEntries[i])
    {
      assert RomanEntries[i] in MajorKeyNumerals || RomanEntries[i] in MinorKeyNumerals || RomanEntries[i] in DiminishedNumerals;
    }
  }

  /**
   * The duplicate keys of the romanToIndex literal are harmless: entries with
   * the same numeral name the same degree, so whichever one the object keeps,
   * every numeral written in it maps to the degree written beside it.
   */
  lemma RomanToIndexEntries(i: nat, j: nat)
    requires i < |RomanEntries| && j < |RomanEntries|
    ensures RomanEntries[i].0 == RomanEntries[j].0 ==> RomanEntries[i].1 == RomanEntries[j].1
    ensures RomanToIndex(RomanEntries[i].0) == Some(RomanEntries[i].1)
  {
    RomanEntriesRead();
    LookupFound(RomanEntries, RomanEntries[i].0, |RomanEntries|);
  }

  /**
   * A numeral maps to a degree exactly when the literal lists it, and then
   * to the degree the numeral denotes, which is one of the seven.
   */
  lemma RomanToIndexRead(numeral: string)
    ensures RomanToIndex(numeral).Some? <==> exists i :: 0 <= i < |RomanEntries| && RomanEntries[i].0 == numeral
    ensures RomanToIndex(numeral).Some? ==> RomanToIndex(numeral).value == NumeralDegree(numeral) < 7
  {
    LookupFound(RomanEntries, numeral, |RomanEntries|);
    RomanEntriesRead();
  }

  /** Each numeral the progression catalogue uses maps to the degree it names. */
  lemma CatalogueNumerals()
    ensures RomanToIndex("I") == Some(0) && RomanToIndex("ii") == Some(1) && RomanToIndex("II") == Some(1)
    ensures RomanToIndex("III") == Some(2) && RomanToIndex("IV") == Some(3) && RomanToIndex("V") == Some(4)
    ensures RomanToIndex("vi") == Some(5) && RomanToIndex("VI") == Some(5) && RomanToIndex("VII") == Some(6)
    ensures RomanToIndex("i") == Some(0) && RomanToIndex("ii°") == Some(1) && RomanToIndex("iv") == Some(3)
    ensures RomanToIndex("v") == Some(4) && RomanToIndex("i°") == Some(0)
  {
    RomanToIndexEntries(0, 0);
    RomanToIndexEntries(1, 1);
    RomanToIndexEntries(2, 2);
    RomanToIndexEntries(4, 4);
    RomanToIndexEntries(5, 5);
    RomanToIndexEntries(6, 6);
    RomanToIndexEntries(7, 7);
    RomanToIndexEntries(8, 8);
    RomanToIndexEntries(10, 10);
    RomanToIndexEntries(11, 11);
    RomanToIndexEntries(12, 12);
    RomanToIndexEntries(13, 13);
    RomanToIndexEntries(14, 14);
    RomanToIndexEntries(19, 19);
  }

  /** Whether the numerals of `steps` from index `i` on all resolve. */
  predicate StepsResolve(steps: seq<string>, i: nat)
    decreases |steps| - i
  {
    i >= |steps| || (RomanToIndex(steps[i]).Some? && StepsResolve(steps, i + 1))
  }

  /** Whether the numerals of progressions `k`, `k` + 1, ... all resolve. */
  predicate ProgressionsResolve(ps: seq<Progression>, k: nat)
    decreases |ps| - k
  {
    k >= |ps| || (StepsResolve(ps[k].steps, 0) && ProgressionsResolve(ps, k + 1))
  }

  lemma {:induction false} StepsResolveAt(steps: seq<string>, i: nat, j: nat)
    requires StepsResolve(steps, i)
    requires i <= j < |steps|
    ensures RomanToIndex(steps[j]).Some?
    decreases j - i
  {
    if i < j {
      StepsResolveAt(steps, i + 1, j);
    }
  }

  lemma {:induction false} ProgressionsResolveAt(ps: seq<Progression>, k: nat, j: nat, i: nat)
    requires ProgressionsResolve(ps, k)
    requires k <= j < |ps| && i < |ps[j].steps|
    ensures RomanToIndex(ps[j].steps[i]).Some?
    decreases j - k
  {
    if k < j {
      ProgressionsResolveAt(ps, k + 1, j, i);
    } else {
      StepsResolveAt(ps[j].steps, 0, i);
    }
  }

  /** The major catalogue, also the fallback, uses only listed numerals. */
  lemma MajorCatalogueResolves()
    ensures ProgressionsResolve(Catalogue(Major).value, 0)
  {
    CatalogueNumerals();
  }

  /** The catalogues of the minor-key modes use only listed numerals. */
  lemma MinorCataloguesResolve()
    ensures ProgressionsResolve(Catalogue(Minor).value, 0)
    ensures ProgressionsResolve(Catalogue(HarmonicMinor).value, 0)
    ensures ProgressionsResolve(Catalogue(MelodicMinor).value, 0)
  {
    CatalogueNumerals();
  }

  /** The catalogues of the minor-tonic church modes use only listed numerals. */
  lemma MinorModalCataloguesResolve()
    ensures ProgressionsResolve(Catalogue(Dorian).value, 0)
    ensures ProgressionsResolve(Catalogue(Phrygian).value, 0)
  {
    CatalogueNumerals();
  }

  /** The catalogues of the other church modes use only listed numerals. */
  lemma ModalCataloguesResolve()
    ensures ProgressionsResolve(Catalogue(Lydian).value, 0)
    ensures ProgressionsResolve(Catalogue(Mixolydian).value, 0)
    ensures ProgressionsResolve(Catalogue(Locrian).value, 0)
  {
    CatalogueNumerals();
  }

  /**
   * Every numeral of every progression shown for a mode is a key of
   * romanToIndex, naming one of the seven degrees.
   */
  lemma CatalogueResolves(m: Mode, k: nat, i: nat)
    requires k < |ProgressionsFor(m)| && i < |ProgressionsFor(m)[k].steps|
    ensures RomanToIndex(ProgressionsFor(m)[k].steps[i]).Some?
    ensures RomanToIndex(ProgressionsFor(m)[k].steps[i]).value < 7
  {
    MajorCatalogueResolves();
    MinorCataloguesResolve();
    MinorModalCataloguesResolve();
    ModalCataloguesResolve();
    ProgressionsResolveAt(ProgressionsFor(m), 0, k, i);
    RomanToIndexRead(ProgressionsFor(m)[k].steps[i]);
  }
}
