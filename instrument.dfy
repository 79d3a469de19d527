/** The fixed instrument of the trainer: twelve pitch classes with their two
    spellings, a six-string guitar in standard tuning with 24 frets, and the
    MIDI note numbers that are sounded for a position. */
module Instrument {

  /** Letter names, indexed by pitch class (0 = C). */
  const NOTES_ENHARMONIC: seq<string> :=
    ["C", "C#(Db)", "D", "D#(Eb)", "E", "F", "F#(Gb)", "G", "G#(Ab)", "A", "A#(Bb)", "B"]

  /** Fixed-do solfège names, indexed by pitch class. */
  const NOTES_SOLFEGE_ENHARMONIC: seq<string> :=
    ["ド", "ド#(レb)", "レ", "レ#(ミb)", "ミ", "ファ", "ファ#(ソb)", "ソ", "ソ#(ラb)", "ラ", "ラ#(シb)", "シ"]

  /** The pitch classes of the natural notes C D E F G A B, and their letters. */
  const NATURAL_INDICES: seq<int> := [0, 2, 4, 5, 7, 9, 11]
  const NATURAL_NOTES: seq<string> := ["C", "D", "E", "F", "G", "A", "B"]

  /** Open-string pitch class per string index; index 0 is the high E string. */
  const TUNING: seq<int> := [4, 11, 7, 2, 9, 4]
  const FRET_COUNT: int := 24
  const STRING_COUNT: int := 6

  /** Drawing constants (SVG user units). */
  const FRET_WIDTH: int := 80
  const FRET_HEIGHT: int := 35
  const POSITION_MARKERS: seq<int> := [3, 5, 7, 9, 12, 15, 17, 19, 21, 24]
  const DISPLAY_FRET_COUNT: int := 12
  const FRET_NUM_AREA_HEIGHT: int := 30

  /** MIDI note of each open string, and the range of recorded samples. */
  const BASE_MIDI_NOTES: seq<int> := [64, 59, 55, 50, 45, 40]
  const MIN_MIDI_NOTE: int := 40
  const MAX_MIDI_NOTE: int := 88

  predicate IsPitchClass(pc: int) { 0 <= pc < 12 }

  predicate IsNatural(pc: int) { pc in NATURAL_INDICES }

  predicate IsStringIndex(s: int) { 0 <= s < STRING_COUNT }

  predicate IsFret(fret: int) { 0 <= fret <= FRET_COUNT }

  /** The pitch class sounded by string `s` held at `fret`. */
  function PitchClassAt(s: int, fret: int): (pc: int)
    requires IsStringIndex(s) && 0 <= fret
    ensures IsPitchClass(pc)
    ensures fret == 0 ==> pc == TUNING[s]
  {
    (TUNING[s] + fret) % 12
  }

  /** Moving up one fret raises the pitch class by one semitone. */
  lemma PitchClassStep(s: int, fret: int)
    requires IsStringIndex(s) && 0 <= fret
    ensures PitchClassAt(s, fret + 1) == (PitchClassAt(s, fret) + 1) % 12
  {
  }

  /** Twelve frets up is the same pitch class (one octave). */
  lemma PitchClassOctave(s: int, fret: int)
    requires IsStringIndex(s) && 0 <= fret
    ensures PitchClassAt(s, fret + 12) == PitchClassAt(s, fret)
  {
  }

  /** Within any twelve consecutive frets of a string, every pitch class
      occurs: this is the fret at which `pc` first appears from `lo` on. */
  function FretOf(s: int, lo: int, pc: int): (fret: int)
    requires IsStringIndex(s) && 0 <= lo && IsPitchClass(pc)
    ensures lo <= fret < lo + 12
    ensures PitchClassAt(s, fret) == pc
  {
    var d := (pc - TUNING[s] - lo) % 12;
    var q := (pc - TUNING[s] - lo) / 12;
    assert pc - TUNING[s] - lo == 12 * q + d;
    assert TUNING[s] + lo + d == pc + 12 * (-q);
    lo + d
  }

  /** The MIDI note played for a fretboard position (script.js:307). */
  function MidiNote(s: int, fret: int): (m: int)
    requires IsStringIndex(s) && IsFret(fret)
    ensures MIN_MIDI_NOTE <= m <= MAX_MIDI_NOTE
    ensures m % 12 == PitchClassAt(s, fret)
  {
    assert BASE_MIDI_NOTES[s] % 12 == TUNING[s];
    BASE_MIDI_NOTES[s] + fret
  }

  /** The MIDI note played for a bare pitch class: the octave from middle C
      (used for the solfège target and for every answer click). */
  function MiddleOctaveMidi(pc: int): (m: int)
    requires IsPitchClass(pc)
    ensures 60 <= m <= 71
    ensures MIN_MIDI_NOTE <= m <= MAX_MIDI_NOTE
    ensures m % 12 == pc
  {
    60 + pc
  }

  /** The open strings' MIDI notes agree with the tuning table. */
  lemma TuningMatchesBaseMidi(s: int)
    requires IsStringIndex(s)
    ensures BASE_MIDI_NOTES[s] % 12 == TUNING[s]
    ensures BASE_MIDI_NOTES[s] == MidiNote(s, 0)
  {
  }

  datatype NameSystem = English | Solfege

  /** The display name of a pitch class in one naming system. */
  function NoteName(system: NameSystem, pc: int): (name: string)
    requires IsPitchClass(pc)
    ensures |name| > 0
    ensures system == English <==> name[0] in "CDEFGAB"
  {
    match system
    case English => NOTES_ENHARMONIC[pc]
    case Solfege => NOTES_SOLFEGE_ENHARMONIC[pc]
  }

  /** Each naming system names the twelve pitch classes with twelve
      different names, so a name identifies its pitch class. */
  lemma NoteNamesDistinct(system: NameSystem, i: int, j: int)
    requires IsPitchClass(i) && IsPitchClass(j) && i != j
    ensures NoteName(system, i) != NoteName(system, j)
  {
  }

  /** A pitch class is natural exactly when its letter name is a bare
      letter, and that letter is the one listed in NATURAL_NOTES; the
      sharps are the names with an enharmonic "(…)" suffix. */
  lemma NaturalNames(k: int)
    requires 0 <= k < |NATURAL_INDICES|
    ensures IsPitchClass(NATURAL_INDICES[k])
    ensures NOTES_ENHARMONIC[NATURAL_INDICES[k]] == NATURAL_NOTES[k]
  {
  }

  lemma NaturalIffBareName(pc: int)
    requires IsPitchClass(pc)
    ensures IsNatural(pc) <==> '(' !in NOTES_ENHARMONIC[pc]
  {
  }
}
