/**
 * The fixed tables of the guitar model: the sharp-spelled chromatic scale,
 * the English-to-solfège translation table and the standard tuning of a
 * six-string guitar, with the facts about them that the note arithmetic
 * relies on.
 */
module Constants {
  import opened Wrappers

  /** The twelve pitch classes of equal temperament, spelled with sharps; index 0 is C. */
  const ChromaticScale: seq<string> :=
    ["C", "C#", "D", "D#", "E", "F", "F#", "G", "G#", "A", "A#", "B"]

  /** International note name to solfège name; it also accepts five flat spellings. */
  const NoteTranslation: map<string, string> := map[
    "C" := "Do",
    "C#" := "Do#",
    "Db" := "Réb",
    "D" := "Ré",
    "D#" := "Ré#",
    "Eb" := "Mib",
    "E" := "Mi",
    "F" := "Fa",
    "F#" := "Fa#",
    "Gb" := "Solb",
    "G" := "Sol",
    "G#" := "Sol#",
    "Ab" := "Lab",
    "A" := "La",
    "A#" := "La#",
    "Bb" := "Sib",
    "B" := "Si"
  ]

  /** Open-string pitch classes, low E (string 0) to high E (string 5). */
  const GuitarTuningIndices: seq<int> := [4, 9, 2, 7, 11, 4]

  /** The names the tuning indices stand for: E, A, D, G, B, E. */
  const StandardTuningNames: seq<string> := ["E", "A", "D", "G", "B", "E"]

  /** The flat spellings the translation table accepts besides the sharp names. */
  const FlatSpellings: seq<string> := ["Db", "Eb", "Gb", "Ab", "Bb"]

  /** The pitch class of a sharp-spelled note name: its position in the chromatic scale. */
  function NoteIndex(name: string): (r: Option<nat>)
    ensures r.None? <==> name !in ChromaticScale
    ensures r.Some? ==> r.value < 12 && ChromaticScale[r.value] == name
  {
    IndexOf(ChromaticScale, name)
  }

  /** The chromatic scale has twelve different names and starts at C. */
  lemma ChromaticScaleShape()
    ensures |ChromaticScale| == 12
    ensures Distinct(ChromaticScale)
    ensures ChromaticScale[0] == "C"
  {
  }

  /** Different pitch classes have different names. */
  lemma ChromaticNamesDiffer(pc1: int, pc2: int)
    requires 0 <= pc1 < 12 && 0 <= pc2 < 12
    requires ChromaticScale[pc1] == ChromaticScale[pc2]
    ensures pc1 == pc2
  {
    ChromaticScaleShape();
  }

  /** Looking up a pitch class and taking the name's index back gives the pitch class. */
  lemma NoteIndexOfPitchClass(pc: int)
    requires 0 <= pc < 12
    ensures NoteIndex(ChromaticScale[pc]) == Some(pc)
  {
    ChromaticScaleShape();
    IndexOfDistinct(ChromaticScale, pc);
  }

  /** Six open strings, each a pitch class, so indexing the scale with them is in bounds. */
  lemma TuningShape()
    ensures |GuitarTuningIndices| == 6
    ensures forall i :: 0 <= i < 6 ==> 0 <= GuitarTuningIndices[i] < |ChromaticScale|
  {
  }

  /** The tuning indices spell E, A, D, G, B, E in the chromatic scale. */
  lemma TuningSpellsStandardTuning()
    ensures forall i :: 0 <= i < 6 ==> ChromaticScale[GuitarTuningIndices[i]] == StandardTuningNames[i]
  {
  }

  /** The translation table's keys are exactly the twelve sharp names and the five flats. */
  lemma TranslationKeys()
    ensures forall n :: n in ChromaticScale ==> n in NoteTranslation
    ensures forall n :: n in FlatSpellings ==> n in NoteTranslation && n !in ChromaticScale
    ensures forall n :: n in NoteTranslation ==> n in ChromaticScale || n in FlatSpellings
  {
  }

  /** No note name translates to itself, so a translation can be told from the fallback. */
  lemma TranslationNeverIdentity()
    ensures forall n :: n in NoteTranslation ==> NoteTranslation[n] != n
  {
  }
}
