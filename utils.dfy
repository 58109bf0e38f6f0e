/**
 * Note arithmetic on the guitar fretboard and the bilingual note labels.
 * Both operations are pure: a fret position is turned into a sharp-spelled
 * note name, and a note name into an "English / solfège" label.
 */
module Utils {
  import opened Wrappers
  import opened Constants

  /** The error `fret_to_note` raises for a string index outside 0..5. */
  datatype Error = ValueError(message: string)

  const StringIndexMessage: string := "String index must be between 0 and 5."

  /** The solfège name of `noteEn`, or `noteEn` itself when the table has no entry. */
  function Translate(noteEn: string): (r: string)
    ensures r == noteEn <==> noteEn !in NoteTranslation
    ensures noteEn in NoteTranslation ==> r == NoteTranslation[noteEn]
  {
    TranslationNeverIdentity();
    if noteEn in NoteTranslation then NoteTranslation[noteEn] else noteEn
  }

  /**
   * The two-line label: the English name, a newline, the solfège name in
   * parentheses. For a name without a line break, the label reads back into
   * the name and its translation.
   */
  function GetDualLangLabel(noteEn: string): (r: string)
    ensures '\n' !in noteEn ==> SplitLabel(r) == Some((noteEn, Translate(noteEn)))
  {
    var r := noteEn + "\n(" + Translate(noteEn) + ")";
    if '\n' !in noteEn then SplitLabelOfJoin(noteEn, Translate(noteEn)); r else r
  }

  /** Reads a label back into its English and solfège parts, if it has the label's shape. */
  function SplitLabel(text: string): Option<(string, string)> {
    match IndexOf(text, '\n')
    case None => None
    case Some(k) =>
      var rest := text[k + 1..];
      if 2 <= |rest| && rest[0] == '(' && rest[|rest| - 1] == ')'
      then Some((text[..k], rest[1..|rest| - 1]))
      else None
  }

  /**
   * The note sounded on string `stringIndex` (0 = low E .. 5 = high E) at fret
   * `fretNumber`: the open-string pitch class plus the fret, reduced modulo 12.
   * The reduction is Python's floored `%`, which for the modulus 12 agrees with
   * Dafny's `%` and lands in 0..11 for every fret, negative ones included.
   */
  function FretToNote(stringIndex: int, fretNumber: int): (r: Result<string, Error>)
    ensures r.Err? <==> !(0 <= stringIndex <= 5)
    ensures r.Err? ==> r.error == ValueError(StringIndexMessage)
    ensures r.Ok? ==> r.value in ChromaticScale
  {
    if !(0 <= stringIndex <= 5) then
      Err(ValueError(StringIndexMessage))
    else
      var baseNoteIndex := GuitarTuningIndices[stringIndex];
      var currentNoteIndex := baseNoteIndex + fretNumber;
      var finalNoteIndex := currentNoteIndex % 12;
      Ok(ChromaticScale[finalNoteIndex])
  }

  /** For a valid string the note is the chromatic name at (open pitch class + fret) mod 12. */
  lemma FretToNoteIsChromaticLookup(stringIndex: int, fretNumber: int)
    requires 0 <= stringIndex <= 5
    ensures 0 <= (GuitarTuningIndices[stringIndex] + fretNumber) % 12 < 12
    ensures FretToNote(stringIndex, fretNumber)
         == Ok(ChromaticScale[(GuitarTuningIndices[stringIndex] + fretNumber) % 12])
  {
  }

  /** A valid string at a fret whose pitch class is `pc` sounds the chromatic name of `pc`. */
  lemma FretToNoteAt(stringIndex: int, fretNumber: int, pc: int)
    requires 0 <= stringIndex <= 5
    requires (GuitarTuningIndices[stringIndex] + fretNumber) % 12 == pc
    ensures 0 <= pc < 12
    ensures FretToNote(stringIndex, fretNumber) == Ok(ChromaticScale[pc])
  {
    FretToNoteIsChromaticLookup(stringIndex, fretNumber);
  }

  /** Adding whole octaves to a semitone count does not change its pitch class. */
  lemma OctaveShift(base: int, fret: int, octaves: int)
    ensures (base + (fret + 12 * octaves)) % 12 == (base + fret) % 12
  {
  }

  /** Moving any whole number of octaves, up or down, keeps the note. */
  lemma FretToNoteOctaves(stringIndex: int, fretNumber: int, octaves: int)
    ensures FretToNote(stringIndex, fretNumber + 12 * octaves) == FretToNote(stringIndex, fretNumber)
  {
    if 0 <= stringIndex <= 5 {
      FretToNoteIsChromaticLookup(stringIndex, fretNumber);
      FretToNoteIsChromaticLookup(stringIndex, fretNumber + 12 * octaves);
      OctaveShift(GuitarTuningIndices[stringIndex], fretNumber, octaves);
    }
  }

  /** Twelve frets higher sounds the same note, on every string (and fails alike off the neck). */
  lemma FretToNoteOctave(stringIndex: int, fretNumber: int)
    ensures FretToNote(stringIndex, fretNumber + 12) == FretToNote(stringIndex, fretNumber)
  {
    FretToNoteOctaves(stringIndex, fretNumber, 1);
  }

  /** For a valid string, the note's pitch class is the open string's plus the fret, mod 12. */
  lemma FretToNotePitchClass(stringIndex: int, fretNumber: int)
    requires 0 <= stringIndex <= 5
    ensures FretToNote(stringIndex, fretNumber).Ok?
    ensures NoteIndex(FretToNote(stringIndex, fretNumber).value)
         == Some((GuitarTuningIndices[stringIndex] + fretNumber) % 12)
  {
    FretToNoteIsChromaticLookup(stringIndex, fretNumber);
    NoteIndexOfPitchClass((GuitarTuningIndices[stringIndex] + fretNumber) % 12);
  }

  /** Two semitone counts from one base agree mod 12 exactly when their difference is a multiple of 12. */
  lemma CongruentFrets(base: int, fret1: int, fret2: int)
    ensures (base + fret1) % 12 == (base + fret2) % 12 <==> (fret1 - fret2) % 12 == 0
  {
  }

  /** Some fret among the first twelve of a valid string has pitch class `pc`. */
  lemma FretForPitchClass(stringIndex: int, pc: int) returns (fret: int)
    requires 0 <= stringIndex <= 5 && 0 <= pc < 12
    ensures 0 <= fret < 12
    ensures (GuitarTuningIndices[stringIndex] + fret) % 12 == pc
  {
    fret := (pc - GuitarTuningIndices[stringIndex]) % 12;
  }

  /** On one string, two frets give the same note exactly when they are a whole number of octaves apart. */
  lemma FretToNoteSameNote(stringIndex: int, fret1: int, fret2: int)
    requires 0 <= stringIndex <= 5
    ensures FretToNote(stringIndex, fret1) == FretToNote(stringIndex, fret2) <==> (fret1 - fret2) % 12 == 0
  {
    var base := GuitarTuningIndices[stringIndex];
    var pc1, pc2 := (base + fret1) % 12, (base + fret2) % 12;
    FretToNoteIsChromaticLookup(stringIndex, fret1);
    FretToNoteIsChromaticLookup(stringIndex, fret2);
    CongruentFrets(base, fret1, fret2);
    if FretToNote(stringIndex, fret1) == FretToNote(stringIndex, fret2) {
      assert ChromaticScale[pc1] == ChromaticScale[pc2];
      ChromaticNamesDiffer(pc1, pc2);
    }
  }

  /** Every note of the chromatic scale lies within the first twelve frets of every string. */
  lemma FretToNoteReachesEveryNote(stringIndex: int, name: string)
    requires 0 <= stringIndex <= 5
    requires name in ChromaticScale
    ensures exists fret :: 0 <= fret < 12 && FretToNote(stringIndex, fret) == Ok(name)
  {
    var pc :| 0 <= pc < |ChromaticScale| && ChromaticScale[pc] == name;
    var fret := FretForPitchClass(stringIndex, pc);
    FretToNoteAt(stringIndex, fret, pc);
  }

  /** The open strings sound E, A, D, G, B, E. */
  lemma FretToNoteOpenStrings()
    ensures forall s :: 0 <= s < 6 ==> FretToNote(s, 0) == Ok(StandardTuningNames[s])
  {
  }

  /** String 0 (low E) at fret 5 sounds A, since (4 + 5) mod 12 = 9. */
  lemma FretToNoteExample()
    ensures FretToNote(0, 5) == Ok("A")
    ensures FretToNote(6, 0) == Err(ValueError(StringIndexMessage))
  {
  }

  /** A name the table knows is labelled with its solfège translation. */
  lemma LabelOfTranslatedName(noteEn: string)
    requires noteEn in NoteTranslation
    ensures GetDualLangLabel(noteEn) == noteEn + "\n(" + NoteTranslation[noteEn] + ")"
  {
  }

  /** A name the table does not know is repeated in the second line instead of failing. */
  lemma LabelFallback(noteEn: string)
    requires noteEn !in NoteTranslation
    ensures GetDualLangLabel(noteEn) == noteEn + "\n(" + noteEn + ")"
  {
  }

  /** The documented example: "C" is labelled "C\n(Do)". */
  lemma LabelExample()
    ensures GetDualLangLabel("C") == "C\n(Do)"
    ensures GetDualLangLabel("D") == "D\n(Ré)"
  {
  }

  /** Splitting a label made of a line-free English name and any second part gives both parts back. */
  lemma SplitLabelOfJoin(noteEn: string, noteFr: string)
    requires '\n' !in noteEn
    ensures SplitLabel(noteEn + "\n(" + noteFr + ")") == Some((noteEn, noteFr))
  {
    var text := noteEn + "\n(" + noteFr + ")";
    var n := |noteEn|;
    assert text[n] == '\n';
    assert forall k :: 0 <= k < n ==> text[k] == noteEn[k];
    assert IndexOf(text, '\n') == Some(n);
    assert text[..n] == noteEn;
    assert text[n + 1..] == "(" + noteFr + ")";
  }

  /** Different names (without line breaks) never share a text. */
  lemma LabelInjective(a: string, b: string)
    requires '\n' !in a && '\n' !in b
    ensures GetDualLangLabel(a) == GetDualLangLabel(b) <==> a == b
  {
    if GetDualLangLabel(a) == GetDualLangLabel(b) {
      assert SplitLabel(GetDualLangLabel(a)) == Some((a, Translate(a)));
      assert SplitLabel(GetDualLangLabel(b)) == Some((b, Translate(b)));
    }
  }

  /** The text of any fretted note uses a real translation, never the fallback. */
  lemma FretNoteLabelIsTranslated(stringIndex: int, fretNumber: int)
    requires 0 <= stringIndex <= 5
    ensures FretToNote(stringIndex, fretNumber).Ok?
    ensures var name := FretToNote(stringIndex, fretNumber).value;
      name in NoteTranslation
      && NoteTranslation[name] != name
      && GetDualLangLabel(name) == name + "\n(" + NoteTranslation[name] + ")"
  {
    TranslationKeys();
    TranslationNeverIdentity();
  }
}
