# Guitar note arithmetic and bilingual note labels

This project models the note logic of a small music-diagram program. A
six-string guitar in standard tuning (E A D G B E, low to high) has strings
numbered 0 to 5. `fret_to_note` turns a (string, fret) position into a note
name of 12-tone equal temperament, spelled with sharps. `get_dual_lang_label`
turns a note name into a two-line label: the English name, then the solfège
name in parentheses.

The model has three modules:

- `Wrappers` (`wrappers.dfy`): `Option`, `Result`, a `Distinct` predicate and
  `IndexOf`, the first position of an element in a sequence.
- `Constants` (`constants.dfy`): the three tables the functions read, which are
  the chromatic scale, the English-to-solfège table and the tuning. It also
  holds the facts about those tables that the functions rely on.
  `NoteIndex` is the inverse of the chromatic lookup: it gives the pitch class
  of a sharp-spelled name.
- `Utils` (`utils.dfy`): `FretToNote` and `GetDualLangLabel`, with their
  lemmas. `SplitLabel` reads a label back into its two parts. It is the
  partner against which the formatter is proved injective.

`fret_to_note` raises `ValueError` for a string index outside 0..5. Here that
becomes `Err(ValueError("String index must be between 0 and 5."))`. It is not
a precondition. Python's `%` rounds toward minus infinity. For the positive
modulus 12 it agrees with Dafny's Euclidean `%`. So the reduced index lies in
0..11 for negative frets as well, and the model uses `%` directly.

The code spells every computed note with sharps. It accepts the flats Db, Eb,
Gb, Ab and Bb only as extra keys of the translation table; it never converts
them to pitch classes.

The tables are Dafny constants (`ChromaticScale`, `NoteTranslation`,
`GuitarTuningIndices`). The `Constants` lemmas in the table below state
their facts. Three further lemmas only unfold definitions, for use in other
proofs: `Utils.FretToNoteIsChromaticLookup` (the valid branch of
`FretToNote`), `Utils.LabelOfTranslatedName` and `Utils.LabelFallback` (the
two cases of `Translate` inside the label). The results are tied to their
partners by `Utils.FretToNotePitchClass` (the inverse `NoteIndex`) and by
`Utils.GetDualLangLabel` (the decoder `SplitLabel`).

## Model

| member | source | states |
|---|---|---|
| `Constants.ChromaticScaleShape` | src/constants.py:8-10 | the chromatic scale has exactly 12 names, pairwise distinct, and index 0 is "C" |
| `Constants.ChromaticNamesDiffer` | src/constants.py:10 | two pitch classes in 0..11 with the same name are the same pitch class |
| `Constants.NoteIndex` | src/constants.py:8-10 | the pitch class of a name: absent exactly when the name is not in the scale, otherwise an index below 12 whose scale entry is that name |
| `Constants.NoteIndexOfPitchClass` | src/constants.py:8-10 | taking the name of a pitch class and looking its index up again gives the pitch class back |
| `Constants.TuningShape` | src/constants.py:33-36 | the tuning has exactly 6 entries, each a valid index into the chromatic scale |
| `Constants.TuningSpellsStandardTuning` | src/constants.py:34-36 | the tuning indices name E, A, D, G, B, E in the chromatic scale, as the comment says |
| `Constants.TranslationKeys` | src/constants.py:10-31 | every chromatic name is a translation key; Db, Eb, Gb, Ab, Bb are keys that are not in the scale; there are no other keys |
| `Constants.TranslationNeverIdentity` | src/constants.py:13-31 | no key translates to itself, so a real translation differs from the fallback |
| `Utils.FretToNote` | src/utils.py:22-45 | fails with the ValueError message exactly when the string index is outside 0..5; otherwise succeeds for every fret with a name from the chromatic scale |
| `Utils.FretToNotePitchClass` | src/utils.py:37-45 | for a valid string the pitch class of the returned name is (open-string index + fret) mod 12 |
| `Utils.FretToNoteOctaves` | src/utils.py:40-43 | adding any whole number of octaves (12 times any integer) to the fret leaves the result unchanged, error included |
| `Utils.FretToNoteOctave` | src/utils.py:40-43 | fret f and fret f + 12 give the same result on every string index |
| `Utils.FretToNoteSameNote` | src/utils.py:40-45 | on a valid string two frets give the same note if and only if they differ by a multiple of 12 |
| `Utils.FretToNoteReachesEveryNote` | src/utils.py:37-45 | every chromatic name sounds at some fret 0..11 of every valid string |
| `Utils.FretToNoteOpenStrings` | src/utils.py:36-45 | fret 0 on strings 0..5 gives E, A, D, G, B, E |
| `Utils.FretToNoteExample` | src/utils.py:33-45 | string 0 at fret 5 gives "A"; string index 6 gives the ValueError |
| `Utils.Translate` | src/utils.py:18 | the dictionary lookup with fallback: the result equals the input exactly when the name is not a key, and is the table's entry for that name when it is |
| `Utils.GetDualLangLabel` | src/utils.py:12-19 | the label of a name without line breaks splits back into that name and its translation (or, for an unknown name, the name itself) |
| `Utils.LabelExample` | src/utils.py:12-19 | "C" gives "C\n(Do)" and "D" gives "D\n(Ré)" |
| `Utils.SplitLabelOfJoin` | src/utils.py:19 | a label built from a name without line breaks and any second part splits back into exactly those two parts |
| `Utils.LabelInjective` | src/utils.py:12-19 | two names without line breaks get the same label if and only if they are equal |
| `Utils.FretNoteLabelIsTranslated` | src/utils.py:18-45 | for a valid string and any fret, the note is a translation key and its label carries a real translation, never the fallback |

## Left out

- `src/visualizer.py`: matplotlib drawing, layout and file or screen output. It only calls the two modelled functions.
- `COLORS` (src/constants.py:38-49): styling data with no computed behaviour.
- `get_interval_name` (src/utils.py:48-53): its body is `pass`, so it has no behaviour to model.
- Python's dynamic typing: arguments that are not integers or strings (a float fret, a bool string index) are not modelled. Both functions take `int` and `string` here.
- The Python list's negative indexing is never reached, because the string-index guard runs first. The model therefore indexes only 0..5.
