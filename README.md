# Barcode to guitar tab, modelled in Dafny

This project models the core of a small converter that turns the digits of a
product barcode into a guitar riff and prints it as ASCII tablature. The
converter has two stages.

1. A generator turns the digits into a list of notes. Each note has a string,
   a fret and a duration.
   - The melodic generator maps each digit to a degree of the configured
     scale. It folds frets above 19 down by octaves and moves up one string
     every four notes.
   - The power-chord generator emits a root and a fifth for each digit. After
     a 0 or a 5 it adds a short palm-muted repeat of the pair.
2. A renderer writes the notes into a six-row character grid and frames it
   with a title, a scale line and two rules of 60 `=`. The high e string is
   the top row.

The modules follow the components of `barcode_to_tab.py`:

- `Guitar` (guitar.dfy) holds the data model:
  - the scale modes and their interval table;
  - the note record;
  - the converter's settings (`Config`: root note label, root fret, scale
    mode), fixed at construction, with the scale lookup of the constructor.
- `Digits` (digits.dfy) holds the language built-ins the code relies on:
  picking out decimal digits, converting a digit to its value, and writing an
  integer in decimal.
- `MelodicRiff` (melodic_riff.dfy) is the melodic generator. Its loops (the
  digit loop with its string cursor and the inner octave-folding `while`)
  are kept as loops with invariants.
- `PowerChordRiff` (power_chord_riff.dfy) is the power-chord generator. It is
  a loop that appends two or four notes per digit.
- `Tablature` (tablature.dfy) is the renderer. It allocates a `6 x width`
  `array2<char>` of `-`, writes each note's fret text into it in place at a
  moving cursor, and assembles the lines. It is proved equal to a
  declarative rendering in which each cell shows the last note that covers
  it.
- `BarcodeToTab` (barcode_to_tab.dfy) is the `convert` facade, with worked
  examples.

Each generator is split in two. The barcode-level method extracts the digits
and returns the empty list when there are none. A loop method over the digit
sequence does the rest. Together they do what the single Python method does.

Two facts about the code that the model keeps:
- The octave-folding loop (`while fret > 19: fret -= 12`) gives a fret of at
  most 19 for every root fret, whatever its size.
- The title line is written as a newline followed by the title, so a rendered
  tab starts with a newline.

## Model

| member | source | states |
|---|---|---|
| `Guitar.ModeValuesDistinct` | barcode_to_tab.py:22-28 | The five scale modes carry five different text values. |
| `Guitar.Intervals` | barcode_to_tab.py:46-52 | Every interval table is non-empty, starts at the root (0), is strictly ascending and stays within 0..12. |
| `Guitar.ModeValue` | barcode_to_tab.py:24-28 | Defines the text value of each mode (`minor_pentatonic`, ...), as printed in the scale line at :191. `Guitar.ModeValuesDistinct` shows the mapping is one to one. |
| `Guitar.IntervalCounts` | barcode_to_tab.py:46-52 | The tables have 5, 7, 7, 13 and 2 entries; the chromatic one is 0, 1, ..., 12. |
| `Guitar.Config.Scale` | barcode_to_tab.py:54-67 | The table looked up at construction is non-empty with non-negative offsets, so `digit % len(scale)` always indexes it. |
| `Digits.DigitsOf` | barcode_to_tab.py:102 | Every extracted value is a decimal digit (at most 9), and there are no more values than characters. |
| `Digits.DigitValue` | barcode_to_tab.py:102 | `int(c)` for a decimal digit character: a value of at most 9. `Digits.DigitChar` is its inverse. |
| `Digits.DigitsOfAppend` | barcode_to_tab.py:102 | Extraction keeps the order: the digits of `a + b` are those of `a` followed by those of `b`. |
| `Digits.DigitsOfEmpty` | barcode_to_tab.py:102-106 | A text yields no digits exactly when none of its characters is a digit (both directions). |
| `Digits.DigitsOfAllDigits` | barcode_to_tab.py:102 | On a text made only of digits nothing is dropped: value k is the value of character k. |
| `Digits.NatToDecimal` | barcode_to_tab.py:178 | The decimal text of a natural number is non-empty, all digits, has no leading zero, and is one character exactly for numbers below 10. |
| `Digits.NatDecimalRoundTrip` | barcode_to_tab.py:178 | Reading the decimal text back gives the number. |
| `Digits.IntToDecimal` | barcode_to_tab.py:178 | The text of an integer starts with `-` exactly when it is negative, and is digits after the first character. It has no leading zero: only `"0"` starts with `0`, and a negative number's first digit is not `0`. |
| `Digits.IntDecimalRoundTrip` | barcode_to_tab.py:178 | Reading the signed decimal text back gives the integer. |
| `MelodicRiff.NormalizeBounds` | barcode_to_tab.py:116-118 | The folded fret equals the input minus 12 times the number of passes. It is at most 19. It is the input itself when the input is at most 19, and at least 8 otherwise. So it is not negative when the input is not. |
| `MelodicRiff.Normalize` | barcode_to_tab.py:117-118 | Defines the fold: subtract 12 while the fret is above 19. Its properties are stated by `MelodicRiff.NormalizeBounds`. |
| `MelodicRiff.StringAtStep` | barcode_to_tab.py:109-122 | The cursor update (advance mod 6 when `i > 0 and i % 4 == 0`) keeps the string of note i equal to `(i div 4) mod 6`. |
| `MelodicRiff.StringAt` | barcode_to_tab.py:109-122 | Defines the string of note i as `(i div 4) mod 6`, always one of the six strings 0..5. `MelodicRiff.StringAtStep` ties it to the cursor update. |
| `MelodicRiff.Duration` | barcode_to_tab.py:125 | Defines the duration of a digit: 2 for digits 0 and 5, 1 for the others. |
| `MelodicRiff.MelodicNote` | barcode_to_tab.py:113-127 | Defines the note for digit d at position i: string `StringAt(i)`, fret `Normalize(root_fret + scale[d mod len(scale)])`, duration `Duration(d)`. |
| `MelodicRiff.MelodicNotes` | barcode_to_tab.py:111-127 | Defines the melodic riff as note i = `MelodicNote` of digit i. Every note it gives is one the renderer can place (string 0..5, duration not negative). |
| `MelodicRiff.MelodicNoteFacts` | barcode_to_tab.py:111-127 | Note i has string `(i div 4) mod 6`. Its fret is `root_fret + scale[d mod len(scale)]` minus some octaves, at most 19, and not negative when `root_fret >= 0`. Its duration is 2 exactly for digits 0 and 5, and 1 otherwise. |
| `MelodicRiff.MelodicStringChange` | barcode_to_tab.py:121-122 | Notes 0..3 share string 0 and note 4 is on string 1. |
| `MelodicRiff.MelodicFretsFit` | barcode_to_tab.py:116-125 | With a non-negative root fret every melodic fret has one or two digits and every note lasts at least one sixteenth. |
| `MelodicRiff.BarcodeToNotes` | barcode_to_tab.py:93-129 | One note per digit of the barcode, in digit order. Note i is the melodic note of digit i at position i. No digits gives the empty list. |
| `MelodicRiff.NotesOfDigits` | barcode_to_tab.py:109-129 | The digit loop, with string cursor and octave folding, produces exactly the melodic note of each digit at its position. |
| `PowerChordRiff.PowerChordAppend` | barcode_to_tab.py:143-154 | The riff of `a + b` is the riff of `a` followed by the riff of `b`. Each digit contributes its own notes, in digit order. |
| `PowerChordRiff.ChordNotes` | barcode_to_tab.py:145-154 | Defines the notes one digit d contributes: `(0, d%13, 2)`, `(1, d%13+2, 2)`, then `(0, d%13, 1)`, `(1, d%13+2, 1)` when d is 0 or 5. |
| `PowerChordRiff.PowerChordNotes` | barcode_to_tab.py:143-154 | Defines the power-chord riff as the `ChordNotes` of each digit, in digit order. Its properties are stated by the lemmas below. |
| `PowerChordRiff.PowerChordCount` | barcode_to_tab.py:143-154 | The riff has `2n + 2 * (number of 0s and 5s)` notes for n digits, so between 2n and 4n. |
| `PowerChordRiff.PowerChordPairs` | barcode_to_tab.py:145-154 | The riff is a sequence of pairs: a root on string 0 at fret 0..12 with duration 1 or 2, then the fifth on string 1 two frets higher with the same duration. |
| `PowerChordRiff.PowerChordFretsFit` | barcode_to_tab.py:145-154 | Every power-chord fret is between 0 and 14 and every note lasts at least one sixteenth. |
| `PowerChordRiff.GeneratePowerChordRiff` | barcode_to_tab.py:131-156 | The notes are `(0, d%13, 2)` and `(1, d%13+2, 2)` for each digit d, in order, followed by `(0, d%13, 1)` and `(1, d%13+2, 1)` when d is 0 or 5. No digits gives the empty list. |
| `PowerChordRiff.RiffOfDigits` | barcode_to_tab.py:143-156 | The loop that appends two or four notes per digit produces exactly that riff. |
| `Tablature.StartStep` | barcode_to_tab.py:185-186 | After a note the cursor has moved by twice its duration. |
| `Tablature.Advance` | barcode_to_tab.py:166 | Defines the columns a note list occupies, `sum(note.duration * 2)`. It is not negative for placeable notes. |
| `Tablature.Width` | barcode_to_tab.py:166 | Defines the row length `total_length`, the columns of all notes plus two, so at least 2 for placeable notes. |
| `Tablature.Start` | barcode_to_tab.py:175-186 | Defines the cursor column of note k as 1 plus the columns of the notes before it. |
| `Tablature.StartMonotone` | barcode_to_tab.py:175-186 | The cursor starts at column 1 and never moves backwards. |
| `Tablature.StartInRow` | barcode_to_tab.py:166-186 | Every note starts inside the row, whose length is `2 + sum(2 * duration)`. The cursor ends one column before the row's end. |
| `Tablature.PaintedUntouched` | barcode_to_tab.py:169-186 | A cell that no note's fret text covers keeps its `-`. |
| `Tablature.Painted` | barcode_to_tab.py:169-183 | Defines the character of a cell after the first n notes are written: `-` at first, and each later note that covers the cell overwrites it. |
| `Tablature.RowText` | barcode_to_tab.py:169-186 | Defines a row of the filled grid as `Painted` over its `total_length` columns, so writes past the end are dropped. |
| `Tablature.PaintedLastWriter` | barcode_to_tab.py:176-183 | A covered cell shows the character of the last note that covers it: later notes overwrite earlier ones. |
| `Tablature.NoteShown` | barcode_to_tab.py:175-186 | When every fret has at most two digits and every duration is at least 1, each note's fret text appears in full, uncut and not overwritten. It sits in row `5 - string` from column `1 + 2 * (sum of the earlier durations)`. |
| `Tablature.JoinLinesPrefix` | barcode_to_tab.py:200 | The newline-joined text starts with the first line. |
| `Tablature.TabLines` | barcode_to_tab.py:189-198 | Defines the output lines: `\n` + title, the scale line, a rule of 60 `=`, six labelled rows with the high e string on top, and a closing rule. |
| `Tablature.JoinLines` | barcode_to_tab.py:200 | Defines `'\n'.join`: the lines with a newline between each two. |
| `Tablature.Render` | barcode_to_tab.py:162-200 | Defines the rendering: the placeholder for no notes, otherwise the joined `TabLines`. `Tablature.NotesToTab` is proved equal to it. |
| `Tablature.RenderPlaceholder` | barcode_to_tab.py:162-190 | The placeholder `No notes to display` comes out exactly for the empty note list. Any other output starts with a newline and the title. |
| `Tablature.PlaceNote` | barcode_to_tab.py:177-183 | Writing one note's fret text into its row from the cursor on, skipping columns past the row's end, turns the grid for k notes into the grid for k + 1. |
| `Tablature.AssembleTab` | barcode_to_tab.py:189-200 | The lines around the filled grid are: title, then `Scale: <mode value> in <root note>`, then 60 `=`. Next come six rows `e| B| G| D| A| E|`, each a label, the grid row and `\|`. Last come 60 `=`. The lines are joined with newlines. |
| `Tablature.NotesToTab` | barcode_to_tab.py:158-200 | The in-place grid fill and line assembly produce exactly the declarative rendering. For an empty list that is the placeholder. |
| `BarcodeToTab.Convert` | barcode_to_tab.py:202-217 | With the flag it renders the power-chord riff titled `Power Chord Riff - <barcode>`. Without it, it renders the melodic riff titled `Barcode Riff - <barcode>`. The placeholder comes out exactly when the barcode has no digits. |
| `BarcodeToTab.DigitsExample` | barcode_to_tab.py:102 | `"012345678905"` yields the digits 0..9, 0, 5. |
| `BarcodeToTab.MelodicExample` | barcode_to_tab.py:111-127 | With the default settings `"012345678905"` gives the twelve notes listed: frets 0 3 5 7 10 0 3 5 7 10 0 0, strings 0 0 0 0 1 1 1 1 2 2 2 2, and duration 2 on the digits 0 and 5. |
| `BarcodeToTab.PowerChordExample` | barcode_to_tab.py:143-154 | `"5"` gives four notes: `(0,5,2) (1,7,2) (0,5,1) (1,7,1)`. |
| `BarcodeToTab.PowerChordLayoutExample` | barcode_to_tab.py:166-186 | Those four notes start at columns 1, 5, 9 and 11 of 14-column rows. |
| `BarcodeToTab.PowerChordRowsExample` | barcode_to_tab.py:175-186 | Their E row is `-5-------5----`, their A row is `-----7-----7--`, and the other rows stay all `-`. |
| `BarcodeToTab.TruncationExample` | barcode_to_tab.py:181-183 | A single note at fret 1234 with duration 1 gets a 4-column row `-123`: the last digit is cut. |

## Left out

- `read_barcode_from_image` is left out. It decodes images through external libraries, prints, and catches exceptions. The converter takes its result as a plain string.
- The import-time probe for the image libraries (`BARCODE_SUPPORT`) and its messages are left out. They are environment detection.
- `main` is left out: argument parsing, the image-extension test, and printing to standard output. The `--harmonic` flag only chooses `HarmonicMinor` for `Config`.
- The `print` inside `barcode_to_notes` for a barcode without digits is left out. Only its empty-list result is modelled.
- `STANDARD_TUNING` is left out because no modelled code reads it.
- `str.isdigit` accepts every Unicode decimal character; the model accepts only ASCII `0`..`9`. The model therefore does not cover the `ValueError` that `int(c)` raises on Unicode digits that are not decimal.
- `Tablature.NotesToTab` requires each note's string to be in 0..5 and each duration to be non-negative. The generators only produce notes inside that range. Outside it the code behaves in ways the model does not cover:
  - a string in 6..11 gives a row index of -6..-1, so the note is written into another string's row, counted from the end of the row list;
  - a string below 0 or above 11 raises `IndexError`;
  - a negative duration moves the cursor backwards and shortens the rows. Later fret text can then land at negative columns, which index from the end of the row or raise `IndexError`.
- Python's default arguments are written out in `Guitar.Default` and in the explicit parameters of the methods.
- Every function here is deterministic by construction, so calling the renderer twice on the same input gives the same text. No separate statement of that is made.
