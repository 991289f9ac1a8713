/** Data model of the barcode-to-tab converter: the closed set of scale modes
    with their interval tables, one note on the guitar, and the converter's
    configuration, which is fixed when the converter is built. */
module Guitar {

  /** The scale modes the converter knows. */
  datatype ScaleMode = MinorPentatonic | NaturalMinor | HarmonicMinor | Chromatic | PowerChord

  /** The text value of a mode, as shown in the header of a tab. */
  function ModeValue(m: ScaleMode): string {
    match m
    case MinorPentatonic => "minor_pentatonic"
    case NaturalMinor => "natural_minor"
    case HarmonicMinor => "harmonic_minor"
    case Chromatic => "chromatic"
    case PowerChord => "power_chord"
  }

  /** Distinct modes carry distinct values. */
  lemma ModeValuesDistinct(a: ScaleMode, b: ScaleMode)
    ensures ModeValue(a) == ModeValue(b) ==> a == b
  {
  }

  /** The scale table: the semitone offsets from the root that belong to a mode.
      Every table starts at the root, is strictly ascending and stays inside one
      octave (0..12), so it is never empty. */
  function Intervals(m: ScaleMode): (s: seq<int>)
    ensures |s| > 0 && s[0] == 0
    ensures forall i :: 0 <= i < |s| ==> 0 <= s[i] <= 12
    ensures forall i, j :: 0 <= i < j < |s| ==> s[i] < s[j]
  {
    match m
    case MinorPentatonic => [0, 3, 5, 7, 10]
    case NaturalMinor => [0, 2, 3, 5, 7, 8, 10]
    case HarmonicMinor => [0, 2, 3, 5, 7, 8, 11]
    case Chromatic => seq(13, i => i)
    case PowerChord => [0, 7]
  }

  /** The table sizes and the chromatic table's contents. */
  lemma IntervalCounts()
    ensures |Intervals(MinorPentatonic)| == 5
    ensures |Intervals(NaturalMinor)| == 7 && |Intervals(HarmonicMinor)| == 7
    ensures |Intervals(Chromatic)| == 13 && |Intervals(PowerChord)| == 2
    ensures forall i :: 0 <= i < 13 ==> Intervals(Chromatic)[i] == i
  {
  }

  /** One plucked position: a string (0 is the low E string, 5 the high e
      string), a fret and a length in sixteenth notes. */
  datatype GuitarNote = GuitarNote(stringIndex: int, fret: int, duration: int)

  /** A note the renderer can place: a string that has a row and a length that
      does not move the cursor backwards. */
  predicate WellFormed(n: GuitarNote) {
    0 <= n.stringIndex <= 5 && n.duration >= 0
  }

  predicate AllWellFormed(ns: seq<GuitarNote>) {
    forall k :: 0 <= k < |ns| ==> WellFormed(ns[k])
  }

  /** Notes whose fret numbers fit the tab columns they get: at least one
      sixteenth long (two columns) and a fret of one or two digits. */
  predicate FretsFit(ns: seq<GuitarNote>) {
    forall k :: 0 <= k < |ns| ==> ns[k].duration >= 1 && 0 <= ns[k].fret <= 99
  }

  /** The converter's settings: a display-only root note label, the fret the
      melodic generator starts from, and the scale mode. */
  datatype Config = Config(rootNote: string, rootFret: int, scaleMode: ScaleMode) {
    /** The interval table the converter looks up when it is built; it is
        never empty, so `digit mod |Scale()|` always indexes it. */
    function Scale(): (s: seq<int>)
      ensures |s| > 0 && forall i :: 0 <= i < |s| ==> s[i] >= 0
    {
      Intervals(scaleMode)
    }
  }

  /** The default settings: root note E, root fret 0, minor pentatonic. */
  const Default := Config("E", 0, MinorPentatonic)
}
