/** The melodic generator: one note per digit, the fret taken from the scale
    table and folded down by octaves, the string moving up every four notes. */
module MelodicRiff {
  import opened Guitar
  import opened Digits

  /** The fret folding the generator applies: subtract an octave (12 frets)
      while the fret is above 19. */
  function Normalize(f: int): int
    decreases f
  {
    if f > 19 then Normalize(f - 12) else f
  }

  /** How many octaves Normalize takes off. */
  function OctavesDropped(f: int): nat
    decreases f
  {
    if f > 19 then 1 + OctavesDropped(f - 12) else 0
  }

  /** The folded fret is the input lowered by a whole number of octaves; it is
      at most 19, it is the input itself when that is at most 19, and it is at
      least 8 otherwise, so a non-negative input never yields a negative fret. */
  lemma {:induction false} NormalizeBounds(f: int)
    ensures Normalize(f) == f - 12 * OctavesDropped(f)
    ensures Normalize(f) <= 19
    ensures f <= 19 ==> Normalize(f) == f
    ensures f > 19 ==> 8 <= Normalize(f)
    ensures f >= 0 ==> Normalize(f) >= 0
  {
    if f > 19 {
      NormalizeBounds(f - 12);
    }
  }

  /** The string of the i-th melodic note: one string up every four notes,
      back to the low string after the high one. */
  function StringAt(i: nat): (s: int)
    ensures 0 <= s <= 5
  {
    (i / 4) % 6
  }

  /** How the generator's string cursor moves from note i - 1 to note i. */
  lemma StringAtStep(i: nat)
    requires i > 0
    ensures StringAt(i) == if i % 4 == 0 then (StringAt(i - 1) + 1) % 6 else StringAt(i - 1)
  {
    var q := i / 4;
    assert i == 4 * q + i % 4;
    if i % 4 == 0 {
      assert (i - 1) / 4 == q - 1;
      assert (q - 1) % 6 == 5 ==> q % 6 == 0;
      assert (q - 1) % 6 < 5 ==> q % 6 == (q - 1) % 6 + 1;
    } else {
      assert (i - 1) / 4 == q;
    }
  }

  /** Digits 0 and 5 are held for two sixteenths, all others for one. */
  function Duration(d: nat): int {
    if d == 0 || d == 5 then 2 else 1
  }

  /** The note the generator emits for digit `d` at position `i`. */
  function MelodicNote(scale: seq<int>, rootFret: int, d: nat, i: nat): GuitarNote
    requires |scale| > 0
  {
    GuitarNote(StringAt(i), Normalize(rootFret + scale[d % |scale|]), Duration(d))
  }

  /** The melodic riff of a digit sequence: note i is the note of digit i. */
  function MelodicNotes(scale: seq<int>, rootFret: int, ds: seq<nat>): (ns: seq<GuitarNote>)
    requires |scale| > 0
    ensures AllWellFormed(ns)
  {
    seq(|ds|, i requires 0 <= i < |ds| => MelodicNote(scale, rootFret, ds[i], i))
  }

  /** What every melodic note satisfies: the string is (i div 4) mod 6, the
      fret is root plus scale entry minus some octaves, at most 19, and not
      negative when the root fret is not; the duration is 2 exactly for the
      digits 0 and 5, and 1 otherwise. */
  lemma MelodicNoteFacts(conf: Config, ds: seq<nat>, i: nat)
    requires i < |ds|
    ensures var scale := conf.Scale();
      var n := MelodicNotes(scale, conf.rootFret, ds)[i];
      var fret := conf.rootFret + scale[ds[i] % |scale|];
      && 0 <= n.stringIndex <= 5 && n.stringIndex == (i / 4) % 6
      && n.fret == fret - 12 * OctavesDropped(fret)
      && n.fret <= 19
      && (conf.rootFret >= 0 ==> n.fret >= 0)
      && (n.duration == 2 <==> ds[i] == 0 || ds[i] == 5)
      && (n.duration != 2 ==> n.duration == 1)
  {
    var scale := conf.Scale();
    NormalizeBounds(conf.rootFret + scale[ds[i] % |scale|]);
  }

  /** With a root fret that is not negative, every fret of a melodic riff has
      one or two digits and every note lasts at least a sixteenth, so the
      renderer shows each note in full. */
  lemma MelodicFretsFit(conf: Config, ds: seq<nat>)
    requires conf.rootFret >= 0
    ensures FretsFit(MelodicNotes(conf.Scale(), conf.rootFret, ds))
  {
    forall i | 0 <= i < |ds| {
      MelodicNoteFacts(conf, ds, i);
    }
  }

  /** The first four notes share the low string and the fifth moves one up. */
  lemma MelodicStringChange(scale: seq<int>, rootFret: int, ds: seq<nat>)
    requires |scale| > 0 && |ds| >= 5
    ensures var ns := MelodicNotes(scale, rootFret, ds);
      (forall k :: 0 <= k < 4 ==> ns[k].stringIndex == 0) && ns[4].stringIndex == 1
  {
  }

  /** The melodic generator: keep the digits of the barcode; none gives no
      notes, otherwise build the notes of the digits. */
  method BarcodeToNotes(conf: Config, barcode: string) returns (notes: seq<GuitarNote>)
    ensures |notes| == |DigitsOf(barcode)|
    ensures notes == MelodicNotes(conf.Scale(), conf.rootFret, DigitsOf(barcode))
  {
    notes := [];
    var digits := DigitsOf(barcode);
    if |digits| == 0 {
      return;
    }
    notes := NotesOfDigits(conf, digits);
  }

  /** The generator's loop: for each digit look up the scale degree
      `digit mod |scale|`, fold the fret below 20, move the string cursor
      every fourth note and pick the duration. */
  method NotesOfDigits(conf: Config, digits: seq<nat>) returns (notes: seq<GuitarNote>)
    ensures |notes| == |digits|
    ensures notes == MelodicNotes(conf.Scale(), conf.rootFret, digits)
  {
    notes := [];
    var scale := conf.Scale();
    var currentString := 0;
    var i := 0;
    while i < |digits|
      invariant 0 <= i <= |digits|
      invariant |notes| == i
      invariant forall k :: 0 <= k < i ==> notes[k] == MelodicNote(scale, conf.rootFret, digits[k], k)
      invariant currentString == if i == 0 then 0 else StringAt(i - 1)
    {
      var digit := digits[i];
      var scaleDegree := digit % |scale|;
      var fret := conf.rootFret + scale[scaleDegree];
      ghost var unfolded := fret;
      while fret > 19
        invariant Normalize(fret) == Normalize(unfolded)
        decreases fret
      {
        fret := fret - 12;
      }
      if i > 0 {
        StringAtStep(i);
      }
      if i > 0 && i % 4 == 0 {
        currentString := (currentString + 1) % 6;
      }
      var duration := if digit == 0 || digit == 5 then 2 else 1;
      notes := notes + [GuitarNote(currentString, fret, duration)];
      i := i + 1;
    }
  }
}
