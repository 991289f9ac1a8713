/** The power-chord generator: for each digit a root on the low E string and
    a fifth two frets up on the A string, both long, and a short palm-muted
    repeat of the pair after the digits 0 and 5. */
module PowerChordRiff {
  import opened Guitar
  import opened Digits

  /** The notes one digit contributes, in the order they are played. */
  function ChordNotes(d: nat): seq<GuitarNote> {
    var root := d % 13;
    [GuitarNote(0, root, 2), GuitarNote(1, root + 2, 2)]
    + (if d == 0 || d == 5 then [GuitarNote(0, root, 1), GuitarNote(1, root + 2, 1)] else [])
  }

  /** The riff of a digit sequence: the notes of each digit, in digit order. */
  function PowerChordNotes(ds: seq<nat>): seq<GuitarNote> {
    if ds == [] then [] else PowerChordNotes(ds[..|ds| - 1]) + ChordNotes(ds[|ds| - 1])
  }

  /** The riff of two digit sequences played one after the other is the
      first riff followed by the second. */
  lemma {:induction false} PowerChordAppend(a: seq<nat>, b: seq<nat>)
    ensures PowerChordNotes(a + b) == PowerChordNotes(a) + PowerChordNotes(b)
    decreases |b|
  {
    if b == [] {
      assert a + b == a;
    } else {
      var init, d := b[..|b| - 1], b[|b| - 1];
      assert (a + b)[..|a + b| - 1] == a + init;
      assert (a + b)[|a + b| - 1] == d;
      PowerChordAppend(a, init);
    }
  }

  /** The exact length: two notes per digit and two more per 0 or 5, so
      between two and four notes per digit. */
  lemma {:induction false} PowerChordCount(ds: seq<nat>)
    ensures |PowerChordNotes(ds)| == 2 * |ds| + 2 * (multiset(ds)[0] + multiset(ds)[5])
    ensures 2 * |ds| <= |PowerChordNotes(ds)| <= 4 * |ds|
  {
    if ds != [] {
      var init, d := ds[..|ds| - 1], ds[|ds| - 1];
      assert ds == init + [d];
      PowerChordCount(init);
      assert multiset(ds) == multiset(init) + multiset{d};
      assert multiset(init)[0] + multiset(init)[5] <= |init| by {
        MultiplicitiesBound(init);
      }
    }
  }

  /** A digit sequence holds at most as many 0s and 5s as it has elements. */
  lemma {:induction false} MultiplicitiesBound(ds: seq<nat>)
    ensures multiset(ds)[0] + multiset(ds)[5] <= |ds|
  {
    if ds != [] {
      var init, d := ds[..|ds| - 1], ds[|ds| - 1];
      assert ds == init + [d];
      assert multiset(ds) == multiset(init) + multiset{d};
      MultiplicitiesBound(init);
    }
  }

  /** A root on string 0 at a fret in 0..12, of length 1 or 2, followed by
      its fifth on string 1, two frets higher and of the same length. */
  predicate RootAndFifth(root: GuitarNote, fifth: GuitarNote) {
    && root.stringIndex == 0 && 0 <= root.fret <= 12
    && (root.duration == 1 || root.duration == 2)
    && fifth == GuitarNote(1, root.fret + 2, root.duration)
  }

  /** A note list made of (root, fifth) pairs. */
  predicate Paired(ns: seq<GuitarNote>)
    decreases |ns|
  {
    ns == [] || (|ns| >= 2 && RootAndFifth(ns[0], ns[1]) && Paired(ns[2..]))
  }

  /** Two paired lists played one after the other are paired. */
  lemma {:induction false} PairedAppend(a: seq<GuitarNote>, b: seq<GuitarNote>)
    requires Paired(a) && Paired(b)
    ensures Paired(a + b)
    decreases |a|
  {
    if a == [] {
      assert a + b == b;
    } else {
      assert (a + b)[2..] == a[2..] + b;
      PairedAppend(a[2..], b);
    }
  }

  /** A paired list holds notes the renderer can place. */
  lemma {:induction false} PairedWellFormed(ns: seq<GuitarNote>)
    requires Paired(ns)
    ensures AllWellFormed(ns)
    decreases |ns|
  {
    if ns != [] {
      PairedWellFormed(ns[2..]);
      assert forall k :: 2 <= k < |ns| ==> ns[k] == ns[2..][k - 2];
    }
  }

  /** The riff is a sequence of (root, fifth) pairs. */
  lemma {:induction false} PowerChordPairs(ds: seq<nat>)
    ensures Paired(PowerChordNotes(ds))
  {
    if ds != [] {
      var d := ds[|ds| - 1];
      var chord := ChordNotes(d);
      assert Paired(chord) by {
        if |chord| == 4 {
          assert chord[2..][2..] == [];
        }
      }
      PowerChordPairs(ds[..|ds| - 1]);
      PairedAppend(PowerChordNotes(ds[..|ds| - 1]), chord);
    }
  }

  /** One more digit appends that digit's notes. */
  lemma PowerChordStep(ds: seq<nat>, i: nat)
    requires i < |ds|
    ensures PowerChordNotes(ds[..i + 1]) == PowerChordNotes(ds[..i]) + ChordNotes(ds[i])
  {
    assert ds[..i + 1][..i] == ds[..i];
  }

  /** The four appends of one loop iteration produce that digit's notes. */
  lemma ChordStep(before: seq<GuitarNote>, digit: nat, notes: seq<GuitarNote>)
    requires var rootFret := digit % 13;
      notes == before + [GuitarNote(0, rootFret, 2)] + [GuitarNote(1, rootFret + 2, 2)]
        + (if digit == 0 || digit == 5 then [GuitarNote(0, rootFret, 1)] + [GuitarNote(1, rootFret + 2, 1)] else [])
    ensures notes == before + ChordNotes(digit)
  {
  }

  /** Every note of the riff can be placed by the renderer. */
  lemma PowerChordWellFormed(ds: seq<nat>)
    ensures AllWellFormed(PowerChordNotes(ds))
  {
    PowerChordPairs(ds);
    PairedWellFormed(PowerChordNotes(ds));
  }

  /** Every power-chord fret has one or two digits (at most 14) and every
      note lasts at least a sixteenth, so the renderer shows each note in full. */
  lemma {:induction false} PairedFretsFit(ns: seq<GuitarNote>)
    requires Paired(ns)
    ensures FretsFit(ns)
    ensures forall k :: 0 <= k < |ns| ==> ns[k].fret <= 14
    decreases |ns|
  {
    if ns != [] {
      PairedFretsFit(ns[2..]);
      assert forall k :: 2 <= k < |ns| ==> ns[k] == ns[2..][k - 2];
    }
  }

  lemma PowerChordFretsFit(ds: seq<nat>)
    ensures FretsFit(PowerChordNotes(ds))
    ensures forall k :: 0 <= k < |PowerChordNotes(ds)| ==> PowerChordNotes(ds)[k].fret <= 14
  {
    PowerChordPairs(ds);
    PairedFretsFit(PowerChordNotes(ds));
  }

  /** The power-chord generator: keep the digits of the barcode; none gives
      no notes, otherwise build the riff of the digits. */
  method GeneratePowerChordRiff(barcode: string) returns (notes: seq<GuitarNote>)
    ensures notes == PowerChordNotes(DigitsOf(barcode))
  {
    notes := [];
    var digits := DigitsOf(barcode);
    if |digits| == 0 {
      return;
    }
    notes := RiffOfDigits(digits);
  }

  /** The generator's loop: for each digit append the long root and fifth,
      then the short pair when the digit is 0 or 5. */
  method RiffOfDigits(digits: seq<nat>) returns (notes: seq<GuitarNote>)
    ensures notes == PowerChordNotes(digits)
  {
    notes := [];
    var i := 0;
    while i < |digits|
      invariant 0 <= i <= |digits|
      invariant notes == PowerChordNotes(digits[..i])
    {
      var digit := digits[i];
      var rootFret := digit % 13;
      ghost var before := notes;
      notes := notes + [GuitarNote(0, rootFret, 2)];
      notes := notes + [GuitarNote(1, rootFret + 2, 2)];
      if digit == 0 || digit == 5 {
        notes := notes + [GuitarNote(0, rootFret, 1)];
        notes := notes + [GuitarNote(1, rootFret + 2, 1)];
      }
      ChordStep(before, digit, notes);
      PowerChordStep(digits, i);
      i := i + 1;
    }
    assert digits[..i] == digits;
  }
}
