/** The converter facade: pick the generator, build the title, render. */
module BarcodeToTab {
  import opened Guitar
  import opened Digits
  import opened MelodicRiff
  import opened PowerChordRiff
  import opened Tablature

  /** Convert a barcode text to a tab: the power-chord riff titled
      "Power Chord Riff - <barcode>" when asked for, the melodic riff titled
      "Barcode Riff - <barcode>" otherwise. The placeholder comes out exactly
      when the barcode has no digits. */
  method Convert(conf: Config, barcode: string, usePowerChords: bool) returns (tab: string)
    ensures usePowerChords ==>
      AllWellFormed(PowerChordNotes(DigitsOf(barcode))) &&
      tab == Render(conf, PowerChordNotes(DigitsOf(barcode)), "Power Chord Riff - " + barcode)
    ensures !usePowerChords ==>
      tab == Render(conf, MelodicNotes(conf.Scale(), conf.rootFret, DigitsOf(barcode)), "Barcode Riff - " + barcode)
    ensures tab == NoNotes <==> DigitsOf(barcode) == []
  {
    var notes: seq<GuitarNote>;
    var title: string;
    if usePowerChords {
      notes := GeneratePowerChordRiff(barcode);
      PowerChordWellFormed(DigitsOf(barcode));
      title := "Power Chord Riff - " + barcode;
    } else {
      notes := BarcodeToNotes(conf, barcode);
      title := "Barcode Riff - " + barcode;
    }
    tab := NotesToTab(conf, notes, title);
    RenderPlaceholder(conf, notes, title);
  }

  /** The digits of the barcode "012345678905". */
  lemma DigitsExample(barcode: string)
    requires barcode == "012345678905"
    ensures DigitsOf(barcode) == [0, 1, 2, 3, 4, 5, 6, 7, 8, 9, 0, 5]
  {
    DigitsOfAllDigits(barcode);
  }

  /** The melodic riff of "012345678905" with the default settings. */
  lemma MelodicExample(barcode: string)
    requires barcode == "012345678905"
    ensures MelodicNotes(Default.Scale(), Default.rootFret, DigitsOf(barcode)) ==
      [ GuitarNote(0, 0, 2), GuitarNote(0, 3, 1), GuitarNote(0, 5, 1), GuitarNote(0, 7, 1)
      , GuitarNote(1, 10, 1), GuitarNote(1, 0, 2), GuitarNote(1, 3, 1), GuitarNote(1, 5, 1)
      , GuitarNote(2, 7, 1), GuitarNote(2, 10, 1), GuitarNote(2, 0, 2), GuitarNote(2, 0, 2) ]
  {
    DigitsExample(barcode);
  }

  /** The power-chord riff of "5": the long pair and the palm-muted pair. */
  lemma PowerChordExample(barcode: string)
    requires barcode == "5"
    ensures PowerChordNotes(DigitsOf(barcode)) ==
      [GuitarNote(0, 5, 2), GuitarNote(1, 7, 2), GuitarNote(0, 5, 1), GuitarNote(1, 7, 1)]
  {
  }

  /** Where the notes of the riff of "5" go: start columns 1, 5, 9 and 11
      in rows of 14 columns, each fret one character long. */
  lemma PowerChordLayoutExample(ns: seq<GuitarNote>)
    requires ns == [GuitarNote(0, 5, 2), GuitarNote(1, 7, 2), GuitarNote(0, 5, 1), GuitarNote(1, 7, 1)]
    ensures AllWellFormed(ns) && Width(ns) == 14
    ensures Start(ns, 0) == 1 && Start(ns, 1) == 5 && Start(ns, 2) == 9 && Start(ns, 3) == 11
    ensures forall k :: 0 <= k < 4 ==> FretText(ns[k]) == [if k % 2 == 0 then '5' else '7']
  {
    StartStep(ns, 0);
    StartStep(ns, 1);
    StartStep(ns, 2);
    StartStep(ns, 3);
    assert ns[..4] == ns;
  }

  /** The grid rows of the riff of "5": the roots on the low E row at columns
      1 and 9, the fifths on the A row at columns 5 and 11, the other rows
      untouched. */
  lemma PowerChordRowsExample(ns: seq<GuitarNote>)
    requires ns == [GuitarNote(0, 5, 2), GuitarNote(1, 7, 2), GuitarNote(0, 5, 1), GuitarNote(1, 7, 1)]
    ensures AllWellFormed(ns)
    ensures RowText(ns, 5) == "-5-------5----"
    ensures RowText(ns, 4) == "-----7-----7--"
    ensures RowText(ns, 0) == "--------------"
  {
    PowerChordLayoutExample(ns);
    forall c | 0 <= c < 14
      ensures RowText(ns, 5)[c] == "-5-------5----"[c]
      ensures RowText(ns, 4)[c] == "-----7-----7--"[c]
      ensures RowText(ns, 0)[c] == '-'
    {
      assert Covers(ns, 0, 5, c) <==> c == 1;
      assert Covers(ns, 2, 5, c) <==> c == 9;
      assert Covers(ns, 1, 4, c) <==> c == 5;
      assert Covers(ns, 3, 4, c) <==> c == 11;
      forall r | r == 0 || r == 4 || r == 5
        ensures Painted(ns, 1, r, c) == if Covers(ns, 0, r, c) then '5' else '-'
        ensures Painted(ns, 2, r, c) == if Covers(ns, 1, r, c) then '7' else Painted(ns, 1, r, c)
        ensures Painted(ns, 3, r, c) == if Covers(ns, 2, r, c) then '5' else Painted(ns, 2, r, c)
        ensures Painted(ns, 4, r, c) == if Covers(ns, 3, r, c) then '7' else Painted(ns, 3, r, c)
      {
      }
    }
  }

  /** A fret text longer than the room left in the row is cut at the row's end. */
  lemma TruncationExample()
    ensures RowText([GuitarNote(0, 1234, 1)], 5) == "-123"
  {
    var ns := [GuitarNote(0, 1234, 1)];
    assert Width(ns) == 4 && Start(ns, 0) == 1 by {
      assert ns[..0] == [] && ns[..|ns| - 1] == [];
    }
    assert FretText(ns[0]) == "1234" by {
      assert NatToDecimal(1234) == NatToDecimal(123) + "4";
      assert NatToDecimal(123) == NatToDecimal(12) + "3";
      assert NatToDecimal(12) == NatToDecimal(1) + "2";
    }
  }
}
