/** The four custom characters of the special-character program. Each is
    eight pixel rows, top row first; bit 4 of a row is its leftmost pixel. */
module Glyphs {
  import opened Bytes

  const FirstCharacter: seq<byte> :=
    [0x04, 0x0E, 0x04, 0x04, 0x04, 0x04, 0x0E, 0x04]
  const SecondCharacter: seq<byte> :=
    [0x15, 0x15, 0x15, 0x15, 0x15, 0x15, 0x11, 0x11]
  const ThirdCharacter: seq<byte> :=
    [0x01, 0x01, 0x01, 0x03, 0x03, 0x03, 0x03, 0x03]
  const FourthCharacter: seq<byte> :=
    [0x11, 0x11, 0x04, 0x04, 0x1B, 0x1B, 0x1F, 0x0E]

  /** A character cell of the controller: eight rows of five pixels. */
  predicate IsGlyph(rows: seq<byte>)
  {
    |rows| == 8 && forall i :: 0 <= i < |rows| ==> rows[i] < 0x20
  }

  /** The rows `writeToGram` streams into CGRAM, glyph by glyph. */
  function AllRows(): (rows: seq<byte>)
    ensures |rows| == 32
  {
    FirstCharacter + SecondCharacter + ThirdCharacter + FourthCharacter
  }

  /** Every row of the four tables fits a 5-pixel row. */
  lemma TablesAreGlyphs()
    ensures IsGlyph(FirstCharacter) && IsGlyph(SecondCharacter)
    ensures IsGlyph(ThirdCharacter) && IsGlyph(FourthCharacter)
    ensures forall i :: 0 <= i < |AllRows()| ==> AllRows()[i] < 0x20
  {
  }
}
