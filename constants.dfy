/** The ISO 216 A-series paper formats in CSS pixels (96 per inch) and the
    format a new canvas is laid out on. */
module Constants {

  datatype PaperSizeKey = A4 | A3 | A2 | A1 | A0

  datatype PaperSize = PaperSize(width: int, height: int, labelText: string)  // the entry's `label` (a reserved word in Dafny)

  /** The spelling of a key, as the table's property names read. */
  function KeyName(k: PaperSizeKey): string
  {
    match k
    case A4 => "A4"
    case A3 => "A3"
    case A2 => "A2"
    case A1 => "A1"
    case A0 => "A0"
  }

  /** `PAPER_SIZES[k]`: every entry is portrait and labelled with its own key. */
  function PaperSizes(k: PaperSizeKey): (r: PaperSize)
    ensures 0 < r.width < r.height
    ensures r.labelText == KeyName(k)
  {
    match k
    case A4 => PaperSize(794, 1123, "A4")
    case A3 => PaperSize(1123, 1587, "A3")
    case A2 => PaperSize(1587, 2245, "A2")
    case A1 => PaperSize(2245, 3177, "A1")
    case A0 => PaperSize(3177, 4490, "A0")
  }

  const DefaultPaperSize: PaperSizeKey := A3

  /** The next format down the series (half the area); A4 is the smallest in the table. */
  function Smaller(k: PaperSizeKey): PaperSizeKey
    requires k != A4
  {
    match k
    case A3 => A4
    case A2 => A3
    case A1 => A2
    case A0 => A1
  }

  /** ISO 216 chaining: a format's short side is the long side of the next smaller one. */
  lemma SizesChain(k: PaperSizeKey)
    requires k != A4
    ensures PaperSizes(k).width == PaperSizes(Smaller(k)).height
  {
  }

  /** Width and height both grow strictly from A4 up to A0. */
  lemma SizesIncrease(k: PaperSizeKey)
    requires k != A4
    ensures PaperSizes(Smaller(k)).width < PaperSizes(k).width
    ensures PaperSizes(Smaller(k)).height < PaperSizes(k).height
  {
  }

  /** The default format is A3, 1123 by 1587 pixels. */
  lemma DefaultIsA3()
    ensures KeyName(DefaultPaperSize) == "A3"
    ensures PaperSizes(DefaultPaperSize).width == 1123 && PaperSizes(DefaultPaperSize).height == 1587
  {
  }

  /** Millimetres to pixels at 96 pixels per inch (25.4 mm). */
  function MmToPx(mm: real): real
  {
    mm * 96.0 / 25.4
  }

  /** The ISO 216 dimensions of each format, in millimetres (short side, long side). */
  function IsoMillimetres(k: PaperSizeKey): (int, int)
  {
    match k
    case A4 => (210, 297)
    case A3 => (297, 420)
    case A2 => (420, 594)
    case A1 => (594, 841)
    case A0 => (841, 1189)
  }

  /** `px` is the whole number nearest to the exact conversion of `mm`. */
  predicate Rounds(px: int, mm: int)
  {
    -0.5 <= px as real - MmToPx(mm as real) <= 0.5
  }

  /** A4 (210 by 297 mm) rounds to 794 by 1123 pixels, the derivation given beside the table;
      A3 and A2 are also the rounded ISO sizes. */
  lemma SmallSizesAreRoundedIso(k: PaperSizeKey)
    requires k == A4 || k == A3 || k == A2
    ensures Rounds(PaperSizes(k).width, IsoMillimetres(k).0)
    ensures Rounds(PaperSizes(k).height, IsoMillimetres(k).1)
  {
  }

  /** A1's long side and both sides of A0 are not the rounded ISO sizes (3179, 3179 by 4494). */
  lemma LargeSizesAreNotRoundedIso()
    ensures !Rounds(PaperSizes(A1).height, IsoMillimetres(A1).1)
    ensures !Rounds(PaperSizes(A0).width, IsoMillimetres(A0).0)
    ensures !Rounds(PaperSizes(A0).height, IsoMillimetres(A0).1)
  {
  }
}
