/** The tile word of the Poker Monarch video hardware: two consecutive
    video-RAM bytes plus the tile-bank latch decide which 8x8 tile is drawn
    in a cell, in which of four colour sets and with which flips.

    Byte 0 is the low eight bits of the tile code.  Byte 1 packs, from the
    least significant bit up: tile code bits 8-11 (four bits), flip-X (bit 4),
    flip-Y (bit 5) and the colour set (bits 6-7).  Every bit of both bytes
    has exactly one meaning, so the encoding is a bijection. */
module TileDecode {

  /** Tiles in the 0x80000-byte graphics region: four quarters of 0x20000
      bytes, two bitplanes each, and 8 rows of 16 bits per quarter for
      every 8x8 tile. */
  const TileCount: int := (0x80000 / 4) * 8 / (16 * 8)

  /** Colour sets the two attribute bits can select. */
  const ColorSets: int := 4

  /** The arguments the driver hands the tile renderer for one cell.  The
      tile number is a 32-bit value, as the driver's `int` is. */
  datatype Cell = Cell(tile: bv32, color: int, flipX: bool, flipY: bool)

  /** The two video-RAM bytes of one cell. */
  datatype CellBytes = CellBytes(b0: bv8, b1: bv8)

  /** A cell some tile word describes: a tile number that fits the 12-bit
      code plus the 8-bit bank latch above it, and one of the colour sets. */
  predicate WellFormed(c: Cell)
  {
    c.tile < 0x100000 && 0 <= c.color < ColorSets
  }

  /** Bit `n` of a byte. */
  predicate BitSet(b: bv8, n: nat)
    requires n < 8
  {
    (b >> n) % 2 == 1
  }

  /** The tile number: the code in the low nibble of byte 1 and byte 0,
      with the tile-bank latch ORed in from bit 12 up.  The three parts
      occupy disjoint bits, so the OR is a sum. */
  function TileNumber(b0: bv8, b1: bv8, bank: bv8): (r: bv32)
    ensures r == bank as bv32 * 0x1000 + (b1 % 16) as bv32 * 0x100 + b0 as bv32
    ensures r < 0x100000
  {
    var code := (((b1 & 0x0f) as bv32) << 8) | (b0 as bv32);
    code | ((bank as bv32) << 12)
  }

  /** Decodes one cell.  Each attribute depends on its own bits of byte 1
      only: flip-X on bit 4, flip-Y on bit 5, the colour on bits 6-7. */
  function DecodeCell(b0: bv8, b1: bv8, bank: bv8): (c: Cell)
    ensures WellFormed(c)
    ensures c.tile == TileNumber(b0, b1, bank)
    ensures c.flipX <==> BitSet(b1, 4)
    ensures c.flipY <==> BitSet(b1, 5)
    ensures c.color == (b1 / 64) as int
  {
    Cell(TileNumber(b0, b1, bank),
         ((b1 & 0xc0) >> 6) as int,
         b1 & 0x10 != 0,
         b1 & 0x20 != 0)
  }

  /** The bank latch value a well-formed cell needs. */
  function BankOf(c: Cell): bv8
    requires WellFormed(c)
  {
    (c.tile >> 12) as bv8
  }

  /** The video-RAM bytes that make the hardware draw `c` (with the bank
      latch at `BankOf(c)`). */
  function EncodeCell(c: Cell): CellBytes
    requires WellFormed(c)
  {
    var hi := ((c.tile >> 8) & 0x0f) as bv8;
    var attrs := (if c.flipX then 0x10 else 0) | (if c.flipY then 0x20 else 0) | ((c.color as bv8) << 6);
    CellBytes((c.tile & 0xff) as bv8, hi | attrs)
  }

  /** Encoding a cell and decoding it again gives the cell back. */
  lemma DecodeEncode(c: Cell)
    requires WellFormed(c)
    ensures var e := EncodeCell(c); DecodeCell(e.b0, e.b1, BankOf(c)) == c
  {
  }

  /** Decoding two bytes and re-encoding the cell gives the bytes and the
      bank back: no bit of a tile word is ignored by the decoder. */
  lemma EncodeDecode(b0: bv8, b1: bv8, bank: bv8)
    ensures var c := DecodeCell(b0, b1, bank);
            EncodeCell(c) == CellBytes(b0, b1) && BankOf(c) == bank
  {
  }

  /** Byte 0 and the low nibble of byte 1 can be read back out of the tile
      number, and the bank is what lies above bit 12. */
  lemma TileFieldsRecoverable(b0: bv8, b1: bv8, bank: bv8)
    ensures TileNumber(b0, b1, bank) % 0x100 == b0 as bv32
    ensures (TileNumber(b0, b1, bank) / 0x100) % 0x10 == (b1 & 0x0f) as bv32
    ensures TileNumber(b0, b1, bank) / 0x1000 == bank as bv32
  {
  }

  /** With the bank latch at 0 or 1 every decoded tile exists in the
      graphics region. */
  lemma TileInGraphicsRegion(b0: bv8, b1: bv8, bank: bv8)
    requires bank <= 1
    ensures DecodeCell(b0, b1, bank).tile as int < TileCount
  {
  }
}
