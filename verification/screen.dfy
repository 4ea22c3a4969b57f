/** The screen refresh: a walk over the 64x32 tilemap held in video RAM,
    two bytes per cell in row-major order, drawing each cell's tile at
    its 8x8 grid position. */
module Screen {
  import opened TileDecode

  const Columns: int := 64
  const Rows: int := 32
  const CellCount: int := Columns * Rows

  /** Size of the video-RAM window 0xe000-0xefff. */
  const VramSize: int := 0x1000

  /** The visible area is 64*8 pixels wide and 32*8 pixels high. */
  const ScreenWidth: int := Columns * 8
  const ScreenHeight: int := Rows * 8

  /** One call of the tile renderer: the decoded cell and the pixel
      position of its top-left corner. */
  datatype Draw = Draw(cell: Cell, px: int, py: int)

  /** The offset of the first byte of cell (x, y) in video RAM. */
  function CellOffset(x: int, y: int): int
  {
    2 * (Columns * y + x)
  }

  /** The draw the hardware makes for cell (x, y). */
  function CellDraw(vram: seq<bv8>, bank: bv8, x: int, y: int): (d: Draw)
    requires |vram| == VramSize
    requires 0 <= x < Columns && 0 <= y < Rows
    ensures d.px == 8 * x && d.py == 8 * y
    ensures 0 <= d.px && d.px + 8 <= ScreenWidth
    ensures 0 <= d.py && d.py + 8 <= ScreenHeight
    ensures d.px % 8 == 0 && d.py % 8 == 0
    ensures d.cell == DecodeCell(vram[2 * (64 * y + x)], vram[2 * (64 * y + x) + 1], bank)
  {
    var i := CellOffset(x, y);
    Draw(DecodeCell(vram[i], vram[i + 1], bank), x * 8, y * 8)
  }

  /** Every cell of the walk reads two bytes inside the video-RAM window. */
  lemma CellOffsetInBounds(x: int, y: int)
    requires 0 <= x < Columns && 0 <= y < Rows
    ensures 0 <= CellOffset(x, y) && CellOffset(x, y) + 1 < VramSize
  {
  }

  /** Cells and video-RAM byte pairs are in one-to-one correspondence: the
      cell is recovered from its offset, so no two cells share a byte and
      every byte of the window belongs to exactly one cell. */
  lemma CellOfOffset(o: int)
    requires 0 <= o < VramSize
    ensures 0 <= (o / 2) % Columns < Columns && 0 <= o / 2 / Columns < Rows
    ensures CellOffset((o / 2) % Columns, o / 2 / Columns) == o - o % 2
  {
  }

  lemma CellOffsetInjective(x1: int, y1: int, x2: int, y2: int)
    requires 0 <= x1 < Columns && 0 <= y1 < Rows
    requires 0 <= x2 < Columns && 0 <= y2 < Rows
    requires CellOffset(x1, y1) == CellOffset(x2, y2)
    ensures x1 == x2 && y1 == y2
  {
  }

  /** The sequence of draws of one refresh, in walk order. */
  method ScreenUpdate(vram: seq<bv8>, bank: bv8) returns (draws: seq<Draw>)
    requires |vram| == VramSize
    ensures |draws| == CellCount
    ensures forall y, x :: 0 <= y < Rows && 0 <= x < Columns ==>
              draws[64 * y + x] == CellDraw(vram, bank, x, y)
    ensures forall k :: 0 <= k < |draws| ==>
              && draws[k].cell == DecodeCell(vram[2 * k], vram[2 * k + 1], bank)
              && draws[k].px == 8 * (k % 64) && draws[k].py == 8 * (k / 64)
  {
    draws := [];
    var count := 0;
    var y := 0;
    while y < 32
      invariant 0 <= y <= 32
      invariant count == 2 * |draws| && |draws| == 64 * y
      invariant forall yy, xx :: 0 <= yy < y && 0 <= xx < 64 ==> draws[64 * yy + xx] == CellDraw(vram, bank, xx, yy)
    {
      var x := 0;
      while x < 64
        invariant 0 <= x <= 64
        invariant count == 2 * |draws| && |draws| == 64 * y + x
        invariant forall yy, xx :: 0 <= yy < y && 0 <= xx < 64 ==> draws[64 * yy + xx] == CellDraw(vram, bank, xx, yy)
        invariant forall xx :: 0 <= xx < x ==> draws[64 * y + xx] == CellDraw(vram, bank, xx, y)
      {
        var tile := TileNumber(vram[count], vram[count + 1], bank);
        var fx := vram[count + 1] & 0x10 != 0;
        var fy := vram[count + 1] & 0x20 != 0;
        var color := ((vram[count + 1] & 0xc0) >> 6) as int;
        draws := draws + [Draw(Cell(tile, color, fx, fy), x * 8, y * 8)];
        count := count + 2;
        x := x + 1;
      }
      y := y + 1;
    }
    forall k | 0 <= k < |draws|
      ensures && draws[k].cell == DecodeCell(vram[2 * k], vram[2 * k + 1], bank)
              && draws[k].px == 8 * (k % 64) && draws[k].py == 8 * (k / 64)
    {
      assert draws[64 * (k / 64) + k % 64] == CellDraw(vram, bank, k % 64, k / 64);
    }
  }
}
