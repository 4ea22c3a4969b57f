/** Palette RAM and the pens built from it.  Palette RAM is three planes
    of 0x400 bytes (red, green, blue); a byte written anywhere in it
    rebuilds the one pen whose slot is the write offset modulo 0x400, from
    the low six bits of that slot's byte in each plane.  Before any such
    write the pens hold the board's debug palette. */
module Palette {

  /** Size of the palette-RAM window 0xf000-0xfbff. */
  const PalRamSize: int := 0xc00

  /** Bytes per colour plane, and pens a palette-RAM write can rebuild. */
  const PlaneSize: int := 0x400

  /** Entries of the palette device. */
  const PenCount: int := 0xe00

  /** Entries the debug palette fills. */
  const DebugPenCount: int := 0x100

  /** A pen as the driver sets it, before the host scales the channels
      to 8 bits: 4-bit channels from the debug palette, 6-bit channels
      from palette RAM, or a pen neither has set. */
  datatype Pen = Unset | Rgb444(r: int, g: int, b: int) | Rgb666(r: int, g: int, b: int)

  datatype PaletteState = PaletteState(ram: seq<bv8>, pens: seq<Pen>)

  predicate Valid(p: PaletteState)
  {
    |p.ram| == PalRamSize && |p.pens| == PenCount
  }

  /** The pen slot a palette-RAM offset belongs to (`offset & 0x3ff`). */
  function Slot(offset: int): (s: int)
    requires 0 <= offset
    ensures 0 <= s < PlaneSize
  {
    offset % PlaneSize
  }

  /** The colour plane a palette-RAM offset lies in: 0 red, 1 green, 2 blue. */
  function Plane(offset: int): int
    requires 0 <= offset
  {
    offset / PlaneSize
  }

  /** The low six bits of a palette-RAM byte. */
  function Channel6(v: bv8): (c: int)
    ensures 0 <= c < 64
    ensures c == v as int % 64
  {
    (v & 0x3f) as int
  }

  /** The pen palette RAM describes at `slot`: red, green and blue are read
      0x000, 0x400 and 0x800 bytes above the slot. */
  function PenFromRam(ram: seq<bv8>, slot: int): (pen: Pen)
    requires |ram| == PalRamSize && 0 <= slot < PlaneSize
    ensures pen.Rgb666?
    ensures 0 <= pen.r < 64 && 0 <= pen.g < 64 && 0 <= pen.b < 64
    ensures pen.r == ram[slot] as int % 64
    ensures pen.g == ram[slot + 0x400] as int % 64
    ensures pen.b == ram[slot + 0x800] as int % 64
  {
    Rgb666(Channel6(ram[slot + 0x000]), Channel6(ram[slot + 0x400]), Channel6(ram[slot + 0x800]))
  }

  /** The three channel reads of a rebuild stay inside the window for any
      offset, and land on the plane the channel belongs to. */
  lemma ChannelReadsInBounds(offset: int)
    requires 0 <= offset
    ensures Slot(offset) + 0x800 < PalRamSize
    ensures Plane(Slot(offset) + 0x000) == 0
    ensures Plane(Slot(offset) + 0x400) == 1
    ensures Plane(Slot(offset) + 0x800) == 2
  {
  }

  /** Writes to the red, green and blue planes at one slot rebuild one pen. */
  lemma PlanesShareSlot(slot: int)
    requires 0 <= slot < PlaneSize
    ensures Slot(slot) == slot && Slot(slot + 0x400) == slot && Slot(slot + 0x800) == slot
  {
  }

  /** The palette-RAM write handler: stores `data` at `offset`, then
      rebuilds pen `offset & 0x3ff`.  Nothing else changes. */
  function PaletteRamWrite(p: PaletteState, offset: int, data: bv8): (p': PaletteState)
    requires Valid(p) && 0 <= offset < PalRamSize
    ensures Valid(p')
    ensures p'.ram[offset] == data
    ensures forall i :: 0 <= i < PalRamSize && i != offset ==> p'.ram[i] == p.ram[i]
    ensures forall k :: 0 <= k < PenCount && k != Slot(offset) ==> p'.pens[k] == p.pens[k]
    ensures p'.pens[Slot(offset)] == PenFromRam(p'.ram, Slot(offset))
  {
    var ram := p.ram[offset := data];
    var slot := Slot(offset);
    PaletteState(ram, p.pens[slot := PenFromRam(ram, slot)])
  }

  /** The written byte's low six bits become the channel of its plane; the
      other two channels of the pen keep what palette RAM held before. */
  lemma WriteSetsOneChannel(p: PaletteState, offset: int, data: bv8)
    requires Valid(p) && 0 <= offset < PalRamSize
    ensures var pen := PaletteRamWrite(p, offset, data).pens[Slot(offset)];
            var old_pen := PenFromRam(p.ram, Slot(offset));
            && (Plane(offset) == 0 ==> pen == Rgb666(Channel6(data), old_pen.g, old_pen.b))
            && (Plane(offset) == 1 ==> pen == Rgb666(old_pen.r, Channel6(data), old_pen.b))
            && (Plane(offset) == 2 ==> pen == Rgb666(old_pen.r, old_pen.g, Channel6(data)))
  {
  }

  /** Pen `k` agrees with palette RAM. */
  predicate PenInSync(p: PaletteState, k: int)
    requires Valid(p) && 0 <= k < PlaneSize
  {
    p.pens[k] == PenFromRam(p.ram, k)
  }

  /** A write keeps every pen that agreed with palette RAM in agreement,
      and brings the rebuilt pen into agreement: once each slot has been
      written, the pens are a function of palette RAM alone. */
  lemma WriteKeepsPensInSync(p: PaletteState, offset: int, data: bv8, k: int)
    requires Valid(p) && 0 <= offset < PalRamSize && 0 <= k < PlaneSize
    requires PenInSync(p, k) || k == Slot(offset)
    ensures PenInSync(PaletteRamWrite(p, offset, data), k)
  {
  }

  /** The debug palette entry `x`: red from bits 0-3, green from bits 2-5
      and blue from bits 4-7 of the entry number. */
  function DebugPen(x: bv8): (pen: Pen)
    ensures pen.Rgb444?
    ensures pen.r == x as int % 16
    ensures pen.b == x as int / 16
    ensures pen.g == (x as int / 4) % 16
  {
    Rgb444((x & 0x0f) as int, ((x & 0x3c) >> 2) as int, ((x & 0xf0) >> 4) as int)
  }

  /** The debug palette's channels are 4-bit fields of the entry number;
      green is not a field of its own but straddles red and blue. */
  lemma DebugPenChannels(x: bv8)
    ensures DebugPen(x).g == DebugPen(x).r / 4 + (DebugPen(x).b % 4) * 4
  {
  }

  /** The pens at power-on: the debug palette in the first 0x100 entries. */
  function InitialPens(): (pens: seq<Pen>)
    ensures |pens| == PenCount
    ensures forall x: bv8 :: pens[x as int] == DebugPen(x)
    ensures forall k :: DebugPenCount <= k < PenCount ==> pens[k] == Unset
  {
    seq(PenCount, k requires 0 <= k < PenCount => if k < DebugPenCount then DebugPen(k as bv8) else Unset)
  }
}
