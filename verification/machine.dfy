/** The board state the driver owns and the bus operations on it: CPU
    reads and writes dispatched through the address map, the latch and
    palette handlers they reach, power-on and reset, and the screen
    refresh of the current state. */
module Machine {
  import opened AddressMap
  import TileDecode
  import Screen
  import Palette
  import Latches

  /** The driver's state: the tile-bank latch, the selected ROM bank entry
      and the contents of every RAM window, palette RAM together with the
      pens built from it. */
  datatype State = State(
    tileBank: bv8,
    romEntry: int,
    workRam: seq<bv8>,
    vram: seq<bv8>,
    palette: Palette.PaletteState,
    scratchRam: seq<bv8>,
    highRam: seq<bv8>)

  /** The state every operation keeps: the tile bank is 0 or 1, the entry
      is one the output latch can select, and each RAM has its window's
      size. */
  predicate Valid(s: State)
  {
    && s.tileBank <= 1
    && 0 <= s.romEntry <= 1
    && |s.workRam| == RamSize(WorkRam)
    && |s.vram| == RamSize(VideoRam)
    && Palette.Valid(s.palette)
    && |s.scratchRam| == RamSize(ScratchRam)
    && |s.highRam| == RamSize(HighRam)
  }

  /** What a read returns: a byte of ROM or RAM, the value of an input
      port or of the sound chip's data register, or the value the host
      supplies for an address nothing answers (the interrupt-acknowledge
      read included). */
  datatype ReadResult = Value(v: bv8) | FromPort(port: InputPort) | FromAy | HostDefault

  /** What a write passes on to the sound chip, if anything. */
  datatype SoundWrite = NoSound | AyDataWrite(v: bv8) | AyAddressWrite(v: bv8)

  datatype Step = Step(state: State, sound: SoundWrite)

  /** The byte held at `offset` of RAM window `r`. */
  function RamByte(s: State, r: Ram, offset: int): bv8
    requires Valid(s) && 0 <= offset < RamSize(r)
  {
    match r
    case WorkRam => s.workRam[offset]
    case VideoRam => s.vram[offset]
    case PaletteRam => s.palette.ram[offset]
    case ScratchRam => s.scratchRam[offset]
    case HighRam => s.highRam[offset]
  }

  /** The state at power-on: the tile bank cleared when video starts, ROM
      bank entry 0 selected at initialisation and again at reset, and the
      pens loaded with the debug palette.  RAM contents at power-on are
      the host's and are taken as given. */
  function PowerOn(workRam: seq<bv8>, vram: seq<bv8>, palRam: seq<bv8>,
                   scratchRam: seq<bv8>, highRam: seq<bv8>): (s: State)
    requires |workRam| == 0x2000 && |vram| == 0x1000 && |palRam| == 0xc00
    requires |scratchRam| == 0x200 && |highRam| == 0x100
    ensures Valid(s)
    ensures s.tileBank == 0 && s.romEntry == 0
    ensures forall x: bv8 :: s.palette.pens[x as int] == Palette.DebugPen(x)
    ensures s.vram == vram && s.palette.ram == palRam
  {
    State(0, 0, workRam, vram, Palette.PaletteState(palRam, Palette.InitialPens()), scratchRam, highRam)
  }

  /** Machine reset selects ROM bank entry 0 and touches nothing else. */
  function Reset(s: State): (s': State)
    requires Valid(s)
    ensures Valid(s')
    ensures s'.romEntry == 0
    ensures s'.tileBank == s.tileBank && s'.vram == s.vram && s'.palette == s.palette
    ensures s'.workRam == s.workRam && s'.scratchRam == s.scratchRam && s'.highRam == s.highRam
  {
    s.(romEntry := 0)
  }

  /** A CPU read at `a`, with `rom` the 0x20000-byte program ROM. */
  function Read(s: State, rom: seq<bv8>, a: Addr): (r: ReadResult)
    requires Valid(s) && |rom| == Latches.RomSize
    ensures a < 0x8000 ==> r == Value(rom[s.romEntry * 0x8000 + a])
    ensures var t := Decode(a, AddressMap.Read);
            t.RamAt? ==> r == Value(RamByte(s, t.ram, t.offset))
    ensures 0xe000 <= a <= 0xefff ==> r == Value(s.vram[a - 0xe000])
    ensures 0xf000 <= a <= 0xfbff ==> r == Value(s.palette.ram[a - 0xf000])
    ensures var t := Decode(a, AddressMap.Read);
            && (t.Port? ==> r == FromPort(t.port))
            && (t.AyData? ==> r == FromAy)
            && ((t.IrqAck? || t.Unmapped?) ==> r == HostDefault)
    ensures a == 0xfe08 ==> r == FromPort(SW1)
    ensures a == 0xfe0e ==> r == FromPort(SW6)
    ensures a == 0xfe40 ==> r == FromAy
    ensures a == 0xfe17 ==> r == HostDefault
  {
    match Decode(a, AddressMap.Read)
    case BankedRom(o) => Value(rom[Latches.BankedOffset(s.romEntry, o)])
    case RamAt(ram, o) => Value(RamByte(s, ram, o))
    case Port(p) => FromPort(p)
    case AyData => FromAy
    case _ => HostDefault
  }

  /** A RAM window after a plain store of `data` at `offset`. */
  function StoreRam(s: State, r: Ram, offset: int, data: bv8): (s': State)
    requires Valid(s) && 0 <= offset < RamSize(r) && r != PaletteRam
    ensures Valid(s')
    ensures RamByte(s', r, offset) == data
    ensures forall r2, o2 :: 0 <= o2 < RamSize(r2) && (r2 != r || o2 != offset) ==>
              RamByte(s', r2, o2) == RamByte(s, r2, o2)
    ensures s'.tileBank == s.tileBank && s'.romEntry == s.romEntry && s'.palette == s.palette
  {
    match r
    case WorkRam => s.(workRam := s.workRam[offset := data])
    case VideoRam => s.(vram := s.vram[offset := data])
    case ScratchRam => s.(scratchRam := s.scratchRam[offset := data])
    case HighRam => s.(highRam := s.highRam[offset := data])
  }

  /** A CPU write of `data` at `a`: RAM windows store the byte (palette RAM
      through its handler), the latches update their fields, the sound
      chip's registers receive the byte, and unmapped writes are dropped. */
  function Write(s: State, a: Addr, data: bv8): (st: Step)
    requires Valid(s)
    ensures Valid(st.state)
    ensures a != 0xfe22 ==> st.state.tileBank == s.tileBank
    ensures a != 0xfe20 ==> st.state.romEntry == s.romEntry
    ensures a == 0xfe22 ==> st.state == s.(tileBank := if (data >> 2) % 2 == 1 then 1 else 0)
    ensures a == 0xfe20 ==> st.state == s.(romEntry := if (data >> 3) % 2 == 1 then 1 else 0)
    ensures st.sound == (if a == 0xfe40 then AyDataWrite(data)
                         else if a == 0xfe60 then AyAddressWrite(data) else NoSound)
    ensures !Decode(a, AddressMap.Write).RamAt? && a != 0xfe20 && a != 0xfe22 ==> st.state == s
    ensures 0xe000 <= a <= 0xefff ==> st.state == s.(vram := s.vram[a - 0xe000 := data])
    ensures 0xf000 <= a <= 0xfbff ==>
              st.state == s.(palette := Palette.PaletteRamWrite(s.palette, a - 0xf000, data))
    ensures var t := Decode(a, AddressMap.Write);
            t.RamAt? && t.ram != PaletteRam ==> st.state == StoreRam(s, t.ram, t.offset, data)
    ensures !(0xf000 <= a <= 0xfbff) ==> st.state.palette == s.palette
  {
    match Decode(a, AddressMap.Write)
    case RamAt(PaletteRam, o) => Step(s.(palette := Palette.PaletteRamWrite(s.palette, o, data)), NoSound)
    case RamAt(r, o) => Step(StoreRam(s, r, o, data), NoSound)
    case OutputLatch => Step(s.(romEntry := Latches.OutputWrite(data)), NoSound)
    case TileBankLatch => Step(s.(tileBank := Latches.TileBankWrite(data)), NoSound)
    case AyData => Step(s, AyDataWrite(data))
    case AyAddress => Step(s, AyAddressWrite(data))
    case _ => Step(s, NoSound)
  }

  /** A read of a RAM address returns the byte the last write there stored,
      palette RAM included. */
  lemma ReadAfterWrite(s: State, rom: seq<bv8>, a: Addr, data: bv8)
    requires Valid(s) && |rom| == Latches.RomSize
    requires Decode(a, AddressMap.Write).RamAt?
    ensures Read(Write(s, a, data).state, rom, a) == Value(data)
  {
  }

  /** A write changes no RAM byte other than the one it addresses. */
  lemma WriteLeavesOtherBytes(s: State, rom: seq<bv8>, a: Addr, b: Addr, data: bv8)
    requires Valid(s) && |rom| == Latches.RomSize
    requires a != b && Decode(b, AddressMap.Read).RamAt?
    ensures Read(Write(s, a, data).state, rom, b) == Read(s, rom, b)
  {
  }

  /** A ROM read always lands inside the program ROM, in the entry the last
      output-latch write selected. */
  lemma RomReadAfterOutputWrite(s: State, rom: seq<bv8>, data: bv8, a: Addr)
    requires Valid(s) && |rom| == Latches.RomSize && a < 0x8000
    ensures Read(Write(s, 0xfe20, data).state, rom, a)
            == Value(rom[Latches.OutputWrite(data) * Latches.BankEntrySize + a])
  {
  }

  /** After reset the ROM window shows entry 0 whatever was selected. */
  lemma RomReadAfterReset(s: State, rom: seq<bv8>, a: Addr)
    requires Valid(s) && |rom| == Latches.RomSize && a < 0x8000
    ensures Read(Reset(s), rom, a) == Value(rom[a])
  {
  }

  /** The screen the current state shows: the refresh walk over video RAM
      with the current tile bank.  Every tile drawn exists in the graphics
      region because the tile bank is 0 or 1. */
  method Refresh(s: State) returns (draws: seq<Screen.Draw>)
    requires Valid(s)
    ensures |draws| == Screen.CellCount
    ensures forall k :: 0 <= k < |draws| ==> draws[k].cell.tile as int < TileDecode.TileCount
    ensures forall k :: 0 <= k < |draws| ==>
              draws[k].cell == TileDecode.DecodeCell(s.vram[2 * k], s.vram[2 * k + 1], s.tileBank)
  {
    draws := Screen.ScreenUpdate(s.vram, s.tileBank);
    forall k | 0 <= k < |draws|
      ensures draws[k].cell.tile as int < TileDecode.TileCount
    {
      TileDecode.TileInGraphicsRegion(s.vram[2 * k], s.vram[2 * k + 1], s.tileBank);
    }
  }

  /** A write to video RAM changes the draw of the one cell it belongs to;
      every other cell draws as before. */
  lemma VramWriteTouchesOneCell(s: State, a: Addr, data: bv8, k: int)
    requires Valid(s) && 0xe000 <= a <= 0xefff
    requires 0 <= k < Screen.CellCount && k != (a - 0xe000) / 2
    ensures var s' := Write(s, a, data).state;
            TileDecode.DecodeCell(s'.vram[2 * k], s'.vram[2 * k + 1], s'.tileBank)
            == TileDecode.DecodeCell(s.vram[2 * k], s.vram[2 * k + 1], s.tileBank)
  {
  }
}
