/** The main Z80's program address map: which device or memory answers a
    read or a write at each 16-bit address. */
module AddressMap {

  /** A 16-bit Z80 address. */
  type Addr = a: int | 0 <= a < 0x10000

  datatype Access = Read | Write

  /** The DIP-switch banks and button ports the CPU reads directly. */
  datatype InputPort = SW1 | IN1 | IN2 | SW4 | SW5 | SW6

  /** The RAM windows.  Palette RAM is read as plain RAM but written
      through the palette handler. */
  datatype Ram = WorkRam | VideoRam | PaletteRam | ScratchRam | HighRam

  /** What answers an access: the banked ROM, a RAM window (with the
      offset into it), an input port, the interrupt-acknowledge address
      (read, no effect), the output and tile-bank latches (write), the
      sound chip's data and address registers, or nothing. */
  datatype Target =
    | BankedRom(offset: int)
    | RamAt(ram: Ram, offset: int)
    | Port(port: InputPort)
    | IrqAck
    | OutputLatch
    | TileBankLatch
    | AyData
    | AyAddress
    | Unmapped

  function RamBase(r: Ram): int
  {
    match r
    case WorkRam => 0xc000
    case VideoRam => 0xe000
    case PaletteRam => 0xf000
    case ScratchRam => 0xfc00
    case HighRam => 0xff00
  }

  function RamSize(r: Ram): int
  {
    match r
    case WorkRam => 0x2000
    case VideoRam => 0x1000
    case PaletteRam => 0xc00
    case ScratchRam => 0x200
    case HighRam => 0x100
  }

  function PortAddress(p: InputPort): int
  {
    match p
    case SW1 => 0xfe08
    case IN1 => 0xfe09
    case IN2 => 0xfe0a
    case SW4 => 0xfe0c
    case SW5 => 0xfe0d
    case SW6 => 0xfe0e
  }

  /** The RAM window holding `a`, if any. */
  function RamOf(a: Addr): (t: Target)
    ensures t.RamAt? || t.Unmapped?
    ensures t.RamAt? ==> 0 <= t.offset < RamSize(t.ram) && RamBase(t.ram) + t.offset == a
  {
    if 0xc000 <= a <= 0xdfff then RamAt(WorkRam, a - 0xc000)
    else if 0xe000 <= a <= 0xefff then RamAt(VideoRam, a - 0xe000)
    else if 0xf000 <= a <= 0xfbff then RamAt(PaletteRam, a - 0xf000)
    else if 0xfc00 <= a <= 0xfdff then RamAt(ScratchRam, a - 0xfc00)
    else if 0xff00 <= a <= 0xffff then RamAt(HighRam, a - 0xff00)
    else Unmapped
  }

  /** Decodes one access.  The ROM window is read-only; input ports and
      the interrupt acknowledge are read-only; the latches and the sound
      chip's address register are write-only; its data register and the
      RAM windows take both. */
  function Decode(a: Addr, acc: Access): (t: Target)
    ensures t.BankedRom? ==> acc == Read && t.offset == a && a < 0x8000
    ensures t.RamAt? ==> 0 <= t.offset < RamSize(t.ram) && RamBase(t.ram) + t.offset == a
    ensures t.Port? ==> acc == Read && PortAddress(t.port) == a
    ensures (t.IrqAck? || t.Port?) ==> acc == Read
    ensures (t.OutputLatch? || t.TileBankLatch? || t.AyAddress?) ==> acc == Write
  {
    if a <= 0x7fff then
      (if acc == Read then BankedRom(a) else Unmapped)
    else if RamOf(a).RamAt? then RamOf(a)
    else
      match acc
      case Read =>
        if a == 0xfe08 then Port(SW1)
        else if a == 0xfe09 then Port(IN1)
        else if a == 0xfe0a then Port(IN2)
        else if a == 0xfe0c then Port(SW4)
        else if a == 0xfe0d then Port(SW5)
        else if a == 0xfe0e then Port(SW6)
        else if a == 0xfe17 then IrqAck
        else if a == 0xfe40 then AyData
        else Unmapped
      case Write =>
        if a == 0xfe20 then OutputLatch
        else if a == 0xfe22 then TileBankLatch
        else if a == 0xfe40 then AyData
        else if a == 0xfe60 then AyAddress
        else Unmapped
  }

  /** Whether `t` is something an access of kind `acc` can reach. */
  predicate Reachable(t: Target, acc: Access)
  {
    match t
    case BankedRom(o) => acc == Read && 0 <= o < 0x8000
    case RamAt(r, o) => 0 <= o < RamSize(r)
    case Port(_) => acc == Read
    case IrqAck => acc == Read
    case OutputLatch => acc == Write
    case TileBankLatch => acc == Write
    case AyData => true
    case AyAddress => acc == Write
    case Unmapped => false
  }

  /** The CPU address of a reachable target. */
  function AddressOf(t: Target): int
  {
    match t
    case BankedRom(o) => o
    case RamAt(r, o) => RamBase(r) + o
    case Port(p) => PortAddress(p)
    case IrqAck => 0xfe17
    case OutputLatch => 0xfe20
    case TileBankLatch => 0xfe22
    case AyData => 0xfe40
    case AyAddress => 0xfe60
    case Unmapped => -1
  }

  /** Every access that reaches something reaches a target whose address
      is the one accessed. */
  lemma DecodeHasAddress(a: Addr, acc: Access)
    requires !Decode(a, acc).Unmapped?
    ensures Reachable(Decode(a, acc), acc)
    ensures AddressOf(Decode(a, acc)) == a
  {
  }

  /** Every reachable target is decoded from its own address: no two
      entries of the map overlap and none is shadowed. */
  lemma AddressDecodes(t: Target, acc: Access)
    requires Reachable(t, acc)
    ensures 0 <= AddressOf(t) < 0x10000
    ensures Decode(AddressOf(t) as Addr, acc) == t
  {
  }

  /** The RAM windows are mapped for both reads and writes, at the same
      offset. */
  lemma RamReadWriteAgree(a: Addr)
    requires Decode(a, Write).RamAt?
    ensures Decode(a, Read) == Decode(a, Write)
  {
  }
}
