/** The board's two write-only latches and the banked program ROM they
    serve.  The output latch picks which 0x8000-byte slice of the 0x20000
    byte program ROM appears at CPU addresses 0x0000-0x7fff; the tile-bank
    latch supplies bit 12 of every tile number. */
module Latches {

  /** Size of the program ROM region. */
  const RomSize: int := 0x20000

  /** The ROM bank is configured with four entries of 0x8000 bytes each,
      starting at the base of the program ROM. */
  const BankEntries: int := 4
  const BankEntrySize: int := 0x8000

  /** The entry the output latch selects: entry 1 when bit 3 of the data
      is set, entry 0 otherwise.  No value selects entries 2 or 3. */
  function OutputWrite(data: bv8): (entry: int)
    ensures 0 <= entry < BankEntries
    ensures entry == 1 <==> (data >> 3) % 2 == 1
    ensures entry == 0 <==> (data >> 3) % 2 == 0
  {
    if data & 8 != 0 then 1 else 0
  }

  /** Bits other than bit 3 do not affect the selected entry. */
  lemma OutputIgnoresOtherBits(d1: bv8, d2: bv8)
    requires d1 & 8 == d2 & 8
    ensures OutputWrite(d1) == OutputWrite(d2)
  {
  }

  /** The tile bank the tile-bank latch holds after `data` is written:
      bit 2 of the data, so always 0 or 1. */
  function TileBankWrite(data: bv8): (bank: bv8)
    ensures bank <= 1
    ensures bank == 1 <==> (data >> 2) % 2 == 1
  {
    (data & 4) >> 2
  }

  /** Bits other than bit 2 do not affect the tile bank. */
  lemma TileBankIgnoresOtherBits(d1: bv8, d2: bv8)
    requires d1 & 4 == d2 & 4
    ensures TileBankWrite(d1) == TileBankWrite(d2)
  {
  }

  /** The ROM offset of CPU address `addr` when `entry` is selected. */
  function BankedOffset(entry: int, addr: int): (offset: int)
    requires 0 <= entry < BankEntries && 0 <= addr < BankEntrySize
    ensures 0 <= offset < RomSize
    ensures offset / BankEntrySize == entry && offset % BankEntrySize == addr
  {
    entry * BankEntrySize + addr
  }

  /** The four configured entries exactly tile the program ROM: every ROM
      byte is reached through one entry and one CPU address. */
  lemma EntriesCoverRom(offset: int)
    requires 0 <= offset < RomSize
    ensures 0 <= offset / BankEntrySize < BankEntries
    ensures BankedOffset(offset / BankEntrySize, offset % BankEntrySize) == offset
  {
  }

  /** The entries reachable from the output latch cover the first 0x10000
      bytes of the program ROM only. */
  lemma OutputReachesLowHalf(data: bv8, addr: int)
    requires 0 <= addr < BankEntrySize
    ensures BankedOffset(OutputWrite(data), addr) < 2 * BankEntrySize
  {
  }
}
