# Poker Monarch board logic in Dafny

A model of the board-specific logic of the Poker Monarch (poker72) arcade
driver. The driver owns the tile-bank latch, the ROM-bank selection and the
contents of the main Z80's RAM windows. Everything else belongs to the host
emulator: rendering, the palette device, CPU execution and sound.

- `tile_decode.dfy` (`TileDecode`) decodes the tile word. Video-RAM byte 0
  and the low nibble of byte 1 form the 12-bit tile code. The tile-bank
  latch supplies bit 12. Bits 4, 5 and 6-7 of byte 1 are flip-X, flip-Y and
  the colour set. Every bit of the two bytes has exactly one meaning, so
  the decoder has an inverse (`EncodeCell`). Both round trips are proved.
- `screen.dfy` (`Screen`) is the screen refresh. It walks the 64x32 cells
  in row-major order, two bytes per cell, and draws each at (8x, 8y).
- `palette.dfy` (`Palette`) covers palette RAM, the pens built from it and
  the debug 4-4-4 palette loaded at start-up.
- `latches.dfy` (`Latches`) covers the output latch (ROM bank entry), the
  tile-bank latch and the banked-ROM offset arithmetic.
- `address_map.dfy` (`AddressMap`) is the Z80 program address map. Reads
  and writes are decoded separately.
- `machine.dfy` (`Machine`) is the driver state, with power-on, reset, CPU
  reads and writes dispatched through the address map, and the refresh of
  the current state.

Modelling choices:

- Bytes are `bv8`.
- The tile number is a `bv32`, matching the driver's 32-bit `int`. It never
  exceeds 20 bits, so nothing wraps.
- Pens hold the raw channel values the driver computes (6-bit from palette
  RAM, 4-bit in the debug palette). The host's scaling to 8 bits is not
  modelled.
- A read that nothing answers returns `HostDefault`. This includes the
  interrupt-acknowledge address, which is mapped as a silent no-op read.
- Writes to the sound chip's registers are returned as a `SoundWrite`
  effect.
- The comment "TODO: tile bank" on the tile computation at
  src/mame/drivers/poker72.cpp:89 is stale: line 94 ORs the bank in. The
  model follows the code.

## Model

| member | source | states |
|---|---|---|
| TileDecode.TileNumber | src/mame/drivers/poker72.cpp:89-94 | the ORed tile number equals bank*0x1000 + (b1 mod 16)*0x100 + b0, and is below 0x100000 |
| TileDecode.DecodeCell | src/mame/drivers/poker72.cpp:89-94 | flip-X is set iff bit 4 of byte 1 is set; flip-Y iff bit 5; the colour is byte 1 divided by 64, so 0..3; the cell is well formed |
| TileDecode.DecodeEncode | src/mame/drivers/poker72.cpp:89-94 | decoding the encoding of any well-formed cell, with the bank above bit 12, gives the cell back |
| TileDecode.EncodeDecode | src/mame/drivers/poker72.cpp:89-94 | re-encoding a decoded cell gives back both bytes and the bank, so no bit of the tile word is ignored |
| TileDecode.TileFieldsRecoverable | src/mame/drivers/poker72.cpp:89-94 | the tile number's low byte is b0, bits 8-11 are the low nibble of b1, and the part above bit 12 is the bank |
| TileDecode.TileInGraphicsRegion | src/mame/drivers/poker72.cpp:94 | with the bank at 0 or 1 the tile number is below 0x2000, the number of tiles in the 0x80000-byte graphics region |
| Screen.CellDraw | src/mame/drivers/poker72.cpp:89-96 | cell (x, y) decodes bytes 2*(64y+x) and the next one, and is drawn at (8x, 8y), with the whole 8x8 tile inside the 512x256 visible area |
| Screen.CellOffsetInBounds | src/mame/drivers/poker72.cpp:83-98 | both bytes a cell reads lie inside the 0x1000-byte video-RAM window |
| Screen.CellOfOffset | src/mame/drivers/poker72.cpp:83-98 | every video-RAM byte belongs to a cell, recovered from its offset |
| Screen.CellOffsetInjective | src/mame/drivers/poker72.cpp:83-98 | two cells never read the same bytes |
| Screen.ScreenUpdate | src/mame/drivers/poker72.cpp:81-103 | the walk makes 2048 draws; draw 64y+x is the draw of cell (x, y); draw k decodes video-RAM bytes 2k and 2k+1 and is placed at (8(k mod 64), 8(k div 64)) |
| Palette.Channel6 | src/mame/drivers/poker72.cpp:109-111 | a channel is the palette-RAM byte modulo 64, its low six bits |
| Palette.PenFromRam | src/mame/drivers/poker72.cpp:109-111 | red, green and blue of a rebuilt pen are the low six bits of the palette-RAM bytes at slot, slot+0x400 and slot+0x800 |
| Palette.ChannelReadsInBounds | src/mame/drivers/poker72.cpp:109-111 | the three channel reads stay inside the 0xc00-byte window for any offset, and hit the red, green and blue planes |
| Palette.PlanesShareSlot | src/mame/drivers/poker72.cpp:109-113 | writes at the same slot of any of the three planes rebuild the same pen |
| Palette.PaletteRamWrite | src/mame/drivers/poker72.cpp:105-114 | the byte is stored at the offset and every other palette-RAM byte is unchanged; only pen offset mod 0x400 changes, and it then matches palette RAM |
| Palette.WriteSetsOneChannel | src/mame/drivers/poker72.cpp:105-114 | the written byte's low 6 bits become its plane's channel of the pen; the other two channels are as palette RAM held them |
| Palette.WriteKeepsPensInSync | src/mame/drivers/poker72.cpp:105-114 | a pen that matched palette RAM still matches after any write, and the rebuilt pen matches whatever it was before |
| Palette.DebugPen | src/mame/drivers/poker72.cpp:369-371 | debug entry x has red x mod 16, green (x div 4) mod 16 and blue x div 16 |
| Palette.DebugPenChannels | src/mame/drivers/poker72.cpp:365-374 | green of a debug entry is not a field of its own: it is the top two bits of red below the bottom two bits of blue |
| Palette.InitialPens | src/mame/drivers/poker72.cpp:365-374 | the 0xe00 pens start with the debug palette in entries 0-0xff and nothing set above |
| Latches.OutputWrite | src/mame/drivers/poker72.cpp:116-127 | entry 1 is selected iff bit 3 of the data is set, entry 0 otherwise |
| Latches.OutputIgnoresOtherBits | src/mame/drivers/poker72.cpp:123-126 | two values with the same bit 3 select the same entry |
| Latches.TileBankWrite | src/mame/drivers/poker72.cpp:129-132 | the tile bank becomes bit 2 of the data, so it is 0 or 1 |
| Latches.TileBankIgnoresOtherBits | src/mame/drivers/poker72.cpp:131 | two values with the same bit 2 give the same tile bank |
| Latches.BankedOffset | src/mame/drivers/poker72.cpp:431 | with entry e < 4 and address a < 0x8000 the ROM offset lies inside the 0x20000-byte ROM, in slice e at position a |
| Latches.EntriesCoverRom | src/mame/drivers/poker72.cpp:431 | the four configured entries reach every ROM byte through exactly one (entry, address) pair |
| Latches.OutputReachesLowHalf | src/mame/drivers/poker72.cpp:123-126 | the output latch only ever exposes the first 0x10000 bytes of the ROM |
| AddressMap.RamOf | src/mame/drivers/poker72.cpp:137-154 | an address in a RAM window maps to an in-range offset, and the offset plus the window base is the address |
| AddressMap.Decode | src/mame/drivers/poker72.cpp:136-154 | ROM, ports and the interrupt acknowledge are reached only by reads; the latches and the sound-chip address register only by writes; offsets are in range |
| AddressMap.DecodeHasAddress | src/mame/drivers/poker72.cpp:136-154 | every mapped access reaches a target whose address is the one accessed |
| AddressMap.AddressDecodes | src/mame/drivers/poker72.cpp:136-154 | every reachable target is decoded from its own address, so no entry overlaps or shadows another |
| AddressMap.RamReadWriteAgree | src/mame/drivers/poker72.cpp:137-154 | a RAM address decodes to the same window and offset for reads and writes |
| Machine.PowerOn | src/mame/drivers/poker72.cpp:74-79 | at power-on the tile bank is 0, ROM entry 0 is selected, and pens 0-0xff hold the debug palette |
| Machine.Reset | src/mame/drivers/poker72.cpp:376-379 | reset selects entry 0 and leaves every other part of the state unchanged |
| Machine.Read | src/mame/drivers/poker72.cpp:134-154 | a read below 0x8000 returns the ROM byte at entry*0x8000 plus the address; a RAM read returns the byte at the decoded window and offset, e.g. video RAM byte a-0xe000 and palette RAM byte a-0xf000; an input-port read returns that port (0xfe08 is SW1, 0xfe0e is SW6), 0xfe40 returns the sound chip's data register, and 0xfe17 and unmapped reads return the host's default |
| Machine.StoreRam | src/mame/drivers/poker72.cpp:137-154 | a plain RAM store sets the addressed byte, leaves every other byte of every window unchanged, and leaves the latches and the palette state unchanged |
| Machine.Write | src/mame/drivers/poker72.cpp:134-154 | only 0xfe22 changes the tile bank, to bit 2; only 0xfe20 changes the entry, to bit 3; only 0xfe40 and 0xfe60 reach the sound chip; a write at 0xe000+o sets video RAM byte o; a write at 0xf000+o runs the palette handler on offset o; other RAM writes are plain stores and leave the palette state unchanged; writes elsewhere outside RAM change nothing; validity is kept |
| Machine.ReadAfterWrite | src/mame/drivers/poker72.cpp:137-154 | reading a RAM address after writing it returns the written byte, palette RAM included |
| Machine.WriteLeavesOtherBytes | src/mame/drivers/poker72.cpp:137-154 | a write changes no RAM byte at any other address |
| Machine.RomReadAfterOutputWrite | src/mame/drivers/poker72.cpp:116-127 | after an output-latch write the ROM window shows the entry the data selected |
| Machine.RomReadAfterReset | src/mame/drivers/poker72.cpp:376-379 | after reset the ROM window shows the first 0x8000 ROM bytes |
| Machine.Refresh | src/mame/drivers/poker72.cpp:81-103 | refreshing a valid state draws 2048 cells from video RAM with the current bank, and every tile drawn exists in the graphics region |
| Machine.VramWriteTouchesOneCell | src/mame/drivers/poker72.cpp:83-98 | a video-RAM write changes the draw of only the cell its byte belongs to |

## Left out

- Drawing (`gfx(0)->opaque`) and the planar graphics layout: the model stops at the arguments of each draw call.
- `pal6bit`, `pal4bit` and `set_pen_color`: pens keep the raw channel values, so the scaling to 8 bits is not modelled.
- `logerror` and `save_item`: host logging and save-state registration, with no effect on the board state.
- `configure_entries` and `set_entry`: modelled only as the entry number and the offset arithmetic of the ROM bank.
- The input-port tables (DIP switches and buttons): declarative, with no behaviour. Port reads return which port was read.
- The sound chip, its two DIP-switch ports, the I80C51 sub-CPU, the machine configuration and screen timing: host devices and configuration.
- The values returned by unmapped reads and by the interrupt-acknowledge read come from the host. Interrupt generation and acknowledgement are not modelled.
- The one-byte program-ROM patch in `init_poker72`: a debugging hack on ROM contents, which the model takes as a parameter.
- Machine.PowerOn: RAM contents at power-on come from the host and are taken as parameters. The function gathers `video_start`, the palette init, `init_poker72` and `machine_reset` into one step, because their call order belongs to the host.
- src/devices/bus/archimedes/podule/midimax.h is a device-type declaration with no logic and is not part of this model.
