# A Dafny model of the DMG-2025 Game Boy emulator core

DMG-2025 is a Game Boy (DMG) emulator written in Rust. This project models the
hardware-simulation core of its `src/cpu/` directory and proves properties of
that model. The modules follow the source files:

- **Bits**: byte and word helpers shared by the CPU-side modules. Rust's `to_be_bytes`, `from_le_bytes`, `wrapping_add` and `wrapping_add_signed` on `u16` are written out arithmetically.
- **Registers** (`memory.rs`, lines 1-59 and the register accessors): the flag register with its byte conversions, and the register file as one value with 8- and 16-bit reads and writes.
- **Memory** (`memory.rs`): the `Memory` class with its six region arrays, region-mapped byte access, operand fetch and the stack.
- **ReadWrite** (`readwrite.rs`): the address bus. Every access goes to the first target, in the order mem, ppu, io, that claims the address. On top of it sit the 16-bit read, operand fetch, push and pop.
- **Alu** and **Opcodes** (`opcodes.rs`):
  - **Alu**: the flag arithmetic (`add_a`, `sub_a`, `and_a`, `xor_a`, `or_a`, `rotate`, DAA, INC/DEC, the 16-bit additions, the CB table), as functions from old values to new ones.
  - **Opcodes**: the decoding helpers and `execute`, as a CPU class. One method per opcode group states the exact new registers, memory and M-cycle count.
- **Interrupts** (`interrupts.rs`): IE, IF and IME, interrupt requests, and the dispatch of the highest-priority pending interrupt to its vector.
- **Io** (`io.rs`): the timer (TIMA, TMA, TAC) and the IO block at 0xFF00-0xFF07.
- **Input** (`input.rs`): the joypad register.
- **Mbc** (`mbc.rs`): `mask_bank_number` and the NoMBC, MBC1 and MBC3 cartridge controllers.
- **Ppu** (`ppu.rs`): the pixel processing unit:
  - dot and line timing, mode changes, and VBLANK and LCD requests;
  - background and window rendering into the back display, and the front/back swap;
  - the VRAM, OAM and LCD register ports.
- **Apu** (`apu.rs`): the two square channels (registers, length timer, envelope, period divider, duty table) and the APU clocking them and collecting samples.

Representation choices:

- Bytes the CPU masks and shifts are `bv8`.
- Addresses, `pc`, `sp` and register pairs are the integer type `Bits.u16`.
- The APU's `u8` and `u16` counters and register fields are the integer types `Bits.u8` and `Bits.u16`. Their bit packing is written as arithmetic, for example `|` of disjoint fields as `+`.
- Wrapping `u16` arithmetic is `Wrap16` (mod 2^16). The plain `+= 1`, `- 1` and `+ 1` on `pc`, `sp` and addresses are taken with release-build (wrapping) semantics.
- A `u8` `+= 1` that could overflow is either excluded by a precondition or kept in range by a class invariant (`Valid`).

Where the source is wrong, the model follows it as written and says so in the contract:

- `Memory.push` stores the low byte at `sp-1` and the high byte at `sp-2`. `pop` therefore returns the pushed word with its bytes swapped. `readwrite.rs`'s `push` writes them the right way round.
- PPU STAT reads `stat_enable & lyc & mode`, which is always 0.
- MBC1's RAM read masks the bank register and its RAM write does not. So on a cartridge with two RAM banks in advanced mode with the register at 2 or 3, a write is dropped where the read would find bank 0 or 1 (`Mbc.Mbc1.RamOffsetsAgree`).

## Model

| member | source | states |
|---|---|---|
| Bits.Hi | src/cpu/memory.rs:191-192 | the first byte of `to_be_bytes` is the word divided by 256 |
| Bits.Lo | src/cpu/memory.rs:191-193 | the second byte of `to_be_bytes` is the word mod 256 |
| Bits.Join | src/cpu/memory.rs:142-145 | `from_be_bytes([hi, lo])` is the number `hi * 256 + lo` |
| Bits.SplitJoin | src/cpu/memory.rs:140-149 | splitting a joined word gives back both bytes |
| Bits.JoinSplit | src/cpu/memory.rs:188-209 | joining the two bytes of a word gives back the word |
| Bits.Signed8 | src/cpu/opcodes.rs:24 | `as i8` gives a value in -128..127 congruent to the byte mod 256 |
| Registers.FlagsToByte | src/cpu/memory.rs:42-59 | bit 7 is set iff Z, bit 6 iff N, bit 5 iff H, bit 4 iff C; the low nibble is always 0 |
| Registers.FlagsFromByte | src/cpu/memory.rs:31-40 | reading a byte keeps exactly its high nibble: converting the flags back gives `value & 0xF0` |
| Registers.FlagsRoundTrip | src/cpu/memory.rs:31-59 | converting flags to a byte and back gives the same flags |
| Registers.RegisterFile.Get | src/cpu/memory.rs:127-138 | reading F gives a byte whose low nibble is 0 |
| Registers.RegisterFile.Set | src/cpu/memory.rs:175-186 | the written register reads back as the value (F as `value & 0xF0`); every other register, SP and PC are unchanged |
| Registers.RegisterFile.Get16 | src/cpu/memory.rs:140-149 | a pair reads big-endian, high register times 256 plus low register; SP and PC read directly |
| Registers.RegisterFile.Set16 | src/cpu/memory.rs:188-213 | the high byte goes to the high register and the low byte to the low one (masked to `& 0xF0` for F); SP and PC change only when written |
| Registers.MaskedWord | src/cpu/memory.rs:190-194 | the word rebuilt after the AF write is `v - v % 16`, that is `v & 0xFFF0` |
| Registers.Set16Get16 | src/cpu/memory.rs:188-213 | writing a pair and reading it back gives the word, except that AF loses the low nibble of F |
| Registers.Set16Frame | src/cpu/memory.rs:188-213 | writing a pair changes no 8-bit register outside it |
| Registers.Set16Others | src/cpu/memory.rs:188-213 | writing one pair leaves every other pair, SP and PC unchanged |
| Memory.Memory.Locate | src/cpu/memory.rs:111-121 | each mapped address goes to an in-bounds offset of one of the six region arrays |
| Memory.Memory.LocateInjective | src/cpu/memory.rs:163-173 | distinct mapped addresses are distinct array cells |
| Memory.Memory.WriteMem | src/cpu/memory.rs:163-173 | the written address reads back the value and every other mapped address keeps its byte |
| Memory.Memory.constructor | src/cpu/memory.rs:84-103 | boot registers (SP 0xFFFE, PC 0x0100, all else 0), the first two 16 KiB of the ROM image loaded, VRAM, WRAM, OAM and HRAM zeroed |
| Memory.Memory.ReadMem | src/cpu/memory.rs:111-121 | each of the six ranges reads its own region at the address minus the range's start: ROM bank 0, the switchable bank, VRAM, WRAM, OAM and HRAM |
| Memory.Memory.ReadMem16 | src/cpu/memory.rs:123-125 | little-endian: the byte at the address is the low byte, the next one the high byte |
| Memory.Memory.WriteReg | src/cpu/memory.rs:175-186 | the register file changes exactly as `RegisterFile.Set` says |
| Memory.Memory.WriteReg16 | src/cpu/memory.rs:188-213 | the register file changes exactly as `RegisterFile.Set16` says |
| Memory.Memory.ReadOperand | src/cpu/memory.rs:151-155 | pc steps by one and the byte at the new pc is returned |
| Memory.Memory.ReadOperand16 | src/cpu/memory.rs:157-161 | pc steps by two and the little-endian word after the opcode is returned |
| Memory.Memory.Pop | src/cpu/memory.rs:215-220 | returns the little-endian word at sp and raises sp by two |
| Memory.Memory.Push | src/cpu/memory.rs:222-228 | sp drops by two, the low byte is at old sp-1 and the high byte at the new sp, so the word read at sp is the value byte-swapped; no other byte changes |
| ReadWrite.TargetWrite | src/cpu/readwrite.rs:3-11 | a storage target keeps its ranges, reads back the written byte and keeps every other byte |
| ReadWrite.FirstClaim | src/cpu/readwrite.rs:15-26 | finds the first target with a range containing the address; no target before it has one; none means no target has one |
| ReadWrite.BusWrite | src/cpu/readwrite.rs:34-44 | a bus write keeps the number of targets and every target's ranges |
| ReadWrite.FirstClaimAt | src/cpu/readwrite.rs:17-23 | a claiming target preceded only by non-claiming ones is the first claim |
| ReadWrite.FirstClaimSameRanges | src/cpu/readwrite.rs:3-6 | which target serves an address depends only on the ranges |
| ReadWrite.ReadAfterWrite | src/cpu/readwrite.rs:15-44 | a written byte reads back at its address when some target claims it, and 0 when none does |
| ReadWrite.ReadAfterWriteElsewhere | src/cpu/readwrite.rs:15-44 | a write leaves the byte read at every other address unchanged |
| ReadWrite.Cpu.Read | src/cpu/readwrite.rs:15-26 | the nested search returns the first claiming target's byte, or 0 when no target claims the address |
| ReadWrite.Cpu.Read16 | src/cpu/readwrite.rs:29-31 | the little-endian word of the bus bytes at the address and the next one |
| ReadWrite.Cpu.Write | src/cpu/readwrite.rs:34-44 | only the first claiming target stores the byte; with no claimer nothing changes |
| ReadWrite.Cpu.ReadOperand | src/cpu/readwrite.rs:47-50 | pc steps by one (nothing else in the registers changes) and the bus byte at the new pc is returned |
| ReadWrite.Cpu.ReadOperand16 | src/cpu/readwrite.rs:53-56 | pc steps by two and the word at old pc+1 and pc+2 is returned |
| ReadWrite.Cpu.Pop | src/cpu/readwrite.rs:59-63 | the word at sp is returned and sp rises by two |
| ReadWrite.Cpu.Push | src/cpu/readwrite.rs:66-71 | the high byte is written at sp-1, then the low byte at sp-2, and sp drops by two |
| ReadWrite.PushThenPop | src/cpu/readwrite.rs:59-71 | when both stack bytes are claimed, popping right after a push gives the pushed word back |
| Interrupts.Interrupt.Index | src/cpu/interrupts.rs:6-14 | the priority rank and bit position is one of 0..4 |
| Interrupts.Interrupt.Bit | src/cpu/interrupts.rs:6-14 | each interrupt's flag is the single bit at its rank |
| Interrupts.Interrupt.Vector | src/cpu/interrupts.rs:75-82 | the handler address is 0x40 + 8 * rank |
| Interrupts.Highest | src/cpu/interrupts.rs:99-109 | the chosen interrupt is pending and no interrupt of higher priority is pending |
| Interrupts.HighestUnique | src/cpu/interrupts.rs:92-115 | a pending interrupt with no higher-priority one pending is the one chosen |
| Interrupts.WithRequest | src/cpu/interrupts.rs:67-70 | `insert` sets the interrupt's bit and leaves every other bit, and keeps IF within five bits |
| Interrupts.WithoutRequest | src/cpu/interrupts.rs:74 | `remove` clears the interrupt's bit and leaves every other bit |
| Interrupts.InterruptState.constructor | src/cpu/interrupts.rs:28-35 | nothing enabled, requested or executing, IME off |
| Interrupts.InterruptState.MemRead | src/cpu/interrupts.rs:43-49 | IF and IE read with bits 5-7 clear |
| Interrupts.InterruptState.MemWrite | src/cpu/interrupts.rs:51-57 | the addressed register reads back the value's five interrupt bits and the other register is unchanged |
| Interrupts.Cpu.UpdateInput | src/cpu/interrupts.rs:61-65 | the button's bit becomes `!pressed`, other buttons keep theirs, and a joypad interrupt is requested |
| Interrupts.Cpu.RequestInterrupt | src/cpu/interrupts.rs:67-70 | only the interrupt's IF bit is set |
| Interrupts.Cpu.RunInterrupt | src/cpu/interrupts.rs:72-88 | the IF bit is cleared, pc is pushed onto the bus stack, pc becomes the vector, executing is set and 5 cycles are charged |
| Interrupts.Cpu.CheckForInterrupt | src/cpu/interrupts.rs:90-115 | nothing changes without an enabled pending request; otherwise halt is left; an interrupt is serviced iff one is pending and IME is set, and then it is the highest-priority one, IME is cleared and its handler is entered |
| Io.RateTarget | src/cpu/io.rs:73-79 | the divider period is one of 255, 4, 16 and 64 |
| Io.DisabledTimerStays | src/cpu/io.rs:51-54 | any number of cycles of a disabled timer changes nothing |
| Io.TimerStepBounded | src/cpu/io.rs:51-68 | a cycle keeps the divider within 0..=target and keeps the target |
| Io.RunBeforeTick | src/cpu/io.rs:65-67 | until the divider reaches the target, cycles only count it up |
| Io.TimerPeriod | src/cpu/io.rs:51-68 | from a divider restart, the counter is untouched for `target` cycles and steps on the `target + 1`-th |
| Io.OverflowOnWrap | src/cpu/io.rs:56-64 | after a divider period, an overflow is signalled iff the counter was 255; the counter is then the modulo, otherwise it is one higher |
| Io.Timer.constructor | src/cpu/io.rs:39-49 | stopped, zeroed, divider period 255 |
| Io.Timer.Cycle | src/cpu/io.rs:51-68 | one cycle takes the timer state to `TimerStep` of it, the step the lemmas above are about |
| Io.Timer.Control | src/cpu/io.rs:70-80 | TAC keeps its low three bits, bit 2 enables, bits 0-1 select 255, 4, 16 or 64 |
| Io.IO.constructor | src/cpu/io.rs:122-128 | joypad with no selects and all buttons released, serial 0, timer as `Timer::new` |
| Io.IO.MemRead | src/cpu/io.rs:136-148 | 0xFF00 reads the joypad register's nibble (at most 0x0F), 0xFF01 the serial byte, 0xFF05 TIMA, 0xFF06 TMA, 0xFF07 TAC, and every other address 0 |
| Io.IO.MemWrite | src/cpu/io.rs:150-162 | serial, TIMA and TMA read back as written, TAC as its low three bits with enable and target set; a joypad write sets the selects; every other part is unchanged and 0xFF02 changes nothing |
| Input.Button.Bit | src/cpu/input.rs:6-17 | each button is the single bit at its index |
| Input.Button.Index | src/cpu/input.rs:6-17 | the bit index is one of 0..7 |
| Input.SetButton | src/cpu/interrupts.rs:63 | `flags.set` gives the button's bit the value and keeps every other bit |
| Input.InputReg.constructor | src/cpu/input.rs:26-32 | nothing selected, every button released (0xFF) |
| Input.InputReg.MemRead | src/cpu/input.rs:40-48 | a nibble: with the action select set, bit k is set iff button k+4 is held (its flag bit is clear); otherwise, with the d-pad select set, iff button k is held; 0x0F when neither select is set |
| Input.InputReg.MemWrite | src/cpu/input.rs:50-53 | bit 5 sets the action select and bit 4 the d-pad select |
| Input.ReleasedReadsZero | src/cpu/input.rs:26-48 | with every button released, a selected nibble reads 0 |
| Input.HeldButtonReads | src/cpu/input.rs:40-48 | with its nibble selected, a button's bit reads 1 exactly while it is held |
| Mbc.CeilLog2 | src/cpu/mbc.rs:17 | the least number of bits k with `n <= 2^k` |
| Mbc.LowMaskIsShift | src/cpu/mbc.rs:22 | the mask is `u8::MAX >> (8 - k)` |
| Mbc.LowBitsMask | src/cpu/mbc.rs:22 | masking with the low k bits is the remainder mod 2^k |
| Mbc.MaskBankNumber | src/cpu/mbc.rs:15-24 | the bank number reduced mod 2^ceil(log2(bank_amount)), so it is below that power |
| Mbc.NoMbc.constructor | src/cpu/mbc.rs:33-38 | the ROM is the image and the RAM is `0x2000 * ram_banks` zero bytes |
| Mbc.NoMbc.Read | src/cpu/mbc.rs:42-48 | ROM below 0x8000, RAM at 0xA000-0xBFFF, 0 elsewhere |
| Mbc.NoMbc.Write | src/cpu/mbc.rs:50-54 | only RAM changes, only when there is RAM and the address is at least 0xA000, and it reads back |
| Mbc.Mbc1RomBank | src/cpu/mbc.rs:147-159 | the bank is at most 31; it is 1 whenever the low five bits of the value are 0, and otherwise the value masked to the bits needed for the ROM banks (at most 32) |
| Mbc.Mbc1EightBanksSelectsZero | src/cpu/mbc.rs:151-157 | with 8 ROM banks only three bits are kept, so writing 0b1000 selects bank 0: the zero check looks at five bits |
| Mbc.FiveBitBank | src/cpu/mbc.rs:150 | masking to at most 32 banks gives at most 31, and 0 when the low five bits are 0 |
| Mbc.Mbc1ZeroSelectsBankOne | src/cpu/mbc.rs:151-157 | with at least two banks, writing 0 selects bank 1, as writing 1 does |
| Mbc.Mbc1.constructor | src/cpu/mbc.rs:68-78 | bank 1, RAM zeroed and disabled, simple banking |
| Mbc.Mbc1.Read | src/cpu/mbc.rs:82-140 | bank 0 and bank `romBank` of the ROM (0 past the image), on carts of more than 32 banks moved up by the 2-bit register in units of 512 KiB; 0xFF for disabled RAM, the RAM byte (bank from the 2-bit register in advanced mode) or 0 past the RAM; 0 outside the cartridge ranges |
| Mbc.Mbc1.Write | src/cpu/mbc.rs:142-190 | the RAM enable, ROM bank, 2-bit register and banking mode change only in their ranges; enabled in-range RAM stores the byte, which reads back unless a cart with two RAM banks has the register at 2 or 3 |
| Mbc.Mbc1.RamOffsetsAgree | src/cpu/mbc.rs:116-187 | read and write put a RAM address at the same offset except on a cart with two RAM banks and the register at 2 or 3 |
| Mbc.Mbc3RomBank | src/cpu/mbc.rs:259-264 | the bank is never 0: it is the masked value when that is non-zero and 1 when the masked value is 0, so the bank is 1 exactly when the masked value is 0 or 1 |
| Mbc.Mbc3ZeroSelectsBankOne | src/cpu/mbc.rs:260-263 | with at least two ROM banks, writing 0 selects bank 1, as writing 1 does |
| Mbc.Mbc3.constructor | src/cpu/mbc.rs:203-212 | bank 1, RAM zeroed and disabled |
| Mbc.Mbc3.Read | src/cpu/mbc.rs:216-252 | bank 0 at 0x0000-0x3FFF, bank `rom_bank` at 0x4000-0x7FFF (0 past the image), RAM of the selected bank, 0xFF when disabled or out of range |
| Mbc.Mbc3.Write | src/cpu/mbc.rs:254-295 | RAM enable, a nonzero ROM bank and the masked RAM bank change only in their ranges; enabled in-range RAM stores the byte and reads it back |
| Ppu.Frame | src/cpu/ppu.rs:75-116 | 70224 dots (154 lines of 456) from the first dot of a frame return to it, with exactly one VBLANK request |
| Ppu.FrameVBlankDot | src/cpu/ppu.rs:95-101 | the frame's VBLANK comes at its 66120th dot, the end of line 144 |
| Ppu.AdvanceOnScreen | src/cpu/ppu.rs:78-109 | every dot keeps lx in 0..455 and ly in 0..153 |
| Ppu.ModeRequest | src/cpu/ppu.rs:118-127 | a mode change requests LCD iff the new mode's STAT enable bit is set |
| Ppu.TimingStepAdvances | src/cpu/ppu.rs:75-116 | a `cycle` moves the position by one dot and requests VBLANK exactly on the last dot of line 144 |
| Ppu.TimingRunFollows | src/cpu/ppu.rs:75-116 | a run of `cycle` timing steps visits exactly the dot positions `AdvanceBy` gives and requests VBLANK as often as those positions hold the VBLANK dot |
| Ppu.TimingFrame | src/cpu/ppu.rs:75-116 | 70224 `cycle` timing steps from the first dot of a frame, in any mode and with any registers, return to it and request VBLANK exactly once |
| Ppu.RequestsStartEmpty | src/cpu/ppu.rs:76 | a dot's requests do not depend on the previous dot's |
| Ppu.VisibleLine | src/cpu/ppu.rs:78-86 | along a visible line the mode is 2 before dot 80, 3 from 80 and 0 from 369 |
| Ppu.BlankLine | src/cpu/ppu.rs:78-86 | during the vertical blank the mode stays 1 for the whole line |
| Ppu.EmptyDisplay | src/cpu/ppu.rs:29-30 | 160 columns of 144 pixels |
| Ppu.PaletteColor | src/cpu/ppu.rs:129-133 | a palette shade is in 0..3 |
| Ppu.TileMapIndex | src/cpu/ppu.rs:138-144 | the tile-map entry lies inside the selected 1 KiB map |
| Ppu.TileDataIndex | src/cpu/ppu.rs:149-159 | both bytes of the tile row lie in tile data (below 0x1800) |
| Ppu.RowColorId | src/cpu/ppu.rs:160-165 | bit 0 of the colour id is the column's bit of the first byte and bit 1 that of the second |
| Ppu.ReadTileMap | src/cpu/ppu.rs:136-166 | the colour id is in 0..3 |
| Ppu.PixelColorId | src/cpu/ppu.rs:175-187 | the window or background colour id is in 0..3 |
| Ppu.LinePixel | src/cpu/ppu.rs:175-188 | a drawn pixel's shade is in 0..3 |
| Ppu.RowDrawnPixels | src/cpu/ppu.rs:168-190 | drawing row y changes no other row; with BG/window on every pixel of row y is its palette shade; with it off only pixel (0, y) is set, to the palette's shade for colour id 0 (`palette & 3`) |
| Ppu.Ppu.constructor | src/cpu/ppu.rs:54-73 | blank displays, zeroed VRAM, OAM and registers, mode 2 |
| Ppu.Ppu.SetPixel | src/cpu/ppu.rs:129-133 | only pixel (x, y) of the back display changes, to the palette shade of the colour id |
| Ppu.Ppu.DrawHorizontal | src/cpu/ppu.rs:168-190 | the loop leaves the back display equal to `RowDrawn`, whose pixels `RowDrawnPixels` describes |
| Ppu.Ppu.Cycle | src/cpu/ppu.rs:75-116 | the timing follows `TimingStep`; the last dot of a visible line draws it; the end of line 144 swaps the back display to the front and clears the back; no other dot touches the displays |
| Ppu.Ppu.NextDot | src/cpu/ppu.rs:78-86 | within a line, the timing follows `TimingStep` |
| Ppu.Ppu.EndLine | src/cpu/ppu.rs:87-108 | at the end of a line, the timing follows `TimingStep`, with the drawing and the swap as for `Cycle` |
| Ppu.Ppu.NextLine | src/cpu/ppu.rs:109-114 | the line steps and LCD is requested when LYC matches and its enable is set |
| Ppu.Ppu.MemRead | src/cpu/ppu.rs:199-217 | VRAM and OAM read their bytes, STAT reads 0, unmapped addresses read 0 |
| Ppu.Ppu.MemWrite | src/cpu/ppu.rs:218-232 | VRAM and OAM store at their index and nothing else; a register write changes the registers as `PortWrite` says; WX stays within range |
| Ppu.WriteReadsBack | src/cpu/ppu.rs:199-232 | after a write, VRAM, OAM and the stored registers (LCDC, SCY, SCX, LYC, BGP, WY) read back the value, and WX reads back `max(value, 7)` |
| Ppu.PortRead | src/cpu/ppu.rs:203-216 | STAT and the unmapped registers read 0 |
| Ppu.LyReadsLine | src/cpu/ppu.rs:210 | LY reads the current line |
| Ppu.PortWrite | src/cpu/ppu.rs:222-231 | the saturating subtraction keeps WX at most 248, so `win_x + 7` cannot overflow |
| Ppu.PortWriteReadsBack | src/cpu/ppu.rs:199-232 | a register reads back as written, WX as `max(value, 7)`, STAT keeps `value & 0x78`, LY ignores writes |
| Ppu.PortWriteKeepsOthers | src/cpu/ppu.rs:218-232 | a register write changes what no other register reads |
| Ppu.Decode | src/cpu/ppu.rs:194-202 | VRAM and OAM addresses map to in-bounds indices |
| Ppu.StatIsZero | src/cpu/ppu.rs:204-207 | the coincidence bit (bit 2) and a mode (at most 3) share no bit, so STAT always reads 0 |
| Apu.NewChannel | src/cpu/apu.rs:24-42 | a new channel is off with its length timer expired (64) |
| Apu.ReadRegister | src/cpu/apu.rs:44-57 | NRx0 reads 0; the fields can be recovered from the bytes: NRx1 holds duty (bits 6-7) and initial length (bits 0-5), NRx2 initial volume (bits 4-7), direction (bit 3) and pace (bits 0-2), NRx3 the period's low byte, NRx4 the period's high bits (0-2) and the length enable (bit 6), with bits 3-5 and 7 clear |
| Apu.WrittenReadsBack | src/cpu/apu.rs:44-78 | NRx1, NRx2 and NRx3 read back as written; NRx4 reads back its bits 0-2 and 6 |
| Apu.WrittenKeeps | src/cpu/apu.rs:59-78 | a register write changes only its own fields; NRx3 and NRx4 change only their half of the period, which stays below 0x800 |
| Apu.WrittenValid | src/cpu/apu.rs:59-78 | every register write keeps each field within its bits |
| Apu.LengthStepSpec | src/cpu/apu.rs:80-88 | the length timer counts up to 64 and stays there; the channel goes off exactly when it is at 64 with the length enable set |
| Apu.EnvelopeStepSpec | src/cpu/apu.rs:90-107 | pace 0 changes nothing; otherwise the timer counts to the pace and restarts at 1, and only then does the volume move one step in its direction, staying in 0..15 |
| Apu.PeriodStepSpec | src/cpu/apu.rs:109-120 | the divider counts up to 0x7FF, then reloads from the period value and the duty pointer moves on mod 8 |
| Apu.TriggeredSpec | src/cpu/apu.rs:122-130 | a trigger turns the channel on, restarts divider, volume and envelope, reloads an expired length timer, and leaves every register's reading unchanged |
| Apu.ChannelWriteReadsBack | src/cpu/apu.rs:263-278 | a channel register write, with or without trigger, reads back as `WrittenReadsBack` says |
| Apu.DutyPattern | src/cpu/apu.rs:141-154 | each duty wave has 8 steps of 0 or 1 |
| Apu.DutyShares | src/cpu/apu.rs:142-150 | duty 0, 1, 2 and 3 have 1, 2, 4 and 6 low steps of 8 |
| Apu.Level | src/cpu/apu.rs:132-139 | a channel's level is at most its volume (at most 15) and 0 while it is off |
| Apu.SampleOf | src/cpu/apu.rs:223-232 | silence exactly while the APU is off, otherwise two levels of at most 15 |
| Apu.FrameStep | src/cpu/apu.rs:190-204 | the frame sequencer keeps a channel valid and does nothing without a falling edge |
| Apu.ChannelCycle | src/cpu/apu.rs:189-214 | one APU cycle keeps a channel valid |
| Apu.ChannelCycleQuiet | src/cpu/apu.rs:192-204 | without an edge, or on an odd DIV-APU value, only the period divider moves |
| Apu.DividerStep | src/cpu/apu.rs:208-221 | a delay counter stays within 0..top, fires exactly at top and then restarts at 0 |
| Apu.DividerRate | src/cpu/apu.rs:207-221 | from 0, after `q * (top + 1) + r` steps a delay counter has fired q times and counts r: the period divider fires every 4 cycles and a sample comes every `sample_delay + 1` cycles |
| Apu.SquareChannel.constructor | src/cpu/apu.rs:24-42 | the new channel's fields are `NewChannel` |
| Apu.SquareChannel.WriteRegister | src/cpu/apu.rs:59-78 | the fields change as `Written` says, which `WrittenReadsBack` and `WrittenKeeps` describe |
| Apu.SquareChannel.UpdateLengthTimer | src/cpu/apu.rs:80-88 | the fields change as `LengthStep` says and stay valid |
| Apu.SquareChannel.UpdateEnvelope | src/cpu/apu.rs:90-107 | the fields change as `EnvelopeStep` says and stay valid |
| Apu.SquareChannel.UpdatePeriod | src/cpu/apu.rs:109-120 | the fields change as `PeriodStep` says and stay valid |
| Apu.SquareChannel.Trigger | src/cpu/apu.rs:122-130 | the fields change as `Triggered` says |
| Apu.PowerByteBits | src/cpu/apu.rs:254-258 | NR52 carries the APU's on bit at 7 and the channels' at 1 and 0, with bits 2-6 clear |
| Apu.Apu.constructor | src/cpu/apu.rs:173-187 | on, empty buffer, `sample_delay = 4194304 / sample_rate`, new channels with and without sweep |
| Apu.Apu.Cycle | src/cpu/apu.rs:189-233 | on a falling edge of DIV bit 12 DIV-APU steps (wrapping) and drives the frame sequencer; the period counter divides by 4; the sample counter divides by `sample_delay + 1` and then one sample of the updated channels is appended |
| Apu.Apu.ClockFrameSequencer | src/cpu/apu.rs:190-205 | DIV-APU steps on a falling edge and both channels take `FrameStep` |
| Apu.Apu.ClockPeriod | src/cpu/apu.rs:207-214 | every fourth call both channels take `PeriodStep` |
| Apu.Apu.ClockSample | src/cpu/apu.rs:216-232 | every `sample_delay + 1`-th call exactly one sample is appended |
| Apu.Apu.ReceiveBuffer | src/cpu/apu.rs:237-241 | returns every sample pushed so far and leaves the buffer empty |
| Apu.Apu.MemRead | src/cpu/apu.rs:250-261 | NR10-NR14 and NR21-NR24 read their channel's registers, NR52 the on bits, every other address 0xFF |
| Apu.Apu.MemWrite | src/cpu/apu.rs:263-284 | a channel register write, then a trigger when bit 7 of NR14 or NR24 is set; NR52 sets only the APU's on bit; nothing else changes |
| Apu.MemWriteReadsBack | src/cpu/apu.rs:250-284 | after a channel register write, reading it gives the value (NR14 and NR24: bits 0-2 and 6) |
| Alu.CarryValue | src/cpu/opcodes.rs:600-604 | the carry-in is 1 exactly for ADC/SBC with C set |
| Alu.CarryOut | src/cpu/opcodes.rs:605-618 | either `overflowing_add` sets C exactly when `x + v + c` exceeds 255 |
| Alu.HalfCarryOut | src/cpu/opcodes.rs:610-617 | H is the carry out of bit 3 of the nibble sum |
| Alu.BorrowOut | src/cpu/opcodes.rs:629-642 | C is set exactly when `v + c` exceeds x |
| Alu.HalfBorrowOut | src/cpu/opcodes.rs:634-641 | H is set exactly when the low nibbles borrow |
| Alu.AddA | src/cpu/opcodes.rs:599-621 | A becomes `a + v + c` mod 256; C and H are the carries out of bits 7 and 3; N is clear; Z is set iff the result is 0 |
| Alu.SubA | src/cpu/opcodes.rs:623-647 | the difference goes to A only for SUB/SBC (not CP); C and H are the borrows; N is set; Z is set iff the difference is 0 |
| Alu.AndA | src/cpu/opcodes.rs:649-655 | the result holds exactly the bits set in both operands (it lies within each, and contains their common bits); F is 0xA0 for a zero result, else 0x20 |
| Alu.XorA | src/cpu/opcodes.rs:657-662 | xoring the operand again gives A back; F is 0x80 for a zero result, else 0 |
| Alu.OrA | src/cpu/opcodes.rs:664-669 | the result holds exactly the bits set in either operand (it contains each, and lies within their union); F is 0x80 for a zero result, else 0 |
| Alu.Rotate | src/cpu/opcodes.rs:578-597 | a one-bit rotation, or a shift through the old carry; the bit shifted out becomes C and every other flag is clear |
| Alu.RotateThroughCarryInverse | src/cpu/opcodes.rs:578-597 | RR through the carry undoes RL through it, value and carry |
| Alu.RotateEightTimes | src/cpu/opcodes.rs:578-597 | eight RLC rotations give the byte back |
| Alu.Daa | src/cpu/opcodes.rs:136-164 | H is cleared, Z tells whether the result is 0, N is kept, C is never cleared, and after an addition C is set iff it was or A exceeded 0x99 |
| Alu.DaaAfterAdd | src/cpu/opcodes.rs:136-164 | ADD of two BCD bytes followed by DAA gives a BCD byte that, with C as hundreds digit, is their decimal sum |
| Alu.DaaAfterSub | src/cpu/opcodes.rs:136-164 | SUB of two BCD bytes followed by DAA gives a BCD byte that is their decimal difference mod 100, with C set exactly when the decimal subtraction borrows |
| Alu.DaaAfterAddition | src/cpu/opcodes.rs:148-159 | after an addition DAA adds 0x06 for a half carry or a low digit above 9 and 0x60 for a carry or a value above 0x99 |
| Alu.CbShift | src/cpu/opcodes.rs:521-543 | RLC, RRC, RL, RR, SLA, SRA, SWAP and SRL each give their shift; N and H are clear, Z is set iff the result is 0, and C is the bit shifted out (clear for SWAP) |
| Alu.BitIndex | src/cpu/opcodes.rs:546 | `(opcode - 0x40) % 0x40 / 8` is bits 3-5 of the opcode |
| Alu.CbBitOperation | src/cpu/opcodes.rs:544-561 | BIT keeps the operand and C, sets H, clears N and sets Z iff the bit is 0; RES and SET keep the flags |
| Alu.ResSetOneBit | src/cpu/opcodes.rs:556-559 | RES clears and SET sets exactly the named bit, keeping every other bit |
| Alu.CbOperation | src/cpu/opcodes.rs:521-562 | the eight shifts set Z from their own result and clear N and H; BIT leaves the operand unchanged; RES and SET keep the flags and every bit except the one named by the opcode |
| Alu.SwapTwice | src/cpu/opcodes.rs:536-541 | SWAP twice gives the operand back |
| Alu.IncDec | src/cpu/opcodes.rs:91-100 | the operand wraps by one; C is kept; INC clears N and DEC sets it; H is set iff the low nibble was 0xF (INC) or 0 (DEC); Z is set iff the result is 0 |
| Alu.IncDecInverse | src/cpu/opcodes.rs:91-99 | INC undoes DEC and DEC undoes INC |
| Alu.AddWords | src/cpu/opcodes.rs:199-214 | HL + rr mod 2^16; Z kept; N clear; H and C are the carries out of bits 11 and 15 |
| Alu.AddOffset | src/cpu/opcodes.rs:425-453 | SP plus the signed operand, wrapping; Z and N clear; H and C are the carries out of bits 3 and 7 of the unsigned low-byte sum |
| Opcodes.GetOpcodeReg | src/cpu/opcodes.rs:671-686 | the operand is the register in bits 0-2 of the opcode, None for (HL), never F |
| Opcodes.GetOpcodeReg16 | src/cpu/opcodes.rs:688-696 | BC, DE and HL for rows 0x0_, 0x1_ and 0x2_; none from 0x30 on |
| Opcodes.RowRegister | src/cpu/opcodes.rs:77-82 | `get_opcode_reg(2 * row + half)` is the register in bits 3-5 of the opcode |
| Opcodes.ConditionEncoding | src/cpu/opcodes.rs:698-704 | every conditional JR, RET, JP and CALL tests the condition code NZ, Z, NC, C in bits 3-4 of its opcode |
| Opcodes.RstVector | src/cpu/opcodes.rs:410-420 | each RST jumps to the multiple of 8 in bits 3-5 of its opcode |
| Opcodes.LoadTarget | src/cpu/opcodes.rs:259-270 | the destination of LD r,r' is the register in bits 3-5, None for (HL) |
| Opcodes.ImmediateAluMatchesRegister | src/cpu/opcodes.rs:369-384 | each immediate ALU opcode computes what its register form computes |
| Opcodes.AccumulatorOp | src/cpu/opcodes.rs:124-174 | RLCA, RLA, RRCA and RRA are their CB forms with Z cleared; DAA is `Daa`; SCF, CPL and CCF set their flags |
| Opcodes.Cpu.constructor | src/cpu/memory.rs:84-95 | boot register values (SP 0xFFFE, PC 0x0100), IME and halt off |
| Opcodes.Cpu.ReadOperand | src/cpu/memory.rs:151-155 | pc steps by one and the byte there is returned |
| Opcodes.Cpu.ReadOperand16 | src/cpu/memory.rs:157-161 | pc steps by two and the little-endian word after the opcode is returned |
| Opcodes.Cpu.WriteMem | src/cpu/memory.rs:163-173 | exactly one byte of memory changes |
| Opcodes.Cpu.Push | src/cpu/memory.rs:222-228 | as written: the low byte at sp-1, the high byte at sp-2, sp drops by two |
| Opcodes.Cpu.Pop | src/cpu/memory.rs:215-220 | the little-endian word at sp is returned and sp rises by two |
| Opcodes.Cpu.Store | src/cpu/opcodes.rs:102-106 | the value goes to the register, or to the byte at HL |
| Opcodes.Cpu.Jr | src/cpu/opcodes.rs:184-196 | a taken JR adds the signed operand to the address of the operand byte (3 cycles); otherwise 2 cycles (also lines 22-33) |
| Opcodes.Cpu.LoadImmediate16 | src/cpu/opcodes.rs:35-41 | the operand word goes to BC, DE, HL or SP; 3 cycles |
| Opcodes.Cpu.LoadIndirect | src/cpu/opcodes.rs:42-62 | A is stored to or loaded from (BC), (DE) or (HL), with HL stepped up for 0x22/0x2A and down for 0x32/0x3A; 2 cycles |
| Opcodes.Cpu.IncDec16 | src/cpu/opcodes.rs:64-74 | the pair wraps by one and no flag changes; 2 cycles |
| Opcodes.Cpu.IncDec8 | src/cpu/opcodes.rs:75-109 | the register in bits 3-5 (or (HL)) changes as `IncDec` says; 1 cycle |
| Opcodes.Cpu.LoadImmediate8 | src/cpu/opcodes.rs:110-123 | the operand byte goes to the register in bits 3-5; 2 cycles, 3 for (HL) |
| Opcodes.Cpu.Accumulator | src/cpu/opcodes.rs:124-174 | A and F change as `AccumulatorOp` says (also lines 215-242); 1 cycle |
| Opcodes.Cpu.StoreSp | src/cpu/opcodes.rs:175-183 | SP's low byte goes to the operand address and its high byte to the next one; 5 cycles |
| Opcodes.Cpu.AddHl | src/cpu/opcodes.rs:198-214 | HL and F change as `AddWords` says; 2 cycles |
| Opcodes.Cpu.LoadOrAlu | src/cpu/opcodes.rs:246-291 | LD copies the operand in bits 0-2 to the destination in bits 3-5; the ALU opcodes update A and F; 2 cycles when (HL) is involved, else 1 |
| Opcodes.Cpu.LoadHigh | src/cpu/opcodes.rs:307-320 | A is stored to or loaded from 0xFF00 + a8 (3 cycles), 0xFF00 + C (2 cycles) or a16 (4 cycles) |
| Opcodes.Cpu.ReturnIf | src/cpu/opcodes.rs:322-333 | a taken RET cc pops pc and suppresses the pc step (5 cycles); otherwise 2 cycles (also lines 454-461) |
| Opcodes.Cpu.Jump | src/cpu/opcodes.rs:334-351 | a taken JP puts the operand word in pc (4 cycles); otherwise pc ends on the operand's high byte (3 cycles) |
| Opcodes.Cpu.Call | src/cpu/opcodes.rs:385-404 | a taken CALL pushes the return address and jumps (6 cycles); otherwise 3 cycles |
| Opcodes.Cpu.Restart | src/cpu/opcodes.rs:405-423 | pushes the next address and jumps to the vector; 4 cycles |
| Opcodes.Cpu.PopPair | src/cpu/opcodes.rs:356-362 | BC, DE, HL or AF takes the popped word; 3 cycles |
| Opcodes.Cpu.PushPair | src/cpu/opcodes.rs:363-368 | the pair is pushed; 4 cycles |
| Opcodes.Cpu.AluImmediate | src/cpu/opcodes.rs:369-384 | the ALU operation on the operand byte; 2 cycles |
| Opcodes.Cpu.AddSp | src/cpu/opcodes.rs:425-453 | SP plus the signed operand goes to SP (4 cycles) or HL (3 cycles), flags as `AddOffset` says |
| Opcodes.Cpu.Arithmetic | src/cpu/opcodes.rs:511-576 | the CB table: BIT only sets flags (2 cycles, 3 for (HL)); every other operation writes its result back (2 cycles, 4 for (HL)) |
| Opcodes.Cpu.ExecuteLow | src/cpu/opcodes.rs:10-245 | the 0x00-0x3F block takes 1 to 5 cycles; NOP and STOP change nothing |
| Opcodes.Cpu.ExecuteHigh | src/cpu/opcodes.rs:297-503 | the 0xC0-0xFF block takes 1 to 6 cycles; RET and RETI pop pc; JP (HL) and LD SP,HL copy HL; DI, EI and RETI alone change IME; RST alone clears halt |
| Opcodes.Cpu.Execute | src/cpu/opcodes.rs:6-509 | an instruction takes 1 to 6 M-cycles; HALT alone sets the halt latch and RST alone clears it; DI, EI and RETI alone change IME; NOP, STOP, HALT, DI and EI only step pc |

## Left out

- `src/cpu.rs`'s step loop, the window, menu, debug, clock, logging and saving modules, options and `main.rs`: they are drivers, UI, threads and serialisation around the core, not part of it.
- `eprintln!` and `println!` diagnostics, including the serial byte printed on a write to 0xFF02: they are output only, so they are left out.
- Floating point: `get_sample` and the mix `(ch1 + ch2).clamp(0.0, 1.0) * 0.1` are kept as the integer channel levels they are computed from (`Apu.Sample`).
- `mask_bank_number` computes `ceil(log2(n))` in `f32`. The model uses the exact integer `CeilLog2`, which agrees with it for every bank count from 0 to 256.
- Mbc.Mbc3.constructor: requires at most 256 ROM banks. Above that `mask_bank_number`'s `8 - bit_amount` underflows.
- `CartridgeInfo` is not part of this model. Its two fields are taken as `u16`. Because `0x2000 * ram_banks` is `u16` arithmetic, the controllers' constructors require at most seven RAM banks.
- `load_range` panics on a ROM image shorter than 32 KiB. `Memory.Memory.constructor` requires at least 32 KiB.
- Memory.Memory.ReadMem: `read_mem` and `write_mem` hit `todo!()` outside the six backed regions, so these accesses require a mapped address.
- `Opcodes.Cpu` runs `execute` over a flat 64 KiB memory rather than `Memory`'s regions, because `Memory` panics on unmapped addresses. Its push and pop are `memory.rs`'s as written.
- Opcodes.Cpu.Execute: does not state the new registers and memory for every opcode. The group methods it dispatches to state them, and `Execute` states cycles, halt, IME and the single-byte instructions.
- Opcodes.Cpu.ExecuteLow: states the cycle range and NOP/STOP only. The group methods state the rest.
- Opcodes.Cpu.ExecuteHigh: states the cycle range, IME, halt, RET/RETI, JP (HL), LD SP,HL, DI and EI only. It gives no new registers or memory for the LD-high, RET cc, JP, CALL, POP, PUSH, d8 ALU, RST, ADD SP and CB groups. The group methods (`LoadHigh`, `ReturnIf`, `Jump`, `Call`, `PopPair`, `PushPair`, `AluImmediate`, `Restart`, `AddSp`, `Arithmetic`) state those.
- Opcode 0xE3 (`panic!()` in the LD-high group) is excluded by `Execute`'s precondition. 0xD3 is run as JP, 0xDB and 0xEB as the CB prefix, and 0xE4, 0xF4, 0xEC, 0xFC, 0xDD, 0xED and 0xFD as CALL, as the source's nibble dispatch does.
- Arithmetic overflow panics of debug builds (`pc += 1`, `sp -= 2` and `address + 1` at 0xFFFF) are modelled as wrapping, which is what a release build does.
- Io.Timer.Cycle: a divider above a lowered target counts on to 255 and wraps. A debug build would panic there instead.
- Apu.SquareChannel.UpdateLengthTimer, Apu.SquareChannel.UpdatePeriod: the `+= 1` on `u8`/`u16` fields requires them below the type's maximum. `Valid` keeps them far below it.
- `NoMBC`'s reads and writes index ROM and RAM directly and panic past their ends. `Mbc.NoMbc.Read` and `Mbc.NoMbc.Write` require the index to be in range.
- Mbc.Mbc3.Read: `rom[address]` at 0x0000-0x3FFF panics on a ROM image shorter than 16 KiB. The model requires the address to be inside the image there.
- `Apu.Apu.constructor` requires a sample rate in 1..2^32. A zero rate divides by zero.
- `SquareChannel::sweep` is stored but never used by the source.
- The joypad: `io.rs` keeps its own copy of `InputReg`, identical to `input.rs`'s. The model has one `Input.InputReg`, which `Io.IO` owns.
- Interrupts.Cpu: the CPU is assembled from the `ReadWrite` bus, the `InterruptState` and the `IO` block. Its bus targets are storage, so a device's own register behaviour is stated in that device's module, not through the bus.
- Concurrency and timing against the host clock are left out. Nothing in the core depends on them.
