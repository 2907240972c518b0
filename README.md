# gones core in Dafny

A model of the address-arithmetic and state-bookkeeping core of gones, an NES
emulator written in Go. It covers:

- the 6502 CPU's register file, status flags and reset (`cpu/cpu.go`);
- the thirteen addressing modes that compute an instruction's effective
  address (`cpu/addressing.go`);
- the opcode table and mnemonic names (`cpu/instructions.go`);
- cartridge header decoding and PRG memory access (`cartridge.go`);
- the mapper 0 (NROM) address translation (`mapper000.go`);
- the CPU's main bus, which sends each access to the cartridge, to the 2 KiB
  of mirrored RAM, to the PPU stub or to nothing (`mainbus.go`).

Byte and `uint16` values are `bv8` and `bv16`, and the bus's `uint32` clock
counter is a `bv32`, so the wrap-around of Go's fixed-width arithmetic is
exact. The mappers' `uint32` out-parameter becomes an `Option<bv16>` result:
every offset mapper 0 produces is a masked `uint16` and fits in 16 bits. Code that changes state
in place is modelled by classes:

- `Cpu.CPU6502` holds the CPU fields, and the mode methods update its
  latches and program counter;
- `Cartridges.Cartridge` holds the PRG buffer as an array;
- `Bus.MainBus` holds the RAM array and the cartridge reference.

Each method is tied to a pure function, and the properties are proved about
that function. The decoding, translation and table code is pure and is
written as functions and lemmas.

Files:

- `wrappers.dfy`: the `Option` type.
- `mapper000.dfy`: module `Mappers`.
- `cartridge.dfy`: module `Cartridges`.
- `addressing.dfy`: module `Addressing`. It holds the addressing-mode
  enumeration and the pure address arithmetic of each mode.
- `cpu.dfy`: module `Cpu`. It holds the CPU class and its mode methods.
- `instructions.dfy`: module `Instructions`.
- `mainbus.dfy`: module `Bus`.

## Departures from the 6502 and the iNES format

The model follows the code. Where the code differs from real hardware or from
the iNES header layout, a member's contract states the difference for every
input, and a lemma gives a concrete instance where one is named:

- The reset vector is assembled high byte first, from 0xFFFC then 0xFFFD.
  The 6502 reads it little-endian. See `Cpu.ResetVectorBigEndian`.
- `absolute`, `absoluteX`, `absoluteY` and `indirect` read the byte at the
  program counter twice, once as the high byte and once as the low byte.
  The byte after it is never read. See `Addressing.DoubledOperand` and the
  instance `Addressing.DoubledOperandExample`.
- `indirect` advances the program counter by one, not two. See
  `Cpu.CPU6502.indirect`.
- `relative` zero-extends the branch offset instead of sign-extending it. See
  `Addressing.RelativeNotSignExtended`.
- `indexedIndirect` reads one byte at operand + x, without wrapping inside
  page zero. Go's `&` binds tighter than `+`, so the mask applies to x alone.
  See `Addressing.IndexedIndirectLeavesZeroPage`.
- `indirectIndexed` reads one pointer byte rather than two. See
  `Addressing.IndirectIndexedAddress` and
  `Addressing.IndirectIndexedIgnoresHighPointer`.
- Header decoding treats any nonzero byte 6 as a trainer. See
  `Cartridges.TrainerOnAnyFlag`.
- The mapper id puts byte 6's high nibble into its own high nibble, so it is
  the iNES mapper number with its nibbles swapped. See
  `Cartridges.MapperIdSwapsNibbles`.
- A loaded cartridge's mapper 0 always has zero PRG banks recorded. So
  0xC000..0xFFFF mirror 0x8000..0xBFFF even for a 32 KiB image. See
  `Cartridges.Cartridge.ReadsMirrorFirstBank`.

## Model

| member | source | states |
|---|---|---|
| Mappers.CpuMapRead | mapper000.go:8-18 | claims exactly the addresses at or above 0x8000; with more than one PRG bank the offset is addr - 0x8000, otherwise addr - 0x8000 below 0xC000 and addr - 0xC000 from 0xC000 on; the offset is below 0x8000 or 0x4000 respectively |
| Mappers.CpuMapWrite | mapper000.go:20-30 | claims exactly the addresses at or above 0x8000 |
| Mappers.WriteMatchesRead | mapper000.go:8-30 | the write translation gives the same claim and offset as the read translation for every address and bank count |
| Mappers.PpuMapRead | mapper000.go:32-34 | always claims the address |
| Mappers.PpuMapWrite | mapper000.go:36-38 | always claims the address |
| Mappers.ChrBanksIgnored | mapper000.go:8-30 | both translations depend only on the address and the PRG bank count, never on the CHR bank count |
| Mappers.SingleBankMirror | mapper000.go:12-13 | with at most one bank, a and a + 0x4000 translate to the same offset for a in 0x8000..0xBFFF |
| Mappers.MapExamples | mapper000.go:10-17 | 0xC000 maps to 0x4000 with two banks; 0x8000 and 0xC000 both map to 0 with one bank; 0x7FFF is not claimed |
| Mappers.HalfMaskFacts | mapper000.go:11 | for an upper-half address, masking with 0x7FFF subtracts 0x8000 |
| Mappers.QuarterMaskFacts | mapper000.go:13 | for an upper-half address, masking with 0x3FFF subtracts 0x8000 below 0xC000 and 0xC000 from there on |
| Cartridges.DecodeHeader | cartridge.go:69-98 | trainer iff byte 6 is nonzero; the mapper id's high nibble is byte 6's high nibble and its low nibble is byte 7's high nibble; the mirror is Vertical iff bit 0 of byte 6 is set, else Horizontal; the bank counts are bytes 4 and 5 |
| Cartridges.MapperIdSwapsNibbles | cartridge.go:78 | the mapper id equals the iNES mapper number with its nibbles swapped; the two are zero together, and iNES mapper 1 becomes id 0x10 |
| Cartridges.TrainerOnAnyFlag | cartridge.go:70-75 | a byte 6 of 0x01 (only vertical mirroring, trainer bit clear) still counts as a trainer |
| Cartridges.PrgStart | cartridge.go:70-75 | PRG data starts at byte 16 without a trainer and at byte 528 (after the 512-byte trainer) with one |
| Cartridges.PrgStartSkipsTrainer | cartridge.go:69-75 | for a 16-byte header, the PRG data starts at byte 528 exactly when byte 6 is nonzero, and at byte 16 exactly when it is zero |
| Cartridges.PrgLength | cartridge.go:89-90 | the PRG buffer size is at most 255 banks of 16384 bytes |
| Cartridges.ChrLength | cartridge.go:97-98 | the CHR buffer size is at most 255 banks of 8192 bytes |
| Cartridges.BlocksAreWholeBanks | cartridge.go:89-98 | the PRG and CHR buffers hold whole banks, exactly as many as header bytes 4 and 5 count |
| Cartridges.ValidIffMapperZero | cartridge.go:78-110 | the decoded mapper id is 0 exactly when the high nibbles of bytes 6 and 7 are both clear |
| Cartridges.ReadBlock | cartridge.go:89-99 | the new buffer holds exactly the next length bytes of the file |
| Cartridges.Cartridge.constructor | cartridge.go:46-125 | the cartridge is valid exactly for mapper id 0, which then gets a mapper 0 with zero banks; the mapper id, mirror and bank counts come from the header; the PRG and CHR buffers are bank count × 16384 and × 8192 bytes, taken from the file after the header and any trainer |
| Cartridges.Cartridge.ImageValid | cartridge.go:127-129 | true exactly when the mapper id is 0, that is, when a mapper is present |
| Cartridges.Cartridge.CpuRead | cartridge.go:131-139 | yields a byte exactly for addresses at or above 0x8000; otherwise None, so the caller's byte is left alone |
| Cartridges.Cartridge.CpuWrite | cartridge.go:141-149 | claims exactly the addresses at or above 0x8000; a declined write leaves PRG memory unchanged; a claimed write changes only the byte at the mapped offset, and a read of any address with the same offset then returns the written byte |
| Cartridges.Cartridge.ReadsMirrorFirstBank | cartridge.go:106-139 | on a loaded cartridge, a and a + 0x4000 read the same PRG byte, at offset a - 0x8000, for a in 0x8000..0xBFFF |
| Bus.RamIndex | mainbus.go:34 | the RAM cell an address reaches is the address modulo 2048 (its low 11 bits) |
| Bus.SameRamCell | mainbus.go:32-34 | two addresses reach the same RAM cell exactly when they agree modulo 2048; an address and the one 0x0800 above it share a cell |
| Bus.RamAfterWrite | mainbus.go:51-53 | a write to 0x0000..0x1FFF stores into the cell its low 11 bits select; every other cell, and all of RAM for other addresses, is unchanged |
| Bus.MainBus.NewBus | mainbus.go:22-26 | a bus on the given CPU, with no cartridge, zeroed RAM and a zero clock counter |
| Bus.MainBus.Read | mainbus.go:28-40 | from 0x8000 on, the cartridge's byte; in 0x0000..0x1FFF, the RAM cell of the low 11 bits; in between, 0 |
| Bus.MainBus.Write | mainbus.go:42-58 | RAM becomes RamAfterWrite of the old RAM; writes below 0x8000 leave PRG memory alone; a cartridge write changes only the PRG byte at the mapped offset and reads back; after a RAM write, every mirror of the address reads the written byte |
| Bus.MainBus.InsertCartridge | mainbus.go:60-62 | replaces the cartridge reference and changes nothing else |
| Bus.MainBus.Reset | mainbus.go:64-67 | given a memory that agrees with this bus at the reset vector, the CPU is in its reset state and the system clock counter is 0 |
| Bus.RamMirror | mainbus.go:32-34 | an address in 0x0000..0x1FFF reads the same as its image in 0x0000..0x07FF |
| Bus.OpenBusReadsZero | mainbus.go:28-40 | addresses in 0x2000..0x7FFF, the PPU stub and the range mapper 0 declines, read as 0 |
| Cpu.FlagsAreBits | cpu/cpu.go:32-41 | the eight flags are the bits 0..7 in order, and together they cover the byte |
| Cpu.WithFlag | cpu/cpu.go:73-79 | the flag's bits become all ones when set and all zeros when cleared; every other bit of the status byte is kept |
| Cpu.FlagSet | cpu/cpu.go:88-90 | a flag reads as set when any of its bits is set in the status byte; FlagRoundTrip, FlagWriteIdempotent and FlagWriteIndependent relate it to WithFlag |
| Cpu.FlagRoundTrip | cpu/cpu.go:73-90 | reading a nonzero flag after writing it gives the written value |
| Cpu.FlagWriteIdempotent | cpu/cpu.go:73-79 | writing the same flag value twice is the same as writing it once |
| Cpu.FlagWriteIndependent | cpu/cpu.go:73-90 | writing one flag leaves the reading of any flag with no bits in common unchanged |
| Cpu.ResetVectorBigEndian | cpu/cpu.go:52 | whenever the two vector bytes differ, the high-byte-first program counter differs from the little-endian one |
| Cpu.CPU6502.New | cpu/cpu.go:43-45 | every field starts at its zero value, with the Implicit mode |
| Cpu.CPU6502.InResetState | cpu/cpu.go:47-66 | the state Reset leaves: A, X and Y zero, the program counter with byte 0xFFFC as its high and 0xFFFD as its low byte, stack pointer 0xFD, status exactly FlagU, latches cleared, mode Implicit, opcode 0, 8 cycles |
| Cpu.CPU6502.Reset | cpu/cpu.go:47-66 | a, x and y are 0; the program counter is the byte at 0xFFFC as high byte and the byte at 0xFFFD as low byte; the stack pointer is 0xFD; the status is only FlagU; the latches are 0; the mode is Implicit; 8 cycles remain |
| Cpu.CPU6502.SetFlag | cpu/cpu.go:73-79 | the status becomes WithFlag of the old status, and a nonzero flag then reads back as the written value |
| Cpu.CPU6502.GetFlag | cpu/cpu.go:88-90 | true iff some bit of the flag is set in the status; the zero flag is never set |
| Cpu.CPU6502.GetRegister | cpu/cpu.go:96-111 | RegA, RegX and RegY read the A, X and Y registers, RegSP the stack pointer and RegP the status; an unknown id reads 0 |
| Cpu.CPU6502.SetRegister | cpu/cpu.go:127-140 | a known id then reads back the value; every other id reads as before; an unknown id changes no register |
| Cpu.CPU6502.GetPC | cpu/cpu.go:117-119 | returns the program counter |
| Cpu.CPU6502.SetPC | cpu/cpu.go:145-147 | GetPC then returns the value written |
| Cpu.CPU6502.GetCycles | cpu/cpu.go:153-155 | returns the remaining cycle count |
| Cpu.CPU6502.implicit | cpu/addressing.go:63-66 | no extra cycle and no state change |
| Cpu.CPU6502.accumulator | cpu/addressing.go:68-71 | no extra cycle and no state change |
| Cpu.CPU6502.immediate | cpu/addressing.go:77-83 | the effective address is the old program counter, which then advances by 1; no extra cycle |
| Cpu.CPU6502.zeroPage | cpu/addressing.go:89-95 | the effective address is the operand byte in page zero; the program counter advances by 1; no extra cycle |
| Cpu.CPU6502.zeroPageX | cpu/addressing.go:102-110 | the effective address is operand + x wrapped into page zero; the program counter advances by 1; no extra cycle |
| Cpu.CPU6502.zeroPageY | cpu/addressing.go:117-125 | the effective address is operand + y wrapped into page zero; the program counter advances by 1; no extra cycle |
| Cpu.CPU6502.relative | cpu/addressing.go:136-144 | the relative address is the zero-extended operand byte; the program counter advances by 2; no extra cycle |
| Cpu.CPU6502.absolute | cpu/addressing.go:150-157 | the effective address is the doubled operand byte; the program counter advances by 2; no extra cycle |
| Cpu.CPU6502.absoluteX | cpu/addressing.go:168-181 | the effective address is the doubled operand plus x, modulo 2^16; the program counter advances by 2; the extra cycle is the page-crossing penalty of that address |
| Cpu.CPU6502.absoluteY | cpu/addressing.go:189-202 | the same as absoluteX with y |
| Cpu.CPU6502.indirect | cpu/addressing.go:215-228 | the pointer is the doubled operand byte; the target is read through it with the same-page wrap; the program counter advances by 1; no extra cycle |
| Cpu.CPU6502.indexedIndirect | cpu/addressing.go:236-244 | the effective address is the single byte at operand + x, with no page-zero wrap; the program counter advances by 1; no extra cycle |
| Cpu.CPU6502.indirectIndexed | cpu/addressing.go:251-264 | the effective address is the pointer byte plus y; the program counter advances by 1; the extra cycle is the page-crossing penalty of that address |
| Addressing.StringInjective | cpu/addressing.go:24-55 | distinct modes have distinct names, and no mode is named "Unknown" |
| Addressing.AddressingMode.String | cpu/addressing.go:24-55 | no mode's display name is "Unknown", the name the source keeps for other values; StringInjective shows the thirteen names are distinct |
| Addressing.Word | cpu/cpu.go:52 | the word's high and low bytes are the two bytes given |
| Addressing.ZeroPageAddress | cpu/addressing.go:89-125 | the address lies in page zero, and its low byte is operand + index modulo 256 |
| Addressing.RelativeOffset | cpu/addressing.go:138-139 | the high byte is 0 and the low byte is the operand |
| Addressing.RelativeNotSignExtended | cpu/addressing.go:138-139 | operand 0xFE becomes 0x00FE, not 0xFFFE |
| Addressing.DoubledOperand | cpu/addressing.go:150-228 | the high and the low byte are both the byte at the program counter |
| Addressing.DoubledOperandExample | cpu/addressing.go:152 | with 0x42 at pc and 0x13 after it, the operand is 0x4242 |
| Addressing.PageCrossPenaltyMeaning | cpu/addressing.go:168-202 | the penalty is 1 exactly when adding the index changes the high byte, exactly when the base's low byte plus the index exceeds 0xFF, and it is always 0 or 1 |
| Addressing.PageCrossPenalty | cpu/addressing.go:176-178 | the extra cycle count is 0 or 1; PageCrossPenaltyMeaning gives when it is 1 |
| Addressing.PageCrossExamples | cpu/addressing.go:176-178 | 0x20FF + 1 crosses a page, 0x2000 + 1 does not, and 0xFFFF + 1 wraps and crosses |
| Addressing.IndirectTarget | cpu/addressing.go:219-223 | the low byte is read at the pointer; the high byte is read at the pointer plus 1, or at the start of the same page when the pointer ends in 0xFF |
| Addressing.IndirectPageWrapExample | cpu/addressing.go:219-220 | pointer 0x30FF takes its high byte from 0x3000, not 0x3100 |
| Addressing.IndexedIndirectPointer | cpu/addressing.go:239 | the read address is operand + x without wrap-around, at most 0x1FE |
| Addressing.IndexedIndirectLeavesZeroPage | cpu/addressing.go:239 | when operand + x exceeds 0xFF, the read address leaves page zero and differs from the wrapped one |
| Addressing.IndirectIndexedAddress | cpu/addressing.go:253-254 | the address is the pointer byte plus y, without wrap-around, at most 0x1FE |
| Addressing.IndirectIndexedIgnoresHighPointer | cpu/addressing.go:253-254 | two memories that agree on the pointer byte but not on the byte after it give the same address |
| Addressing.IndirectIndexedPenalty | cpu/addressing.go:254-260 | indirectIndexed pays the extra cycle exactly when the address reaches 0x100 |
| Addressing.ByteBasePenalty | cpu/addressing.go:258-260 | for a base in page zero, the penalty is due exactly when base + index reaches 0x100 |
| Instructions.Ordinal | cpu/instructions.go:6-64 | each mnemonic's numeric value lies in 1..56, so none is the zero value, and FromOrdinal maps it back |
| Instructions.InstructionNames | cpu/instructions.go:66-124 | every mnemonic has a three-letter name, and FromName maps the name back to it |
| Instructions.NamesDistinct | cpu/instructions.go:6-124 | distinct mnemonics have distinct names, and the zero value is no mnemonic |
| Instructions.TableKeysAreOpcodes | cpu/instructions.go:135-287 | every entry's opcode field equals its key |
| Instructions.TableSize | cpu/instructions.go:135-287 | exactly 151 opcodes have an entry |
| Instructions.InstructionTable | cpu/instructions.go:135-287 | the opcode table, entry for entry in source order; its properties are TableSize, EntryWellFormed, TableKeysAreOpcodes and the entry lemmas below |
| Instructions.DefinedInSplit | cpu/instructions.go:135-287 | the entry counts of adjacent opcode ranges add up |
| Instructions.UndefinedOpcodes | cpu/instructions.go:135-287 | opcode 0x02 has no entry |
| Instructions.EntryWellFormed | cpu/instructions.go:135-287 | every entry repeats its key, has 2..7 cycles, uses Relative exactly for the branches, and uses Accumulator, Indirect and ZeroPageY only at their listed opcodes; no store uses Immediate |
| Instructions.RelativeModeIsBranches | cpu/instructions.go:157-167 | an entry uses Relative iff its mnemonic is one of the eight branches, and then costs 2 cycles |
| Instructions.BranchEntries | cpu/instructions.go:157-167 | each of the eight branches has its entry, Relative at 2 cycles |
| Instructions.AccumulatorOpcodes | cpu/instructions.go:135-287 | an entry uses Accumulator iff its opcode is 0x0A, 0x2A, 0x4A or 0x6A |
| Instructions.AccumulatorEntries | cpu/instructions.go:152-250 | ASL, ROL, LSR and ROR each have their Accumulator entry, at 2 cycles |
| Instructions.IndirectAndZeroPageYOpcodes | cpu/instructions.go:135-287 | an entry uses Indirect iff its opcode is 0x6C, and ZeroPageY iff its opcode is 0x96 or 0xB6 |
| Instructions.IndirectEntry | cpu/instructions.go:207 | 0x6C is JMP, Indirect, 5 cycles |
| Instructions.ZeroPageYEntries | cpu/instructions.go:219-276 | 0xB6 is LDX and 0x96 is STX, both ZeroPageY at 4 cycles |
| Instructions.CyclesAndStores | cpu/instructions.go:136-286 | every base cycle count lies in 2..7, and STA, STX and STY never use Immediate |

The lemmas `Instructions.BlockNNOpcodes`, `BlockNNCount`, `RowNCount`,
`QuarterNCount` and `RowNWellFormed` are the steps of `TableSize` and
`EntryWellFormed`. Each covers one range of opcodes.

## Left out

- File I/O in `NewCartridge` is not modelled. This covers opening, reading,
  seeking and the panics on failure. The file is an in-memory byte sequence,
  and the constructor requires it to hold every byte the loader reads.
- The `CartridgeHeader` struct is not modelled. The loader never fills it: it
  serves only to size the 16-byte header read through `binary.Size(header)`
  (`cartridge.go:63`), and the cartridge literal (`cartridge.go:113-122`)
  leaves the cartridge's `header` field at its zero value.
- The CHR buffer is loaded but no operation reads it. The PPU side of the
  cartridge does not exist in this code.
- The mappedAddress argument at `cartridge.go:133` and `cartridge.go:143` does
  not match the mapper interface. It is passed by value where a pointer is
  declared. The model uses the evident intent: the mapper's offset indexes PRG
  memory.
- Go runtime failures are preconditions:
  - calling `Read` or `Write` on the bus before a cartridge is inserted;
  - calling a cartridge that has no mapper;
  - a PRG buffer shorter than the mapped offset.
- The `fmt.Printf` logging in the PPU branches of `MainBus.Read` and `Write`
  is not modelled. Those branches are no-ops.
- `CPU6502.String` is not modelled. It only formats output.
- `ConnectBus`, the clock and step loop, and the instruction handlers are not
  modelled. The handlers are referenced by the opcode table but are not part
  of this model. Each table entry keeps only its `Instruction` tag, not the
  `Execute` function pointer.
- The CPU reaches its bus through an interface. Here each operation that
  reads the bus takes the memory the bus presents as a `bv16 -> bv8`
  function. `MainBus.Reset` therefore takes that memory as a parameter, and
  requires only that it agrees with `MainBus.Read` at 0xFFFC and 0xFFFD.
- `AddressingMode.String` returns "Unknown" for byte values outside the
  enumeration. Those values cannot be formed in the datatype, so that branch
  is not modelled.
- The numeric values of the `Instruction` enumeration are modelled only by
  `Ordinal`, and the `InstructionNames` map as a total function. The map
  covers every mnemonic, so the two agree.
- Cpu.CPU6502.absoluteX: states its extra cycle as `PageCrossPenalty` of the
  effective address, not directly as a page comparison. The meaning (1
  exactly when the high byte changes) is proved in
  `Addressing.PageCrossPenaltyMeaning`.
- Cpu.CPU6502.absoluteY: states its extra cycle as `PageCrossPenalty`, like
  absoluteX, with the same lemma giving its meaning.
- Cpu.CPU6502.indirectIndexed: states its extra cycle as `PageCrossPenalty`.
  `Addressing.IndirectIndexedPenalty` proves it is 1 exactly when the address
  reaches 0x100.
