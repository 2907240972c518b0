/** The 6502 CPU state (cpu/cpu.go) and its addressing-mode methods
    (cpu/addressing.go). The bus the CPU is connected to is passed to each
    operation that reads it, as the memory it shows at that moment. */
module Cpu {
  import opened Addressing

  // Register ids accepted by GetRegister and SetRegister.
  const RegA: bv8 := 0
  const RegX: bv8 := 1
  const RegY: bv8 := 2
  const RegSP: bv8 := 3
  const RegP: bv8 := 4

  // Status flags, one bit each.
  const FlagC: bv8 := 0x01
  const FlagZ: bv8 := 0x02
  const FlagI: bv8 := 0x04
  const FlagD: bv8 := 0x08
  const FlagB: bv8 := 0x10
  const FlagU: bv8 := 0x20
  const FlagV: bv8 := 0x40
  const FlagN: bv8 := 0x80

  /** The eight flags, each a distinct single bit. */
  lemma FlagsAreBits()
    ensures FlagC == 1 << 0 && FlagZ == 1 << 1 && FlagI == 1 << 2 && FlagD == 1 << 3
    ensures FlagB == 1 << 4 && FlagU == 1 << 5 && FlagV == 1 << 6 && FlagN == 1 << 7
    ensures FlagC | FlagZ | FlagI | FlagD | FlagB | FlagU | FlagV | FlagN == 0xFF
  {
  }

  /** A status byte with the bits of flag set or cleared: those bits become
      all ones or all zeros, and every other bit keeps its value. */
  function WithFlag(status: bv8, flag: bv8, enable: bool): (s: bv8)
    ensures s & flag == (if enable then flag else 0)
    ensures s & !flag == status & !flag
  {
    if enable then status | flag else status & !flag
  }

  /** Whether any bit of flag is set in status. */
  function FlagSet(status: bv8, flag: bv8): bool
  {
    status & flag != 0
  }

  /** Reading a nonzero flag back gives what was written. */
  lemma FlagRoundTrip(status: bv8, flag: bv8, enable: bool)
    requires flag != 0
    ensures FlagSet(WithFlag(status, flag, enable), flag) == enable
  {
  }

  /** Writing the same flag value twice is the same as writing it once. */
  lemma FlagWriteIdempotent(status: bv8, flag: bv8, enable: bool)
    ensures WithFlag(WithFlag(status, flag, enable), flag, enable) == WithFlag(status, flag, enable)
  {
  }

  /** Setting or clearing one flag does not disturb the reading of a flag
      with no bit in common with it. */
  lemma FlagWriteIndependent(status: bv8, flag: bv8, other: bv8, enable: bool)
    requires flag & other == 0
    ensures FlagSet(WithFlag(status, flag, enable), other) == FlagSet(status, other)
  {
  }

  /** The reset vector is read high byte first: the byte at 0xFFFC becomes
      the high byte, so whenever the two vector bytes differ the result is not
      the little-endian vector the 6502 uses. */
  lemma ResetVectorBigEndian(bus: Memory)
    requires bus(0xFFFC) != bus(0xFFFD)
    ensures Word(bus(0xFFFC), bus(0xFFFD)) != Word(bus(0xFFFD), bus(0xFFFC))
  {
    assert HighByte(Word(bus(0xFFFC), bus(0xFFFD))) != HighByte(Word(bus(0xFFFD), bus(0xFFFC)));
  }

  class CPU6502 {
    var a: bv8
    var x: bv8
    var y: bv8
    var programCounter: bv16
    var stackPointer: bv8
    var status: bv8

    var fetched: bv8
    var temp: bv16
    var absoluteAddress: bv16
    var relativeAddress: bv16
    var addressingMode: AddressingMode
    var opcode: bv8
    var cycles: int

    /** A CPU with every field at its zero value. */
    constructor New()
      ensures a == 0 && x == 0 && y == 0 && programCounter == 0 && stackPointer == 0 && status == 0
      ensures fetched == 0 && temp == 0 && absoluteAddress == 0 && relativeAddress == 0
      ensures addressingMode == Implicit && opcode == 0 && cycles == 0
    {
      a, x, y := 0, 0, 0;
      programCounter, stackPointer, status := 0, 0, 0;
      fetched, temp, absoluteAddress, relativeAddress := 0, 0, 0, 0;
      addressingMode, opcode, cycles := Implicit, 0, 0;
    }

    /** The state Reset leaves: registers cleared, the program counter
        loaded high byte first from 0xFFFC/0xFFFD, the stack pointer at 0xFD,
        only the unused flag set, the internal latches cleared, and 8 cycles
        to wait. */
    ghost predicate InResetState(bus: Memory)
      reads this
    {
      && a == 0 && x == 0 && y == 0
      && programCounter == Word(bus(0xFFFC), bus(0xFFFD))
      && stackPointer == 0xFD
      && status == FlagU
      && relativeAddress == 0 && absoluteAddress == 0 && fetched == 0 && temp == 0
      && addressingMode == Implicit && opcode == 0
      && cycles == 8
    }

    method Reset(bus: Memory)
      modifies this
      ensures InResetState(bus)
    {
      var hi, lo := bus(0xFFFC), bus(0xFFFD);
      a := 0;
      x := 0;
      y := 0;
      programCounter := Word(hi, lo);
      stackPointer := 0xFD;
      status := 0 | FlagU;

      relativeAddress := 0;
      absoluteAddress := 0;
      fetched := 0;
      temp := 0;
      addressingMode := Implicit;
      opcode := 0;

      cycles := 8;
    }

    /** Sets or clears the bits of flag in the status register. */
    method SetFlag(flag: bv8, enable: bool)
      modifies this`status
      ensures status == WithFlag(old(status), flag, enable)
      ensures flag != 0 ==> GetFlag(flag) == enable
    {
      if enable {
        status := status | flag;
      } else {
        status := status & !flag;
      }
      if flag != 0 {
        FlagRoundTrip(old(status), flag, enable);
      }
    }

    /** Whether any bit of flag is set in the status register. */
    function GetFlag(flag: bv8): (isSet: bool)
      reads this`status
      ensures isSet == FlagSet(status, flag)
      ensures flag == 0 ==> !isSet
    {
      FlagSet(status, flag)
    }

    /** The register named by a register id; an unknown id reads as 0. */
    function GetRegister(reg: bv8): (value: bv8)
      reads this
      ensures reg > RegP ==> value == 0
      ensures reg == RegA ==> value == a
      ensures reg == RegX ==> value == x
      ensures reg == RegY ==> value == y
      ensures reg == RegSP ==> value == stackPointer
      ensures reg == RegP ==> value == status
    {
      match reg
      case 0 => a
      case 1 => x
      case 2 => y
      case 3 => stackPointer
      case 4 => status
      case _ => 0
    }

    /** Writes the register named by reg; an unknown id changes nothing. */
    method SetRegister(reg: bv8, value: bv8)
      modifies this`a, this`x, this`y, this`stackPointer, this`status
      ensures reg <= RegP ==> GetRegister(reg) == value
      ensures forall r :: r != reg ==> GetRegister(r) == old(GetRegister(r))
      ensures reg > RegP ==> a == old(a) && x == old(x) && y == old(y) &&
                             stackPointer == old(stackPointer) && status == old(status)
    {
      match reg
      case 0 => a := value;
      case 1 => x := value;
      case 2 => y := value;
      case 3 => stackPointer := value;
      case 4 => status := value;
      case _ =>
    }

    function GetPC(): (pc: bv16)
      reads this`programCounter
      ensures pc == programCounter
    {
      programCounter
    }

    method SetPC(value: bv16)
      modifies this`programCounter
      ensures GetPC() == value
    {
      programCounter := value;
    }

    /** The cycles left in the current step. */
    function GetCycles(): (n: int)
      reads this`cycles
      ensures n == cycles
    {
      cycles
    }

    // -------------------------------------------------------------------
    // Addressing modes. Each reads its operand from the bus at the program
    // counter, sets the effective address, advances the program counter
    // and returns the number of extra cycles. None of them touches a, x, y,
    // status, the stack pointer or memory.
    // -------------------------------------------------------------------

    method implicit() returns (extraCycles: int)
      ensures extraCycles == 0
    {
      extraCycles := 0;
    }

    method accumulator() returns (extraCycles: int)
      ensures extraCycles == 0
    {
      extraCycles := 0;
    }

    /** The operand is the byte after the opcode itself. */
    method immediate() returns (extraCycles: int)
      modifies this`absoluteAddress, this`programCounter
      ensures absoluteAddress == old(programCounter)
      ensures programCounter == old(programCounter) + 1
      ensures extraCycles == 0
    {
      extraCycles := 0;
      absoluteAddress := programCounter;
      programCounter := programCounter + 1;
    }

    /** The operand byte as a page-zero address. */
    method zeroPage(bus: Memory) returns (extraCycles: int)
      modifies this`absoluteAddress, this`programCounter
      ensures absoluteAddress == ZeroPageAddress(bus(old(programCounter)), 0)
      ensures programCounter == old(programCounter) + 1
      ensures extraCycles == 0
    {
      extraCycles := 0;
      var pc := programCounter;
      absoluteAddress := (bus(pc) & 0xFF) as bv16;
      programCounter := pc + 1;
    }

    /** Operand plus x, wrapped into page zero. */
    method zeroPageX(bus: Memory) returns (extraCycles: int)
      modifies this`absoluteAddress, this`programCounter
      ensures absoluteAddress == ZeroPageAddress(bus(old(programCounter)), x)
      ensures programCounter == old(programCounter) + 1
      ensures extraCycles == 0
    {
      extraCycles := 0;
      var pc, index := programCounter, x;
      var address := (bus(pc) & 0xFF) as bv16 + index as bv16;
      absoluteAddress := address & 0xFF;
      programCounter := pc + 1;
    }

    /** Operand plus y, wrapped into page zero. */
    method zeroPageY(bus: Memory) returns (extraCycles: int)
      modifies this`absoluteAddress, this`programCounter
      ensures absoluteAddress == ZeroPageAddress(bus(old(programCounter)), y)
      ensures programCounter == old(programCounter) + 1
      ensures extraCycles == 0
    {
      extraCycles := 0;
      var pc, index := programCounter, y;
      var address := (bus(pc) & 0xFF) as bv16 + index as bv16;
      absoluteAddress := address & 0xFF;
      programCounter := pc + 1;
    }

    /** The offset byte, zero-extended; the program counter skips two. */
    method relative(bus: Memory) returns (extraCycles: int)
      modifies this`temp, this`relativeAddress, this`programCounter
      ensures temp == RelativeOffset(bus(old(programCounter)))
      ensures relativeAddress == RelativeOffset(bus(old(programCounter)))
      ensures programCounter == old(programCounter) + 2
      ensures extraCycles == 0
    {
      extraCycles := 0;
      var pc := programCounter;
      var offset := bus(pc) as bv16;
      temp := offset;
      relativeAddress := offset;
      programCounter := pc + 2;
    }

    /** The byte at the program counter, read twice, as high and low byte. */
    method absolute(bus: Memory) returns (extraCycles: int)
      modifies this`absoluteAddress, this`programCounter
      ensures absoluteAddress == DoubledOperand(bus, old(programCounter))
      ensures programCounter == old(programCounter) + 2
      ensures extraCycles == 0
    {
      extraCycles := 0;
      var pc := programCounter;
      absoluteAddress := (bus(pc) as bv16 << 8) | bus(pc) as bv16;
      programCounter := pc + 2;
    }

    /** The doubled operand plus x (16-bit wrap-around); the extra cycle is
        the page-crossing penalty. */
    method absoluteX(bus: Memory) returns (extraCycles: int)
      modifies this`absoluteAddress, this`programCounter
      ensures absoluteAddress == DoubledOperand(bus, old(programCounter)) + x as bv16
      ensures programCounter == old(programCounter) + 2
      ensures extraCycles == PageCrossPenalty(absoluteAddress, x)
    {
      var pc, index := programCounter, x;
      var address := (bus(pc) as bv16 << 8) | bus(pc) as bv16;
      address := address + index as bv16;
      absoluteAddress := address;
      programCounter := pc + 2;
      extraCycles := PageCrossPenalty(address, index);
    }

    /** The doubled operand plus y (16-bit wrap-around); the extra cycle is
        the page-crossing penalty. */
    method absoluteY(bus: Memory) returns (extraCycles: int)
      modifies this`absoluteAddress, this`programCounter
      ensures absoluteAddress == DoubledOperand(bus, old(programCounter)) + y as bv16
      ensures programCounter == old(programCounter) + 2
      ensures extraCycles == PageCrossPenalty(absoluteAddress, y)
    {
      var pc, index := programCounter, y;
      var address := (bus(pc) as bv16 << 8) | bus(pc) as bv16;
      address := address + index as bv16;
      absoluteAddress := address;
      programCounter := pc + 2;
      extraCycles := PageCrossPenalty(address, index);
    }

    /** The pointer is the doubled operand; the target is read through it
        with the same-page wrap for a pointer ending in 0xFF. The program
        counter advances by one only. */
    method indirect(bus: Memory) returns (extraCycles: int)
      modifies this`temp, this`absoluteAddress, this`programCounter
      ensures temp == DoubledOperand(bus, old(programCounter))
      ensures absoluteAddress == IndirectTarget(bus, temp)
      ensures programCounter == old(programCounter) + 1
      ensures extraCycles == 0
    {
      extraCycles := 0;
      var pc := programCounter;
      var pointer := (bus(pc) as bv16 << 8) | bus(pc) as bv16;
      temp := pointer;
      absoluteAddress := IndirectTarget(bus, pointer);
      programCounter := pc + 1;
    }

    /** One byte read from operand + x (no page-zero wrap), zero-extended. */
    method indexedIndirect(bus: Memory) returns (extraCycles: int)
      modifies this`temp, this`absoluteAddress, this`programCounter
      ensures temp == bus(old(programCounter)) as bv16
      ensures absoluteAddress == bus(IndexedIndirectPointer(bus(old(programCounter)), x)) as bv16
      ensures programCounter == old(programCounter) + 1
      ensures extraCycles == 0
    {
      extraCycles := 0;
      var pc, index := programCounter, x;
      var operand := bus(pc);
      temp := operand as bv16;
      absoluteAddress := bus(IndexedIndirectPointer(operand, index)) as bv16;
      programCounter := pc + 1;
    }

    /** One pointer byte read from page zero, plus y; the extra cycle is the
        page-crossing penalty, due exactly when the sum reaches page one. */
    method indirectIndexed(bus: Memory) returns (extraCycles: int)
      modifies this`temp, this`absoluteAddress, this`programCounter
      ensures temp == bus(old(programCounter)) as bv16
      ensures absoluteAddress == IndirectIndexedAddress(bus, bus(old(programCounter)), y)
      ensures programCounter == old(programCounter) + 1
      ensures extraCycles == PageCrossPenalty(absoluteAddress, y)
    {
      var pc, index := programCounter, y;
      var operand := bus(pc);
      temp := operand as bv16;
      var address := IndirectIndexedAddress(bus, operand, index);
      absoluteAddress := address;
      programCounter := pc + 1;
      extraCycles := PageCrossPenalty(address, index);
    }
  }
}
