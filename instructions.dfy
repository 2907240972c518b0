/** The 6502 instruction set as the emulator tabulates it
    (cpu/instructions.go): the mnemonic enumeration, its name map and the
    opcode table. The handler each table entry points to is represented only
    by the entry's mnemonic. */
module Instructions {
  import opened Wrappers
  import opened Addressing

  /** The legal mnemonics, in declaration order. */
  datatype Instruction =
    | ADC
    | AND
    | ASL
    | BCC
    | BCS
    | BEQ
    | BIT
    | BMI
    | BNE
    | BPL
    | BRK
    | BVC
    | BVS
    | CLC
    | CLD
    | CLI
    | CLV
    | CMP
    | CPX
    | CPY
    | DEC
    | DEX
    | DEY
    | EOR
    | INC
    | INX
    | INY
    | JMP
    | JSR
    | LDA
    | LDX
    | LDY
    | LSR
    | NOP
    | ORA
    | PHA
    | PHP
    | PLA
    | PLP
    | ROL
    | ROR
    | RTI
    | RTS
    | SBC
    | SEC
    | SED
    | SEI
    | STA
    | STX
    | STY
    | TAX
    | TAY
    | TSX
    | TXA
    | TXS
    | TYA

  /** The numeric value of each mnemonic: the enumeration starts at 1, so the
      zero value of the underlying byte type is not a mnemonic. */
  function Ordinal(i: Instruction): (n: nat)
    ensures 1 <= n <= 56
    ensures FromOrdinal(n) == Some(i)
  {
    match i
    case ADC => 1
    case AND => 2
    case ASL => 3
    case BCC => 4
    case BCS => 5
    case BEQ => 6
    case BIT => 7
    case BMI => 8
    case BNE => 9
    case BPL => 10
    case BRK => 11
    case BVC => 12
    case BVS => 13
    case CLC => 14
    case CLD => 15
    case CLI => 16
    case CLV => 17
    case CMP => 18
    case CPX => 19
    case CPY => 20
    case DEC => 21
    case DEX => 22
    case DEY => 23
    case EOR => 24
    case INC => 25
    case INX => 26
    case INY => 27
    case JMP => 28
    case JSR => 29
    case LDA => 30
    case LDX => 31
    case LDY => 32
    case LSR => 33
    case NOP => 34
    case ORA => 35
    case PHA => 36
    case PHP => 37
    case PLA => 38
    case PLP => 39
    case ROL => 40
    case ROR => 41
    case RTI => 42
    case RTS => 43
    case SBC => 44
    case SEC => 45
    case SED => 46
    case SEI => 47
    case STA => 48
    case STX => 49
    case STY => 50
    case TAX => 51
    case TAY => 52
    case TSX => 53
    case TXA => 54
    case TXS => 55
    case TYA => 56
  }

  /** The mnemonic with a given numeric value, if any. */
  function FromOrdinal(n: nat): Option<Instruction>
  {
    if n <= 28 then FirstHalf(n) else SecondHalf(n)
  }

  /** FromOrdinal on the first half of the enumeration. */
  function FirstHalf(n: nat): Option<Instruction>
  {
    match n
    case 1 => Some(ADC)
    case 2 => Some(AND)
    case 3 => Some(ASL)
    case 4 => Some(BCC)
    case 5 => Some(BCS)
    case 6 => Some(BEQ)
    case 7 => Some(BIT)
    case 8 => Some(BMI)
    case 9 => Some(BNE)
    case 10 => Some(BPL)
    case 11 => Some(BRK)
    case 12 => Some(BVC)
    case 13 => Some(BVS)
    case 14 => Some(CLC)
    case 15 => Some(CLD)
    case 16 => Some(CLI)
    case 17 => Some(CLV)
    case 18 => Some(CMP)
    case 19 => Some(CPX)
    case 20 => Some(CPY)
    case 21 => Some(DEC)
    case 22 => Some(DEX)
    case 23 => Some(DEY)
    case 24 => Some(EOR)
    case 25 => Some(INC)
    case 26 => Some(INX)
    case 27 => Some(INY)
    case 28 => Some(JMP)
    case _ => None
  }

  /** FromOrdinal on the second half of the enumeration. */
  function SecondHalf(n: nat): Option<Instruction>
  {
    match n
    case 29 => Some(JSR)
    case 30 => Some(LDA)
    case 31 => Some(LDX)
    case 32 => Some(LDY)
    case 33 => Some(LSR)
    case 34 => Some(NOP)
    case 35 => Some(ORA)
    case 36 => Some(PHA)
    case 37 => Some(PHP)
    case 38 => Some(PLA)
    case 39 => Some(PLP)
    case 40 => Some(ROL)
    case 41 => Some(ROR)
    case 42 => Some(RTI)
    case 43 => Some(RTS)
    case 44 => Some(SBC)
    case 45 => Some(SEC)
    case 46 => Some(SED)
    case 47 => Some(SEI)
    case 48 => Some(STA)
    case 49 => Some(STX)
    case 50 => Some(STY)
    case 51 => Some(TAX)
    case 52 => Some(TAY)
    case 53 => Some(TSX)
    case 54 => Some(TXA)
    case 55 => Some(TXS)
    case 56 => Some(TYA)
    case _ => None
  }

  /** The printable name of every mnemonic. The map covers the whole
      enumeration, so it is a total function here. */
  function InstructionNames(i: Instruction): (name: string)
    ensures |name| == 3
    ensures FromName(name) == Some(i)
  {
    match i
    case ADC => "ADC"
    case AND => "AND"
    case ASL => "ASL"
    case BCC => "BCC"
    case BCS => "BCS"
    case BEQ => "BEQ"
    case BIT => "BIT"
    case BMI => "BMI"
    case BNE => "BNE"
    case BPL => "BPL"
    case BRK => "BRK"
    case BVC => "BVC"
    case BVS => "BVS"
    case CLC => "CLC"
    case CLD => "CLD"
    case CLI => "CLI"
    case CLV => "CLV"
    case CMP => "CMP"
    case CPX => "CPX"
    case CPY => "CPY"
    case DEC => "DEC"
    case DEX => "DEX"
    case DEY => "DEY"
    case EOR => "EOR"
    case INC => "INC"
    case INX => "INX"
    case INY => "INY"
    case JMP => "JMP"
    case JSR => "JSR"
    case LDA => "LDA"
    case LDX => "LDX"
    case LDY => "LDY"
    case LSR => "LSR"
    case NOP => "NOP"
    case ORA => "ORA"
    case PHA => "PHA"
    case PHP => "PHP"
    case PLA => "PLA"
    case PLP => "PLP"
    case ROL => "ROL"
    case ROR => "ROR"
    case RTI => "RTI"
    case RTS => "RTS"
    case SBC => "SBC"
    case SEC => "SEC"
    case SED => "SED"
    case SEI => "SEI"
    case STA => "STA"
    case STX => "STX"
    case STY => "STY"
    case TAX => "TAX"
    case TAY => "TAY"
    case TSX => "TSX"
    case TXA => "TXA"
    case TXS => "TXS"
    case TYA => "TYA"
  }

  /** An opcode byte. */
  type Opcode = b: int | 0 <= b < 0x100

  /** One entry of the opcode table: mnemonic, opcode, addressing mode and base
      cycle count. */
  datatype InstructionInfo = InstructionInfo(instruction: Instruction, opcode: Opcode, mode: AddressingMode, cycles: nat)

  /** The opcode table: the descriptor of an opcode byte, or None for a byte
      with no entry. Entries are listed in the order of the source, grouped by
      mnemonic. */
  function InstructionTable(op: Opcode): Option<InstructionInfo>
  {
    match op
    case 0x69 => Some(InstructionInfo(ADC, 0x69, Immediate, 2))
    case 0x65 => Some(InstructionInfo(ADC, 0x65, ZeroPage, 3))
    case 0x75 => Some(InstructionInfo(ADC, 0x75, ZeroPageX, 4))
    case 0x6D => Some(InstructionInfo(ADC, 0x6D, Absolute, 4))
    case 0x7D => Some(InstructionInfo(ADC, 0x7D, AbsoluteX, 4))
    case 0x79 => Some(InstructionInfo(ADC, 0x79, AbsoluteY, 4))
    case 0x61 => Some(InstructionInfo(ADC, 0x61, IndexedIndirect, 6))
    case 0x71 => Some(InstructionInfo(ADC, 0x71, IndirectIndexed, 5))
    case 0x29 => Some(InstructionInfo(AND, 0x29, Immediate, 2))
    case 0x25 => Some(InstructionInfo(AND, 0x25, ZeroPage, 3))
    case 0x35 => Some(InstructionInfo(AND, 0x35, ZeroPageX, 4))
    case 0x2D => Some(InstructionInfo(AND, 0x2D, Absolute, 4))
    case 0x3D => Some(InstructionInfo(AND, 0x3D, AbsoluteX, 4))
    case 0x39 => Some(InstructionInfo(AND, 0x39, AbsoluteY, 4))
    case 0x21 => Some(InstructionInfo(AND, 0x21, IndexedIndirect, 6))
    case 0x31 => Some(InstructionInfo(AND, 0x31, IndirectIndexed, 5))
    case 0x0A => Some(InstructionInfo(ASL, 0x0A, Accumulator, 2))
    case 0x06 => Some(InstructionInfo(ASL, 0x06, ZeroPage, 5))
    case 0x16 => Some(InstructionInfo(ASL, 0x16, ZeroPageX, 6))
    case 0x0E => Some(InstructionInfo(ASL, 0x0E, Absolute, 6))
    case 0x1E => Some(InstructionInfo(ASL, 0x1E, AbsoluteX, 7))
    case 0x90 => Some(InstructionInfo(BCC, 0x90, Relative, 2))
    case 0xB0 => Some(InstructionInfo(BCS, 0xB0, Relative, 2))
    case 0xF0 => Some(InstructionInfo(BEQ, 0xF0, Relative, 2))
    case 0x24 => Some(InstructionInfo(BIT, 0x24, ZeroPage, 3))
    case 0x2C => Some(InstructionInfo(BIT, 0x2C, Absolute, 4))
    case 0x30 => Some(InstructionInfo(BMI, 0x30, Relative, 2))
    case 0xD0 => Some(InstructionInfo(BNE, 0xD0, Relative, 2))
    case 0x10 => Some(InstructionInfo(BPL, 0x10, Relative, 2))
    case 0x00 => Some(InstructionInfo(BRK, 0x00, Implicit, 7))
    case 0x50 => Some(InstructionInfo(BVC, 0x50, Relative, 2))
    case 0x70 => Some(InstructionInfo(BVS, 0x70, Relative, 2))
    case 0x18 => Some(InstructionInfo(CLC, 0x18, Implicit, 2))
    case 0xD8 => Some(InstructionInfo(CLD, 0xD8, Implicit, 2))
    case 0x58 => Some(InstructionInfo(CLI, 0x58, Implicit, 2))
    case 0xB8 => Some(InstructionInfo(CLV, 0xB8, Implicit, 2))
    case 0xC9 => Some(InstructionInfo(CMP, 0xC9, Immediate, 2))
    case 0xC5 => Some(InstructionInfo(CMP, 0xC5, ZeroPage, 3))
    case 0xD5 => Some(InstructionInfo(CMP, 0xD5, ZeroPageX, 4))
    case 0xCD => Some(InstructionInfo(CMP, 0xCD, Absolute, 4))
    case 0xDD => Some(InstructionInfo(CMP, 0xDD, AbsoluteX, 4))
    case 0xD9 => Some(InstructionInfo(CMP, 0xD9, AbsoluteY, 4))
    case 0xC1 => Some(InstructionInfo(CMP, 0xC1, IndexedIndirect, 6))
    case 0xD1 => Some(InstructionInfo(CMP, 0xD1, IndirectIndexed, 5))
    case 0xE0 => Some(InstructionInfo(CPX, 0xE0, Immediate, 2))
    case 0xE4 => Some(InstructionInfo(CPX, 0xE4, ZeroPage, 3))
    case 0xEC => Some(InstructionInfo(CPX, 0xEC, Absolute, 4))
    case 0xC0 => Some(InstructionInfo(CPY, 0xC0, Immediate, 2))
    case 0xC4 => Some(InstructionInfo(CPY, 0xC4, ZeroPage, 3))
    case 0xCC => Some(InstructionInfo(CPY, 0xCC, Absolute, 4))
    case 0xC6 => Some(InstructionInfo(DEC, 0xC6, ZeroPage, 5))
    case 0xD6 => Some(InstructionInfo(DEC, 0xD6, ZeroPageX, 6))
    case 0xCE => Some(InstructionInfo(DEC, 0xCE, Absolute, 6))
    case 0xDE => Some(InstructionInfo(DEC, 0xDE, AbsoluteX, 7))
    case 0xCA => Some(InstructionInfo(DEX, 0xCA, Implicit, 2))
    case 0x88 => Some(InstructionInfo(DEY, 0x88, Implicit, 2))
    case 0x49 => Some(InstructionInfo(EOR, 0x49, Immediate, 2))
    case 0x45 => Some(InstructionInfo(EOR, 0x45, ZeroPage, 3))
    case 0x55 => Some(InstructionInfo(EOR, 0x55, ZeroPageX, 4))
    case 0x4D => Some(InstructionInfo(EOR, 0x4D, Absolute, 4))
    case 0x5D => Some(InstructionInfo(EOR, 0x5D, AbsoluteX, 4))
    case 0x59 => Some(InstructionInfo(EOR, 0x59, AbsoluteY, 4))
    case 0x41 => Some(InstructionInfo(EOR, 0x41, IndexedIndirect, 6))
    case 0x51 => Some(InstructionInfo(EOR, 0x51, IndirectIndexed, 5))
    case 0xE6 => Some(InstructionInfo(INC, 0xE6, ZeroPage, 5))
    case 0xF6 => Some(InstructionInfo(INC, 0xF6, ZeroPageX, 6))
    case 0xEE => Some(InstructionInfo(INC, 0xEE, Absolute, 6))
    case 0xFE => Some(InstructionInfo(INC, 0xFE, AbsoluteX, 7))
    case 0xE8 => Some(InstructionInfo(INX, 0xE8, Implicit, 2))
    case 0xC8 => Some(InstructionInfo(INY, 0xC8, Implicit, 2))
    case 0x4C => Some(InstructionInfo(JMP, 0x4C, Absolute, 3))
    case 0x6C => Some(InstructionInfo(JMP, 0x6C, Indirect, 5))
    case 0x20 => Some(InstructionInfo(JSR, 0x20, Absolute, 6))
    case 0xA9 => Some(InstructionInfo(LDA, 0xA9, Immediate, 2))
    case 0xA5 => Some(InstructionInfo(LDA, 0xA5, ZeroPage, 3))
    case 0xB5 => Some(InstructionInfo(LDA, 0xB5, ZeroPageX, 4))
    case 0xAD => Some(InstructionInfo(LDA, 0xAD, Absolute, 4))
    case 0xBD => Some(InstructionInfo(LDA, 0xBD, AbsoluteX, 4))
    case 0xB9 => Some(InstructionInfo(LDA, 0xB9, AbsoluteY, 4))
    case 0xA1 => Some(InstructionInfo(LDA, 0xA1, IndexedIndirect, 6))
    case 0xB1 => Some(InstructionInfo(LDA, 0xB1, IndirectIndexed, 5))
    case 0xA2 => Some(InstructionInfo(LDX, 0xA2, Immediate, 2))
    case 0xA6 => Some(InstructionInfo(LDX, 0xA6, ZeroPage, 3))
    case 0xB6 => Some(InstructionInfo(LDX, 0xB6, ZeroPageY, 4))
    case 0xAE => Some(InstructionInfo(LDX, 0xAE, Absolute, 4))
    case 0xBE => Some(InstructionInfo(LDX, 0xBE, AbsoluteY, 4))
    case 0xA0 => Some(InstructionInfo(LDY, 0xA0, Immediate, 2))
    case 0xA4 => Some(InstructionInfo(LDY, 0xA4, ZeroPage, 3))
    case 0xB4 => Some(InstructionInfo(LDY, 0xB4, ZeroPageX, 4))
    case 0xAC => Some(InstructionInfo(LDY, 0xAC, Absolute, 4))
    case 0xBC => Some(InstructionInfo(LDY, 0xBC, AbsoluteX, 4))
    case 0x4A => Some(InstructionInfo(LSR, 0x4A, Accumulator, 2))
    case 0x46 => Some(InstructionInfo(LSR, 0x46, ZeroPage, 5))
    case 0x56 => Some(InstructionInfo(LSR, 0x56, ZeroPageX, 6))
    case 0x4E => Some(InstructionInfo(LSR, 0x4E, Absolute, 6))
    case 0x5E => Some(InstructionInfo(LSR, 0x5E, AbsoluteX, 7))
    case 0xEA => Some(InstructionInfo(NOP, 0xEA, Implicit, 2))
    case 0x09 => Some(InstructionInfo(ORA, 0x09, Immediate, 2))
    case 0x05 => Some(InstructionInfo(ORA, 0x05, ZeroPage, 3))
    case 0x15 => Some(InstructionInfo(ORA, 0x15, ZeroPageX, 4))
    case 0x0D => Some(InstructionInfo(ORA, 0x0D, Absolute, 4))
    case 0x1D => Some(InstructionInfo(ORA, 0x1D, AbsoluteX, 4))
    case 0x19 => Some(InstructionInfo(ORA, 0x19, AbsoluteY, 4))
    case 0x01 => Some(InstructionInfo(ORA, 0x01, IndexedIndirect, 6))
    case 0x11 => Some(InstructionInfo(ORA, 0x11, IndirectIndexed, 5))
    case 0x48 => Some(InstructionInfo(PHA, 0x48, Implicit, 3))
    case 0x08 => Some(InstructionInfo(PHP, 0x08, Implicit, 3))
    case 0x68 => Some(InstructionInfo(PLA, 0x68, Implicit, 4))
    case 0x28 => Some(InstructionInfo(PLP, 0x28, Implicit, 4))
    case 0x2A => Some(InstructionInfo(ROL, 0x2A, Accumulator, 2))
    case 0x26 => Some(InstructionInfo(ROL, 0x26, ZeroPage, 5))
    case 0x36 => Some(InstructionInfo(ROL, 0x36, ZeroPageX, 6))
    case 0x2E => Some(InstructionInfo(ROL, 0x2E, Absolute, 6))
    case 0x3E => Some(InstructionInfo(ROL, 0x3E, AbsoluteX, 7))
    case 0x6A => Some(InstructionInfo(ROR, 0x6A, Accumulator, 2))
    case 0x66 => Some(InstructionInfo(ROR, 0x66, ZeroPage, 5))
    case 0x76 => Some(InstructionInfo(ROR, 0x76, ZeroPageX, 6))
    case 0x6E => Some(InstructionInfo(ROR, 0x6E, Absolute, 6))
    case 0x7E => Some(InstructionInfo(ROR, 0x7E, AbsoluteX, 7))
    case 0x40 => Some(InstructionInfo(RTI, 0x40, Implicit, 6))
    case 0x60 => Some(InstructionInfo(RTS, 0x60, Implicit, 6))
    case 0xE9 => Some(InstructionInfo(SBC, 0xE9, Immediate, 2))
    case 0xE5 => Some(InstructionInfo(SBC, 0xE5, ZeroPage, 3))
    case 0xF5 => Some(InstructionInfo(SBC, 0xF5, ZeroPageX, 4))
    case 0xED => Some(InstructionInfo(SBC, 0xED, Absolute, 4))
    case 0xFD => Some(InstructionInfo(SBC, 0xFD, AbsoluteX, 4))
    case 0xF9 => Some(InstructionInfo(SBC, 0xF9, AbsoluteY, 4))
    case 0xE1 => Some(InstructionInfo(SBC, 0xE1, IndexedIndirect, 6))
    case 0xF1 => Some(InstructionInfo(SBC, 0xF1, IndirectIndexed, 5))
    case 0x38 => Some(InstructionInfo(SEC, 0x38, Implicit, 2))
    case 0xF8 => Some(InstructionInfo(SED, 0xF8, Implicit, 2))
    case 0x78 => Some(InstructionInfo(SEI, 0x78, Implicit, 2))
    case 0x85 => Some(InstructionInfo(STA, 0x85, ZeroPage, 3))
    case 0x95 => Some(InstructionInfo(STA, 0x95, ZeroPageX, 4))
    case 0x8D => Some(InstructionInfo(STA, 0x8D, Absolute, 4))
    case 0x9D => Some(InstructionInfo(STA, 0x9D, AbsoluteX, 5))
    case 0x99 => Some(InstructionInfo(STA, 0x99, AbsoluteY, 5))
    case 0x81 => Some(InstructionInfo(STA, 0x81, IndexedIndirect, 6))
    case 0x91 => Some(InstructionInfo(STA, 0x91, IndirectIndexed, 6))
    case 0x86 => Some(InstructionInfo(STX, 0x86, ZeroPage, 3))
    case 0x96 => Some(InstructionInfo(STX, 0x96, ZeroPageY, 4))
    case 0x8E => Some(InstructionInfo(STX, 0x8E, Absolute, 4))
    case 0x84 => Some(InstructionInfo(STY, 0x84, ZeroPage, 3))
    case 0x94 => Some(InstructionInfo(STY, 0x94, ZeroPageX, 4))
    case 0x8C => Some(InstructionInfo(STY, 0x8C, Absolute, 4))
    case 0xAA => Some(InstructionInfo(TAX, 0xAA, Implicit, 2))
    case 0xA8 => Some(InstructionInfo(TAY, 0xA8, Implicit, 2))
    case 0xBA => Some(InstructionInfo(TSX, 0xBA, Implicit, 2))
    case 0x8A => Some(InstructionInfo(TXA, 0x8A, Implicit, 2))
    case 0x9A => Some(InstructionInfo(TXS, 0x9A, Implicit, 2))
    case 0x98 => Some(InstructionInfo(TYA, 0x98, Implicit, 2))
    case _ => None
  }

  /** The opcodes in [lo, hi) that have an entry. */
  ghost function DefinedIn(lo: int, hi: int): set<Opcode>
  {
    set op: Opcode | lo <= op < hi && InstructionTable(op).Some?
  }

  /** The opcodes 0x00..0x07 that have an entry. */
  lemma Block00Opcodes()
    ensures DefinedIn(0x00, 0x08) == {0x00, 0x01, 0x05, 0x06}
  {
  }

  lemma Block00Count()
    ensures |DefinedIn(0x00, 0x08)| == 4
  {
    Block00Opcodes();
  }

  /** The opcodes 0x08..0x0F that have an entry. */
  lemma Block08Opcodes()
    ensures DefinedIn(0x08, 0x10) == {0x08, 0x09, 0x0A, 0x0D, 0x0E}
  {
  }

  lemma Block08Count()
    ensures |DefinedIn(0x08, 0x10)| == 5
  {
    Block08Opcodes();
  }

  /** The opcodes 0x10..0x17 that have an entry. */
  lemma Block10Opcodes()
    ensures DefinedIn(0x10, 0x18) == {0x10, 0x11, 0x15, 0x16}
  {
  }

  lemma Block10Count()
    ensures |DefinedIn(0x10, 0x18)| == 4
  {
    Block10Opcodes();
  }

  /** The opcodes 0x18..0x1F that have an entry. */
  lemma Block18Opcodes()
    ensures DefinedIn(0x18, 0x20) == {0x18, 0x19, 0x1D, 0x1E}
  {
  }

  lemma Block18Count()
    ensures |DefinedIn(0x18, 0x20)| == 4
  {
    Block18Opcodes();
  }

  /** The opcodes 0x20..0x27 that have an entry. */
  lemma Block20Opcodes()
    ensures DefinedIn(0x20, 0x28) == {0x20, 0x21, 0x24, 0x25, 0x26}
  {
  }

  lemma Block20Count()
    ensures |DefinedIn(0x20, 0x28)| == 5
  {
    Block20Opcodes();
  }

  /** The opcodes 0x28..0x2F that have an entry. */
  lemma Block28Opcodes()
    ensures DefinedIn(0x28, 0x30) == {0x28, 0x29, 0x2A, 0x2C, 0x2D, 0x2E}
  {
  }

  lemma Block28Count()
    ensures |DefinedIn(0x28, 0x30)| == 6
  {
    Block28Opcodes();
  }

  /** The opcodes 0x30..0x37 that have an entry. */
  lemma Block30Opcodes()
    ensures DefinedIn(0x30, 0x38) == {0x30, 0x31, 0x35, 0x36}
  {
  }

  lemma Block30Count()
    ensures |DefinedIn(0x30, 0x38)| == 4
  {
    Block30Opcodes();
  }

  /** The opcodes 0x38..0x3F that have an entry. */
  lemma Block38Opcodes()
    ensures DefinedIn(0x38, 0x40) == {0x38, 0x39, 0x3D, 0x3E}
  {
  }

  lemma Block38Count()
    ensures |DefinedIn(0x38, 0x40)| == 4
  {
    Block38Opcodes();
  }

  /** The opcodes 0x40..0x47 that have an entry. */
  lemma Block40Opcodes()
    ensures DefinedIn(0x40, 0x48) == {0x40, 0x41, 0x45, 0x46}
  {
  }

  lemma Block40Count()
    ensures |DefinedIn(0x40, 0x48)| == 4
  {
    Block40Opcodes();
  }

  /** The opcodes 0x48..0x4F that have an entry. */
  lemma Block48Opcodes()
    ensures DefinedIn(0x48, 0x50) == {0x48, 0x49, 0x4A, 0x4C, 0x4D, 0x4E}
  {
  }

  lemma Block48Count()
    ensures |DefinedIn(0x48, 0x50)| == 6
  {
    Block48Opcodes();
  }

  /** The opcodes 0x50..0x57 that have an entry. */
  lemma Block50Opcodes()
    ensures DefinedIn(0x50, 0x58) == {0x50, 0x51, 0x55, 0x56}
  {
  }

  lemma Block50Count()
    ensures |DefinedIn(0x50, 0x58)| == 4
  {
    Block50Opcodes();
  }

  /** The opcodes 0x58..0x5F that have an entry. */
  lemma Block58Opcodes()
    ensures DefinedIn(0x58, 0x60) == {0x58, 0x59, 0x5D, 0x5E}
  {
  }

  lemma Block58Count()
    ensures |DefinedIn(0x58, 0x60)| == 4
  {
    Block58Opcodes();
  }

  /** The opcodes 0x60..0x67 that have an entry. */
  lemma Block60Opcodes()
    ensures DefinedIn(0x60, 0x68) == {0x60, 0x61, 0x65, 0x66}
  {
  }

  lemma Block60Count()
    ensures |DefinedIn(0x60, 0x68)| == 4
  {
    Block60Opcodes();
  }

  /** The opcodes 0x68..0x6F that have an entry. */
  lemma Block68Opcodes()
    ensures DefinedIn(0x68, 0x70) == {0x68, 0x69, 0x6A, 0x6C, 0x6D, 0x6E}
  {
  }

  lemma Block68Count()
    ensures |DefinedIn(0x68, 0x70)| == 6
  {
    Block68Opcodes();
  }

  /** The opcodes 0x70..0x77 that have an entry. */
  lemma Block70Opcodes()
    ensures DefinedIn(0x70, 0x78) == {0x70, 0x71, 0x75, 0x76}
  {
  }

  lemma Block70Count()
    ensures |DefinedIn(0x70, 0x78)| == 4
  {
    Block70Opcodes();
  }

  /** The opcodes 0x78..0x7F that have an entry. */
  lemma Block78Opcodes()
    ensures DefinedIn(0x78, 0x80) == {0x78, 0x79, 0x7D, 0x7E}
  {
  }

  lemma Block78Count()
    ensures |DefinedIn(0x78, 0x80)| == 4
  {
    Block78Opcodes();
  }

  /** The opcodes 0x80..0x87 that have an entry. */
  lemma Block80Opcodes()
    ensures DefinedIn(0x80, 0x88) == {0x81, 0x84, 0x85, 0x86}
  {
  }

  lemma Block80Count()
    ensures |DefinedIn(0x80, 0x88)| == 4
  {
    Block80Opcodes();
  }

  /** The opcodes 0x88..0x8F that have an entry. */
  lemma Block88Opcodes()
    ensures DefinedIn(0x88, 0x90) == {0x88, 0x8A, 0x8C, 0x8D, 0x8E}
  {
  }

  lemma Block88Count()
    ensures |DefinedIn(0x88, 0x90)| == 5
  {
    Block88Opcodes();
  }

  /** The opcodes 0x90..0x97 that have an entry. */
  lemma Block90Opcodes()
    ensures DefinedIn(0x90, 0x98) == {0x90, 0x91, 0x94, 0x95, 0x96}
  {
  }

  lemma Block90Count()
    ensures |DefinedIn(0x90, 0x98)| == 5
  {
    Block90Opcodes();
  }

  /** The opcodes 0x98..0x9F that have an entry. */
  lemma Block98Opcodes()
    ensures DefinedIn(0x98, 0xA0) == {0x98, 0x99, 0x9A, 0x9D}
  {
  }

  lemma Block98Count()
    ensures |DefinedIn(0x98, 0xA0)| == 4
  {
    Block98Opcodes();
  }

  /** The opcodes 0xA0..0xA7 that have an entry. */
  lemma BlockA0Opcodes()
    ensures DefinedIn(0xA0, 0xA8) == {0xA0, 0xA1, 0xA2, 0xA4, 0xA5, 0xA6}
  {
  }

  lemma BlockA0Count()
    ensures |DefinedIn(0xA0, 0xA8)| == 6
  {
    BlockA0Opcodes();
  }

  /** The opcodes 0xA8..0xAF that have an entry. */
  lemma BlockA8Opcodes()
    ensures DefinedIn(0xA8, 0xB0) == {0xA8, 0xA9, 0xAA, 0xAC, 0xAD, 0xAE}
  {
  }

  lemma BlockA8Count()
    ensures |DefinedIn(0xA8, 0xB0)| == 6
  {
    BlockA8Opcodes();
  }

  /** The opcodes 0xB0..0xB7 that have an entry. */
  lemma BlockB0Opcodes()
    ensures DefinedIn(0xB0, 0xB8) == {0xB0, 0xB1, 0xB4, 0xB5, 0xB6}
  {
  }

  lemma BlockB0Count()
    ensures |DefinedIn(0xB0, 0xB8)| == 5
  {
    BlockB0Opcodes();
  }

  /** The opcodes 0xB8..0xBF that have an entry. */
  lemma BlockB8Opcodes()
    ensures DefinedIn(0xB8, 0xC0) == {0xB8, 0xB9, 0xBA, 0xBC, 0xBD, 0xBE}
  {
  }

  lemma BlockB8Count()
    ensures |DefinedIn(0xB8, 0xC0)| == 6
  {
    BlockB8Opcodes();
  }

  /** The opcodes 0xC0..0xC7 that have an entry. */
  lemma BlockC0Opcodes()
    ensures DefinedIn(0xC0, 0xC8) == {0xC0, 0xC1, 0xC4, 0xC5, 0xC6}
  {
  }

  lemma BlockC0Count()
    ensures |DefinedIn(0xC0, 0xC8)| == 5
  {
    BlockC0Opcodes();
  }

  /** The opcodes 0xC8..0xCF that have an entry. */
  lemma BlockC8Opcodes()
    ensures DefinedIn(0xC8, 0xD0) == {0xC8, 0xC9, 0xCA, 0xCC, 0xCD, 0xCE}
  {
  }

  lemma BlockC8Count()
    ensures |DefinedIn(0xC8, 0xD0)| == 6
  {
    BlockC8Opcodes();
  }

  /** The opcodes 0xD0..0xD7 that have an entry. */
  lemma BlockD0Opcodes()
    ensures DefinedIn(0xD0, 0xD8) == {0xD0, 0xD1, 0xD5, 0xD6}
  {
  }

  lemma BlockD0Count()
    ensures |DefinedIn(0xD0, 0xD8)| == 4
  {
    BlockD0Opcodes();
  }

  /** The opcodes 0xD8..0xDF that have an entry. */
  lemma BlockD8Opcodes()
    ensures DefinedIn(0xD8, 0xE0) == {0xD8, 0xD9, 0xDD, 0xDE}
  {
  }

  lemma BlockD8Count()
    ensures |DefinedIn(0xD8, 0xE0)| == 4
  {
    BlockD8Opcodes();
  }

  /** The opcodes 0xE0..0xE7 that have an entry. */
  lemma BlockE0Opcodes()
    ensures DefinedIn(0xE0, 0xE8) == {0xE0, 0xE1, 0xE4, 0xE5, 0xE6}
  {
  }

  lemma BlockE0Count()
    ensures |DefinedIn(0xE0, 0xE8)| == 5
  {
    BlockE0Opcodes();
  }

  /** The opcodes 0xE8..0xEF that have an entry. */
  lemma BlockE8Opcodes()
    ensures DefinedIn(0xE8, 0xF0) == {0xE8, 0xE9, 0xEA, 0xEC, 0xED, 0xEE}
  {
  }

  lemma BlockE8Count()
    ensures |DefinedIn(0xE8, 0xF0)| == 6
  {
    BlockE8Opcodes();
  }

  /** The opcodes 0xF0..0xF7 that have an entry. */
  lemma BlockF0Opcodes()
    ensures DefinedIn(0xF0, 0xF8) == {0xF0, 0xF1, 0xF5, 0xF6}
  {
  }

  lemma BlockF0Count()
    ensures |DefinedIn(0xF0, 0xF8)| == 4
  {
    BlockF0Opcodes();
  }

  /** The opcodes 0xF8..0xFF that have an entry. */
  lemma BlockF8Opcodes()
    ensures DefinedIn(0xF8, 0x100) == {0xF8, 0xF9, 0xFD, 0xFE}
  {
  }

  lemma BlockF8Count()
    ensures |DefinedIn(0xF8, 0x100)| == 4
  {
    BlockF8Opcodes();
  }

  /** Entries in adjacent ranges add up. */
  lemma {:induction false} DefinedInSplit(lo: int, mid: int, hi: int)
    requires lo <= mid <= hi
    ensures |DefinedIn(lo, hi)| == |DefinedIn(lo, mid)| + |DefinedIn(mid, hi)|
  {
    var left, right := DefinedIn(lo, mid), DefinedIn(mid, hi);
    assert DefinedIn(lo, hi) == left + right;
    assert left * right == {};
  }

  /** Entries among the opcodes 0x00..0x0F. */
  lemma Row0Count()
    ensures |DefinedIn(0x00, 0x10)| == 9
  {
    Block00Count();
    Block08Count();
    DefinedInSplit(0x00, 0x08, 0x10);
  }

  /** Entries among the opcodes 0x10..0x1F. */
  lemma Row1Count()
    ensures |DefinedIn(0x10, 0x20)| == 8
  {
    Block10Count();
    Block18Count();
    DefinedInSplit(0x10, 0x18, 0x20);
  }

  /** Entries among the opcodes 0x20..0x2F. */
  lemma Row2Count()
    ensures |DefinedIn(0x20, 0x30)| == 11
  {
    Block20Count();
    Block28Count();
    DefinedInSplit(0x20, 0x28, 0x30);
  }

  /** Entries among the opcodes 0x30..0x3F. */
  lemma Row3Count()
    ensures |DefinedIn(0x30, 0x40)| == 8
  {
    Block30Count();
    Block38Count();
    DefinedInSplit(0x30, 0x38, 0x40);
  }

  /** Entries among the opcodes 0x40..0x4F. */
  lemma Row4Count()
    ensures |DefinedIn(0x40, 0x50)| == 10
  {
    Block40Count();
    Block48Count();
    DefinedInSplit(0x40, 0x48, 0x50);
  }

  /** Entries among the opcodes 0x50..0x5F. */
  lemma Row5Count()
    ensures |DefinedIn(0x50, 0x60)| == 8
  {
    Block50Count();
    Block58Count();
    DefinedInSplit(0x50, 0x58, 0x60);
  }

  /** Entries among the opcodes 0x60..0x6F. */
  lemma Row6Count()
    ensures |DefinedIn(0x60, 0x70)| == 10
  {
    Block60Count();
    Block68Count();
    DefinedInSplit(0x60, 0x68, 0x70);
  }

  /** Entries among the opcodes 0x70..0x7F. */
  lemma Row7Count()
    ensures |DefinedIn(0x70, 0x80)| == 8
  {
    Block70Count();
    Block78Count();
    DefinedInSplit(0x70, 0x78, 0x80);
  }

  /** Entries among the opcodes 0x80..0x8F. */
  lemma Row8Count()
    ensures |DefinedIn(0x80, 0x90)| == 9
  {
    Block80Count();
    Block88Count();
    DefinedInSplit(0x80, 0x88, 0x90);
  }

  /** Entries among the opcodes 0x90..0x9F. */
  lemma Row9Count()
    ensures |DefinedIn(0x90, 0xA0)| == 9
  {
    Block90Count();
    Block98Count();
    DefinedInSplit(0x90, 0x98, 0xA0);
  }

  /** Entries among the opcodes 0xA0..0xAF. */
  lemma RowACount()
    ensures |DefinedIn(0xA0, 0xB0)| == 12
  {
    BlockA0Count();
    BlockA8Count();
    DefinedInSplit(0xA0, 0xA8, 0xB0);
  }

  /** Entries among the opcodes 0xB0..0xBF. */
  lemma RowBCount()
    ensures |DefinedIn(0xB0, 0xC0)| == 11
  {
    BlockB0Count();
    BlockB8Count();
    DefinedInSplit(0xB0, 0xB8, 0xC0);
  }

  /** Entries among the opcodes 0xC0..0xCF. */
  lemma RowCCount()
    ensures |DefinedIn(0xC0, 0xD0)| == 11
  {
    BlockC0Count();
    BlockC8Count();
    DefinedInSplit(0xC0, 0xC8, 0xD0);
  }

  /** Entries among the opcodes 0xD0..0xDF. */
  lemma RowDCount()
    ensures |DefinedIn(0xD0, 0xE0)| == 8
  {
    BlockD0Count();
    BlockD8Count();
    DefinedInSplit(0xD0, 0xD8, 0xE0);
  }

  /** Entries among the opcodes 0xE0..0xEF. */
  lemma RowECount()
    ensures |DefinedIn(0xE0, 0xF0)| == 11
  {
    BlockE0Count();
    BlockE8Count();
    DefinedInSplit(0xE0, 0xE8, 0xF0);
  }

  /** Entries among the opcodes 0xF0..0xFF. */
  lemma RowFCount()
    ensures |DefinedIn(0xF0, 0x100)| == 8
  {
    BlockF0Count();
    BlockF8Count();
    DefinedInSplit(0xF0, 0xF8, 0x100);
  }

  /** Entries among the opcodes 0x00..0x3F. */
  lemma Quarter0Count()
    ensures |DefinedIn(0x00, 0x40)| == 36
  {
    Row0Count();
    Row1Count();
    Row2Count();
    Row3Count();
    DefinedInSplit(0x00, 0x10, 0x40);
    DefinedInSplit(0x10, 0x20, 0x40);
    DefinedInSplit(0x20, 0x30, 0x40);
  }

  /** Entries among the opcodes 0x40..0x7F. */
  lemma Quarter1Count()
    ensures |DefinedIn(0x40, 0x80)| == 36
  {
    Row4Count();
    Row5Count();
    Row6Count();
    Row7Count();
    DefinedInSplit(0x40, 0x50, 0x80);
    DefinedInSplit(0x50, 0x60, 0x80);
    DefinedInSplit(0x60, 0x70, 0x80);
  }

  /** Entries among the opcodes 0x80..0xBF. */
  lemma Quarter2Count()
    ensures |DefinedIn(0x80, 0xC0)| == 41
  {
    Row8Count();
    Row9Count();
    RowACount();
    RowBCount();
    DefinedInSplit(0x80, 0x90, 0xC0);
    DefinedInSplit(0x90, 0xA0, 0xC0);
    DefinedInSplit(0xA0, 0xB0, 0xC0);
  }

  /** Entries among the opcodes 0xC0..0xFF. */
  lemma Quarter3Count()
    ensures |DefinedIn(0xC0, 0x100)| == 38
  {
    RowCCount();
    RowDCount();
    RowECount();
    RowFCount();
    DefinedInSplit(0xC0, 0xD0, 0x100);
    DefinedInSplit(0xD0, 0xE0, 0x100);
    DefinedInSplit(0xE0, 0xF0, 0x100);
  }

  /** The table has exactly 151 entries. */
  lemma TableSize()
    ensures |DefinedIn(0x00, 0x100)| == 151
  {
    Quarter0Count(); Quarter1Count(); Quarter2Count(); Quarter3Count();
    DefinedInSplit(0x00, 0x40, 0x100);
    DefinedInSplit(0x40, 0x80, 0x100);
    DefinedInSplit(0x80, 0xC0, 0x100);
  }

  /** The eight conditional branches. */
  predicate IsBranch(i: Instruction)
  {
    i.BCC? || i.BCS? || i.BEQ? || i.BMI? || i.BNE? || i.BPL? || i.BVC? || i.BVS?
  }

  /** The three store instructions. */
  predicate IsStore(i: Instruction)
  {
    i.STA? || i.STX? || i.STY?
  }

  /** What every entry of the table satisfies: it repeats its own key, costs
      2 to 7 base cycles, uses Relative exactly for the branches (at 2
      cycles), uses Accumulator, Indirect and ZeroPageY only at the listed
      opcodes, and never stores an immediate. */
  ghost predicate WellFormedEntry(op: Opcode, e: InstructionInfo)
  {
    && e.opcode == op
    && 2 <= e.cycles <= 7
    && (e.mode == Relative <==> IsBranch(e.instruction))
    && (e.mode == Relative ==> e.cycles == 2)
    && (e.mode == Accumulator <==> (op == 0x0A || op == 0x2A || op == 0x4A || op == 0x6A))
    && (e.mode == Accumulator ==> e.cycles == 2)
    && (e.mode == Indirect <==> op == 0x6C)
    && (e.mode == ZeroPageY <==> (op == 0x96 || op == 0xB6))
    && (IsStore(e.instruction) ==> e.mode != Immediate)
  }

  /** The entries among 0x00..0x0F are well formed. */
  lemma Row0WellFormed(op: Opcode)
    requires 0x00 <= op < 0x10
    ensures InstructionTable(op).Some? ==> WellFormedEntry(op, InstructionTable(op).value)
  {
  }

  /** The entries among 0x10..0x1F are well formed. */
  lemma Row1WellFormed(op: Opcode)
    requires 0x10 <= op < 0x20
    ensures InstructionTable(op).Some? ==> WellFormedEntry(op, InstructionTable(op).value)
  {
  }

  /** The entries among 0x20..0x2F are well formed. */
  lemma Row2WellFormed(op: Opcode)
    requires 0x20 <= op < 0x30
    ensures InstructionTable(op).Some? ==> WellFormedEntry(op, InstructionTable(op).value)
  {
  }

  /** The entries among 0x30..0x3F are well formed. */
  lemma Row3WellFormed(op: Opcode)
    requires 0x30 <= op < 0x40
    ensures InstructionTable(op).Some? ==> WellFormedEntry(op, InstructionTable(op).value)
  {
  }

  /** The entries among 0x40..0x4F are well formed. */
  lemma Row4WellFormed(op: Opcode)
    requires 0x40 <= op < 0x50
    ensures InstructionTable(op).Some? ==> WellFormedEntry(op, InstructionTable(op).value)
  {
  }

  /** The entries among 0x50..0x5F are well formed. */
  lemma Row5WellFormed(op: Opcode)
    requires 0x50 <= op < 0x60
    ensures InstructionTable(op).Some? ==> WellFormedEntry(op, InstructionTable(op).value)
  {
  }

  /** The entries among 0x60..0x6F are well formed. */
  lemma Row6WellFormed(op: Opcode)
    requires 0x60 <= op < 0x70
    ensures InstructionTable(op).Some? ==> WellFormedEntry(op, InstructionTable(op).value)
  {
  }

  /** The entries among 0x70..0x7F are well formed. */
  lemma Row7WellFormed(op: Opcode)
    requires 0x70 <= op < 0x80
    ensures InstructionTable(op).Some? ==> WellFormedEntry(op, InstructionTable(op).value)
  {
  }

  /** The entries among 0x80..0x8F are well formed. */
  lemma Row8WellFormed(op: Opcode)
    requires 0x80 <= op < 0x90
    ensures InstructionTable(op).Some? ==> WellFormedEntry(op, InstructionTable(op).value)
  {
  }

  /** The entries among 0x90..0x9F are well formed. */
  lemma Row9WellFormed(op: Opcode)
    requires 0x90 <= op < 0xA0
    ensures InstructionTable(op).Some? ==> WellFormedEntry(op, InstructionTable(op).value)
  {
  }

  /** The entries among 0xA0..0xAF are well formed. */
  lemma RowAWellFormed(op: Opcode)
    requires 0xA0 <= op < 0xB0
    ensures InstructionTable(op).Some? ==> WellFormedEntry(op, InstructionTable(op).value)
  {
  }

  /** The entries among 0xB0..0xBF are well formed. */
  lemma RowBWellFormed(op: Opcode)
    requires 0xB0 <= op < 0xC0
    ensures InstructionTable(op).Some? ==> WellFormedEntry(op, InstructionTable(op).value)
  {
  }

  /** The entries among 0xC0..0xCF are well formed. */
  lemma RowCWellFormed(op: Opcode)
    requires 0xC0 <= op < 0xD0
    ensures InstructionTable(op).Some? ==> WellFormedEntry(op, InstructionTable(op).value)
  {
  }

  /** The entries among 0xD0..0xDF are well formed. */
  lemma RowDWellFormed(op: Opcode)
    requires 0xD0 <= op < 0xE0
    ensures InstructionTable(op).Some? ==> WellFormedEntry(op, InstructionTable(op).value)
  {
  }

  /** The entries among 0xE0..0xEF are well formed. */
  lemma RowEWellFormed(op: Opcode)
    requires 0xE0 <= op < 0xF0
    ensures InstructionTable(op).Some? ==> WellFormedEntry(op, InstructionTable(op).value)
  {
  }

  /** The entries among 0xF0..0xFF are well formed. */
  lemma RowFWellFormed(op: Opcode)
    requires 0xF0 <= op < 0x100
    ensures InstructionTable(op).Some? ==> WellFormedEntry(op, InstructionTable(op).value)
  {
  }

  /** Every entry of the table is well formed. */
  lemma EntryWellFormed(op: Opcode)
    ensures InstructionTable(op).Some? ==> WellFormedEntry(op, InstructionTable(op).value)
  {
    if op < 0x10 {
      Row0WellFormed(op);
    } else if op < 0x20 {
      Row1WellFormed(op);
    } else if op < 0x30 {
      Row2WellFormed(op);
    } else if op < 0x40 {
      Row3WellFormed(op);
    } else if op < 0x50 {
      Row4WellFormed(op);
    } else if op < 0x60 {
      Row5WellFormed(op);
    } else if op < 0x70 {
      Row6WellFormed(op);
    } else if op < 0x80 {
      Row7WellFormed(op);
    } else if op < 0x90 {
      Row8WellFormed(op);
    } else if op < 0xA0 {
      Row9WellFormed(op);
    } else if op < 0xB0 {
      RowAWellFormed(op);
    } else if op < 0xC0 {
      RowBWellFormed(op);
    } else if op < 0xD0 {
      RowCWellFormed(op);
    } else if op < 0xE0 {
      RowDWellFormed(op);
    } else if op < 0xF0 {
      RowEWellFormed(op);
    } else {
      RowFWellFormed(op);
    }
  }

  /** Each entry's opcode field equals its key. */
  lemma TableKeysAreOpcodes(op: Opcode)
    ensures InstructionTable(op).Some? ==> InstructionTable(op).value.opcode == op
  {
    EntryWellFormed(op);
  }

  /** Relative addressing is used by the eight branches and nothing else,
      always at 2 base cycles. */
  lemma RelativeModeIsBranches(op: Opcode)
    ensures InstructionTable(op).Some? ==>
              (InstructionTable(op).value.mode == Relative) == IsBranch(InstructionTable(op).value.instruction)
    ensures InstructionTable(op).Some? && InstructionTable(op).value.mode == Relative ==>
              InstructionTable(op).value.cycles == 2
  {
    EntryWellFormed(op);
  }

  /** Accumulator addressing appears exactly at the four shift and rotate
      opcodes 0x0A, 0x2A, 0x4A and 0x6A. */
  lemma AccumulatorOpcodes(op: Opcode)
    ensures InstructionTable(op).Some? ==>
              (InstructionTable(op).value.mode == Accumulator) == (op == 0x0A || op == 0x2A || op == 0x4A || op == 0x6A)
  {
    EntryWellFormed(op);
  }

  /** Indirect addressing appears only at 0x6C, and ZeroPageY only at 0x96
      and 0xB6. */
  lemma IndirectAndZeroPageYOpcodes(op: Opcode)
    ensures InstructionTable(op).Some? ==> (InstructionTable(op).value.mode == Indirect) == (op == 0x6C)
    ensures InstructionTable(op).Some? ==> (InstructionTable(op).value.mode == ZeroPageY) == (op == 0x96 || op == 0xB6)
  {
    EntryWellFormed(op);
  }

  /** The opcode of each conditional branch. */
  function BranchOpcode(i: Instruction): Opcode
    requires IsBranch(i)
  {
    match i
    case BCC => 0x90
    case BCS => 0xB0
    case BEQ => 0xF0
    case BMI => 0x30
    case BNE => 0xD0
    case BPL => 0x10
    case BVC => 0x50
    case BVS => 0x70
  }

  /** Every branch has its entry: Relative addressing at 2 base cycles. */
  lemma BranchEntries(i: Instruction)
    requires IsBranch(i)
    ensures InstructionTable(BranchOpcode(i)) == Some(InstructionInfo(i, BranchOpcode(i), Relative, 2))
  {
    match i
    case BCC =>
    case BCS =>
    case BEQ =>
    case BMI =>
    case BNE =>
    case BPL =>
    case BVC =>
    case BVS =>
  }

  /** The four shift and rotate instructions, the ones with an Accumulator
      form. */
  predicate IsShiftOrRotate(i: Instruction)
  {
    i.ASL? || i.LSR? || i.ROL? || i.ROR?
  }

  /** The opcode of the Accumulator form of each shift and rotate. */
  function AccumulatorOpcode(i: Instruction): Opcode
    requires IsShiftOrRotate(i)
  {
    match i
    case ASL => 0x0A
    case ROL => 0x2A
    case LSR => 0x4A
    case ROR => 0x6A
  }

  /** Every shift and rotate has its Accumulator entry, at 2 base cycles. */
  lemma AccumulatorEntries(i: Instruction)
    requires IsShiftOrRotate(i)
    ensures InstructionTable(AccumulatorOpcode(i)) == Some(InstructionInfo(i, AccumulatorOpcode(i), Accumulator, 2))
  {
    match i
    case ASL =>
    case ROL =>
    case LSR =>
    case ROR =>
  }

  /** The only Indirect entry is JMP, at 5 cycles. */
  lemma IndirectEntry()
    ensures InstructionTable(0x6C) == Some(InstructionInfo(JMP, 0x6C, Indirect, 5))
  {
  }

  /** The two ZeroPageY entries are LDX and STX, at 4 cycles. */
  lemma ZeroPageYEntries()
    ensures InstructionTable(0xB6) == Some(InstructionInfo(LDX, 0xB6, ZeroPageY, 4))
    ensures InstructionTable(0x96) == Some(InstructionInfo(STX, 0x96, ZeroPageY, 4))
  {
  }

  /** Base cycle counts lie in 2..7, and no store uses Immediate. */
  lemma CyclesAndStores(op: Opcode)
    ensures InstructionTable(op).Some? ==> 2 <= InstructionTable(op).value.cycles <= 7
    ensures InstructionTable(op).Some? && IsStore(InstructionTable(op).value.instruction) ==>
              InstructionTable(op).value.mode != Immediate
  {
    EntryWellFormed(op);
  }

  /** A byte outside the table, such as 0x02, has no entry. */
  lemma UndefinedOpcodes()
    ensures InstructionTable(0x02) == None
    ensures 0x02 !in DefinedIn(0x00, 0x100)
  {
  }

  /** The mnemonic a name spells, if any. */
  function FromName(s: string): Option<Instruction>
  {
    match s
    case "ADC" => Some(ADC)
    case "AND" => Some(AND)
    case "ASL" => Some(ASL)
    case "BCC" => Some(BCC)
    case "BCS" => Some(BCS)
    case "BEQ" => Some(BEQ)
    case "BIT" => Some(BIT)
    case "BMI" => Some(BMI)
    case "BNE" => Some(BNE)
    case "BPL" => Some(BPL)
    case "BRK" => Some(BRK)
    case "BVC" => Some(BVC)
    case "BVS" => Some(BVS)
    case "CLC" => Some(CLC)
    case "CLD" => Some(CLD)
    case "CLI" => Some(CLI)
    case "CLV" => Some(CLV)
    case "CMP" => Some(CMP)
    case "CPX" => Some(CPX)
    case "CPY" => Some(CPY)
    case "DEC" => Some(DEC)
    case "DEX" => Some(DEX)
    case "DEY" => Some(DEY)
    case "EOR" => Some(EOR)
    case "INC" => Some(INC)
    case "INX" => Some(INX)
    case "INY" => Some(INY)
    case "JMP" => Some(JMP)
    case "JSR" => Some(JSR)
    case "LDA" => Some(LDA)
    case "LDX" => Some(LDX)
    case "LDY" => Some(LDY)
    case "LSR" => Some(LSR)
    case "NOP" => Some(NOP)
    case "ORA" => Some(ORA)
    case "PHA" => Some(PHA)
    case "PHP" => Some(PHP)
    case "PLA" => Some(PLA)
    case "PLP" => Some(PLP)
    case "ROL" => Some(ROL)
    case "ROR" => Some(ROR)
    case "RTI" => Some(RTI)
    case "RTS" => Some(RTS)
    case "SBC" => Some(SBC)
    case "SEC" => Some(SEC)
    case "SED" => Some(SED)
    case "SEI" => Some(SEI)
    case "STA" => Some(STA)
    case "STX" => Some(STX)
    case "STY" => Some(STY)
    case "TAX" => Some(TAX)
    case "TAY" => Some(TAY)
    case "TSX" => Some(TSX)
    case "TXA" => Some(TXA)
    case "TXS" => Some(TXS)
    case "TYA" => Some(TYA)
    case _ => None
  }

  /** No two mnemonics share a name, and the zero value of the underlying
      byte is not a mnemonic, so it has no name. */
  lemma NamesDistinct(i: Instruction, j: Instruction)
    ensures InstructionNames(i) == InstructionNames(j) ==> i == j
    ensures Ordinal(i) != 0 && FromOrdinal(0) == None
  {
  }

}
