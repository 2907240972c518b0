/** The pure part of the 6502 addressing-mode resolver (cpu/addressing.go):
    the mode enumeration, its names, and the address arithmetic each mode
    performs, written as functions of the bytes it reads. The methods that
    update the CPU's latches in place are in module Cpu and are specified by
    these functions. */
module Addressing {

  /** The memory the CPU reads through its bus: a pure 64 KiB function. */
  type Memory = bv16 -> bv8

  function HighByte(w: bv16): bv8 { (w >> 8) as bv8 }

  function LowByte(w: bv16): bv8 { (w & 0xFF) as bv8 }

  /** A 16-bit value from its high and low byte. */
  function Word(hi: bv8, lo: bv8): (w: bv16)
    ensures HighByte(w) == hi && LowByte(w) == lo
  {
    (hi as bv16 << 8) | lo as bv16
  }

  datatype AddressingMode =
    | Implicit
    | Accumulator
    | Immediate
    | ZeroPage
    | ZeroPageX
    | ZeroPageY
    | Relative
    | Absolute
    | AbsoluteX
    | AbsoluteY
    | Indirect
    | IndexedIndirect
    | IndirectIndexed
  {
    /** The display name of the mode. */
    function String(): (name: string)
      ensures name != "Unknown"
    {
      match this
      case Implicit => "Implicit"
      case Accumulator => "Accumulator"
      case Immediate => "Immediate"
      case ZeroPage => "ZeroPage"
      case ZeroPageX => "ZeroPageX"
      case ZeroPageY => "ZeroPageY"
      case Relative => "Relative"
      case Absolute => "Absolute"
      case AbsoluteX => "AbsoluteX"
      case AbsoluteY => "AbsoluteY"
      case Indirect => "Indirect"
      case IndexedIndirect => "IndexedIndirect"
      case IndirectIndexed => "IndirectIndexed"
    }
  }

  /** Different modes have different names, and no mode is called "Unknown"
      (that name is reserved for byte values outside the enumeration). */
  lemma StringInjective(m1: AddressingMode, m2: AddressingMode)
    ensures m1.String() == m2.String() ==> m1 == m2
    ensures m1.String() != "Unknown"
  {
    var s1, s2 := m1.String(), m2.String();
    if s1 == s2 {
      assert |s1| == |s2| && s1[0] == s2[0];
      assert s1[|s1| - 1] == s2[|s2| - 1];
      if |s1| == 9 {
        assert s1[4] == s2[4];
      }
    }
  }

  // ---------------------------------------------------------------------
  // Effective-address arithmetic, as the code computes it
  // ---------------------------------------------------------------------

  /** Zero-page address of zeroPage, zeroPageX and zeroPageY: the operand
      byte plus the index (0 for plain zeroPage), wrapped into page zero. */
  function ZeroPageAddress(operand: bv8, index: bv8): (addr: bv16)
    ensures HighByte(addr) == 0
    ensures LowByte(addr) == operand + index
  {
    ((operand & 0xFF) as bv16 + index as bv16) & 0xFF
  }

  /** The branch offset relative stores: the operand byte zero-extended. */
  function RelativeOffset(operand: bv8): (offset: bv16)
    ensures HighByte(offset) == 0 && LowByte(offset) == operand
  {
    operand as bv16
  }

  /** The offset is not sign-extended: operand 0xFE, a branch back by two on
      the 6502, becomes the forward offset 0x00FE rather than 0xFFFE. */
  lemma RelativeNotSignExtended()
    ensures RelativeOffset(0xFE) == 0x00FE
    ensures RelativeOffset(0xFE) != 0xFFFE
  {
  }

  /** The operand of absolute, absoluteX, absoluteY and indirect: the byte at
      the program counter is read twice and used as both the high and the low
      byte; the byte after it is never read. */
  function DoubledOperand(mem: Memory, pc: bv16): (w: bv16)
    ensures HighByte(w) == mem(pc) && LowByte(w) == mem(pc)
  {
    (mem(pc) as bv16 << 8) | mem(pc) as bv16
  }

  /** The byte after the operand plays no part: with 0x42 at pc and 0x13
      after it, the operand is 0x4242, not 0x1342. */
  lemma DoubledOperandExample(mem: Memory, pc: bv16)
    requires mem(pc) == 0x42 && mem(pc + 1) == 0x13
    ensures DoubledOperand(mem, pc) == 0x4242
  {
  }

  /** Page-crossing penalty as absoluteX, absoluteY and indirectIndexed
      compute it: compare the high byte of the indexed address with the high
      byte of that address minus the index. */
  function PageCrossPenalty(indexed: bv16, index: bv8): (penalty: int)
    ensures penalty == 0 || penalty == 1
  {
    if indexed & 0xFF00 != (indexed - index as bv16) & 0xFF00 then 1 else 0
  }

  /** Although the penalty reconstructs the base by subtracting the index
      (16-bit wrap-around included), it is 1 exactly when the index addition
      moves the address to another page, that is, when the low byte of the
      base plus the index does not fit in a byte. */
  lemma PageCrossPenaltyMeaning(base: bv16, index: bv8)
    ensures (PageCrossPenalty(base + index as bv16, index) == 1) ==
            (HighByte(base + index as bv16) != HighByte(base))
    ensures (PageCrossPenalty(base + index as bv16, index) == 1) ==
            (LowByte(base) as bv16 + index as bv16 >= 0x100)
    ensures PageCrossPenalty(base + index as bv16, index) in {0, 1}
  {
  }

  /** Boundary pairs: 0x20FF + 1 crosses, 0x2000 + 1 does not,
      and the 16-bit wrap 0xFFFF + 1 also counts as a crossing. */
  lemma PageCrossExamples()
    ensures PageCrossPenalty(0x20FF + 1, 1) == 1
    ensures PageCrossPenalty(0x2000 + 1, 1) == 0
    ensures PageCrossPenalty(0xFFFF + 1, 1) == 1
  {
  }

  /** The target of indirect for pointer ptr: the low byte comes from ptr; the
      high byte from ptr + 1, except that a pointer ending in 0xFF takes it from
      the start of the same page (the 6502 JMP bug). */
  function IndirectTarget(mem: Memory, ptr: bv16): (target: bv16)
    ensures LowByte(target) == mem(ptr)
    ensures LowByte(ptr) == 0xFF ==> HighByte(target) == mem(Word(HighByte(ptr), 0x00))
    ensures LowByte(ptr) != 0xFF ==> HighByte(target) == mem(ptr + 1)
  {
    if ptr & 0x00FF == 0x00FF then
      (mem(ptr & 0xFF00) as bv16 << 8) | mem(ptr) as bv16
    else
      (mem(ptr + 1) as bv16 << 8) | mem(ptr) as bv16
  }

  /** Pointer 0x30FF takes its high byte from 0x3000, not 0x3100: with
      different bytes at those two addresses the result differs from the
      naive next-address reading. */
  lemma IndirectPageWrapExample(mem: Memory)
    requires mem(0x3000) != mem(0x3100)
    ensures HighByte(IndirectTarget(mem, 0x30FF)) == mem(0x3000)
    ensures IndirectTarget(mem, 0x30FF) != Word(mem(0x3100), mem(0x30FF))
  {
  }

  /** The address indexedIndirect reads its single target byte from: Go's `&`
      binds tighter than `+`, so this is the operand plus x, with no
      wrap into page zero. */
  function IndexedIndirectPointer(operand: bv8, x: bv8): (ptr: bv16)
    ensures operand as bv16 <= ptr <= 0x1FE && ptr - operand as bv16 == x as bv16
  {
    operand as bv16 + (x as bv16 & 0xFF)
  }

  /** On real hardware (zp,X) wraps inside page zero; the code leaves page
      zero whenever operand + x exceeds 0xFF. */
  lemma IndexedIndirectLeavesZeroPage(operand: bv8, x: bv8)
    requires LowByte(operand as bv16) as bv16 + x as bv16 >= 0x100
    ensures IndexedIndirectPointer(operand, x) != ZeroPageAddress(operand, x)
    ensures IndexedIndirectPointer(operand, x) >= 0x100
  {
  }

  /** The address of indirectIndexed: one pointer byte, read from page zero,
      plus y, without carrying a high byte from memory. */
  function IndirectIndexedAddress(mem: Memory, operand: bv8, y: bv8): (addr: bv16)
    ensures mem(operand as bv16) as bv16 <= addr <= 0x1FE
    ensures addr - mem(operand as bv16) as bv16 == y as bv16
  {
    mem(operand as bv16) as bv16 + y as bv16
  }

  /** The byte after the pointer byte in page zero, which the 6502 uses as the
      high byte of the base, plays no part: two memories that differ only
      there give the same address. */
  lemma IndirectIndexedIgnoresHighPointer(mem1: Memory, mem2: Memory, operand: bv8, y: bv8)
    requires mem1(operand as bv16) == mem2(operand as bv16)
    requires mem1(operand as bv16 + 1) != mem2(operand as bv16 + 1)
    ensures IndirectIndexedAddress(mem1, operand, y) == IndirectIndexedAddress(mem2, operand, y)
  {
  }

  /** indirectIndexed pays the extra cycle exactly when pointer byte plus y
      reaches page one. */
  lemma IndirectIndexedPenalty(mem: Memory, operand: bv8, y: bv8)
    ensures (PageCrossPenalty(IndirectIndexedAddress(mem, operand, y), y) == 1) ==
            (IndirectIndexedAddress(mem, operand, y) >= 0x100)
  {
    var base := mem(operand as bv16);
    assert IndirectIndexedAddress(mem, operand, y) == base as bv16 + y as bv16;
    ByteBasePenalty(base, y);
  }

  /** For a base in page zero the penalty is due exactly when base plus
      index reaches page one. */
  lemma ByteBasePenalty(base: bv8, index: bv8)
    ensures (PageCrossPenalty(base as bv16 + index as bv16, index) == 1) == (base as bv16 + index as bv16 >= 0x100)
  {
  }
}
