/** Cartridge mappers (mapper.go, mapper000.go). The Go interface has one
    implementation, mapper 0 (NROM), so the interface is a datatype with one
    variant. Each translation returns the mapped offset when the mapper claims
    the address and None otherwise, in place of Go's success flag plus
    out-parameter. */
module Mappers {
  import opened Wrappers

  /** Mapper 0: up to two 16 KiB PRG banks, no bank switching. */
  datatype Mapper = Mapper000(prgBanks: bv8, chrBanks: bv8)

  /** CPU read translation. The mapper claims the upper half of the address
      space; with more than one PRG bank the offset is the 15-bit distance from
      0x8000, otherwise 0xC000..0xFFFF mirror 0x8000..0xBFFF onto a 16 KiB
      bank. */
  function CpuMapRead(m: Mapper, addr: bv16): (offset: Option<bv16>)
    ensures offset.Some? == (addr >= 0x8000)
    ensures offset.Some? && m.prgBanks > 1 ==> offset.value == addr - 0x8000
    ensures offset.Some? && m.prgBanks <= 1 && addr < 0xC000 ==> offset.value == addr - 0x8000
    ensures offset.Some? && m.prgBanks <= 1 && addr >= 0xC000 ==> offset.value == addr - 0xC000
    ensures offset.Some? ==> offset.value < (if m.prgBanks > 1 then 0x8000 else 0x4000)
  {
    if addr >= 0x8000 && addr <= 0xFFFF then
      HalfMaskFacts(addr);
      QuarterMaskFacts(addr);
      if m.prgBanks as bv16 > 1 then Some(addr & 0x7FFF) else Some(addr & 0x3FFF)
    else
      None
  }

  /** Masking an address in the upper half of the address space with 0x7FFF
      subtracts the start of the half. */
  lemma HalfMaskFacts(addr: bv16)
    requires addr >= 0x8000
    ensures addr & 0x7FFF == addr - 0x8000
  {
  }

  /** Masking an address in the upper half of the address space with 0x3FFF
      subtracts the start of its quarter. */
  lemma QuarterMaskFacts(addr: bv16)
    requires addr >= 0x8000
    ensures addr < 0xC000 ==> addr & 0x3FFF == addr - 0x8000
    ensures addr >= 0xC000 ==> addr & 0x3FFF == addr - 0xC000
  {
  }

  /** CPU write translation: the same test and masks as the read, with the
      bank count compared as a byte. */
  function CpuMapWrite(m: Mapper, addr: bv16): (offset: Option<bv16>)
    ensures offset.Some? == (addr >= 0x8000)
  {
    if addr >= 0x8000 && addr <= 0xFFFF then
      if m.prgBanks > 1 then Some(addr & 0x7FFF) else Some(addr & 0x3FFF)
    else
      None
  }

  /** PPU read translation: every address is claimed and no offset is
      produced. */
  function PpuMapRead(m: Mapper, addr: bv16): (claimed: bool)
    ensures claimed
  {
    true
  }

  /** PPU write translation: every address is claimed and no offset is
      produced. */
  function PpuMapWrite(m: Mapper, addr: bv16): (claimed: bool)
    ensures claimed
  {
    true
  }

  /** Writes translate exactly like reads, for every address and bank count. */
  lemma WriteMatchesRead(m: Mapper, addr: bv16)
    ensures CpuMapWrite(m, addr) == CpuMapRead(m, addr)
  {
  }

  /** The translation depends on the address and the PRG bank count only. */
  lemma ChrBanksIgnored(prgBanks: bv8, chr1: bv8, chr2: bv8, addr: bv16)
    ensures CpuMapRead(Mapper000(prgBanks, chr1), addr) == CpuMapRead(Mapper000(prgBanks, chr2), addr)
    ensures CpuMapWrite(Mapper000(prgBanks, chr1), addr) == CpuMapWrite(Mapper000(prgBanks, chr2), addr)
  {
  }

  /** With a single bank, a and a + 0x4000 reach the same offset. */
  lemma SingleBankMirror(m: Mapper, a: bv16)
    requires m.prgBanks <= 1
    requires 0x8000 <= a <= 0xBFFF
    ensures CpuMapRead(m, a) == CpuMapRead(m, a + 0x4000)
    ensures CpuMapRead(m, a).Some?
  {
  }

  /** The boundary cases: 0xC000 is offset 0x4000 with two banks, and both
      0x8000 and 0xC000 are offset 0 with one. */
  lemma MapExamples()
    ensures CpuMapRead(Mapper000(2, 0), 0xC000) == Some(0x4000)
    ensures CpuMapRead(Mapper000(1, 0), 0x8000) == Some(0)
    ensures CpuMapRead(Mapper000(1, 0), 0xC000) == Some(0)
    ensures CpuMapRead(Mapper000(0, 0), 0x7FFF) == None
  {
  }
}
