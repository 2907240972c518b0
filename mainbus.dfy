/** The main bus (mainbus.go): the CPU's view of memory. A transaction is
    offered to the cartridge first; what it declines goes to the 2 KiB of RAM
    mirrored over 0x0000..0x1FFF, then to the PPU range (not implemented:
    reads give 0, writes are dropped), and anything else reads as 0. */
module Bus {
  import opened Wrappers
  import opened Addressing
  import opened Mappers
  import opened Cartridges
  import opened Cpu

  const RamSize := 2048

  /** The RAM cell an address in 0x0000..0x1FFF reaches: its low 11 bits,
      that is, the address modulo 2048. */
  function RamIndex(addr: bv16): (i: int)
    ensures 0 <= i < RamSize
    ensures i == (addr % 0x0800) as int
  {
    (addr & 0x07FF) as int
  }

  /** Two addresses reach the same RAM cell exactly when they agree modulo
      2048, so every cell has its mirrors 0x0800 apart. */
  lemma SameRamCell(a: bv16, b: bv16)
    ensures (RamIndex(a) == RamIndex(b)) == (a % 0x0800 == b % 0x0800)
    ensures a <= 0xF7FF ==> RamIndex(a + 0x0800) == RamIndex(a)
  {
    BitsToIntInjective(a % 0x0800, b % 0x0800);
  }

  /** Distinct 16-bit values have distinct integer values. */
  lemma BitsToIntInjective(x: bv16, y: bv16)
    ensures (x as int == y as int) == (x == y)
  {
    assert (x as int) as bv16 == x;
    assert (y as int) as bv16 == y;
  }

  /** The RAM contents after a write, given the contents before: a write the
      cartridge declines (every address below 0x8000) to 0x0000..0x1FFF
      stores into the mirrored cell, every other write leaves RAM alone. */
  function RamAfterWrite(ram: seq<bv8>, addr: bv16, data: bv8): (ram': seq<bv8>)
    requires |ram| == RamSize
    ensures |ram'| == RamSize
    ensures addr <= 0x1FFF ==> ram'[RamIndex(addr)] == data
    ensures forall i :: 0 <= i < RamSize && (addr > 0x1FFF || i != RamIndex(addr)) ==> ram'[i] == ram[i]
  {
    if addr <= 0x1FFF then ram[RamIndex(addr) := data] else ram
  }

  class MainBus {
    const cpu: CPU6502
    var cartridge: Cartridge?
    const mem: array<bv8>
    var systemClockCounter: bv32

    /** RAM is 2 KiB and separate from the cartridge's PRG memory. */
    predicate Valid()
      reads this
    {
      && mem.Length == RamSize
      && (cartridge != null ==> cartridge.prgMemory != mem)
    }

    /** A bus attached to cpu, with cleared RAM and no cartridge. */
    constructor NewBus(cpu: CPU6502)
      ensures Valid()
      ensures this.cpu == cpu && cartridge == null && systemClockCounter == 0
      ensures fresh(mem) && forall i :: 0 <= i < mem.Length ==> mem[i] == 0
    {
      this.cpu := cpu;
      cartridge := null;
      mem := new bv8[RamSize](_ => 0);
      systemClockCounter := 0;
    }

    /** A read at addr can be carried out: a cartridge is inserted and can
        serve addr. */
    predicate CanAccess(addr: bv16)
      reads this
    {
      cartridge != null && cartridge.CanAccess(addr)
    }

    /** The byte a CPU read of addr returns. */
    function Read(addr: bv16): (data: bv8)
      requires Valid() && CanAccess(addr)
      reads this, mem, cartridge.prgMemory
      ensures addr >= 0x8000 ==> Some(data) == cartridge.CpuRead(addr)
      ensures addr <= 0x1FFF ==> data == mem[RamIndex(addr)]
      ensures 0x2000 <= addr < 0x8000 ==> data == 0
    {
      match cartridge.CpuRead(addr)
      case Some(value) => value
      case None =>
        if addr <= 0x1FFF then
          mem[RamIndex(addr)]
        else if addr >= 0x2000 && addr <= 0x3FFF then
          0
        else
          0
    }

    /** A CPU write of data to addr: PRG memory when the cartridge claims the
        address, the mirrored RAM cell for 0x0000..0x1FFF, nothing otherwise.
        Reading back any address that reaches the same cell gives data. */
    method Write(addr: bv16, data: bv8)
      requires Valid() && CanAccess(addr)
      modifies mem, cartridge.prgMemory
      ensures mem[..] == RamAfterWrite(old(mem[..]), addr, data)
      ensures addr < 0x8000 ==> cartridge.prgMemory[..] == old(cartridge.prgMemory[..])
      ensures addr >= 0x8000 ==> cartridge.CpuRead(addr) == Some(data)
      ensures addr >= 0x8000 ==>
                cartridge.prgMemory[..] ==
                old(cartridge.prgMemory[..])[CpuMapWrite(cartridge.mapper.value, addr).value as int := data]
      ensures forall a :: a <= 0x1FFF && addr <= 0x1FFF && RamIndex(a) == RamIndex(addr) ==> Read(a) == data
    {
      var claimed := cartridge.CpuWrite(addr, data);
      if claimed {
      } else if addr <= 0x1FFF {
        mem[RamIndex(addr)] := data;
      } else if addr >= 0x2000 && addr <= 0x3FFF {
      }
    }

    /** Replaces the cartridge; nothing else changes. */
    method InsertCartridge(cartridge: Cartridge)
      requires cartridge.prgMemory != mem
      requires Valid()
      modifies this`cartridge
      ensures this.cartridge == cartridge
      ensures Valid()
    {
      this.cartridge := cartridge;
    }

    /** Resets the CPU, which reads its reset vector from bus, and clears the
        system clock counter. The memory bus must agree with this bus's reads
        at the two vector addresses. */
    method Reset(bus: Memory)
      requires Valid() && CanAccess(0xFFFC) && CanAccess(0xFFFD)
      requires bus(0xFFFC) == Read(0xFFFC) && bus(0xFFFD) == Read(0xFFFD)
      modifies cpu, this`systemClockCounter
      ensures cpu.InResetState(bus)
      ensures systemClockCounter == 0
    {
      cpu.Reset(bus);
      systemClockCounter := 0;
    }
  }

  /** RAM is mirrored: an address the cartridge declines below 0x2000 reads
      the same as its image in 0x0000..0x07FF. */
  lemma RamMirror(b: MainBus, addr: bv16)
    requires b.Valid() && b.CanAccess(addr) && b.CanAccess(addr & 0x07FF)
    requires addr <= 0x1FFF
    ensures b.Read(addr) == b.Read(addr & 0x07FF)
  {
  }

  /** Addresses nobody serves read as 0: the PPU range 0x2000..0x3FFF and,
      with mapper 0, 0x4000..0x7FFF. */
  lemma OpenBusReadsZero(b: MainBus, addr: bv16)
    requires b.Valid() && b.CanAccess(addr)
    requires 0x2000 <= addr <= 0x7FFF
    ensures b.Read(addr) == 0
  {
  }
}
