/** Cartridges (cartridge.go): decoding the 16-byte iNES-style header,
    laying out the ROM image, and the CPU-side PRG accesses that go through
    the cartridge's mapper. The file is an in-memory byte sequence here. */
module Cartridges {
  import opened Wrappers
  import opened Mappers

  const HeaderSize := 16
  const TrainerSize := 512
  const PrgBankSize := 16384
  const ChrBankSize := 8192

  /** Nametable mirroring; only the first two are ever produced. */
  datatype Mirror = Horizontal | Vertical | OnScreenHi | OnScreenLo

  /** What the loader derives from the header bytes. */
  datatype Header = Header(trainer: bool, mapperId: bv8, mirror: Mirror, prgBanks: bv8, chrBanks: bv8)

  /** Header decoding as the loader does it: any nonzero flags byte 6 counts
      as a trainer, the mapper id takes the high nibble of byte 6 as its high
      nibble and the high nibble of byte 7 as its low nibble, and bit 0 of
      byte 6 selects vertical mirroring. */
  function DecodeHeader(h: seq<bv8>): (d: Header)
    requires |h| == HeaderSize
    ensures d.trainer == (h[6] != 0)
    ensures d.mapperId & 0xF0 == h[6] & 0xF0
    ensures d.mapperId & 0x0F == h[7] >> 4
    ensures (d.mirror == Vertical) == (h[6] & 1 == 1)
    ensures d.mirror == Horizontal || d.mirror == Vertical
    ensures d.prgBanks == h[4] && d.chrBanks == h[5]
  {
    Header(
      h[6] != 0,
      ((h[6] >> 4) << 4) | (h[7] >> 4),
      if h[6] & 1 == 1 then Vertical else Horizontal,
      h[4],
      h[5])
  }

  /** The mapper number as the iNES format defines it: high nibble from byte
      7, low nibble from byte 6. */
  function INesMapperNumber(h: seq<bv8>): bv8
    requires |h| == HeaderSize
  {
    (h[7] & 0xF0) | (h[6] >> 4)
  }

  function SwapNibbles(b: bv8): bv8
  {
    (b << 4) | (b >> 4)
  }

  /** The loader's mapper id is the iNES mapper number with its nibbles
      swapped; the two agree on mapper 0 and differ for mapper 1. */
  lemma MapperIdSwapsNibbles(h: seq<bv8>)
    requires |h| == HeaderSize
    ensures DecodeHeader(h).mapperId == SwapNibbles(INesMapperNumber(h))
    ensures (DecodeHeader(h).mapperId == 0) == (INesMapperNumber(h) == 0)
    ensures INesMapperNumber(h) == 1 ==> DecodeHeader(h).mapperId == 0x10
  {
  }

  /** The trainer test fires on any bit of byte 6, not only on the trainer
      bit 2: a header asking only for vertical mirroring skips 512 bytes. */
  lemma TrainerOnAnyFlag(h: seq<bv8>)
    requires |h| == HeaderSize && h[6] == 0x01
    ensures DecodeHeader(h).trainer
    ensures DecodeHeader(h).mirror == Vertical
    ensures h[6] & 0x04 == 0
  {
  }

  /** Where the PRG data starts in the file: after the header and, when the
      trainer test fires, after the 512-byte trainer. */
  function PrgStart(d: Header): (start: nat)
    ensures d.trainer ==> start == HeaderSize + TrainerSize
    ensures !d.trainer ==> start == HeaderSize
  {
    HeaderSize + if d.trainer then TrainerSize else 0
  }

  /** The PRG block: whole 16 KiB banks, at most 255 of them. */
  function PrgLength(d: Header): (length: nat)
    ensures length <= 255 * PrgBankSize
  {
    d.prgBanks as int * PrgBankSize
  }

  /** The CHR block: whole 8 KiB banks, at most 255 of them. */
  function ChrLength(d: Header): (length: nat)
    ensures length <= 255 * ChrBankSize
  {
    d.chrBanks as int * ChrBankSize
  }

  /** The file holds the header and every byte the loader reads after it. */
  predicate ImageComplete(image: seq<bv8>)
  {
    && |image| >= HeaderSize
    && var d := DecodeHeader(image[..HeaderSize]);
       |image| >= PrgStart(d) + PrgLength(d) + ChrLength(d)
  }

  /** Both blocks hold whole banks, exactly as many as the header counts. */
  lemma BlocksAreWholeBanks(d: Header)
    ensures PrgLength(d) % PrgBankSize == 0 && PrgLength(d) / PrgBankSize == d.prgBanks as int
    ensures ChrLength(d) % ChrBankSize == 0 && ChrLength(d) / ChrBankSize == d.chrBanks as int
  {
  }

  /** A header skips the 512-byte trainer exactly when its flags byte 6 is
      nonzero. */
  lemma PrgStartSkipsTrainer(h: seq<bv8>)
    requires |h| == HeaderSize
    ensures (PrgStart(DecodeHeader(h)) == HeaderSize + TrainerSize) == (h[6] != 0)
    ensures (PrgStart(DecodeHeader(h)) == HeaderSize) == (h[6] == 0)
  {
  }

  /** The image is usable exactly when its mapper id is 0, that is, when the
      high nibbles of bytes 6 and 7 are both clear. */
  lemma ValidIffMapperZero(h: seq<bv8>)
    requires |h| == HeaderSize
    ensures (DecodeHeader(h).mapperId == 0) == (h[6] & 0xF0 == 0 && h[7] & 0xF0 == 0)
  {
  }

  /** Reads length bytes of the file, starting at start, into a new buffer. */
  method ReadBlock(image: seq<bv8>, start: nat, length: nat) returns (block: array<bv8>)
    requires start + length <= |image|
    ensures fresh(block)
    ensures block.Length == length
    ensures block[..] == image[start..start + length]
  {
    block := new bv8[length](i requires 0 <= i < length => image[start + i]);
  }

  class Cartridge {
    const imageValid: bool
    const mirror: Mirror
    const mapperId: bv8
    const prgBanks: bv8
    const chrBanks: bv8
    const prgMemory: array<bv8>
    const chrMemory: array<bv8>
    const mapper: Option<Mapper>

    /** What loading establishes: the image is valid exactly for mapper 0,
        which is then a mapper 0 with zero banks recorded (the header's bank
        counts are not passed on), and the buffers have the header's sizes. */
    predicate Valid()
    {
      && imageValid == (mapperId == 0)
      && mapper == (if imageValid then Some(Mapper000(0, 0)) else None)
      && prgMemory.Length == prgBanks as int * PrgBankSize
      && chrMemory.Length == chrBanks as int * ChrBankSize
    }

    /** Loads a cartridge from a complete file image. */
    constructor (image: seq<bv8>)
      requires ImageComplete(image)
      ensures Valid()
      ensures var d := DecodeHeader(image[..HeaderSize]);
              && mapperId == d.mapperId
              && mirror == d.mirror
              && prgBanks == d.prgBanks
              && chrBanks == d.chrBanks
              && prgMemory[..] == image[PrgStart(d)..PrgStart(d) + PrgLength(d)]
              && chrMemory[..] == image[PrgStart(d) + PrgLength(d)..PrgStart(d) + PrgLength(d) + ChrLength(d)]
      ensures fresh(prgMemory) && fresh(chrMemory)
    {
      var d := DecodeHeader(image[..HeaderSize]);
      var prgStart := PrgStart(d);
      var chrStart := prgStart + PrgLength(d);
      var prg := ReadBlock(image, prgStart, PrgLength(d));
      var chr := ReadBlock(image, chrStart, ChrLength(d));
      assert prg.Length == d.prgBanks as int * PrgBankSize;
      assert chr.Length == d.chrBanks as int * ChrBankSize;
      mapperId := d.mapperId;
      mirror := d.mirror;
      prgBanks := d.prgBanks;
      prgMemory := prg;
      chrBanks := d.chrBanks;
      chrMemory := chr;
      if d.mapperId == 0 {
        mapper := Some(Mapper000(0, 0));
        imageValid := true;
      } else {
        mapper := None;
        imageValid := false;
      }
    }

    function ImageValid(): (valid: bool)
      requires Valid()
      ensures valid == (mapperId == 0)
      ensures valid == mapper.Some?
    {
      imageValid
    }

    /** A CPU access to addr can be carried out: there is a mapper, and the
        offset it yields, if any, lies inside PRG memory. */
    predicate CanAccess(addr: bv16)
    {
      && mapper.Some?
      && (CpuMapRead(mapper.value, addr).Some? ==> CpuMapRead(mapper.value, addr).value as int < prgMemory.Length)
    }

    /** CPU read: the PRG byte at the mapped offset when the mapper claims the
        address, otherwise None (the caller's byte is left alone). */
    function CpuRead(addr: bv16): (data: Option<bv8>)
      requires CanAccess(addr)
      reads prgMemory
      ensures data.Some? == (addr >= 0x8000)
    {
      match CpuMapRead(mapper.value, addr)
      case Some(offset) => Some(prgMemory[offset as int])
      case None => None
    }

    /** CPU write: stores data at the mapped offset when the mapper claims the
        address; otherwise PRG memory is unchanged. A read of any address
        with the same offset then returns data. */
    method CpuWrite(addr: bv16, data: bv8) returns (claimed: bool)
      requires CanAccess(addr)
      modifies prgMemory
      ensures claimed == (addr >= 0x8000)
      ensures !claimed ==> prgMemory[..] == old(prgMemory[..])
      ensures claimed ==> prgMemory[..] == old(prgMemory[..])[CpuMapWrite(mapper.value, addr).value as int := data]
      ensures claimed ==> CpuRead(addr) == Some(data)
      ensures claimed ==> forall a :: CanAccess(a) && CpuMapRead(mapper.value, a) == CpuMapRead(mapper.value, addr) ==>
                                      CpuRead(a) == Some(data)
    {
      WriteMatchesRead(mapper.value, addr);
      var offset := CpuMapWrite(mapper.value, addr);
      if offset.Some? {
        prgMemory[offset.value as int] := data;
        claimed := true;
      } else {
        claimed := false;
      }
    }

    /** Whatever the header's bank count, a loaded cartridge's mapper masks
        with 14 bits: 0xC000..0xFFFF read the first 16 KiB again. */
    lemma ReadsMirrorFirstBank(a: bv16)
      requires Valid() && imageValid
      requires 0x8000 <= a <= 0xBFFF
      requires prgMemory.Length >= PrgBankSize
      ensures CanAccess(a) && CanAccess(a + 0x4000)
      ensures CpuRead(a + 0x4000) == CpuRead(a)
      ensures CpuRead(a) == Some(prgMemory[(a - 0x8000) as int])
    {
      SingleBankMirror(mapper.value, a);
    }
  }
}
