/** The cartridge (mapper_test/testROM.h, mapper_test/testROM.cpp): the iNES header, mapper
    selection, and PRG address translation for mapper 0 (NROM) and mapper 2 (UNROM).
    The file is an in-memory byte sequence; the member-function pointers `readPRG` and
    `writePRG` are the field `dispatch`, matched on at each access. */
module Cartridge {
  import opened Word

  const BankSize := 16 * 1024
  const ChrUnit := 8 * 1024
  const HeaderSize := 16

  /** `MapperType`: the two mappers the loader knows (iNES numbers 0 and 2). */
  datatype MapperType = NROM | UNROM

  /** `NESHeader`: the 16 header bytes. */
  datatype Header = Header(magic: seq<uint8>, prgRomSize: uint8, chrRomSize: uint8,
                           flags6: uint8, flags7: uint8, prgRamSize: uint8,
                           flags9: uint8, flags10: uint8, padding: seq<uint8>)

  /** The layout: a 4-byte magic and 5 padding bytes. */
  predicate WellFormed(h: Header) {
    |h.magic| == 4 && |h.padding| == 5
  }

  /** "NES" followed by 0x1A. */
  const Magic: seq<uint8> := [0x4E, 0x45, 0x53, 0x1A]

  const ZeroHeader := Header([0, 0, 0, 0], 0, 0, 0, 0, 0, 0, 0, [0, 0, 0, 0, 0])

  /** `isValidHeader`: the four magic bytes are 'N', 'E', 'S', 0x1A. */
  predicate IsValidHeader(h: Header) {
    |h.magic| >= 4 && h.magic[0] == 0x4E && h.magic[1] == 0x45 && h.magic[2] == 0x53 && h.magic[3] == 0x1A
  }

  /** Byte `k` of a file as a read into a zeroed buffer sees it: 0 past the end. */
  function ByteAt(data: seq<uint8>, k: nat): uint8 {
    if k < |data| then data[k] else 0
  }

  /** `len` bytes from offset `from`, zero past the end of the data. */
  function Bytes(data: seq<uint8>, from: nat, len: nat): (r: seq<uint8>)
    ensures |r| == len
    ensures from + len <= |data| ==> r == data[from..from + len]
    ensures forall k :: 0 <= k < len && from + k >= |data| ==> r[k] == 0
  {
    var r := seq<uint8>(len, (k: int) requires 0 <= k < len => ByteAt(data, from + k));
    assert forall k :: 0 <= k < len ==> r[k] == ByteAt(data, from + k);
    r
  }

  /** Reading the header (mapper_test/testROM.cpp:27-28) into a zero-initialised record. */
  function ParseHeader(file: seq<uint8>): (h: Header)
    ensures WellFormed(h)
    ensures IsValidHeader(h) <==> |file| >= 4 && file[..4] == Magic
    ensures |file| < HeaderSize ==> h.padding[4] == 0
  {
    Header(Bytes(file, 0, 4), ByteAt(file, 4), ByteAt(file, 5), ByteAt(file, 6), ByteAt(file, 7),
           ByteAt(file, 8), ByteAt(file, 9), ByteAt(file, 10), Bytes(file, 11, 5))
  }

  /** The header's 16 bytes in file order. */
  function HeaderBytes(h: Header): (r: seq<uint8>)
    requires WellFormed(h)
    ensures |r| == HeaderSize
    ensures r[..4] == h.magic && r[11..] == h.padding
    ensures r[4] == h.prgRomSize && r[5] == h.chrRomSize && r[6] == h.flags6 && r[7] == h.flags7
    ensures r[8] == h.prgRamSize && r[9] == h.flags9 && r[10] == h.flags10
  {
    h.magic + [h.prgRomSize, h.chrRomSize, h.flags6, h.flags7, h.prgRamSize, h.flags9, h.flags10] + h.padding
  }

  /** Parsing the bytes of a header, whatever follows them, gives that header back. */
  lemma ParseHeaderBytes(h: Header, rest: seq<uint8>)
    requires WellFormed(h)
    ensures ParseHeader(HeaderBytes(h) + rest) == h
  {
    var file := HeaderBytes(h) + rest;
    assert file[..HeaderSize] == HeaderBytes(h);
    assert Bytes(file, 0, 4) == h.magic by {
      assert file[0..4] == h.magic;
    }
    assert Bytes(file, 11, 5) == h.padding by {
      assert file[11..16] == h.padding;
    }
  }

  /** The header of a file at least 16 bytes long is exactly its first 16 bytes. */
  lemma HeaderBytesOfParse(file: seq<uint8>)
    requires |file| >= HeaderSize
    ensures HeaderBytes(ParseHeader(file)) == file[..HeaderSize]
  {
    var r := HeaderBytes(ParseHeader(file));
    forall k | 0 <= k < HeaderSize
      ensures r[k] == file[k]
    {
    }
  }

  /** The bytes after the header: where the mapper setup reads PRG and CHR data. */
  function Body(file: seq<uint8>): (r: seq<uint8>)
    ensures |file| >= HeaderSize ==> file == file[..HeaderSize] + r
    ensures |file| <= HeaderSize ==> r == []
  {
    if |file| >= HeaderSize then file[HeaderSize..] else []
  }

  /** The `switch (header.flags6)` of `detect_mapper`: 0x00/0x01 select NROM, 0x20/0x21 UNROM. */
  function SelectMapper(flags6: uint8): (m: Option<MapperType>)
    ensures m == Some(NROM) <==> flags6 == 0x00 || flags6 == 0x01
    ensures m == Some(UNROM) <==> flags6 == 0x20 || flags6 == 0x21
    ensures m.None? <==> flags6 !in {0x00, 0x01, 0x20, 0x21}
  {
    if flags6 == 0x00 || flags6 == 0x01 then Some(NROM)
    else if flags6 == 0x20 || flags6 == 0x21 then Some(UNROM)
    else None
  }

  /** Every bank of a bank list is 16 KiB. */
  predicate BanksOk(banks: seq<seq<uint8>>) {
    forall i :: 0 <= i < |banks| ==> |banks[i]| == BankSize
  }

  /** The PRG image cut into `n` 16 KiB banks. */
  function SplitBanks(data: seq<uint8>, n: nat): (banks: seq<seq<uint8>>)
    requires |data| == n * BankSize
    ensures |banks| == n && BanksOk(banks)
    ensures forall i, j :: 0 <= i < n && 0 <= j < BankSize ==> banks[i][j] == data[i * BankSize + j]
  {
    seq(n, i requires 0 <= i < n => data[i * BankSize..(i + 1) * BankSize])
  }

  // --------------------------------------------------------------- NROM

  /** The offset `readPRG_NROM` computes in a `uint16_t`: `address & 0x3FFF` when mirrored,
      otherwise `address - 0x8000`, which wraps for addresses below 0x8000. */
  function NromOffset(mirrored: bool, address: uint16): (o: uint16)
    ensures mirrored ==> o < 0x4000 && o == address % 0x4000
    ensures !mirrored && address >= 0x8000 ==> o == address - 0x8000
    ensures !mirrored && address < 0x8000 ==> o == address + 0x8000
  {
    if mirrored then address % 0x4000 else (address - 0x8000) % 0x1_0000
  }

  /** `readPRG_NROM`: 0 without PRG data or past the end of it. */
  function NromRead(prg: Option<seq<uint8>>, prgRomSize: uint8, mirrored: bool, address: uint16): (v: uint8)
    requires prg.Some? ==> |prg.value| == prgRomSize * BankSize
    ensures prg.None? ==> v == 0
    ensures NromOffset(mirrored, address) >= prgRomSize * BankSize ==> v == 0
    ensures prg.Some? && NromOffset(mirrored, address) < prgRomSize * BankSize ==>
              v == prg.value[NromOffset(mirrored, address)]
  {
    match prg
    case None => 0
    case Some(rom) =>
      var mapped := NromOffset(mirrored, address);
      if mapped < prgRomSize * BankSize then rom[mapped] else 0
  }

  /** NROM-128: a single 16 KiB bank appears at both $8000 and $C000. */
  lemma NromMirrorsOneBank(rom: seq<uint8>, address: uint16)
    requires |rom| == BankSize && 0x8000 <= address < 0xC000
    ensures NromRead(Some(rom), 1, true, address) == rom[address - 0x8000]
    ensures NromRead(Some(rom), 1, true, address + 0x4000) == rom[address - 0x8000]
  {
  }

  /** NROM-256: without mirroring the 32 KiB image maps linearly onto $8000-$FFFF. */
  lemma NromMapsTwoBanks(rom: seq<uint8>, address: uint16)
    requires |rom| == 2 * BankSize && 0x8000 <= address
    ensures NromRead(Some(rom), 2, false, address) == rom[address - 0x8000]
  {
  }

  /** A mirrored flag left over from an earlier NROM-128 load makes a 32 KiB image show its
      first bank at $C000 as well; its second bank cannot be read. */
  lemma NromStaleMirror(rom: seq<uint8>, address: uint16)
    requires |rom| == 2 * BankSize && 0xC000 <= address
    ensures NromRead(Some(rom), 2, true, address) == rom[address - 0xC000]
    ensures NromRead(Some(rom), 2, false, address) == rom[address - 0x8000]
  {
  }

  // ------------------------------------------------------------- UNROM

  /** `readPRG_UNROM`: the value read and the selected bank afterwards (an out-of-range
      selection is first reset to 0). $8000-$BFFF is the selected bank, $C000-$FFFF the last
      bank, and anything else, or an empty bank list, reads 0. */
  function UnromRead(banks: seq<seq<uint8>>, curBank: uint8, address: uint16): (r: (uint8, uint8))
    requires BanksOk(banks)
    ensures |banks| == 0 ==> r == (0, curBank)
    ensures |banks| > 0 ==> r.1 < |banks| && r.1 == if curBank < |banks| then curBank else 0
    ensures |banks| > 0 && 0x8000 <= address < 0xC000 ==> r.0 == banks[r.1][address - 0x8000]
    ensures |banks| > 0 && 0xC000 <= address ==> r.0 == banks[|banks| - 1][address - 0xC000]
    ensures address < 0x8000 ==> r.0 == 0
  {
    if |banks| == 0 then (0, curBank)
    else
      var bank := if curBank >= |banks| then 0 else curBank;
      if 0x8000 <= address <= 0xBFFF then (banks[bank][address - 0x8000], bank)
      else if 0xC000 <= address then (banks[|banks| - 1][address - 0xC000], bank)
      else (0, bank)
  }

  /** `switchBank`: the new selection when it names an existing bank, otherwise the old one. */
  function SwitchedBank(bankCount: nat, curBank: uint8, bankNumber: uint8): (b: uint8)
    ensures b == bankNumber <==> bankNumber < bankCount || bankNumber == curBank
    ensures b != bankNumber ==> b == curBank
  {
    if bankNumber < bankCount then bankNumber else curBank
  }

  /** `writePRG_UNROM`: a write at $8000 or above selects bank `value & 0x07`. */
  function UnromWritten(bankCount: nat, curBank: uint8, address: uint16, value: uint8): (b: uint8)
    ensures address < 0x8000 ==> b == curBank
    ensures address >= 0x8000 ==> b == SwitchedBank(bankCount, curBank, value % 8)
    ensures b < 8 || b == curBank
  {
    if address >= 0x8000 then SwitchedBank(bankCount, curBank, value % 8) else curBank
  }

  /** Through the banks cut from an image of `n` banks, with a valid selection, $8000-$BFFF
      shows the selected 16 KiB of the image and $C000-$FFFF its last 16 KiB. */
  lemma {:induction false} UnromReadsImage(data: seq<uint8>, n: nat, curBank: uint8, address: uint16)
    requires |data| == n * BankSize && curBank < n && 0x8000 <= address
    ensures address < 0xC000 ==>
              UnromRead(SplitBanks(data, n), curBank, address).0 == data[curBank * BankSize + address - 0x8000]
    ensures 0xC000 <= address ==>
              UnromRead(SplitBanks(data, n), curBank, address).0 == data[(n - 1) * BankSize + address - 0xC000]
  {
    var banks := SplitBanks(data, n);
    if address < 0xC000 {
      assert banks[curBank][address - 0x8000] == data[curBank * BankSize + (address - 0x8000)];
    } else {
      assert banks[n - 1][address - 0xC000] == data[(n - 1) * BankSize + (address - 0xC000)];
    }
  }

  /** Writing a bank number at $8000 or above, then reading the switchable window, reads that
      bank of the image, if it exists. */
  lemma {:induction false} UnromSwitchThenRead(data: seq<uint8>, n: nat, curBank: uint8,
                                               at: uint16, value: uint8, address: uint16)
    requires |data| == n * BankSize && curBank < n
    requires 0x8000 <= at && 0x8000 <= address < 0xC000 && value % 8 < n
    ensures UnromRead(SplitBanks(data, n), UnromWritten(n, curBank, at, value), address).0
            == data[value % 8 * BankSize + address - 0x8000]
  {
    UnromReadsImage(data, n, value % 8, address);
  }

  // ------------------------------------------------------------ the object

  /** `NESROM`. */
  class NesRom {
    var header: Header
    var prgRom: Option<seq<uint8>>
    var chrRom: Option<seq<uint8>>
    var mirrored: bool
    var mapperType: MapperType
    var curBank: uint8
    var prgBanks: seq<seq<uint8>>
    /** The mapper `readPRG`/`writePRG` point to; None while they are null. */
    var dispatch: Option<MapperType>

    /** The buffers have the sizes the header gives them. */
    ghost predicate Valid()
      reads this
    {
      BanksOk(prgBanks) && (prgRom.Some? ==> |prgRom.value| == header.prgRomSize * BankSize)
    }

    /** `NESROM()`: NROM, bank 0, no buffers, null dispatch pointers. */
    constructor ()
      ensures Valid()
      ensures mapperType == NROM && curBank == 0 && prgBanks == []
      ensures prgRom.None? && chrRom.None? && dispatch.None? && !mirrored
    {
      header := ZeroHeader;
      prgRom := None;
      chrRom := None;
      mirrored := false;
      mapperType := NROM;
      curBank := 0;
      prgBanks := [];
      dispatch := None;
    }

    /** What `readMemoryPRG(address)` returns, and the selected bank afterwards. */
    function PrgRead(address: uint16): (r: (uint8, uint8))
      requires Valid() && dispatch.Some?
      reads this
      ensures dispatch == Some(NROM) ==> r.1 == curBank
    {
      match dispatch.value
      case NROM => (NromRead(prgRom, header.prgRomSize, mirrored, address), curBank)
      case UNROM => UnromRead(prgBanks, curBank, address)
    }

    /** `switchBank` (mapper_test/testROM.cpp:180-187). */
    method SwitchBank(bankNumber: uint8)
      modifies this`curBank
      ensures curBank == SwitchedBank(|prgBanks|, old(curBank), bankNumber)
    {
      if bankNumber < |prgBanks| {
        curBank := bankNumber;
      }
    }

    /** `readPRG_UNROM` (mapper_test/testROM.cpp:210-229). */
    method ReadPrgUnrom(address: uint16) returns (v: uint8)
      requires Valid()
      modifies this`curBank
      ensures (v, curBank) == UnromRead(prgBanks, old(curBank), address)
    {
      if |prgBanks| == 0 {
        return 0;
      }
      if curBank >= |prgBanks| {
        curBank := 0;
      }
      if 0x8000 <= address <= 0xBFFF {
        v := prgBanks[curBank][address - 0x8000];
      } else if 0xC000 <= address {
        v := prgBanks[|prgBanks| - 1][address - 0xC000];
      } else {
        v := 0;
      }
    }

    /** `writePRG_UNROM` (mapper_test/testROM.cpp:235-240). */
    method WritePrgUnrom(address: uint16, value: uint8)
      modifies this`curBank
      ensures curBank == UnromWritten(|prgBanks|, old(curBank), address, value)
    {
      if address >= 0x8000 {
        SwitchBank(value % 8);
      }
    }

    /** `readMemoryPRG`: through the dispatch pointer. */
    method ReadMemoryPrg(address: uint16) returns (v: uint8)
      requires Valid() && dispatch.Some?
      modifies this`curBank
      ensures (v, curBank) == old(PrgRead(address))
    {
      match dispatch.value
      case NROM =>
        v := NromRead(prgRom, header.prgRomSize, mirrored, address);
      case UNROM =>
        v := ReadPrgUnrom(address);
    }

    /** `writeMemoryPRG`: `writePRG_NROM` ignores the write, `writePRG_UNROM` may switch banks. */
    method WriteMemoryPrg(address: uint16, value: uint8)
      requires dispatch.Some?
      modifies this`curBank
      ensures curBank == if dispatch == Some(UNROM) then UnromWritten(|prgBanks|, old(curBank), address, value)
                         else old(curBank)
    {
      match dispatch.value
      case NROM =>
      case UNROM =>
        WritePrgUnrom(address, value);
    }

    /** `readMemoryCHR`: an unchecked index into the CHR buffer. */
    function ReadMemoryChr(address: uint16): (v: uint8)
      requires chrRom.Some? && address < |chrRom.value|
      reads this
      ensures v == chrRom.value[address]
    {
      chrRom.value[address]
    }

    /** `detect_mapper(header, file)` (mapper_test/testROM.cpp:61-147), reading PRG and CHR data
        from `body`, the bytes after the header. */
    method DetectMapper(h: Header, body: seq<uint8>) returns (ok: bool)
      requires Valid() && h == header
      modifies this
      ensures Valid() && header == old(header)
      ensures !IsValidHeader(h) ==> !ok && unchanged(this)
      ensures IsValidHeader(h) ==>
                dispatch == (if SelectMapper(h.flags6) == Some(UNROM) then Some(UNROM) else Some(NROM))
      ensures IsValidHeader(h) && SelectMapper(h.flags6).None? ==>
                && !ok && mapperType == old(mapperType) && mirrored == old(mirrored)
                && prgRom == old(prgRom) && chrRom == old(chrRom)
                && prgBanks == old(prgBanks) && curBank == old(curBank)
      ensures IsValidHeader(h) && SelectMapper(h.flags6) == Some(NROM) ==>
                && ok && mapperType == NROM && mirrored == (old(mirrored) || h.prgRomSize == 1)
                && prgRom == Some(Bytes(body, 0, h.prgRomSize * BankSize))
                && chrRom == Some(Bytes(body, h.prgRomSize * BankSize, h.chrRomSize * ChrUnit))
                && prgBanks == old(prgBanks) && curBank == old(curBank)
      ensures IsValidHeader(h) && SelectMapper(h.flags6) == Some(UNROM) ==>
                && mapperType == UNROM && mirrored == old(mirrored)
                && prgRom == old(prgRom) && chrRom == old(chrRom)
                && prgBanks == SplitBanks(Bytes(body, 0, h.prgRomSize * BankSize), h.prgRomSize)
                && (ok <==> h.prgRomSize > 0 && old(curBank) < h.prgRomSize)
                && curBank == (if ok then 0 else old(curBank))
    {
      if !IsValidHeader(h) {
        return false;
      }
      dispatch := Some(NROM);
      var mapper := SelectMapper(h.flags6);
      if mapper == Some(NROM) {
        mapperType := NROM;
        dispatch := Some(NROM);
        var prgSize := h.prgRomSize * BankSize;
        var chrSize := h.chrRomSize * ChrUnit;
        if h.prgRomSize == 1 {
          mirrored := true;
        }
        prgRom := Some(Bytes(body, 0, prgSize));
        chrRom := Some(Bytes(body, prgSize, chrSize));
        return true;
      } else if mapper == Some(UNROM) {
        mapperType := UNROM;
        dispatch := Some(UNROM);
        var prgSize := h.prgRomSize * BankSize;
        var numBanks := h.prgRomSize;
        var banks := prgBanks;
        if |banks| >= numBanks {
          banks := banks[..numBanks];
        } else {
          banks := banks + seq(numBanks - |banks|, _ => []);
        }
        var temp := Bytes(body, 0, prgSize);
        ghost var target := SplitBanks(temp, numBanks);
        var i := 0;
        while i < numBanks
          invariant 0 <= i <= numBanks && |banks| == numBanks
          invariant banks[..i] == target[..i]
        {
          banks := banks[i := temp[i * BankSize..(i + 1) * BankSize]];
          i := i + 1;
        }
        assert banks == target by {
          assert banks == banks[..numBanks];
        }
        prgBanks := banks;
        if |prgBanks| == 0 {
          return false;
        }
        if curBank >= |prgBanks| {
          return false;
        }
        curBank := 0;
        return true;
      } else {
        return false;
      }
    }

    /** `load(filepath)` (mapper_test/testROM.cpp:19-58) on the file's contents, None when the
        file cannot be opened. */
    method Load(file: Option<seq<uint8>>) returns (ok: bool)
      requires Valid()
      modifies this
      ensures Valid()
      ensures file.None? || !IsValidHeader(ParseHeader(file.value)) ==> !ok && unchanged(this)
      ensures file.Some? && IsValidHeader(ParseHeader(file.value)) ==>
                var h := ParseHeader(file.value);
                var prg := Bytes(Body(file.value), 0, h.prgRomSize * BankSize);
                && header == h
                && (ok <==> match SelectMapper(h.flags6)
                            case None => false
                            case Some(NROM) => true
                            case Some(UNROM) => h.prgRomSize > 0 && old(curBank) < h.prgRomSize)
                && (SelectMapper(h.flags6) == Some(NROM) ==>
                      && prgRom == Some(prg) && prgBanks == [] && mirrored == (old(mirrored) || h.prgRomSize == 1)
                      && chrRom == Some(Bytes(Body(file.value), h.prgRomSize * BankSize, h.chrRomSize * ChrUnit))
                      && mapperType == NROM && curBank == old(curBank))
                && (SelectMapper(h.flags6) == Some(UNROM) ==>
                      && prgRom.None? && prgBanks == SplitBanks(prg, h.prgRomSize)
                      && curBank == (if ok then 0 else old(curBank))
                      && mapperType == UNROM && mirrored == old(mirrored) && chrRom == old(chrRom))
                && (SelectMapper(h.flags6).None? ==>
                      && prgRom.None? && prgBanks == [] && mapperType == old(mapperType)
                      && mirrored == old(mirrored) && chrRom == old(chrRom) && curBank == old(curBank))
                && dispatch == (if SelectMapper(h.flags6) == Some(UNROM) then Some(UNROM) else Some(NROM))
    {
      if file.None? {
        return false;
      }
      var h := ParseHeader(file.value);
      if !IsValidHeader(h) {
        return false;
      }
      header := h;
      prgRom := None;
      prgBanks := [];
      ok := DetectMapper(h, Body(file.value));
    }
  }
}
