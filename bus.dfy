/** The system bus of the mapper test harness (mapper_test/testBus.cpp): address decode for
    CPU reads and writes, the controller shift register, and the master clock that steps the
    video unit every tick and, every third tick, either the processor or one step of the
    256-byte OAM DMA copy. The processor and the video unit are opaque collaborators. */
module SystemBus {
  import opened Word
  import opened ApuModel
  import opened ApuDevice
  import opened Cartridge

  /** The processor, seen from the bus: how often it was stepped, interrupted and reset. */
  class Cpu {
    var instructions: nat
    var nmis: nat
    var resets: nat

    constructor ()
      ensures instructions == 0 && nmis == 0 && resets == 0
    {
      instructions := 0;
      nmis := 0;
      resets := 0;
    }

    /** `cycleExecute()`. */
    method CycleExecute()
      modifies this`instructions
      ensures instructions == old(instructions) + 1
    {
      instructions := instructions + 1;
    }

    /** `nmi_interrupt()`. */
    method NmiInterrupt()
      modifies this`nmis
      ensures nmis == old(nmis) + 1
    {
      nmis := nmis + 1;
    }

    /** `reset()`. */
    method Reset()
      modifies this`resets
      ensures resets == old(resets) + 1
    {
      resets := resets + 1;
    }
  }

  /** The video unit, seen from the bus: its clock count, the `nmi` flag the bus polls,
      the 256-byte `OAMDATA` array, and its eight CPU-visible registers as plain storage. */
  class Ppu {
    var clocks: nat
    var nmi: bool
    const oam: array<uint8>
    var registers: seq<uint8>
    var resets: nat
    var cartridge: NesRom?

    constructor ()
      ensures clocks == 0 && !nmi && resets == 0 && cartridge == null
      ensures fresh(oam) && oam.Length == 256 && registers == seq(8, _ => 0)
    {
      clocks := 0;
      nmi := false;
      oam := new uint8[256](_ => 0);
      registers := seq(8, _ => 0);
      resets := 0;
      cartridge := null;
    }

    /** `clock()`: one dot; `raisesNmi` says whether this dot starts vertical blank. */
    method Clock(raisesNmi: bool)
      modifies this`clocks, this`nmi
      ensures clocks == old(clocks) + 1 && nmi == (old(nmi) || raisesNmi)
    {
      clocks := clocks + 1;
      if raisesNmi {
        nmi := true;
      }
    }

    /** `cpuWrite(reg, data)`. */
    method CpuWrite(reg: int, data: uint8)
      requires 0 <= reg < |registers|
      modifies this`registers
      ensures registers == old(registers)[reg := data]
    {
      registers := registers[reg := data];
    }

    /** `cpuRead(reg)`. */
    function CpuRead(reg: int): uint8
      requires 0 <= reg < |registers|
      reads this`registers
    {
      registers[reg]
    }

    /** `reset()`. */
    method Reset()
      modifies this`resets
      ensures resets == old(resets) + 1
    {
      resets := resets + 1;
    }

    /** `connectROM(rom)`. */
    method ConnectRom(rom: NesRom)
      modifies this`cartridge
      ensures cartridge == rom
    {
      cartridge := rom;
    }
  }

  // ------------------------------------------------------------ address decode

  /** Where a CPU access at an address lands. */
  datatype Target = RamTarget | PpuTarget | ApuTarget | DmaTarget | ControllerTarget
                  | CartridgeTarget | FallbackTarget

  /** 0x4000-0x4013, 0x4015 and 0x4017 go to the sound unit. */
  predicate IsApuAddress(address: uint16) {
    (0x4000 <= address <= 0x4013) || address == 0x4015 || address == 0x4017
  }

  /** The decode order shared by `write` and `read` (mapper_test/testBus.cpp:19-59, 70-109).
      Port 0x4017 is claimed by the sound unit first, so only 0x4016 reaches the
      controller branch; everything unclaimed lands in the fallback RAM. */
  function Decode(address: uint16, hasRom: bool): (t: Target)
    ensures t == RamTarget <==> address <= 0x1FFF
    ensures t == PpuTarget <==> 0x2000 <= address <= 0x3FFF
    ensures t == ApuTarget <==> IsApuAddress(address)
    ensures t == DmaTarget <==> address == 0x4014
    ensures t == ControllerTarget <==> address == 0x4016
    ensures t == CartridgeTarget <==> hasRom && 0x8000 <= address
    ensures t == FallbackTarget <==> 0x4018 <= address && !(hasRom && 0x8000 <= address)
  {
    if address <= 0x1FFF then RamTarget
    else if address <= 0x3FFF then PpuTarget
    else if IsApuAddress(address) then ApuTarget
    else if address == 0x4014 then DmaTarget
    else if address == 0x4016 || address == 0x4017 then ControllerTarget
    else if hasRom && 0x8000 <= address then CartridgeTarget
    else FallbackTarget
  }

  // ------------------------------------------------------- controller port

  /** The controller shift copy and the count of bits read from it. */
  datatype Pad = Pad(copy: uint8, count: uint8)

  /** A read of 0x4016 (mapper_test/testBus.cpp:90-99): after eight bits the copy is
      reloaded from `controller1`; the read returns bit 0 of the copy and shifts it right. */
  function PadRead(controller1: uint8, p: Pad): (r: (uint8, Pad))
    ensures r.0 == r.0 % 2
    ensures p.count == 8 ==> r == (controller1 % 2, Pad(controller1 / 2, 1))
    ensures p.count != 8 ==> r == (p.copy % 2, Pad(p.copy / 2, (p.count + 1) % 0x100))
  {
    var source := if p.count == 8 then controller1 else p.copy;
    var count := if p.count == 8 then 0 else p.count;
    (source % 2, Pad(source / 2, (count + 1) % 0x100))
  }

  /** `k` successive reads of 0x4016: the bits returned and the port state afterwards. */
  function PadReads(controller1: uint8, p: Pad, k: nat): (r: (seq<uint8>, Pad))
    ensures |r.0| == k
    decreases k
  {
    if k == 0 then ([], p)
    else
      var first := PadRead(controller1, p);
      var rest := PadReads(controller1, first.1, k - 1);
      ([first.0] + rest.0, rest.1)
  }

  /** `x` shifted right `i` times. */
  function Shifted(x: uint8, i: nat): (r: uint8)
    ensures r <= x
    decreases i
  {
    if i == 0 then x else Shifted(x / 2, i - 1)
  }

  /** Reads of the copy with no reload pending return its bits from the lowest up. */
  lemma {:induction false} PadReadsCopy(controller1: uint8, copy: uint8, count: uint8, k: nat)
    requires count + k <= 8
    ensures var r := PadReads(controller1, Pad(copy, count), k);
            && r.1 == Pad(Shifted(copy, k), count + k)
            && forall i :: 0 <= i < k ==> r.0[i] == Shifted(copy, i) % 2
    decreases k
  {
    if k > 0 {
      var first := PadRead(controller1, Pad(copy, count));
      assert first == (copy % 2, Pad(copy / 2, count + 1));
      PadReadsCopy(controller1, copy / 2, count + 1, k - 1);
      var r := PadReads(controller1, Pad(copy, count), k);
      var rest := PadReads(controller1, Pad(copy / 2, count + 1), k - 1);
      assert r.0 == [copy % 2] + rest.0;
      forall i | 0 <= i < k
        ensures r.0[i] == Shifted(copy, i) % 2
      {
        if i > 0 {
          assert r.0[i] == rest.0[i - 1];
        }
      }
    }
  }

  /** The serial protocol: once a reload is pending, eight reads return the eight bits of
      `controller1` from bit 0 up, and leave the next read reloading again. */
  lemma ControllerSerialRead(controller1: uint8, copy: uint8)
    ensures var r := PadReads(controller1, Pad(copy, 8), 8);
            && r.1 == Pad(0, 8)
            && forall i :: 0 <= i < 8 ==> r.0[i] == Shifted(controller1, i) % 2
  {
    var first := PadRead(controller1, Pad(copy, 8));
    assert first == (controller1 % 2, Pad(controller1 / 2, 1));
    PadReadsCopy(controller1, controller1 / 2, 1, 7);
    var r := PadReads(controller1, Pad(copy, 8), 8);
    var rest := PadReads(controller1, Pad(controller1 / 2, 1), 7);
    assert r.0 == [controller1 % 2] + rest.0;
    forall i | 0 <= i < 8
      ensures r.0[i] == Shifted(controller1, i) % 2
    {
      if i > 0 {
        assert r.0[i] == rest.0[i - 1];
      }
    }
    ShiftedSevenTimes(controller1 / 2);
  }

  /** A value below 0x80 shifted right seven times is 0. */
  lemma ShiftedSevenTimes(x: uint8)
    requires x < 0x80
    ensures Shifted(x, 7) == 0
  {
    assert Shifted(x, 7) == Shifted(x / 2 / 2 / 2 / 2 / 2 / 2 / 2, 0);
  }

  // --------------------------------------------------- the DMA arbiter

  /** The bus counters and DMA registers `clock` steps. */
  datatype Arbiter = Arbiter(clockCounter: nat, cpuClockCounter: nat, transfer: bool,
                             canStart: bool, page: uint8, address: uint8, data: uint8)

  /** Every third tick belongs to the processor or the DMA unit. */
  predicate CpuSlot(a: Arbiter) {
    a.clockCounter % 3 == 0
  }

  /** A slot in which the running transfer fetches its next byte. */
  predicate ReadSlot(a: Arbiter) {
    CpuSlot(a) && a.transfer && a.canStart && a.clockCounter % 2 == 0
  }

  /** A slot in which the running transfer stores its fetched byte. */
  predicate WriteSlot(a: Arbiter) {
    CpuSlot(a) && a.transfer && a.canStart && a.clockCounter % 2 == 1
  }

  /** The source address of the next fetch: `DMAPage << 8 | DMAAddress`. */
  function SourceAddress(a: Arbiter): (addr: uint16)
    ensures addr / 0x100 == a.page && addr % 0x100 == a.address
  {
    a.page * 0x100 + a.address
  }

  /** One `clock()` of the arbiter (mapper_test/testBus.cpp:131-163, 172); `fetched` is the
      byte a bus read at `SourceAddress(a)` returns. */
  function ArbiterStep(a: Arbiter, fetched: uint8): (r: Arbiter)
    ensures r.clockCounter == a.clockCounter + 1 && r.page == a.page
    ensures r.cpuClockCounter == a.cpuClockCounter + (if CpuSlot(a) && !a.transfer then 1 else 0)
  {
    var b :=
      if !CpuSlot(a) then a
      else if !a.transfer then a.(cpuClockCounter := a.cpuClockCounter + 1)
      else if !a.canStart then (if a.clockCounter % 2 == 1 then a.(canStart := true) else a)
      else if a.clockCounter % 2 == 0 then a.(data := fetched)
      else
        var next := (a.address + 1) % 0x100;
        if next == 0 then a.(address := next, transfer := false, canStart := false)
        else a.(address := next);
    b.(clockCounter := a.clockCounter + 1)
  }

  lemma ModTwo(x: int, q: int, b: int)
    requires x == 2 * q + b && 0 <= b < 2
    ensures x % 2 == b
  {
  }

  lemma ModThree(x: int, q: int, b: int)
    requires x == 3 * q + b && 0 <= b < 3
    ensures x % 3 == b
  {
  }

  /** Slot phases of the six ticks starting at a multiple of six. */
  lemma PhasesFromSix(c: nat)
    requires c % 6 == 0
    ensures c % 3 == 0 && c % 2 == 0 && (c + 1) % 3 == 1 && (c + 2) % 3 == 2
    ensures (c + 3) % 3 == 0 && (c + 3) % 2 == 1 && (c + 4) % 3 == 1 && (c + 5) % 3 == 2
    ensures (c + 6) % 6 == 0
  {
    var q := c / 6;
    assert c == 6 * q;
    ModThree(c, 2 * q, 0);
    ModTwo(c, 3 * q, 0);
    ModThree(c + 1, 2 * q, 1);
    ModThree(c + 2, 2 * q, 2);
    ModThree(c + 3, 2 * q + 1, 0);
    ModTwo(c + 3, 3 * q + 1, 1);
    ModThree(c + 4, 2 * q + 1, 1);
    ModThree(c + 5, 2 * q + 1, 2);
    ModSix(c + 6, q + 1, 0);
  }

  /** Slot phases of the three ticks starting at three past a multiple of six. */
  lemma PhasesFromThree(c: nat)
    requires c % 6 == 3
    ensures c % 3 == 0 && c % 2 == 1 && (c + 1) % 3 == 1 && (c + 2) % 3 == 2 && (c + 3) % 6 == 0
  {
    var q := c / 6;
    assert c == 6 * q + 3;
    ModThree(c, 2 * q + 1, 0);
    ModTwo(c, 3 * q + 1, 1);
    ModThree(c + 1, 2 * q + 1, 1);
    ModThree(c + 2, 2 * q + 1, 2);
    ModSix(c + 3, q + 1, 0);
  }

  /** A slot with an odd tick count is three past a multiple of six. */
  lemma OddSlot(c: nat)
    requires c % 3 == 0 && c % 2 == 1
    ensures c % 6 == 3
  {
    var q := c / 6;
    var m := c % 6;
    assert c == 3 * (2 * q) + m && c == 2 * (3 * q) + m;
    assert m % 3 == 0 && m % 2 == 1;
  }

  lemma SixMultiple(c: nat, k: nat)
    requires c % 6 == 0
    ensures (c + 6 * k) % 6 == 0
  {
    var q := c / 6;
    assert c + 6 * k == 6 * (q + k);
  }

  /** What one tick does: the processor runs only in its slot and only while no transfer
      is running; a transfer starts copying only at a slot with an odd tick count, fetches at
      even slots, stores at odd ones, and stops after the store that wraps the offset to 0. */
  lemma ArbiterStepFacts(a: Arbiter, fetched: uint8)
    ensures var r := ArbiterStep(a, fetched);
            && r.clockCounter == a.clockCounter + 1 && r.page == a.page
            && (!CpuSlot(a) ==> r == a.(clockCounter := a.clockCounter + 1))
            && (CpuSlot(a) && !a.transfer ==>
                  r == a.(clockCounter := a.clockCounter + 1, cpuClockCounter := a.cpuClockCounter + 1))
            && (a.transfer ==> r.cpuClockCounter == a.cpuClockCounter)
            && (!a.canStart && r.canStart ==> a.transfer && a.clockCounter % 6 == 3)
            && (ReadSlot(a) ==> r == a.(clockCounter := a.clockCounter + 1, data := fetched))
            && (WriteSlot(a) ==> r.address == (a.address + 1) % 0x100 && r.data == a.data)
            && (WriteSlot(a) ==> (r.transfer <==> r.address != 0) && (r.canStart <==> r.address != 0))
  {
    if a.clockCounter % 3 == 0 && a.clockCounter % 2 == 1 {
      OddSlot(a.clockCounter);
    }
  }

  /** The OAM contents after that step: a write slot stores the fetched byte at `DMAAddress`. */
  function OamAfter(a: Arbiter, oam: seq<uint8>): (r: seq<uint8>)
    requires |oam| == 256
    ensures |r| == 256
    ensures WriteSlot(a) ==> r == oam[a.address := a.data]
    ensures !WriteSlot(a) ==> r == oam
  {
    if WriteSlot(a) then oam[a.address := a.data] else oam
  }

  /** `n` ticks of a transfer whose source page holds `source`, which no fetch changes
      (a page of RAM, say). */
  function ArbiterRun(a: Arbiter, oam: seq<uint8>, source: seq<uint8>, n: nat): (r: (Arbiter, seq<uint8>))
    requires |oam| == 256 && |source| == 256
    ensures |r.1| == 256
    decreases n
  {
    if n == 0 then (a, oam)
    else ArbiterRun(ArbiterStep(a, source[a.address]), OamAfter(a, oam), source, n - 1)
  }

  lemma {:induction false} ArbiterRunAdd(a: Arbiter, oam: seq<uint8>, source: seq<uint8>, m: nat, n: nat)
    requires |oam| == 256 && |source| == 256
    ensures var mid := ArbiterRun(a, oam, source, m);
            ArbiterRun(a, oam, source, m + n) == ArbiterRun(mid.0, mid.1, source, n)
    decreases m
  {
    if m > 0 {
      ArbiterRunAdd(ArbiterStep(a, source[a.address]), OamAfter(a, oam), source, m - 1, n);
    }
  }

  /** Six ticks from a read slot move one byte: fetch at the first tick, store at the fourth. */
  lemma {:induction false} ByteTransfer(a: Arbiter, oam: seq<uint8>, source: seq<uint8>)
    requires |oam| == 256 && |source| == 256
    requires a.transfer && a.canStart && a.clockCounter % 6 == 0
    ensures var r := ArbiterRun(a, oam, source, 6);
            var next := (a.address + 1) % 0x100;
            && r.0 == a.(clockCounter := a.clockCounter + 6, address := next, data := source[a.address],
                         transfer := next != 0, canStart := next != 0)
            && r.1 == oam[a.address := source[a.address]]
  {
    var c := a.clockCounter;
    PhasesFromSix(c);
    var a1 := ArbiterStep(a, source[a.address]);
    assert a1 == a.(clockCounter := c + 1, data := source[a.address]);
    var a2 := ArbiterStep(a1, source[a1.address]);
    assert a2 == a1.(clockCounter := c + 2);
    var a3 := ArbiterStep(a2, source[a2.address]);
    assert a3 == a1.(clockCounter := c + 3);
    var next := (a.address + 1) % 0x100;
    var a4 := ArbiterStep(a3, source[a3.address]);
    assert a4 == a1.(clockCounter := c + 4, address := next, transfer := next != 0, canStart := next != 0);
    var o4 := oam[a.address := source[a.address]];
    assert OamAfter(a3, oam) == o4;
    var a5 := ArbiterStep(a4, source[a4.address]);
    assert a5 == a4.(clockCounter := c + 5);
    var a6 := ArbiterStep(a5, source[a5.address]);
    assert a6 == a4.(clockCounter := c + 6);
    assert ArbiterRun(a5, o4, source, 1) == (a6, o4);
    assert ArbiterRun(a4, o4, source, 2) == (a6, o4);
    assert ArbiterRun(a3, oam, source, 3) == (a6, o4);
    assert ArbiterRun(a2, oam, source, 4) == (a6, o4);
    assert ArbiterRun(a1, oam, source, 5) == (a6, o4);
  }

  /** After `k` bytes of a transfer from offset 0: the first `k` OAM bytes hold the first `k`
      source bytes, the rest are untouched, the processor has not been stepped, and the
      transfer is still running exactly when bytes remain. */
  ghost predicate Copied(r: (Arbiter, seq<uint8>), a: Arbiter, oam: seq<uint8>, source: seq<uint8>, k: nat)
    requires |r.1| == 256 && |oam| == 256 && |source| == 256 && k <= 256
  {
    && r.1[..k] == source[..k] && r.1[k..] == oam[k..]
    && r.0.cpuClockCounter == a.cpuClockCounter && r.0.page == a.page
    && r.0.clockCounter == a.clockCounter + 6 * k
    && r.0.address == k % 0x100
    && (r.0.transfer <==> k < 256) && (r.0.canStart <==> k < 256)
  }

  lemma CopiedStep(mid: (Arbiter, seq<uint8>), fin: (Arbiter, seq<uint8>), a: Arbiter,
                   oam: seq<uint8>, source: seq<uint8>, k: nat)
    requires |mid.1| == 256 && |oam| == 256 && |source| == 256 && 0 < k <= 256
    requires Copied(mid, a, oam, source, k - 1)
    requires var next := (mid.0.address + 1) % 0x100;
             && fin.0 == mid.0.(clockCounter := mid.0.clockCounter + 6, address := next,
                                data := source[mid.0.address], transfer := next != 0, canStart := next != 0)
             && fin.1 == mid.1[mid.0.address := source[mid.0.address]]
    ensures |fin.1| == 256 && Copied(fin, a, oam, source, k)
  {
    CopiedOneMore(mid.1, oam, source, k);
  }

  /** The run of `6 * k` ticks is the run of `6 * (k - 1)` ticks and six more. */
  lemma SixMore(a: Arbiter, oam: seq<uint8>, source: seq<uint8>, k: nat)
    requires |oam| == 256 && |source| == 256 && k > 0
    ensures var mid := ArbiterRun(a, oam, source, 6 * (k - 1));
            ArbiterRun(a, oam, source, 6 * k) == ArbiterRun(mid.0, mid.1, source, 6)
  {
    ArbiterRunAdd(a, oam, source, 6 * (k - 1), 6);
    assert 6 * (k - 1) + 6 == 6 * k;
  }

  /** A running transfer from offset 0, started on a read slot: `6 * k` ticks copy `k` bytes. */
  lemma {:induction false} DmaCopiesPage(a: Arbiter, oam: seq<uint8>, source: seq<uint8>, k: nat)
    requires |oam| == 256 && |source| == 256 && k <= 256
    requires a.transfer && a.canStart && a.clockCounter % 6 == 0 && a.address == 0
    ensures Copied(ArbiterRun(a, oam, source, 6 * k), a, oam, source, k)
    decreases k
  {
    if k > 0 {
      DmaCopiesPage(a, oam, source, k - 1);
      var mid := ArbiterRun(a, oam, source, 6 * (k - 1));
      SixMultiple(a.clockCounter, k - 1);
      SixMore(a, oam, source, k);
      ByteTransfer(mid.0, mid.1, source);
      CopiedStep(mid, ArbiterRun(mid.0, mid.1, source, 6), a, oam, source, k);
    }
  }

  lemma CopiedOneMore(o: seq<uint8>, oam: seq<uint8>, source: seq<uint8>, k: nat)
    requires |o| == 256 && |oam| == 256 && |source| == 256 && 0 < k <= 256
    requires o[..k - 1] == source[..k - 1] && o[k - 1..] == oam[k - 1..]
    ensures o[k - 1 := source[k - 1]][..k] == source[..k]
    ensures o[k - 1 := source[k - 1]][k..] == oam[k..]
  {
    var o' := o[k - 1 := source[k - 1]];
    assert forall i :: 0 <= i < k - 1 ==> o[i] == source[i] by {
      forall i | 0 <= i < k - 1 ensures o[i] == source[i] { assert o[..k - 1][i] == source[..k - 1][i]; }
    }
    assert forall i :: k <= i < 256 ==> o[i] == oam[i] by {
      forall i | k <= i < 256 ensures o[i] == oam[i] { assert o[k - 1..][i - (k - 1)] == oam[k - 1..][i - (k - 1)]; }
    }
    assert o'[..k] == source[..k];
    assert o'[k..] == oam[k..];
  }

  /** The whole copy: 1536 ticks from the first read slot leave OAM equal to the page, the
      transfer finished and the processor not stepped. */
  lemma DmaTransfersPage(a: Arbiter, oam: seq<uint8>, source: seq<uint8>)
    requires |oam| == 256 && |source| == 256
    requires a.transfer && a.canStart && a.clockCounter % 6 == 0 && a.address == 0
    ensures var r := ArbiterRun(a, oam, source, 1536);
            r.1 == source && !r.0.transfer && !r.0.canStart && r.0.cpuClockCounter == a.cpuClockCounter
  {
    DmaCopiesPage(a, oam, source, 256);
    var r := ArbiterRun(a, oam, source, 6 * 256);
    assert Copied(r, a, oam, source, 256);
    assert r.1[..256] == source[..256];
    assert r.1 == r.1[..256] && source == source[..256];
  }

  /** After the trigger the transfer waits for an odd slot (tick count 3 mod 6); three ticks
      later its first read slot comes. */
  lemma DmaStarts(a: Arbiter, oam: seq<uint8>, source: seq<uint8>)
    requires |oam| == 256 && |source| == 256
    requires a.transfer && !a.canStart && a.clockCounter % 6 == 3
    ensures var r := ArbiterRun(a, oam, source, 3);
            r == (a.(clockCounter := a.clockCounter + 3, canStart := true), oam)
  {
    PhasesFromThree(a.clockCounter);
    var a1 := ArbiterStep(a, source[a.address]);
    assert a1 == a.(clockCounter := a.clockCounter + 1, canStart := true);
    var a2 := ArbiterStep(a1, source[a1.address]);
    assert a2 == a1.(clockCounter := a.clockCounter + 2);
    var a3 := ArbiterStep(a2, source[a2.address]);
    assert a3 == a1.(clockCounter := a.clockCounter + 3);
    assert ArbiterRun(a2, oam, source, 1) == (a3, oam);
    assert ArbiterRun(a1, oam, source, 2) == (a3, oam);
  }

  /** `x % 6` from a witness decomposition. */
  lemma ModSix(x: int, q: int, b: int)
    requires x == 6 * q + b && 0 <= b < 6
    ensures x % 6 == b
  {
  }

  /** While armed but not yet started, a tick off the odd slot only counts. */
  lemma WaitStep(a: Arbiter, fetched: uint8)
    requires a.transfer && !a.canStart && a.clockCounter % 6 != 3
    ensures ArbiterStep(a, fetched) == a.(clockCounter := a.clockCounter + 1)
  {
    if a.clockCounter % 3 == 0 && a.clockCounter % 2 == 1 {
      OddSlot(a.clockCounter);
    }
  }

  /** A triggered transfer idles, OAM untouched, until the tick count reaches 3 mod 6. */
  lemma {:induction false} DmaWaits(a: Arbiter, oam: seq<uint8>, source: seq<uint8>, j: nat)
    requires |oam| == 256 && |source| == 256
    requires a.transfer && !a.canStart && j <= 5 && (a.clockCounter + j) % 6 == 3
    ensures ArbiterRun(a, oam, source, j) == (a.(clockCounter := a.clockCounter + j), oam)
    decreases j
  {
    if j > 0 {
      var c := a.clockCounter;
      if c % 6 == 3 {
        var q := c / 6;
        assert c == 6 * q + 3;
        if j <= 2 {
          ModSix(c + j, q, 3 + j);
        } else {
          ModSix(c + j, q + 1, j - 3);
        }
        assert false;
      }
      WaitStep(a, source[a.address]);
      assert OamAfter(a, oam) == oam;
      DmaWaits(a.(clockCounter := c + 1), oam, source, j - 1);
    }
  }

  /** The ticks from count `c` to the next count that is 3 mod 6. */
  lemma WaitLength(c: nat)
    ensures (9 - c % 6) % 6 <= 5 && (c + (9 - c % 6) % 6) % 6 == 3
  {
    var q := c / 6;
    var m := c % 6;
    assert c == 6 * q + m;
    if m <= 3 {
      ModSix(9 - m, 1, 3 - m);
      ModSix(c + (3 - m), q, 3);
    } else {
      ModSix(9 - m, 0, 9 - m);
      ModSix(c + (9 - m), q + 1, 3);
    }
  }

  /** From `j` ticks before the odd slot: the wait, the arming and the whole copy. */
  /** From a tick `j` short of an odd slot, `j + 3` ticks leave OAM alone and arm the transfer. */
  lemma DmaArms(a: Arbiter, oam: seq<uint8>, source: seq<uint8>, j: nat)
    requires |oam| == 256 && |source| == 256
    requires a.transfer && !a.canStart && j <= 5 && (a.clockCounter + j) % 6 == 3
    ensures ArbiterRun(a, oam, source, j + 3) ==
            (a.(clockCounter := a.clockCounter + j + 3, canStart := true), oam)
  {
    var c := a.clockCounter;
    DmaWaits(a, oam, source, j);
    ArbiterRunAdd(a, oam, source, j, 3);
    DmaStarts(a.(clockCounter := c + j), oam, source);
  }

  /** A run that reaches an armed transfer at a read slot goes on to copy the page. */
  lemma PageAfterRun(a: Arbiter, b: Arbiter, oam: seq<uint8>, source: seq<uint8>, m: nat)
    requires |oam| == 256 && |source| == 256
    requires ArbiterRun(a, oam, source, m) == (b, oam)
    requires b.transfer && b.canStart && b.clockCounter % 6 == 0 && b.address == 0
    ensures var r := ArbiterRun(a, oam, source, m + 1536);
            r.1 == source && !r.0.transfer && !r.0.canStart && r.0.cpuClockCounter == b.cpuClockCounter
  {
    ArbiterRunAdd(a, oam, source, m, 1536);
    DmaTransfersPage(b, oam, source);
  }

  lemma DmaAfterWait(a: Arbiter, oam: seq<uint8>, source: seq<uint8>, j: nat)
    requires |oam| == 256 && |source| == 256
    requires a.transfer && !a.canStart && a.address == 0 && j <= 5 && (a.clockCounter + j) % 6 == 3
    ensures var r := ArbiterRun(a, oam, source, j + 3 + 1536);
            r.1 == source && !r.0.transfer && !r.0.canStart && r.0.cpuClockCounter == a.cpuClockCounter
  {
    DmaArms(a, oam, source, j);
    PhasesFromThree(a.clockCounter + j);
    PageAfterRun(a, a.(clockCounter := a.clockCounter + j + 3, canStart := true), oam, source, j + 3);
  }

  /** From the `$4014` write, at whatever tick it happens: the transfer waits for the next odd
      slot, arms three ticks before its first read slot, and 1536 ticks later OAM holds the
      page, both flags are clear and the processor was never stepped. */
  lemma DmaFromTrigger(a: Arbiter, oam: seq<uint8>, source: seq<uint8>)
    requires |oam| == 256 && |source| == 256
    requires a.transfer && !a.canStart && a.address == 0
    ensures var w := (9 - a.clockCounter % 6) % 6 + 3;
            var r := ArbiterRun(a, oam, source, w + 1536);
            r.1 == source && !r.0.transfer && !r.0.canStart && r.0.cpuClockCounter == a.cpuClockCounter
  {
    WaitLength(a.clockCounter);
    DmaAfterWait(a, oam, source, (9 - a.clockCounter % 6) % 6);
  }

  // ------------------------------------------------------------------ the bus

  /** `Bus`. */
  class Bus {
    const cpu: Cpu
    const ppu: Ppu
    const apu: Apu
    var rom: NesRom?
    const cpuRam: array<uint8>
    const fallbackRam: array<uint8>
    var clockCounter: nat
    var cpuClockCounter: nat
    var dmaTransfer: bool
    var dmaCanStart: bool
    var dmaPage: uint8
    var dmaAddress: uint8
    var dmaData: uint8
    var controller1: uint8
    var copyController: uint8
    var controllerRead: uint8

    ghost predicate Valid()
      reads this, ppu`registers, rom
    {
      && cpuRam.Length == 0x800 && fallbackRam.Length == 0x1_0000 && ppu.oam.Length == 256
      && cpuRam != fallbackRam && cpuRam != ppu.oam && fallbackRam != ppu.oam
      && |ppu.registers| == 8
      && (rom != null ==> rom.Valid() && rom.dispatch.Some?)
    }

    function Counters(): Arbiter
      reads this
    {
      Arbiter(clockCounter, cpuClockCounter, dmaTransfer, dmaCanStart, dmaPage, dmaAddress, dmaData)
    }

    function PadState(): Pad
      reads this
    {
      Pad(copyController, controllerRead)
    }

    /** The byte a `read(address)` returns in the current state. */
    ghost function ReadValue(address: uint16): uint8
      requires Valid()
      reads this, cpuRam, fallbackRam, ppu`registers, apu, rom
    {
      match Decode(address, rom != null)
      case RamTarget => cpuRam[address % 0x800]
      case PpuTarget => ppu.registers[address % 8]
      case ApuTarget => ReadStatus(apu.State(), address)
      case DmaTarget => 0
      case ControllerTarget => PadRead(controller1, PadState()).0
      case CartridgeTarget => rom.PrgRead(address).0
      case FallbackTarget => fallbackRam[address]
    }

    /** The controller port after a `read(address)`. */
    ghost function PadAfterRead(address: uint16): Pad
      reads this
    {
      if address == 0x4016 then PadRead(controller1, PadState()).1 else PadState()
    }

    /** The cartridge's selected bank after a `read(address)`. */
    ghost function BankAfterRead(address: uint16): uint8
      requires Valid() && rom != null
      reads this, ppu`registers, rom
    {
      if 0x8000 <= address then rom.PrgRead(address).1 else rom.curBank
    }

    /** `Bus()`: processor, sound unit, video unit and zeroed memories; no cartridge. */
    constructor ()
      ensures Valid() && rom == null
      ensures fresh(cpu) && fresh(ppu) && fresh(apu) && fresh(cpuRam) && fresh(fallbackRam)
      ensures Counters() == Arbiter(0, 0, false, false, 0, 0, 0) && PadState() == Pad(0, 0)
    {
      cpu := new Cpu();
      apu := new Apu();
      ppu := new Ppu();
      rom := null;
      cpuRam := new uint8[0x800](_ => 0);
      fallbackRam := new uint8[0x1_0000](_ => 0);
      clockCounter := 0;
      cpuClockCounter := 0;
      dmaTransfer := false;
      dmaCanStart := false;
      dmaPage := 0;
      dmaAddress := 0;
      dmaData := 0;
      controller1 := 0;
      copyController := 0;
      controllerRead := 0;
    }

    /** `write(address, data)` (mapper_test/testBus.cpp:17-60). */
    method Write(address: uint16, data: uint8)
      requires Valid()
      modifies this, cpuRam, fallbackRam, ppu`registers, apu, (if rom == null then {} else {rom})`curBank
      ensures Valid() && rom == old(rom) && controller1 == old(controller1) && PadState() == old(PadState())
      ensures Counters() == if address == 0x4014 then old(Counters()).(transfer := true, page := data, address := 0)
                           else old(Counters())
      ensures cpuRam[..] == if address <= 0x1FFF then old(cpuRam[..])[address % 0x800 := data] else old(cpuRam[..])
      ensures ppu.registers == if Decode(address, rom != null) == PpuTarget
                               then old(ppu.registers)[address % 8 := data] else old(ppu.registers)
      ensures apu.State() == if IsApuAddress(address) then Written(old(apu.State()), address, data)
                             else old(apu.State())
      ensures fallbackRam[..] == if Decode(address, rom != null) == FallbackTarget
                                 then old(fallbackRam[..])[address := data] else old(fallbackRam[..])
      ensures rom != null ==>
                rom.curBank == if 0x8000 <= address && rom.dispatch == Some(UNROM)
                               then UnromWritten(|rom.prgBanks|, old(rom.curBank), address, data)
                               else old(rom.curBank)
      ensures address <= 0x1FFF ==>
                forall b: uint16 :: b <= 0x1FFF && b % 0x800 == address % 0x800 ==> ReadValue(b) == data
    {
      if address <= 0x1FFF {
        cpuRam[address % 0x800] := data;
        return;
      }
      if 0x2000 <= address <= 0x3FFF {
        ppu.CpuWrite(address % 8, data);
        return;
      }
      if IsApuAddress(address) {
        apu.WriteRegister(address, data);
        return;
      }
      if address == 0x4014 {
        dmaTransfer := true;
        dmaPage := data;
        dmaAddress := 0x00;
        return;
      }
      if address == 0x4016 || address == 0x4017 {
        return;
      }
      if rom != null && 0x8000 <= address {
        rom.WriteMemoryPrg(address, data);
        return;
      }
      fallbackRam[address] := data;
    }

    /** `read(address)` (mapper_test/testBus.cpp:63-110). */
    method Read(address: uint16) returns (v: uint8)
      requires Valid()
      modifies this`copyController, this`controllerRead, (if rom == null then {} else {rom})`curBank
      ensures Valid()
      ensures v == old(ReadValue(address))
      ensures PadState() == old(PadAfterRead(address))
      ensures rom != null ==> rom.curBank == old(BankAfterRead(address))
    {
      if address <= 0x1FFF {
        return cpuRam[address % 0x800];
      }
      if 0x2000 <= address <= 0x3FFF {
        return ppu.CpuRead(address % 8);
      }
      if IsApuAddress(address) {
        v := apu.ReadRegister(address);
        return;
      }
      if address == 0x4014 {
        return 0;
      }
      if address == 0x4016 {
        if controllerRead == 8 {
          copyController := controller1;
          controllerRead := 0;
        }
        var bit := copyController % 2;
        copyController := copyController / 2;
        controllerRead := (controllerRead + 1) % 0x100;
        return bit;
      }
      if rom != null && 0x8000 <= address {
        v := rom.ReadMemoryPrg(address);
        return;
      }
      return fallbackRam[address];
    }

    /** One step of a running transfer's fetch or store (mapper_test/testBus.cpp:135-156). */
    method DmaStep()
      requires Valid() && CpuSlot(Counters()) && dmaTransfer
      modifies this`dmaCanStart, this`dmaData, this`dmaAddress, this`dmaTransfer,
               this`copyController, this`controllerRead, (if rom == null then {} else {rom})`curBank, ppu.oam
      ensures Valid()
      ensures Counters() == ArbiterStep(old(Counters()), old(ReadValue(SourceAddress(Counters()))))
                             .(clockCounter := clockCounter)
      ensures ppu.oam[..] == OamAfter(old(Counters()), old(ppu.oam[..]))
      ensures ReadSlot(old(Counters())) ==> PadState() == old(PadAfterRead(SourceAddress(Counters())))
      ensures !ReadSlot(old(Counters())) ==> PadState() == old(PadState())
      ensures rom != null ==>
                rom.curBank == if ReadSlot(old(Counters())) then old(BankAfterRead(SourceAddress(Counters())))
                               else old(rom.curBank)
    {
      ghost var a := Counters();
      ArbiterStepFacts(a, ReadValue(SourceAddress(a)));
      if !dmaCanStart {
        if clockCounter % 2 == 1 {
          dmaCanStart := true;
        }
      } else {
        if clockCounter % 2 == 0 {
          DmaFetch();
        } else {
          DmaStore();
        }
      }
    }

    /** A fetch slot: `DMAData = read(DMAPage << 8 | DMAAddress)` (mapper_test/testBus.cpp:144-146). */
    method DmaFetch()
      requires Valid()
      modifies this`dmaData, this`copyController, this`controllerRead, (if rom == null then {} else {rom})`curBank
      ensures Valid()
      ensures Counters() == old(Counters()).(data := old(ReadValue(SourceAddress(Counters()))))
      ensures PadState() == old(PadAfterRead(SourceAddress(Counters())))
      ensures rom != null ==> rom.curBank == old(BankAfterRead(SourceAddress(Counters())))
    {
      dmaData := Read(dmaPage * 0x100 + dmaAddress);
    }

    /** A store slot: the fetched byte goes to `OAMDATA[DMAAddress]`, the offset advances, and
        the transfer ends when it wraps to 0 (mapper_test/testBus.cpp:147-155). */
    method DmaStore()
      requires Valid()
      modifies this`dmaAddress, this`dmaTransfer, this`dmaCanStart, ppu.oam
      ensures Valid()
      ensures var next := (old(dmaAddress) + 1) % 0x100;
              Counters() == old(Counters()).(address := next, transfer := if next == 0 then false else old(dmaTransfer),
                                             canStart := if next == 0 then false else old(dmaCanStart))
      ensures ppu.oam[..] == old(ppu.oam[..])[old(dmaAddress) := dmaData]
    {
      ppu.oam[dmaAddress] := dmaData;
      dmaAddress := (dmaAddress + 1) % 0x100;
      if dmaAddress == 0x00 {
        dmaTransfer := false;
        dmaCanStart := false;
      }
    }

    /** The processor-or-DMA slot of `clock()` (mapper_test/testBus.cpp:131-163). */
    method Arbitrate()
      requires Valid()
      modifies this`cpuClockCounter, this`dmaCanStart, this`dmaData, this`dmaAddress, this`dmaTransfer,
               this`copyController, this`controllerRead, (if rom == null then {} else {rom})`curBank,
               ppu.oam, cpu`instructions
      ensures Valid()
      ensures Counters().(clockCounter := clockCounter + 1)
              == ArbiterStep(old(Counters()), old(ReadValue(SourceAddress(Counters()))))
      ensures ppu.oam[..] == OamAfter(old(Counters()), old(ppu.oam[..]))
      ensures cpu.instructions == old(cpu.instructions) + (if CpuSlot(old(Counters())) && !old(dmaTransfer) then 1 else 0)
      ensures !ReadSlot(old(Counters())) ==> PadState() == old(PadState())
      ensures rom != null && !ReadSlot(old(Counters())) ==> rom.curBank == old(rom.curBank)
    {
      if clockCounter % 3 == 0 {
        if dmaTransfer {
          DmaStep();
        } else {
          cpu.CycleExecute();
          cpuClockCounter := cpuClockCounter + 1;
        }
      }
    }

    /** `clock()` (mapper_test/testBus.cpp:126-173); `raisesNmi` is whether this video-unit
        step raises its NMI flag. */
    method Clock(raisesNmi: bool)
      requires Valid()
      modifies this, ppu`clocks, ppu`nmi, ppu.oam, cpu`instructions, cpu`nmis,
               (if rom == null then {} else {rom})`curBank
      ensures Valid() && rom == old(rom) && controller1 == old(controller1)
      ensures Counters() == ArbiterStep(old(Counters()), old(ReadValue(SourceAddress(Counters()))))
      ensures ppu.oam[..] == OamAfter(old(Counters()), old(ppu.oam[..]))
      ensures ppu.clocks == old(ppu.clocks) + 1
      ensures cpu.instructions == old(cpu.instructions) + (if CpuSlot(old(Counters())) && !old(dmaTransfer) then 1 else 0)
      ensures !ppu.nmi && cpu.nmis == old(cpu.nmis) + (if old(ppu.nmi) || raisesNmi then 1 else 0)
      ensures !ReadSlot(old(Counters())) ==> PadState() == old(PadState())
      ensures rom != null && !ReadSlot(old(Counters())) ==> rom.curBank == old(rom.curBank)
    {
      ghost var fetched := ReadValue(SourceAddress(Counters()));
      ppu.Clock(raisesNmi);
      assert fetched == ReadValue(SourceAddress(Counters()));
      Arbitrate();
      if ppu.nmi {
        ppu.nmi := false;
        cpu.NmiInterrupt();
      }
      clockCounter := clockCounter + 1;
    }

    /** `reset()` (mapper_test/testBus.cpp:113-124): collaborators reset, counters and DMA
        registers cleared; memories and the controller port are kept. */
    method Reset()
      requires Valid()
      modifies this, cpu`resets, apu, ppu`resets
      ensures Valid() && rom == old(rom)
      ensures Counters() == Arbiter(0, 0, false, false, 0, 0, 0)
      ensures PadState() == old(PadState()) && controller1 == old(controller1)
      ensures apu.State() == ResetState(old(apu.State()))
      ensures cpu.resets == old(cpu.resets) + 1 && ppu.resets == old(ppu.resets) + 1
    {
      cpu.Reset();
      apu.Reset();
      ppu.Reset();
      clockCounter := 0;
      cpuClockCounter := 0;
      dmaTransfer := false;
      dmaCanStart := false;
      dmaPage := 0x00;
      dmaAddress := 0x00;
      dmaData := 0x00;
    }

    /** `connectROM(rom)` (mapper_test/testBus.cpp:175-179); a cartridge whose dispatch
        pointers are set. */
    method ConnectRom(r: NesRom)
      requires Valid() && r.Valid() && r.dispatch.Some?
      modifies this`rom, ppu`cartridge
      ensures Valid() && rom == r && ppu.cartridge == r
    {
      ppu.ConnectRom(r);
      rom := r;
    }
  }
}
