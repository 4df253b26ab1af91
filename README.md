# NES sound unit, test bus and cartridge mappers in Dafny

This project models three parts of an NES emulator:

- **The sound unit (APU).** Register writes at $4000-$400F go to two pulse channels, the triangle and the noise channel. A status read at $4015 reports which length counters are running. The frame sequencer fires the envelope and length units at ticks 7457, 14913, 22371 and 29828, and the sweep units only at 14913 and 29828. There is a power-on reset. The integer side of sample generation is covered too: the silence fast path, the duty step modulo 8, the ramp step modulo 32, the noise-period lookup and the 15-bit noise shift register with its zero guard.
- **The test bus.** `Bus::write` and `Bus::read` decode addresses. That covers the 2 KiB RAM mirror, the video registers, the sound unit, the OAM DMA trigger at $4014, the serial controller port at $4016, the cartridge and a fallback RAM. `Bus::clock` interleaves the video unit, the processor and the 256-byte OAM DMA copy, and delivers the NMI. `Bus::reset` and `Bus::connectROM` are the remaining entry points.
- **The cartridge.** This part covers the iNES header check and mapper selection from `flags6`. NROM reads are modelled both mirrored and unmirrored. UNROM reads come from a switchable bank and a fixed last bank, and a write switches the bank. The PRG image is cut into 16 KiB banks. The loader works on a byte sequence instead of a file.

Modules:

- `Word`: byte and word types.
- `ApuTables`: lookup tables.
- `ApuUnits`: envelope, length counter, sweep and noise shift register.
- `ApuModel`: the sound unit's state, with the register, reset and sequencer operations as functions.
- `ApuSynthesis`: the sample loop as a function on that state.
- `ApuDevice`: class `Apu`, whose methods update fields and are specified by those functions.
- `Cartridge`: class `NesRom`.
- `SystemBus`: the classes `Cpu`, `Ppu` and `Bus`, with the address decode, the controller port and the DMA arbiter as values.

Some behaviour is modelled as the code has it, not as a reader of the hardware might expect:

- `reset()` leaves the frame-sequencer counter alone.
- `Bus::clock` never clocks the sound unit.
- `detect_mapper` re-points the dispatch to NROM even when it then rejects the mapper.
- The `mirrored` flag of an earlier NROM-128 load survives later loads (`NromStaleMirror`).
- The bus calls `apu->write_register`/`read_register`, while `APU.h:16-17` declares `writeRegister`/`readRegister`. Both are taken to be the same entry points.

## Model

| member | source | states |
|---|---|---|
| ApuTables.LengthLoad | APU.cpp:18-21 | every length-table entry lies in 2..254 |
| ApuTables.NoisePeriod | APU.cpp:34-37 | every noise period lies in 4..4068 |
| ApuTables.DutyBit | APU.cpp:9-14 | a duty bit is 0 or 1; the 75% waveform is the complement of the 25% one |
| ApuTables.TriangleLevel | APU.cpp:25-30 | the ramp climbs 0..15 over positions 0-15 and descends 15..0 over 16-31 |
| ApuUnits.EnvelopeControlWritten | APU.cpp:99-109 | a control write sets loop from bit 5, constant from bit 4 and the period from bits 0-3; counter, volume and start are kept; volumes stay in range |
| ApuUnits.ControlVolume | APU.cpp:104-108 | the channel volume becomes bits 0-3 when bit 4 (constant volume) is set and 15 when it is clear |
| ApuUnits.ClockEnvelope | APU.cpp:446-464 | a pending start clears the flag and sets volume 15 and the counter to the period; without a start, constant mode or a counter already at 0 leaves the envelope unchanged; a counter above 1 only counts down; a counter at 1 reloads the period and the volume drops by one, or wraps from 0 to 15 when looping and stays 0 otherwise; the volume stays in 0..15 |
| ApuUnits.LengthTick | APU.cpp:467-472 | a length counter never increases, and drops by exactly one iff it is unhalted and positive |
| ApuUnits.LengthExpires | APU.cpp:467-472 | a channel is disabled exactly when its length counter goes from positive to zero |
| ApuUnits.SweepWritten | APU.cpp:111-118 | a sweep write sets enable from bit 7, the period from bits 4-6, negate from bit 3 and the shift from bits 0-2, then requests a reload |
| ApuUnits.ShiftRight | APU.cpp:566 | `timer >> shift` never exceeds the timer, is the timer for shift 0 and at most half of it otherwise |
| ApuUnits.SweepTarget | APU.cpp:566-571 | Pulse 1 with negate targets `timer - (timer>>shift) - 1`, which cannot underflow under the `timer >= 8 && shift > 0` gate; in every other case the target is `timer + (timer>>shift)` |
| ApuUnits.Feedback | APU.cpp:332-335 | the feedback is a single bit |
| ApuUnits.FeedbackTaps | APU.cpp:332-335 | the feedback is bit 0 XOR bit 6 in short mode and bit 0 XOR bit 1 otherwise |
| ApuUnits.LfsrStep | APU.cpp:332-338 | a register step stays below 2^15, and a nonzero register stays nonzero |
| ApuUnits.LfsrStepBits | APU.cpp:337-338 | a step keeps bits 1-14 as the new bits 0-13 and puts the feedback in bit 14 |
| ApuUnits.LfsrUnstepUndoesStep | APU.cpp:332-338 | a step is injective on 15-bit values: the inverse function recovers the register |
| ApuUnits.LfsrStepUndoesUnstep | APU.cpp:332-338 | every 15-bit value is the step of some register, so the step is a bijection |
| ApuModel.TimerLowWritten | APU.cpp:120-123 | a timer-low write replaces bits 0-7 only, keeps bits 8-10 and leaves the timer at most 0x7FF |
| ApuModel.TimerHighWritten | APU.cpp:125-127 | a timer-high write replaces bits 8-10 only, keeps bits 0-7 and leaves the timer at most 0x7FF |
| ApuModel.PulseWritten | APU.cpp:99-173 | per pulse register: duty and envelope, sweep, timer low, or timer high plus length; $4003/$4007 set duty position 0, enabled and envelope start, and load the length only if the channel was already enabled |
| ApuModel.ChannelAt | APU.cpp:97-216 | which addresses reach which channel; $4009, $400D and the rest reach none |
| ApuModel.Written | APU.cpp:92-237 | only the addressed channel changes; for each register the whole new channel record is given: $4008 sets the control byte, the 7-bit reload value and enable; $400A and $400B set the timer bits; $400B also loads the length from the table, requests a linear reload and resets the ramp position; $400C sets the envelope, halt flag and volume; $400E sets mode and period; $400F loads the length, restarts the envelope and enables; unknown addresses change nothing; the sequencer counter and the invariant (volumes 0..15, timers at most 0x7FF) are kept |
| ApuModel.ReadStatus | APU.cpp:239-258 | at $4015, bit k is set iff channel k's length counter is nonzero, with bits 4-7 clear; every other address reads 0 |
| ApuModel.ResetState | APU.cpp:601-689 | after reset the status read is 0, the noise register is 1, no channel is enabled, the timers are 0 and the invariant holds; the sequencer counter is kept |
| ApuModel.PulseEnvelopeAndLengthClocked | APU.cpp:446-504 | the envelope is clocked; a constant-volume channel keeps its volume; the length counter ticks; the channel is disabled when it expires; nothing else changes |
| ApuModel.TriangleClocked | APU.cpp:507-523 | the linear counter reloads or counts down; the reload flag is cleared and the length counter ticks only while bit 7 of $4008 is clear |
| ApuModel.NoiseEnvelopeAndLengthClocked | APU.cpp:526-552 | the same envelope and length clocking for the noise channel |
| ApuModel.EnvelopeAndLengthClocked | APU.cpp:444-553 | for every channel the length counter ticks and its enable flag clears on expiry; the invariant and the sequencer counter are kept |
| ApuModel.PulseSwept | APU.cpp:558-596 | the divider reloads or counts down and the reload flag clears; when the sweep fires, a target above 0x7FF disables the channel and keeps the timer, and any other target becomes the timer; otherwise timer and enable are kept |
| ApuModel.SweepsClocked | APU.cpp:556-598 | Pulse 1 is swept with its subtract-one negate and Pulse 2 always adds; the triangle, the noise channel and the counter are kept |
| ApuModel.Clocked | APU.cpp:426-441 | the counter stays in [0, 29828); envelope and length fire exactly at 7457, 14913, 22371 and 29828; sweeps fire only at 14913 and 29828; the counter wraps to 0 after 29828; other ticks only count |
| ApuModel.ClockedTimes | APU.cpp:426-441 | repeated clocking keeps the invariant |
| ApuModel.NextQuarterFrame | APU.cpp:429-438 | the first firing point above a counter, with no firing point in between |
| ApuModel.QuietClocks | APU.cpp:426-441 | clocks that stay short of the next firing point only advance the counter |
| ApuModel.ToNextQuarterFrame | APU.cpp:426-441 | reaching the next firing point from any counter is one firing clock after the quiet ones |
| ApuModel.FramePeriodSequence | APU.cpp:426-441 | one period from counter 0 fires exactly envelope/length; envelope/length + sweep; envelope/length; envelope/length + sweep, then returns the counter to 0 |
| ApuModel.FirstSegment | APU.cpp:429-430 | clocks 1-7457 from counter 0 fire only the first envelope/length clock |
| ApuModel.SecondSegment | APU.cpp:431-433 | the next 7456 clocks fire only envelope/length plus sweep at 14913 |
| ApuModel.ThirdSegment | APU.cpp:434-435 | the next 7458 clocks fire only envelope/length at 22371 |
| ApuModel.FourthSegment | APU.cpp:436-439 | the last 7457 clocks fire envelope/length plus sweep and wrap the counter to 0 |
| ApuSynthesis.Silent | APU.cpp:262-271 | the early-exit test: when it holds, an enabled pulse channel has timer 0, the triangle and noise steps change nothing and their levels are 0 |
| ApuSynthesis.Prepared | APU.cpp:277-284 | before the loop the noise timer is the table entry for $400E bits 0-3 and a zero shift register becomes 1; nothing else changes |
| ApuSynthesis.SampleStep | APU.cpp:287-342 | one sample changes only waveform positions and the shift register, keeps them in range and keeps the register nonzero |
| ApuSynthesis.PulseStepped | APU.cpp:288-293 | an enabled pulse channel advances its duty position mod 8 on a run-out; nothing else changes, and without both the channel is unchanged (Pulse 2 at 302-307 is the same) |
| ApuSynthesis.PulseOutput | APU.cpp:295-296 | the level is the volume or 0: 0 when disabled, otherwise the volume exactly when the duty bit of `$4000 >> 6` at the position is set (Pulse 2 at 309-310) |
| ApuSynthesis.TriangleStepped | APU.cpp:313-322 | the ramp position advances mod 32 on a run-out only while all four triangle gates pass; otherwise the channel is unchanged |
| ApuSynthesis.TriangleOutput | APU.cpp:324 | the level is the ramp value at the position while audible and 0 otherwise, always in 0..15 |
| ApuSynthesis.NoiseStepped | APU.cpp:326-339 | the shift register takes one step on a run-out only while all three noise gates pass; otherwise the channel is unchanged; a nonzero register stays nonzero |
| ApuSynthesis.NoiseOutput | APU.cpp:342 | the level is the volume when audible and bit 0 of the register is clear, and 0 otherwise |
| ApuSynthesis.Mix | APU.cpp:287-342 | a disabled pulse channel, a gated-off triangle or a gated-off noise channel contributes 0; an enabled pulse channel contributes its volume exactly when its duty bit is set; otherwise the levels are the ramp value and the volume while bit 0 is clear; every level is in 0..15 |
| ApuSynthesis.Run | APU.cpp:286-421 | the loop changes no control state, keeps duty positions below 8 and the ramp position below 32, and keeps the shift register nonzero |
| ApuSynthesis.Outputs | APU.cpp:286-421 | the loop produces exactly n samples, each with levels in 0..15 |
| ApuSynthesis.Generated | APU.cpp:261-422 | when every channel fails its gate, exactly `length` quiet samples and no state change; otherwise the noise period is the table entry, the register is nonzero and only positions change |
| ApuSynthesis.OutputAt | APU.cpp:286-421 | sample k is the mix of the state after k + 1 steps |
| ApuSynthesis.Crossings | APU.cpp:290-292 | no more accumulator run-outs than samples |
| ApuSynthesis.LfsrSteps | APU.cpp:332-338 | repeated steps keep a nonzero register nonzero and a 15-bit register 15-bit |
| ApuSynthesis.RunPulse1Position | APU.cpp:288-293 | Pulse 1's duty position after n samples is the old position plus its run-outs, mod 8, when enabled, and unchanged otherwise |
| ApuSynthesis.RunPulse2Position | APU.cpp:302-307 | the same for Pulse 2 |
| ApuSynthesis.RunTrianglePosition | APU.cpp:315-322 | the ramp position advances by the triangle's run-outs mod 32 while audible, and is unchanged otherwise |
| ApuSynthesis.RunNoiseRegister | APU.cpp:328-339 | the shift register after n samples is the register stepped once per noise run-out while audible, and unchanged otherwise |
| ApuSynthesis.RunNoiseChannel | APU.cpp:327-342 | the noise channel evolves on its own, whatever the other channels do |
| ApuSynthesis.NoiseRunRegister | APU.cpp:328-339 | mode, period index and gate are kept through the loop; the register is stepped once per run-out |
| ApuDevice.WritePulseRegister | APU.cpp:99-173 | the field-by-field pulse write computes `PulseWritten` |
| ApuDevice.TickEnvelope | APU.cpp:446-461 | the field-by-field envelope clock computes `ClockEnvelope` |
| ApuDevice.TickPulse | APU.cpp:446-504 | the pulse envelope and length clock computes its specification |
| ApuDevice.TickTriangle | APU.cpp:506-523 | the triangle counters' clock computes its specification |
| ApuDevice.TickNoise | APU.cpp:526-552 | the noise envelope and length clock computes its specification |
| ApuDevice.SweepPulse | APU.cpp:558-596 | the sweep clock computes `PulseSwept` |
| ApuDevice.PulseSample | APU.cpp:287-310 | one pulse channel's step and level for a sample |
| ApuDevice.TriangleSample | APU.cpp:313-324 | the triangle's step and level for a sample |
| ApuDevice.NoiseSample | APU.cpp:327-342 | the noise channel's step and level for a sample |
| ApuDevice.FillQuiet | APU.cpp:267-269 | the first `length` stream entries become quiet and the rest are untouched |
| ApuDevice.Apu.constructor | APU.cpp:41-84 | every channel field is zero and the invariant holds |
| ApuDevice.Apu.WriteRegister | APU.cpp:92-237 | the new state is `Written` of the old one and the invariant is kept |
| ApuDevice.Apu.ReadRegister | APU.cpp:239-258 | returns the status mask and changes nothing |
| ApuDevice.Apu.ClockEnvelopeAndLength | APU.cpp:444-553 | the new state is `EnvelopeAndLengthClocked` of the old one |
| ApuDevice.Apu.ClockSweepUnits | APU.cpp:556-598 | the new state is `SweepsClocked` of the old one |
| ApuDevice.Apu.Clock | APU.cpp:426-441 | the new state is `Clocked` of the old one and the invariant is kept |
| ApuDevice.Apu.Reset | APU.cpp:601-689 | the new state is `ResetState` of the old one |
| ApuDevice.Apu.SampleOnce | APU.cpp:287-342 | one loop pass computes `SampleStep` and returns the mix of the new state |
| ApuDevice.Apu.GenerateSamples | APU.cpp:261-422 | the new state and the first `length` stream entries are those of `Generated`; the rest of the stream is untouched; the invariant is kept |
| ApuDevice.Apu.SynthesizeFrom | APU.cpp:286-421 | the loop leaves the state `Run` and the stream's first n entries `Outputs` of the prepared state |
| Cartridge.IsValidHeader | mapper_test/testROM.cpp:164-170 | the header is valid iff its four magic bytes are 'N', 'E', 'S', 0x1A |
| Cartridge.Bytes | mapper_test/testROM.cpp:86-91 | a buffer read gives `len` bytes, the file's bytes where it has them and zero past its end |
| Cartridge.ParseHeader | mapper_test/testROM.cpp:27-28 | the parsed header is well formed and valid iff the file starts with the magic |
| Cartridge.HeaderBytes | mapper_test/testROM.h:14-24 | the 16-byte layout of the header: bytes 0-3 the magic, 4 the PRG size, 5 the CHR size, 6 and 7 the flags, 8 the PRG-RAM size, 9 and 10 the flags and 11-15 the padding |
| Cartridge.ParseHeaderBytes | mapper_test/testROM.cpp:27-28 | parsing a header's own bytes gives that header back, whatever follows |
| Cartridge.HeaderBytesOfParse | mapper_test/testROM.cpp:27-28 | the parsed header of a file of at least 16 bytes is its first 16 bytes |
| Cartridge.Body | mapper_test/testROM.cpp:27-28 | the data after the header is the rest of the file |
| Cartridge.SelectMapper | mapper_test/testROM.cpp:70-143 | `flags6` of 0x00/0x01 selects NROM and 0x20/0x21 UNROM; every other value fails |
| Cartridge.SplitBanks | mapper_test/testROM.cpp:108-120 | byte j of bank i is PRG byte `i*16384 + j`, and there are exactly `prgRomSize` banks of 16 KiB |
| Cartridge.NromOffset | mapper_test/testROM.cpp:192-199 | mirrored uses `address & 0x3FFF`, otherwise `address - 0x8000` with 16-bit wrap |
| Cartridge.NromRead | mapper_test/testROM.cpp:190-207 | a missing PRG buffer or an offset beyond the image reads 0; otherwise the image byte at the offset |
| Cartridge.NromMirrorsOneBank | mapper_test/testROM.cpp:190-207 | NROM-128 shows its one bank at both $8000 and $C000 |
| Cartridge.NromMapsTwoBanks | mapper_test/testROM.cpp:190-207 | unmirrored NROM-256 maps its 32 KiB image linearly onto $8000-$FFFF |
| Cartridge.NromStaleMirror | mapper_test/testROM.cpp:84 | a `mirrored` flag left from an earlier load hides the second bank of a 32 KiB image |
| Cartridge.UnromRead | mapper_test/testROM.cpp:210-229 | $8000-$BFFF reads the selected bank and $C000-$FFFF the last bank; other addresses or no banks read 0; an out-of-range selection is first reset to 0 |
| Cartridge.SwitchedBank | mapper_test/testROM.cpp:180-187 | the selection becomes n iff n names an existing bank, and is otherwise unchanged |
| Cartridge.UnromWritten | mapper_test/testROM.cpp:235-240 | a write at $8000 or above switches to bank `value & 7`; lower writes change nothing |
| Cartridge.UnromReadsImage | mapper_test/testROM.cpp:210-229 | through the cut banks, the switchable window shows the selected 16 KiB of the image and the fixed window its last 16 KiB |
| Cartridge.UnromSwitchThenRead | mapper_test/testROM.cpp:235-240 | writing an existing bank number and then reading the switchable window reads that bank of the image |
| Cartridge.NesRom.constructor | mapper_test/testROM.h:36-37 | a new cartridge is NROM at bank 0 with no buffers and null dispatch |
| Cartridge.NesRom.PrgRead | mapper_test/testROM.cpp:151-153 | a PRG read dispatched to NROM never changes the bank |
| Cartridge.NesRom.SwitchBank | mapper_test/testROM.cpp:180-187 | the bank becomes `SwitchedBank` of the old one |
| Cartridge.NesRom.ReadPrgUnrom | mapper_test/testROM.cpp:210-229 | the value and the new bank are those of `UnromRead` |
| Cartridge.NesRom.WritePrgUnrom | mapper_test/testROM.cpp:235-240 | the bank becomes `UnromWritten` of the old one |
| Cartridge.NesRom.ReadMemoryPrg | mapper_test/testROM.cpp:151-153 | the read goes through the selected mapper |
| Cartridge.NesRom.WriteMemoryPrg | mapper_test/testROM.cpp:156-158 | an NROM write changes nothing and an UNROM write may switch banks |
| Cartridge.NesRom.ReadMemoryChr | mapper_test/testROM.cpp:160-162 | a CHR read returns the CHR byte at the address |
| Cartridge.NesRom.DetectMapper | mapper_test/testROM.cpp:61-147 | an invalid header fails with no change; otherwise dispatch points to UNROM for 0x20/0x21 and to NROM for anything else; NROM reads PRG then CHR, sets `mirrored` for one bank and succeeds; UNROM fills the banks from the PRG data and succeeds iff there is a bank and the old selection is in range, then selecting bank 0; other mappers fail with the rest unchanged |
| Cartridge.NesRom.Load | mapper_test/testROM.cpp:19-58 | a missing file or bad magic fails with no change; otherwise the header is stored and the PRG buffer dropped; `flags6` 0x00/0x01 selects NROM, which keeps the PRG image and then the CHR data that follows it, sets `mirrored` for one bank, keeps the bank and succeeds; 0x20/0x21 selects UNROM, which cuts the banks, keeps `mirrored` and CHR, and succeeds iff there is a bank and the old selection is in range, then selecting bank 0; any other value fails with the mapper type, `mirrored`, CHR and the bank unchanged and the dispatch re-pointed to NROM |
| SystemBus.Cpu.Reset | mapper_test/testBus.cpp:114 | the processor is reset once |
| SystemBus.Cpu.CycleExecute | mapper_test/testBus.cpp:159-162 | the processor is stepped once |
| SystemBus.Cpu.NmiInterrupt | mapper_test/testBus.cpp:169 | one NMI is delivered |
| SystemBus.Ppu.Clock | mapper_test/testBus.cpp:128 | the video unit is clocked once; the NMI flag is raised when this dot asks for it |
| SystemBus.Ppu.Reset | mapper_test/testBus.cpp:116 | the video unit is reset once |
| SystemBus.Ppu.ConnectRom | mapper_test/testBus.cpp:177 | the video unit's cartridge link becomes the given cartridge |
| SystemBus.Ppu.CpuWrite | mapper_test/testBus.cpp:25-26 | only the addressed video register changes |
| SystemBus.Decode | mapper_test/testBus.cpp:19-59 | each target's address range, for write and read alike: RAM ≤ $1FFF, video $2000-$3FFF, sound unit $4000-$4013/$4015/$4017, DMA $4014, controller $4016, cartridge at $8000 and above when one is connected, fallback for the rest from $4018 |
| SystemBus.PadRead | mapper_test/testBus.cpp:90-99 | a read returns bit 0 of the shift copy and shifts it right, bumping the count; after eight bits it first reloads from `controller1` |
| SystemBus.PadReads | mapper_test/testBus.cpp:90-99 | k reads return k bits |
| SystemBus.PadReadsCopy | mapper_test/testBus.cpp:90-99 | reads with no reload pending return the copy's bits from the lowest up and count them |
| SystemBus.ControllerSerialRead | mapper_test/testBus.cpp:90-99 | once a reload is pending, eight reads return the eight bits of `controller1` in order and leave another reload pending |
| SystemBus.SourceAddress | mapper_test/testBus.cpp:143 | the fetch address is `DMAPage << 8 | DMAAddress` |
| SystemBus.ArbiterStep | mapper_test/testBus.cpp:131-172 | one tick increments `clockCounter`, keeps the page, and increments `cpuClockCounter` exactly in a slot with no transfer |
| SystemBus.ArbiterStepFacts | mapper_test/testBus.cpp:131-172 | each tick increments `clockCounter`; the processor steps only in a slot (`clockCounter % 3 == 0`) with no transfer running, and `cpuClockCounter` is otherwise unchanged; `DMACanStart` becomes true only on an odd slot; even slots fetch and odd slots store and advance; the transfer ends exactly when `DMAAddress` wraps to 0 |
| SystemBus.OamAfter | mapper_test/testBus.cpp:147 | a store slot writes the fetched byte at `DMAAddress` and changes nothing else in OAM |
| SystemBus.ArbiterRun | mapper_test/testBus.cpp:126-173 | repeated ticks keep OAM 256 bytes long |
| SystemBus.ByteTransfer | mapper_test/testBus.cpp:134-157 | six ticks from an even slot move one source byte to OAM and advance the offset |
| SystemBus.DmaCopiesPage | mapper_test/testBus.cpp:134-157 | after 6k ticks the first k OAM bytes hold the first k source bytes and the rest are untouched |
| SystemBus.DmaTransfersPage | mapper_test/testBus.cpp:134-157 | after 1536 ticks OAM equals the source page, both flags are clear, the offset is 0 and the processor was never stepped |
| SystemBus.DmaStarts | mapper_test/testBus.cpp:135-139 | from the odd slot itself, three ticks arm the transfer, leave OAM and the offset alone and reach a read slot |
| SystemBus.DmaWaits | mapper_test/testBus.cpp:135-139 | before the odd slot, a triggered transfer only counts ticks and leaves OAM alone |
| SystemBus.DmaArms | mapper_test/testBus.cpp:135-139 | from a tick short of the odd slot, waiting and arming together only count ticks and set `DMACanStart` |
| SystemBus.DmaAfterWait | mapper_test/testBus.cpp:134-157 | after the wait, three arming ticks and 1536 copying ticks, OAM is the page, both flags are clear and the processor was never stepped |
| SystemBus.DmaFromTrigger | mapper_test/testBus.cpp:37-42 | from the $4014 write at any tick count c, after `(9 - c % 6) % 6 + 3 + 1536` ticks OAM is the source page, both flags are clear and the processor was never stepped |
| SystemBus.Bus.constructor | mapper_test/testBus.cpp:6-10 | a new bus has zeroed counters and memories and no cartridge |
| SystemBus.Bus.Write | mapper_test/testBus.cpp:17-60 | RAM writes land at `address & 0x7FF`, and a later read of any mirror returns the byte; video writes reach register `address & 7`; sound writes reach `Written`; $4014 sets the transfer and the page, zeroes the offset and touches nothing else; cartridge writes switch UNROM banks; the rest reaches the fallback RAM |
| SystemBus.Bus.Read | mapper_test/testBus.cpp:63-110 | returns the decoded byte (0 at $4014); the controller port shifts only on a $4016 read; the bank changes only on a cartridge read |
| SystemBus.Bus.DmaStep | mapper_test/testBus.cpp:134-157 | one transfer slot computes `ArbiterStep`, storing to OAM on odd slots |
| SystemBus.Bus.DmaFetch | mapper_test/testBus.cpp:142-144 | the fetch reads the source address through the bus, with its side effects |
| SystemBus.Bus.DmaStore | mapper_test/testBus.cpp:146-155 | the store writes OAM at the offset, advances it and ends the transfer on wrap |
| SystemBus.Bus.Arbitrate | mapper_test/testBus.cpp:131-163 | the slot logic computes `ArbiterStep`, and the processor is stepped only in a free slot |
| SystemBus.Bus.Clock | mapper_test/testBus.cpp:126-173 | each call clocks the video unit once, computes `ArbiterStep` on the counters and OAM, and steps the processor only in a slot without a transfer; a raised NMI is cleared and delivered exactly once |
| SystemBus.Bus.Reset | mapper_test/testBus.cpp:113-124 | the processor, the sound unit and the video unit are reset; every counter and DMA field is zero and both flags are clear |
| SystemBus.Bus.ConnectRom | mapper_test/testBus.cpp:175-179 | the cartridge is connected to the bus and to the video unit |

## Left out

- Audio output: SDL setup, the audio callback thread, the device destructor (APU.cpp:62-89) and the concurrency between the callback and register writes are not modelled.
- Floating point in `generateSamples`: the `cpu_cycles_per_sample` accumulators, the `/ 15.0f` scaling and the mixer formula are not modelled. Each sample's "accumulator ran out" test is the parameter `crossed`. The stream holds the four integer level numerators (`MixInput`) instead of a float.
- The DMC channel is not modelled, because its code is commented out and its fields are unused. `frame_step` is not modelled either: the code never uses it.
- NES.cpp is not part of this model. Bus.h, the CPU and the PPU are not part of this model. The processor is reduced to step, NMI and reset counters. The video unit is reduced to a clock count, the `nmi` flag (set through the `raisesNmi` parameter), `OAMDATA`, eight plain registers without read side effects, and its cartridge link. `cpu->connectBus` is not modelled.
- Fields the C++ constructors leave indeterminate are taken as zero: the APU's registers, including `noise_lfsr`, and the bus's RAM, counters and controller state. The bus's cartridge starts null.
- Bus counters (`clockCounter`, `cpuClockCounter`) are unbounded naturals, so their wrap-around is not modelled. `controller_read` is a byte and wraps.
- File I/O, `printHeaderInfo` and all logging are left out. `Load` takes the file's contents, None when it cannot be opened. Bytes past the end of a short file read as zero.
- `new[]`/`delete[]` and the destructors are not modelled. Buffers and banks are sequences.
- Null `readPRG`/`writePRG` pointers are the field `dispatch` being None. Cartridge.NesRom.ReadMemoryPrg and Cartridge.NesRom.WriteMemoryPrg require a set dispatch. SystemBus.Bus.ConnectRom therefore requires a cartridge whose mapper has been set up. In the source, `NES.cpp:6-8` calls `connectROM` after `load` without looking at its result, so a failed load can still be connected, and a later cartridge read then calls through a null pointer, which the model does not represent.
- Cartridge.NesRom.DetectMapper: requires that its header argument is the stored header, as in every call from `load`.
- Cartridge.NesRom.ReadMemoryChr: requires the address to be inside the CHR buffer; the source does not check.
- Cartridge.NesRom.PrgRead: only the NROM case is stated in its own contract. The UNROM case is `UnromRead`.
- SystemBus.Bus.Clock: on a fetch slot it does not state the controller port or the cartridge bank afterwards; SystemBus.Bus.DmaFetch does.
- SystemBus.DmaTransfersPage: assumes a source page whose reads have no side effects. A page holding $4016 or UNROM PRG would shift the controller or reset the bank during the copy.
- ApuDevice.Apu.GenerateSamples: requires the duty and ramp positions to be in range, which every operation keeps.
- ApuModel.ResetState: keeps the frame-sequencer counter, because `reset()` does not clear it.
- `Bus::clock` does not clock the sound unit, so the model does not either.
- A write to $4017 reaches the sound unit, where `writeRegister` ignores it.
