/** The sound unit as an object (APU.h, APU.cpp): its register fields grouped per channel,
    updated in place by the register port, the frame sequencer, reset and sample generation.
    Each method is specified by the function of `ApuModel` or `ApuSynthesis` it implements. */
module ApuDevice {
  import opened Word
  import opened ApuTables
  import opened ApuUnits
  import opened ApuModel
  import opened ApuSynthesis

  /** One pulse-register write, field by field (APU.cpp:99-134 and 136-173). */
  method WritePulseRegister(p: Pulse, reg: int, value: uint8) returns (q: Pulse)
    requires 0 <= reg < 4
    ensures q == PulseWritten(p, reg, value)
  {
    q := p;
    if reg == 0 {
      q := q.(dutyReg := value);
      q := q.(env := q.env.(loop := HasBit(value, 0x20), constant := HasBit(value, 0x10),
                            period := value % 16));
      q := q.(lengthHalt := q.env.loop);
      if q.env.constant {
        q := q.(volume := q.env.period);
      } else {
        q := q.(volume := MaxVolume);
      }
    } else if reg == 1 {
      q := q.(sweepReg := value);
      q := q.(sweep := q.sweep.(enabled := HasBit(value, 0x80), period := value / 16 % 8,
                                negate := HasBit(value, 0x08), shift := value % 8));
      q := q.(sweep := q.sweep.(reload := true));
    } else if reg == 2 {
      q := q.(timerLow := value);
      q := q.(timer := q.timer / 0x100 % 8 * 0x100 + value);
    } else {
      q := q.(lengthReg := value);
      q := q.(timer := q.timer % 0x100 + value % 8 * 0x100);
      if q.enabled {
        q := q.(lengthCounter := LengthTable[value / 8]);
      }
      q := q.(dutyPos := 0);
      q := q.(enabled := true);
      q := q.(env := q.env.(start := true));
    }
  }

  /** One envelope clock, as each channel's block in APU.cpp:446-461 does it. */
  method TickEnvelope(e: Envelope) returns (r: Envelope)
    ensures r == ClockEnvelope(e)
  {
    r := e;
    if r.start {
      r := r.(start := false);
      r := r.(volume := MaxVolume);
      r := r.(counter := r.period);
    } else if !r.constant && r.counter > 0 {
      r := r.(counter := r.counter - 1);
      if r.counter == 0 {
        if r.volume > 0 {
          r := r.(volume := r.volume - 1);
        } else if r.loop {
          r := r.(volume := MaxVolume);
        }
        r := r.(counter := r.period);
      }
    }
  }

  /** Envelope then length counter of a pulse channel (APU.cpp:446-472, 475-504). */
  method TickPulse(p: Pulse) returns (q: Pulse)
    ensures q == PulseEnvelopeAndLengthClocked(p)
  {
    q := p;
    var env := TickEnvelope(q.env);
    q := q.(env := env);
    if !q.env.constant {
      q := q.(volume := q.env.volume);
    }
    if !q.lengthHalt && q.lengthCounter > 0 {
      q := q.(lengthCounter := q.lengthCounter - 1);
      if q.lengthCounter == 0 {
        q := q.(enabled := false);
      }
    }
  }

  /** The triangle's linear and length counters (APU.cpp:506-523). */
  method TickTriangle(t: Triangle) returns (q: Triangle)
    ensures q == TriangleClocked(t)
  {
    q := t;
    if q.linearReload {
      q := q.(linearCounter := q.linearReloadValue);
    } else if q.linearCounter > 0 {
      q := q.(linearCounter := q.linearCounter - 1);
    }
    if !HasBit(q.linearControl, 0x80) {
      q := q.(linearReload := false);
    }
    if !HasBit(q.linearControl, 0x80) && q.lengthCounter > 0 {
      q := q.(lengthCounter := q.lengthCounter - 1);
      if q.lengthCounter == 0 {
        q := q.(enabled := false);
      }
    }
  }

  /** Envelope then length counter of the noise channel (APU.cpp:526-552). */
  method TickNoise(n: Noise) returns (q: Noise)
    ensures q == NoiseEnvelopeAndLengthClocked(n)
  {
    q := n;
    var env := TickEnvelope(q.env);
    q := q.(env := env);
    if !q.env.constant {
      q := q.(volume := q.env.volume);
    }
    if !q.lengthHalt && q.lengthCounter > 0 {
      q := q.(lengthCounter := q.lengthCounter - 1);
      if q.lengthCounter == 0 {
        q := q.(enabled := false);
      }
    }
  }

  /** One sweep clock of a pulse channel (APU.cpp:558-577, 581-596). */
  method SweepPulse(p: Pulse, pulse1: bool) returns (q: Pulse)
    requires p.sweep.shift <= 7
    ensures q == PulseSwept(p, pulse1)
  {
    q := p;
    if q.sweep.reload {
      q := q.(sweep := q.sweep.(counter := q.sweep.period));
      q := q.(sweep := q.sweep.(reload := false));
    } else if q.sweep.counter > 0 {
      q := q.(sweep := q.sweep.(counter := q.sweep.counter - 1));
    } else {
      q := q.(sweep := q.sweep.(counter := q.sweep.period));
      if q.sweep.enabled && q.sweep.shift > 0 && q.timer >= 8 {
        var change := ShiftRight(q.timer, q.sweep.shift);
        var target: uint16;
        if pulse1 && q.sweep.negate {
          target := (q.timer - change - 1) % 0x1_0000;
        } else {
          target := (q.timer + change) % 0x1_0000;
        }
        if target <= MaxTimer {
          q := q.(timer := target);
        } else {
          q := q.(enabled := false);
        }
      }
    }
  }

  /** A pulse channel's part of one sample (APU.cpp:287-297, 300-310). */
  method PulseSample(p: Pulse, tick: bool) returns (q: Pulse, level: int)
    requires p.dutyPos < 8
    ensures q == PulseStepped(p, tick) && level == PulseOutput(q)
  {
    q := p;
    level := 0;
    if q.enabled {
      if tick {
        q := q.(dutyPos := (q.dutyPos + 1) % 8);
      }
      if DutyWaveforms[q.dutyReg / 64][q.dutyPos] == 1 {
        level := q.volume;
      }
    }
  }

  /** The triangle's part of one sample (APU.cpp:313-324). */
  method TriangleSample(t: Triangle, tick: bool) returns (q: Triangle, level: int)
    requires t.wavePos < 32
    ensures q == TriangleStepped(t, tick) && level == TriangleOutput(q)
  {
    q := t;
    level := 0;
    if q.enabled && q.timer > 0 && q.lengthCounter > 0 && q.linearCounter > 0 {
      if tick {
        q := q.(wavePos := (q.wavePos + 1) % 32);
      }
      level := TriangleWave[q.wavePos];
    }
  }

  /** The noise channel's part of one sample (APU.cpp:327-342). */
  method NoiseSample(n: Noise, tick: bool) returns (q: Noise, level: int)
    ensures q == NoiseStepped(n, tick) && level == NoiseOutput(q)
  {
    q := n;
    level := 0;
    if q.enabled && q.timer > 0 && q.lengthCounter > 0 {
      if tick {
        var mode := HasBit(q.modePeriod, 0x80);
        var bit0 := q.lfsr % 2;
        var tap := if mode then q.lfsr / 0x40 % 2 else q.lfsr / 2 % 2;
        var feedback := (bit0 + tap) % 2;
        var shifted := q.lfsr / 2;
        q := q.(lfsr := if shifted >= 0x4000 then shifted else shifted + feedback * 0x4000);
      }
      if q.lfsr % 2 == 0 {
        level := q.volume;
      }
    }
  }

  /** The early-exit loop of `generateSamples` (APU.cpp:267-269). */
  method FillQuiet(stream: array<MixInput>, length: int)
    requires length <= stream.Length
    modifies stream
    ensures stream[..if length < 0 then 0 else length] == seq(if length < 0 then 0 else length, _ => Quiet)
    ensures forall k :: (if length < 0 then 0 else length) <= k < stream.Length ==> stream[k] == old(stream[k])
  {
    var i := 0;
    while i < length
      invariant 0 <= i <= if length < 0 then 0 else length
      invariant stream[..i] == seq(i, _ => Quiet)
      invariant forall k :: i <= k < stream.Length ==> stream[k] == old(stream[k])
    {
      stream[i] := Quiet;
      i := i + 1;
    }
  }

  class Apu {
    var pulse1: Pulse
    var pulse2: Pulse
    var triangle: Triangle
    var noise: Noise
    var frameSequencerCounter: int

    /** The fields as one value. */
    function State(): ApuState
      reads this
    {
      ApuState(pulse1, pulse2, triangle, noise, frameSequencerCounter)
    }

    /** The invariant the operations below keep. */
    ghost predicate Valid()
      reads this
    {
      ApuModel.Valid(State())
    }

    /** `APU()`: every register field zero, the shift register included (given its first
        value 1 by the first `generateSamples` or `reset`), the sequencer counter at 0. */
    constructor ()
      ensures Valid()
      ensures State() == ApuState(ClearedPulse, ClearedPulse, ClearedTriangle,
                                  ClearedNoise.(lfsr := 0), 0)
    {
      pulse1 := ClearedPulse;
      pulse2 := ClearedPulse;
      triangle := ClearedTriangle;
      noise := ClearedNoise.(lfsr := 0);
      frameSequencerCounter := 0;
    }

    /** `writeRegister` (APU.cpp:92-237). */
    method WriteRegister(address: uint16, value: uint8)
      modifies this
      ensures State() == Written(old(State()), address, value)
      ensures old(Valid()) ==> Valid()
    {
      if 0x4000 <= address <= 0x4003 {
        pulse1 := WritePulseRegister(pulse1, address - 0x4000, value);
      } else if 0x4004 <= address <= 0x4007 {
        pulse2 := WritePulseRegister(pulse2, address - 0x4004, value);
      } else if address == 0x4008 {
        triangle := triangle.(linearControl := value);
        triangle := triangle.(linearReloadValue := value % 0x80);
        triangle := triangle.(enabled := true);
      } else if address == 0x400A {
        triangle := triangle.(timerLow := value);
        triangle := triangle.(timer := triangle.timer / 0x100 % 8 * 0x100 + value);
      } else if address == 0x400B {
        triangle := triangle.(lengthLoad := value);
        triangle := triangle.(timer := triangle.timer % 0x100 + value % 8 * 0x100);
        triangle := triangle.(lengthCounter := LengthTable[value / 8]);
        triangle := triangle.(linearReload := true);
        triangle := triangle.(wavePos := 0);
      } else if address == 0x400C {
        noise := noise.(volumeReg := value);
        noise := noise.(env := noise.env.(loop := HasBit(value, 0x20), constant := HasBit(value, 0x10),
                                          period := value % 16));
        noise := noise.(lengthHalt := noise.env.loop);
        if noise.env.constant {
          noise := noise.(volume := noise.env.period);
        } else {
          noise := noise.(volume := MaxVolume);
        }
      } else if address == 0x400E {
        noise := noise.(modePeriod := value);
      } else if address == 0x400F {
        noise := noise.(lengthLoad := value);
        noise := noise.(lengthCounter := LengthTable[value / 8]);
        noise := noise.(env := noise.env.(start := true));
        noise := noise.(enabled := true);
      }
    }

    /** `readRegister` (APU.cpp:239-258): reading changes nothing. */
    method ReadRegister(address: uint16) returns (r: uint8)
      ensures r == ReadStatus(State(), address)
    {
      if address == 0x4015 {
        var status := 0x00;
        if pulse1.lengthCounter > 0 { status := status + 0x01; }
        if pulse2.lengthCounter > 0 { status := status + 0x02; }
        if triangle.lengthCounter > 0 { status := status + 0x04; }
        if noise.lengthCounter > 0 { status := status + 0x08; }
        r := status;
      } else {
        r := 0x00;
      }
    }

    /** `clockEnvelopeAndLength` (APU.cpp:444-553). */
    method ClockEnvelopeAndLength()
      modifies this
      ensures State() == EnvelopeAndLengthClocked(old(State()))
    {
      pulse1 := TickPulse(pulse1);
      pulse2 := TickPulse(pulse2);
      triangle := TickTriangle(triangle);
      noise := TickNoise(noise);
    }

    /** `clockSweepUnits` (APU.cpp:556-598). */
    method ClockSweepUnits()
      requires ShiftsOk(State())
      modifies this
      ensures State() == SweepsClocked(old(State()))
    {
      pulse1 := SweepPulse(pulse1, true);
      pulse2 := SweepPulse(pulse2, false);
    }

    /** `clock` (APU.cpp:426-441): one tick of the frame sequencer. */
    method Clock()
      requires ShiftsOk(State())
      modifies this
      ensures State() == Clocked(old(State()))
      ensures old(Valid()) ==> Valid()
    {
      frameSequencerCounter := frameSequencerCounter + 1;
      if frameSequencerCounter == 7457 {
        ClockEnvelopeAndLength();
      } else if frameSequencerCounter == 14913 {
        ClockEnvelopeAndLength();
        ClockSweepUnits();
      } else if frameSequencerCounter == 22371 {
        ClockEnvelopeAndLength();
      } else if frameSequencerCounter == 29828 {
        ClockEnvelopeAndLength();
        ClockSweepUnits();
        frameSequencerCounter := 0;
      }
    }

    /** `reset` (APU.cpp:601-706). */
    method Reset()
      modifies this
      ensures State() == ResetState(old(State()))
    {
      pulse1 := ClearedPulse;
      pulse2 := ClearedPulse;
      triangle := ClearedTriangle;
      noise := ClearedNoise;
    }

    /** One pass of the sample loop: step each gated-on channel whose accumulator ran
        out on sample `i`, then read the four levels. */
    method SampleOnce(i: int, crossed: (int, Channel) -> bool) returns (m: MixInput)
      requires InRange(State())
      modifies this
      ensures State() == SampleStep(old(State()), i, crossed)
      ensures m == Mix(State())
    {
      var sample1, sample2, triangleSample, noiseSample;
      pulse1, sample1 := PulseSample(pulse1, crossed(i, Pulse1Ch));
      pulse2, sample2 := PulseSample(pulse2, crossed(i, Pulse2Ch));
      triangle, triangleSample := TriangleSample(triangle, crossed(i, TriangleCh));
      noise, noiseSample := NoiseSample(noise, crossed(i, NoiseCh));
      m := MixInput(sample1, sample2, triangleSample, noiseSample);
    }

    /** `generateSamples(stream, length)` (APU.cpp:261-422): writes the first `length`
        entries of `stream`, silence when no channel can sound. */
    method GenerateSamples(stream: array<MixInput>, length: int, crossed: (int, Channel) -> bool)
      requires length <= stream.Length
      requires InRange(State())
      modifies this, stream
      ensures var g := Generated(old(State()), crossed, if length < 0 then 0 else length);
              State() == g.0 && stream[..if length < 0 then 0 else length] == g.1
      ensures forall k :: (if length < 0 then 0 else length) <= k < stream.Length ==> stream[k] == old(stream[k])
      ensures old(Valid()) ==> Valid()
    {
      if Silent(State()) {
        FillQuiet(stream, length);
        return;
      }

      noise := noise.(timer := NoisePeriodTable[noise.modePeriod % 16]);
      if noise.lfsr == 0 {
        noise := noise.(lfsr := 1);
      }
      assert State() == Prepared(old(State()));
      SynthesizeFrom(stream, length, crossed);
    }

    /** The sample loop of `generateSamples` (APU.cpp:286-421), from the prepared state. */
    method SynthesizeFrom(stream: array<MixInput>, length: int, crossed: (int, Channel) -> bool)
      requires length <= stream.Length
      requires InRange(State())
      modifies this, stream
      ensures var n := if length < 0 then 0 else length;
              State() == Run(old(State()), crossed, n) && stream[..n] == Outputs(old(State()), crossed, n)
      ensures forall k :: (if length < 0 then 0 else length) <= k < stream.Length ==> stream[k] == old(stream[k])
    {
      ghost var start := State();
      var i := 0;
      while i < length
        invariant 0 <= i <= if length < 0 then 0 else length
        invariant State() == Run(start, crossed, i)
        invariant stream[..i] == Outputs(start, crossed, i)
        invariant forall k :: i <= k < stream.Length ==> stream[k] == old(stream[k])
      {
        var m := SampleOnce(i, crossed);
        assert State() == Run(start, crossed, i + 1);
        assert Outputs(start, crossed, i + 1) == Outputs(start, crossed, i) + [m];
        stream[i] := m;
        assert stream[..i + 1] == stream[..i] + [m];
        i := i + 1;
      }
    }
  }
}
