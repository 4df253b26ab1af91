/** The sound unit's control state as values, and two register entry points, reset and
    the frame sequencer as functions on it (APU.cpp:92-258, 426-690). Class `ApuDevice.Apu`
    holds this state in fields and is specified by these functions. */
module ApuModel {
  import opened Word
  import opened ApuTables
  import opened ApuUnits

  /** The four channels, in status-bit order. */
  datatype Channel = Pulse1Ch | Pulse2Ch | TriangleCh | NoiseCh

  /** A pulse channel: its four raw registers, 11-bit timer, duty step, volume,
      enable flag, envelope, length counter with halt flag, and sweep unit. */
  datatype Pulse = Pulse(dutyReg: uint8, sweepReg: uint8, timerLow: uint8, lengthReg: uint8,
                         timer: uint16, dutyPos: uint8, volume: uint8, enabled: bool,
                         env: Envelope, lengthCounter: uint8, lengthHalt: bool, sweep: Sweep)

  /** The triangle channel: raw registers, 11-bit timer, ramp step, linear counter
      with its reload value and reload flag, length counter and enable flag. */
  datatype Triangle = Triangle(linearControl: uint8, timerLow: uint8, lengthLoad: uint8,
                               timer: uint16, wavePos: uint8, linearCounter: uint8,
                               linearReloadValue: uint8, linearReload: bool,
                               lengthCounter: uint8, enabled: bool)

  /** The noise channel: raw registers, the timer period looked up at synthesis time,
      the 15-bit shift register, volume, envelope, length counter and enable flag. */
  datatype Noise = Noise(volumeReg: uint8, modePeriod: uint8, lengthLoad: uint8, timer: uint16,
                         lfsr: uint16, volume: uint8, env: Envelope, lengthCounter: uint8,
                         lengthHalt: bool, enabled: bool)

  /** The whole integer state; the frame counter is the C++ `int frame_sequencer_counter`. */
  datatype ApuState = ApuState(pulse1: Pulse, pulse2: Pulse, triangle: Triangle,
                               noise: Noise, frameCounter: int)

  const FramePeriod := 29828

  predicate PulseOk(p: Pulse) {
    p.timer <= MaxTimer && p.dutyPos < 8 && p.volume <= MaxVolume
    && EnvelopeOk(p.env) && SweepOk(p.sweep)
  }

  predicate TriangleOk(t: Triangle) {
    t.timer <= MaxTimer && t.wavePos < 32 && t.linearReloadValue <= 0x7F && t.linearCounter <= 0x7F
  }

  predicate NoiseOk(n: Noise) {
    n.volume <= MaxVolume && EnvelopeOk(n.env) && n.lfsr < 0x8000
  }

  /** The invariant every operation keeps: volumes in 0..15, timers at most 0x7FF,
      waveform steps in range, a 15-bit shift register and the sequencer below its period. */
  predicate Valid(s: ApuState) {
    PulseOk(s.pulse1) && PulseOk(s.pulse2) && TriangleOk(s.triangle) && NoiseOk(s.noise)
    && 0 <= s.frameCounter < FramePeriod
  }

  /** Both sweep shifts are 3-bit, as every sweep-register write leaves them. */
  predicate ShiftsOk(s: ApuState) {
    s.pulse1.sweep.shift <= 7 && s.pulse2.sweep.shift <= 7
  }

  // ---------------------------------------------------------- register writes

  /** Timer-low write: `(timer & 0x0700) | value` replaces bits 0-7 and keeps bits 8-10. */
  function TimerLowWritten(timer: uint16, value: uint8): (r: uint16)
    ensures r <= MaxTimer
    ensures r % 0x100 == value && r / 0x100 == timer / 0x100 % 8
  {
    timer / 0x100 % 8 * 0x100 + value
  }

  /** Timer-high write: `(timer & 0x00FF) | ((value & 0x07) << 8)` replaces bits 8-10
      with bits 0-2 of the value and keeps bits 0-7. */
  function TimerHighWritten(timer: uint16, value: uint8): (r: uint16)
    ensures r <= MaxTimer
    ensures r % 0x100 == timer % 0x100 && r / 0x100 == value % 8
  {
    timer % 0x100 + value % 8 * 0x100
  }

  /** A write to register `reg` (0-3) of a pulse channel ($4000-$4003 or $4004-$4007). */
  function PulseWritten(p: Pulse, reg: int, value: uint8): (r: Pulse)
    requires 0 <= reg < 4
    ensures PulseOk(p) ==> PulseOk(r)
    ensures reg == 0 ==> r == p.(dutyReg := value, env := EnvelopeControlWritten(p.env, value),
                                 lengthHalt := r.env.loop, volume := ControlVolume(value))
    ensures reg == 1 ==> r == p.(sweepReg := value, sweep := SweepWritten(p.sweep, value))
    ensures reg == 2 ==> r == p.(timerLow := value, timer := TimerLowWritten(p.timer, value))
    ensures reg == 3 ==> r.dutyPos == 0 && r.enabled && r.env.start
                         && r.timer == TimerHighWritten(p.timer, value)
    ensures reg == 3 ==> r.lengthCounter == if p.enabled then LengthLoad(value) else p.lengthCounter
    ensures reg == 3 ==> r == p.(lengthReg := value, timer := r.timer, lengthCounter := r.lengthCounter,
                                 dutyPos := 0, enabled := true, env := p.env.(start := true))
  {
    match reg
    case 0 =>
      var env := EnvelopeControlWritten(p.env, value);
      p.(dutyReg := value, env := env, lengthHalt := env.loop, volume := ControlVolume(value))
    case 1 =>
      p.(sweepReg := value, sweep := SweepWritten(p.sweep, value))
    case 2 =>
      p.(timerLow := value, timer := TimerLowWritten(p.timer, value))
    case 3 =>
      var length := if p.enabled then LengthLoad(value) else p.lengthCounter;
      p.(lengthReg := value, timer := TimerHighWritten(p.timer, value), lengthCounter := length,
         dutyPos := 0, enabled := true, env := p.env.(start := true))
  }

  /** The channel whose registers occupy `address`, if any ($4009 and $400D are unused,
      and so is everything outside $4000-$400F). */
  function ChannelAt(address: uint16): (r: Option<Channel>)
    ensures r == Some(Pulse1Ch) <==> 0x4000 <= address <= 0x4003
    ensures r == Some(Pulse2Ch) <==> 0x4004 <= address <= 0x4007
    ensures r == Some(TriangleCh) <==> address == 0x4008 || address == 0x400A || address == 0x400B
    ensures r == Some(NoiseCh) <==> address == 0x400C || address == 0x400E || address == 0x400F
  {
    if 0x4000 <= address <= 0x4003 then Some(Pulse1Ch)
    else if 0x4004 <= address <= 0x4007 then Some(Pulse2Ch)
    else if address == 0x4008 || address == 0x400A || address == 0x400B then Some(TriangleCh)
    else if address == 0x400C || address == 0x400E || address == 0x400F then Some(NoiseCh)
    else None
  }

  /** `writeRegister(address, value)`: decode into the addressed channel. */
  function Written(s: ApuState, address: uint16, value: uint8): (r: ApuState)
    ensures Valid(s) ==> Valid(r)
    ensures r.frameCounter == s.frameCounter
    ensures ChannelAt(address) != Some(Pulse1Ch) ==> r.pulse1 == s.pulse1
    ensures ChannelAt(address) != Some(Pulse2Ch) ==> r.pulse2 == s.pulse2
    ensures ChannelAt(address) != Some(TriangleCh) ==> r.triangle == s.triangle
    ensures ChannelAt(address) != Some(NoiseCh) ==> r.noise == s.noise
    ensures ChannelAt(address) == None ==> r == s
    ensures 0x4000 <= address <= 0x4003 ==> r.pulse1 == PulseWritten(s.pulse1, address - 0x4000, value)
    ensures 0x4004 <= address <= 0x4007 ==> r.pulse2 == PulseWritten(s.pulse2, address - 0x4004, value)
    ensures address == 0x4008 ==>
              r.triangle.linearReloadValue == value % 0x80 && r.triangle.enabled && TriangleControl(r.triangle) == HasBit(value, 0x80)
    ensures address == 0x400A ==>
              r.triangle.timer % 0x100 == value && r.triangle.timer / 0x100 == s.triangle.timer / 0x100 % 8
    ensures address == 0x400B ==>
              && r.triangle.timer % 0x100 == s.triangle.timer % 0x100 && r.triangle.timer / 0x100 == value % 8
              && r.triangle.lengthCounter == LengthLoad(value) && r.triangle.linearReload && r.triangle.wavePos == 0
    ensures address == 0x400C ==>
              && r.noise.env == EnvelopeControlWritten(s.noise.env, value)
              && r.noise.lengthHalt == HasBit(value, 0x20) && r.noise.volume == ControlVolume(value)
    ensures address == 0x4008 ==>
              r.triangle == s.triangle.(linearControl := value, linearReloadValue := value % 0x80, enabled := true)
    ensures address == 0x400A ==>
              r.triangle == s.triangle.(timerLow := value, timer := TimerLowWritten(s.triangle.timer, value))
    ensures address == 0x400B ==>
              r.triangle == s.triangle.(lengthLoad := value, timer := TimerHighWritten(s.triangle.timer, value),
                                        lengthCounter := LengthLoad(value), linearReload := true, wavePos := 0)
    ensures address == 0x400C ==>
              r.noise == s.noise.(volumeReg := value, env := EnvelopeControlWritten(s.noise.env, value),
                                  lengthHalt := HasBit(value, 0x20), volume := ControlVolume(value))
    ensures address == 0x400E ==> r.noise == s.noise.(modePeriod := value)
    ensures address == 0x400F ==>
              r.noise == s.noise.(lengthLoad := value, lengthCounter := LengthLoad(value),
                                  env := s.noise.env.(start := true), enabled := true)
    ensures address == 0x400F ==>
              r.noise.lengthCounter == LengthLoad(value) && r.noise.env.start && r.noise.enabled
  {
    var t := s.triangle;
    var n := s.noise;
    match address
    case 0x4000 => s.(pulse1 := PulseWritten(s.pulse1, 0, value))
    case 0x4001 => s.(pulse1 := PulseWritten(s.pulse1, 1, value))
    case 0x4002 => s.(pulse1 := PulseWritten(s.pulse1, 2, value))
    case 0x4003 => s.(pulse1 := PulseWritten(s.pulse1, 3, value))
    case 0x4004 => s.(pulse2 := PulseWritten(s.pulse2, 0, value))
    case 0x4005 => s.(pulse2 := PulseWritten(s.pulse2, 1, value))
    case 0x4006 => s.(pulse2 := PulseWritten(s.pulse2, 2, value))
    case 0x4007 => s.(pulse2 := PulseWritten(s.pulse2, 3, value))
    case 0x4008 =>
      s.(triangle := t.(linearControl := value, linearReloadValue := value % 0x80, enabled := true))
    case 0x400A =>
      s.(triangle := t.(timerLow := value, timer := TimerLowWritten(t.timer, value)))
    case 0x400B =>
      s.(triangle := t.(lengthLoad := value, timer := TimerHighWritten(t.timer, value),
                        lengthCounter := LengthLoad(value), linearReload := true, wavePos := 0))
    case 0x400C =>
      var env := EnvelopeControlWritten(n.env, value);
      s.(noise := n.(volumeReg := value, env := env, lengthHalt := env.loop, volume := ControlVolume(value)))
    case 0x400E =>
      s.(noise := n.(modePeriod := value))
    case 0x400F =>
      s.(noise := n.(lengthLoad := value, lengthCounter := LengthLoad(value),
                     env := n.env.(start := true), enabled := true))
    case _ => s
  }

  // ------------------------------------------------------------ status read

  /** `readRegister(address)`: $4015 returns one bit per channel whose length counter is
      nonzero (Pulse 1 bit 0 ... Noise bit 3) with bits 4-7 clear; every other address reads 0. */
  function ReadStatus(s: ApuState, address: uint16): (r: uint8)
    ensures address == 0x4015 ==>
              && r < 0x10
              && (HasBit(r, 0x01) <==> s.pulse1.lengthCounter > 0)
              && (HasBit(r, 0x02) <==> s.pulse2.lengthCounter > 0)
              && (HasBit(r, 0x04) <==> s.triangle.lengthCounter > 0)
              && (HasBit(r, 0x08) <==> s.noise.lengthCounter > 0)
    ensures address != 0x4015 ==> r == 0
  {
    if address == 0x4015 then
      (if s.pulse1.lengthCounter > 0 then 0x01 else 0)
      + (if s.pulse2.lengthCounter > 0 then 0x02 else 0)
      + (if s.triangle.lengthCounter > 0 then 0x04 else 0)
      + (if s.noise.lengthCounter > 0 then 0x08 else 0)
    else
      0
  }

  // ------------------------------------------------------------------ reset

  const SilentEnvelope := Envelope(false, false, 0, 0, 0, false)
  const ClearedPulse := Pulse(0, 0, 0, 0, 0, 0, 0, false, SilentEnvelope, 0, false,
                              Sweep(false, 0, false, 0, 0, false))
  const ClearedTriangle := Triangle(0, 0, 0, 0, 0, 0, 0, false, 0, false)
  const ClearedNoise := Noise(0, 0, 0, 0, 1, 0, SilentEnvelope, 0, false, false)

  /** `reset()`: every channel field back to its power-on value, the noise register to 1.
      The frame-sequencer counter is not among the fields reset() clears. */
  function ResetState(s: ApuState): (r: ApuState)
    ensures r.frameCounter == s.frameCounter
    ensures ReadStatus(r, 0x4015) == 0
    ensures r.noise.lfsr == 1
    ensures !r.pulse1.enabled && !r.pulse2.enabled && !r.triangle.enabled && !r.noise.enabled
    ensures r.pulse1.timer == 0 && r.pulse2.timer == 0 && r.triangle.timer == 0
    ensures 0 <= s.frameCounter < FramePeriod ==> Valid(r)
  {
    ApuState(ClearedPulse, ClearedPulse, ClearedTriangle, ClearedNoise, s.frameCounter)
  }

  // ------------------------------------------ envelope and length clocking

  /** One envelope-and-length clock of a pulse channel (APU.cpp:446-472 and 475-504). */
  function PulseEnvelopeAndLengthClocked(p: Pulse): (r: Pulse)
    ensures PulseOk(p) ==> PulseOk(r)
    ensures r.env == ClockEnvelope(p.env)
    ensures p.env.constant ==> r.volume == p.volume
    ensures !p.env.constant ==> r.volume == r.env.volume
    ensures r.lengthCounter == LengthTick(p.lengthCounter, p.lengthHalt)
    ensures r.enabled == (p.enabled && !LengthExpires(p.lengthCounter, p.lengthHalt))
    ensures r == p.(env := r.env, volume := r.volume, lengthCounter := r.lengthCounter, enabled := r.enabled)
  {
    var env := ClockEnvelope(p.env);
    p.(env := env,
       volume := if env.constant then p.volume else env.volume,
       lengthCounter := LengthTick(p.lengthCounter, p.lengthHalt),
       enabled := p.enabled && !LengthExpires(p.lengthCounter, p.lengthHalt))
  }

  /** Bit 7 of $4008: the triangle's control (length halt / linear reload hold) flag. */
  predicate TriangleControl(t: Triangle) {
    HasBit(t.linearControl, 0x80)
  }

  /** One clock of the triangle's linear and length counters (APU.cpp:507-523). With the
      control flag set, the reload flag never clears and the length counter is held. */
  function TriangleClocked(t: Triangle): (r: Triangle)
    ensures TriangleOk(t) ==> TriangleOk(r)
    ensures t.linearReload ==> r.linearCounter == t.linearReloadValue
    ensures !t.linearReload ==> r.linearCounter == if t.linearCounter > 0 then t.linearCounter - 1 else 0
    ensures r.linearReload == (t.linearReload && TriangleControl(t))
    ensures r.lengthCounter == LengthTick(t.lengthCounter, TriangleControl(t))
    ensures TriangleControl(t) ==> r.lengthCounter == t.lengthCounter
    ensures r.enabled == (t.enabled && !LengthExpires(t.lengthCounter, TriangleControl(t)))
    ensures r == t.(linearCounter := r.linearCounter, linearReload := r.linearReload,
                    lengthCounter := r.lengthCounter, enabled := r.enabled)
  {
    var linear := if t.linearReload then t.linearReloadValue
                  else if t.linearCounter > 0 then t.linearCounter - 1 else t.linearCounter;
    var reload := if !TriangleControl(t) then false else t.linearReload;
    var expires := !TriangleControl(t) && t.lengthCounter > 0 && t.lengthCounter - 1 == 0;
    var length := if !TriangleControl(t) && t.lengthCounter > 0 then t.lengthCounter - 1 else t.lengthCounter;
    t.(linearCounter := linear, linearReload := reload, lengthCounter := length,
       enabled := t.enabled && !expires)
  }

  /** One envelope-and-length clock of the noise channel (APU.cpp:526-552). */
  function NoiseEnvelopeAndLengthClocked(n: Noise): (r: Noise)
    ensures NoiseOk(n) ==> NoiseOk(r)
    ensures r.env == ClockEnvelope(n.env)
    ensures n.env.constant ==> r.volume == n.volume
    ensures !n.env.constant ==> r.volume == r.env.volume
    ensures r.lengthCounter == LengthTick(n.lengthCounter, n.lengthHalt)
    ensures r.enabled == (n.enabled && !LengthExpires(n.lengthCounter, n.lengthHalt))
    ensures r == n.(env := r.env, volume := r.volume, lengthCounter := r.lengthCounter, enabled := r.enabled)
  {
    var env := ClockEnvelope(n.env);
    n.(env := env,
       volume := if env.constant then n.volume else env.volume,
       lengthCounter := LengthTick(n.lengthCounter, n.lengthHalt),
       enabled := n.enabled && !LengthExpires(n.lengthCounter, n.lengthHalt))
  }

  /** `clockEnvelopeAndLength()` over all four channels. */
  function EnvelopeAndLengthClocked(s: ApuState): (r: ApuState)
    ensures Valid(s) ==> Valid(r)
    ensures ShiftsOk(s) ==> ShiftsOk(r)
    ensures r.frameCounter == s.frameCounter
    ensures forall ch :: LengthOf(r, ch) == LengthTick(LengthOf(s, ch), LengthHalted(s, ch))
    ensures forall ch :: EnabledOf(r, ch) == (EnabledOf(s, ch) && !LengthExpires(LengthOf(s, ch), LengthHalted(s, ch)))
  {
    s.(pulse1 := PulseEnvelopeAndLengthClocked(s.pulse1),
       pulse2 := PulseEnvelopeAndLengthClocked(s.pulse2),
       triangle := TriangleClocked(s.triangle),
       noise := NoiseEnvelopeAndLengthClocked(s.noise))
  }

  function LengthOf(s: ApuState, ch: Channel): uint8 {
    match ch
    case Pulse1Ch => s.pulse1.lengthCounter
    case Pulse2Ch => s.pulse2.lengthCounter
    case TriangleCh => s.triangle.lengthCounter
    case NoiseCh => s.noise.lengthCounter
  }

  /** What suppresses a channel's length decrement: the halt flag, or for the triangle bit 7 of $4008. */
  predicate LengthHalted(s: ApuState, ch: Channel) {
    match ch
    case Pulse1Ch => s.pulse1.lengthHalt
    case Pulse2Ch => s.pulse2.lengthHalt
    case TriangleCh => TriangleControl(s.triangle)
    case NoiseCh => s.noise.lengthHalt
  }

  predicate EnabledOf(s: ApuState, ch: Channel) {
    match ch
    case Pulse1Ch => s.pulse1.enabled
    case Pulse2Ch => s.pulse2.enabled
    case TriangleCh => s.triangle.enabled
    case NoiseCh => s.noise.enabled
  }

  // ---------------------------------------------------------- sweep clocking

  /** The sweep divider has run out and the unit is enabled with a nonzero shift and a
      timer of at least 8: this clock recomputes the timer. */
  predicate SweepAdjusts(p: Pulse) {
    !p.sweep.reload && p.sweep.counter == 0
    && p.sweep.enabled && p.sweep.shift > 0 && p.timer >= 8
  }

  /** One sweep clock of a pulse channel (APU.cpp:558-577 for Pulse 1, 581-596 for Pulse 2).
      A target above 0x7FF disables the channel and leaves the timer unchanged. */
  function PulseSwept(p: Pulse, pulse1: bool): (r: Pulse)
    requires p.sweep.shift <= 7
    ensures PulseOk(p) ==> PulseOk(r)
    ensures !r.sweep.reload
    ensures r.sweep.counter == if p.sweep.reload || p.sweep.counter == 0 then p.sweep.period
                               else p.sweep.counter - 1
    ensures r.sweep == p.sweep.(counter := r.sweep.counter, reload := false)
    ensures !SweepAdjusts(p) ==> r.timer == p.timer && r.enabled == p.enabled
    ensures SweepAdjusts(p) ==>
              var target := SweepTarget(p.timer, p.sweep.shift, p.sweep.negate, pulse1);
              if target <= MaxTimer then r.timer == target && r.enabled == p.enabled
              else r.timer == p.timer && !r.enabled
    ensures r == p.(sweep := r.sweep, timer := r.timer, enabled := r.enabled)
  {
    if p.sweep.reload then
      p.(sweep := p.sweep.(counter := p.sweep.period, reload := false))
    else if p.sweep.counter > 0 then
      p.(sweep := p.sweep.(counter := p.sweep.counter - 1))
    else
      var q := p.(sweep := p.sweep.(counter := p.sweep.period));
      if p.sweep.enabled && p.sweep.shift > 0 && p.timer >= 8 then
        var target := SweepTarget(p.timer, p.sweep.shift, p.sweep.negate, pulse1);
        if target <= MaxTimer then q.(timer := target) else q.(enabled := false)
      else
        q
  }

  /** `clockSweepUnits()`: Pulse 1 with its subtract-one negate, Pulse 2 always adding. */
  function SweepsClocked(s: ApuState): (r: ApuState)
    requires ShiftsOk(s)
    ensures Valid(s) ==> Valid(r)
    ensures ShiftsOk(r)
    ensures r.pulse1 == PulseSwept(s.pulse1, true) && r.pulse2 == PulseSwept(s.pulse2, false)
    ensures r.triangle == s.triangle && r.noise == s.noise && r.frameCounter == s.frameCounter
  {
    s.(pulse1 := PulseSwept(s.pulse1, true), pulse2 := PulseSwept(s.pulse2, false))
  }

  // ---------------------------------------------------------- frame sequencer

  /** The counter values at which `clock()` fires the envelope and length units ... */
  predicate IsQuarterFrame(c: int) {
    c == 7457 || c == 14913 || c == 22371 || c == FramePeriod
  }

  /** ... and the two of them that also fire the sweep units. */
  predicate IsHalfFrame(c: int) {
    c == 14913 || c == FramePeriod
  }

  /** `clock()`: advance the frame-sequencer counter, fire the units at the four tick
      counts, wrap to zero after the last. */
  function Clocked(s: ApuState): (r: ApuState)
    requires ShiftsOk(s)
    ensures ShiftsOk(r)
    ensures 0 <= s.frameCounter < FramePeriod ==> 0 <= r.frameCounter < FramePeriod
    ensures Valid(s) ==> Valid(r)
    ensures r.frameCounter == if s.frameCounter + 1 == FramePeriod then 0 else s.frameCounter + 1
    ensures !IsQuarterFrame(s.frameCounter + 1) ==> r == s.(frameCounter := s.frameCounter + 1)
    ensures IsQuarterFrame(s.frameCounter + 1) && !IsHalfFrame(s.frameCounter + 1) ==>
              r == EnvelopeAndLengthClocked(s).(frameCounter := s.frameCounter + 1)
    ensures IsHalfFrame(s.frameCounter + 1) ==>
              r == SweepsClocked(EnvelopeAndLengthClocked(s)).(frameCounter := r.frameCounter)
  {
    var c := s.frameCounter + 1;
    if c == 7457 then
      EnvelopeAndLengthClocked(s).(frameCounter := c)
    else if c == 14913 then
      SweepsClocked(EnvelopeAndLengthClocked(s)).(frameCounter := c)
    else if c == 22371 then
      EnvelopeAndLengthClocked(s).(frameCounter := c)
    else if c == FramePeriod then
      SweepsClocked(EnvelopeAndLengthClocked(s)).(frameCounter := 0)
    else
      s.(frameCounter := c)
  }

  /** `n` successive calls of `clock()`. */
  function ClockedTimes(s: ApuState, n: nat): (r: ApuState)
    requires ShiftsOk(s)
    ensures ShiftsOk(r)
    ensures Valid(s) ==> Valid(r)
    decreases n
  {
    if n == 0 then s else ClockedTimes(Clocked(s), n - 1)
  }

  /** The first tick count above `c` at which the sequencer fires. */
  function NextQuarterFrame(c: int): (q: int)
    requires 0 <= c < FramePeriod
    ensures c < q <= FramePeriod && IsQuarterFrame(q)
    ensures forall k :: c < k < q ==> !IsQuarterFrame(k)
  {
    if c < 7457 then 7457 else if c < 14913 then 14913 else if c < 22371 then 22371 else FramePeriod
  }

  /** Between two firing points `clock()` only counts: `n` clocks that stay short of the
      next firing point leave every channel as it was. */
  lemma {:induction false} QuietClocks(s: ApuState, n: nat)
    requires ShiftsOk(s) && 0 <= s.frameCounter < FramePeriod
    requires s.frameCounter + n < NextQuarterFrame(s.frameCounter)
    ensures ClockedTimes(s, n) == s.(frameCounter := s.frameCounter + n)
    decreases n
  {
    if n > 0 {
      var c := s.frameCounter;
      assert !IsQuarterFrame(c + 1);
      var t := Clocked(s);
      assert t == s.(frameCounter := c + 1);
      assert NextQuarterFrame(c + 1) == NextQuarterFrame(c);
      QuietClocks(t, n - 1);
    }
  }

  /** Running `a` clocks and then `b` clocks is running `a + b` clocks. */
  lemma {:induction false} ClockedTimesAdd(s: ApuState, a: nat, b: nat)
    requires ShiftsOk(s)
    ensures ClockedTimes(s, a + b) == ClockedTimes(ClockedTimes(s, a), b)
    decreases a
  {
    if a > 0 {
      var t := Clocked(s);
      assert ClockedTimes(s, a + b) == ClockedTimes(t, (a - 1) + b);
      assert ClockedTimes(s, a) == ClockedTimes(t, a - 1);
      ClockedTimesAdd(t, a - 1, b);
    }
  }

  /** One clock, seen through the iteration. */
  lemma {:induction false} ClockedOnce(s: ApuState)
    requires ShiftsOk(s)
    ensures ClockedTimes(s, 1) == Clocked(s)
  {
    assert ClockedTimes(s, 1) == ClockedTimes(Clocked(s), 0);
  }

  /** From counter `c`, the state at the next firing point is one clock after reaching the
      point just before it, with nothing but the counter changed until then. */
  lemma {:induction false} ToNextQuarterFrame(s: ApuState)
    requires ShiftsOk(s) && 0 <= s.frameCounter < FramePeriod
    ensures ClockedTimes(s, NextQuarterFrame(s.frameCounter) - s.frameCounter)
            == ClockedTimes(s.(frameCounter := NextQuarterFrame(s.frameCounter) - 1), 1)
  {
    var c := s.frameCounter;
    var q := NextQuarterFrame(c);
    var quiet := q - 1 - c;
    var u := s.(frameCounter := q - 1);
    QuietClocks(s, quiet);
    assert ClockedTimes(s, quiet) == u;
    ClockedTimesAdd(s, quiet, 1);
    assert ClockedTimes(s, quiet + 1) == ClockedTimes(u, 1);
  }

  /** One full sequencer period from a zero counter (NTSC four-step mode): no unit fires
      during the first 7456 clocks; the envelope and length units fire at 7457, 14913,
      22371 and 29828, the sweep units at 14913 and 29828; after 29828 clocks the counter
      is back at zero. */
  lemma {:induction false} FramePeriodSequence(s: ApuState)
    requires ShiftsOk(s) && s.frameCounter == 0
    ensures ClockedTimes(s, 7456) == s.(frameCounter := 7456)
    ensures var s1 := EnvelopeAndLengthClocked(s).(frameCounter := 7457);
            var s2 := SweepsClocked(EnvelopeAndLengthClocked(s1)).(frameCounter := 14913);
            var s3 := EnvelopeAndLengthClocked(s2).(frameCounter := 22371);
            var s4 := SweepsClocked(EnvelopeAndLengthClocked(s3)).(frameCounter := 0);
            && ClockedTimes(s, 7457) == s1
            && ClockedTimes(s, 14913) == s2
            && ClockedTimes(s, 22371) == s3
            && ClockedTimes(s, FramePeriod) == s4
  {
    QuietClocks(s, 7456);
    var s1 := EnvelopeAndLengthClocked(s).(frameCounter := 7457);
    var s2 := SweepsClocked(EnvelopeAndLengthClocked(s1)).(frameCounter := 14913);
    var s3 := EnvelopeAndLengthClocked(s2).(frameCounter := 22371);
    FirstSegment(s);
    SecondSegment(s1);
    ClockedTimesAdd(s, 7457, 7456);
    ThirdSegment(s2);
    ClockedTimesAdd(s, 14913, 7458);
    FourthSegment(s3);
    ClockedTimesAdd(s, 22371, 7457);
  }

  /** Clocks 1-7457 of the period: the first quarter frame. */
  lemma FirstSegment(s: ApuState)
    requires ShiftsOk(s) && s.frameCounter == 0
    ensures ShiftsOk(EnvelopeAndLengthClocked(s))
    ensures ClockedTimes(s, 7457) == EnvelopeAndLengthClocked(s).(frameCounter := 7457)
  {
    var u := s.(frameCounter := 7456);
    assert NextQuarterFrame(s.frameCounter) == 7457;
    ToNextQuarterFrame(s);
    assert ClockedTimes(s, 7457) == ClockedTimes(u, 1);
    ClockedOnce(u);
    assert Clocked(u) == EnvelopeAndLengthClocked(u).(frameCounter := 7457);
    FrameCounterIgnored(s, 7456);
  }

  /** Clocks 7458-14913: the first half frame. */
  lemma SecondSegment(s: ApuState)
    requires ShiftsOk(s) && s.frameCounter == 7457
    ensures ShiftsOk(SweepsClocked(EnvelopeAndLengthClocked(s)))
    ensures ClockedTimes(s, 7456) == SweepsClocked(EnvelopeAndLengthClocked(s)).(frameCounter := 14913)
  {
    var u := s.(frameCounter := 14912);
    assert NextQuarterFrame(s.frameCounter) == 14913;
    ToNextQuarterFrame(s);
    assert ClockedTimes(s, 7456) == ClockedTimes(u, 1);
    ClockedOnce(u);
    assert Clocked(u) == SweepsClocked(EnvelopeAndLengthClocked(u)).(frameCounter := 14913);
    FrameCounterIgnored(s, 14912);
  }

  /** Clocks 14914-22371: the third quarter frame. */
  lemma ThirdSegment(s: ApuState)
    requires ShiftsOk(s) && s.frameCounter == 14913
    ensures ShiftsOk(EnvelopeAndLengthClocked(s))
    ensures ClockedTimes(s, 7458) == EnvelopeAndLengthClocked(s).(frameCounter := 22371)
  {
    var u := s.(frameCounter := 22370);
    assert NextQuarterFrame(s.frameCounter) == 22371;
    ToNextQuarterFrame(s);
    assert ClockedTimes(s, 7458) == ClockedTimes(u, 1);
    ClockedOnce(u);
    assert Clocked(u) == EnvelopeAndLengthClocked(u).(frameCounter := 22371);
    FrameCounterIgnored(s, 22370);
  }

  /** Clocks 22372-29828: the second half frame, where the counter wraps to zero. */
  lemma FourthSegment(s: ApuState)
    requires ShiftsOk(s) && s.frameCounter == 22371
    ensures ClockedTimes(s, 7457) == SweepsClocked(EnvelopeAndLengthClocked(s)).(frameCounter := 0)
  {
    var u := s.(frameCounter := 29827);
    assert NextQuarterFrame(s.frameCounter) == 29828;
    ToNextQuarterFrame(s);
    assert ClockedTimes(s, 7457) == ClockedTimes(u, 1);
    ClockedOnce(u);
    assert Clocked(u) == SweepsClocked(EnvelopeAndLengthClocked(u)).(frameCounter := 0);
    FrameCounterIgnored(s, 29827);
  }

  /** The unit clocks neither read nor change the sequencer counter. */
  lemma FrameCounterIgnored(s: ApuState, c: int)
    ensures EnvelopeAndLengthClocked(s.(frameCounter := c)) == EnvelopeAndLengthClocked(s).(frameCounter := c)
    ensures ShiftsOk(s) ==> SweepsClocked(s.(frameCounter := c)) == SweepsClocked(s).(frameCounter := c)
    ensures ShiftsOk(s) ==>
              SweepsClocked(EnvelopeAndLengthClocked(s.(frameCounter := c)))
              == SweepsClocked(EnvelopeAndLengthClocked(s)).(frameCounter := c)
  {
  }
}
