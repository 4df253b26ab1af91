/** `generateSamples` (APU.cpp:261-422) on integer state. The channels' float timer
    accumulators are replaced by an oracle `crossed(i, ch)` telling whether channel `ch`'s
    accumulator runs out on sample `i`; each produced sample is the four integer channel
    levels (0-15) handed to the nonlinear float mixer. */
module ApuSynthesis {
  import opened Word
  import opened ApuTables
  import opened ApuUnits
  import opened ApuModel

  /** The per-channel levels of one sample, each the numerator of `x / 15.0f`. */
  datatype MixInput = MixInput(pulse1: int, pulse2: int, triangle: int, noise: int)

  const Quiet := MixInput(0, 0, 0, 0)

  predicate LevelsOk(m: MixInput) {
    0 <= m.pulse1 <= MaxVolume && 0 <= m.pulse2 <= MaxVolume
    && 0 <= m.triangle <= MaxVolume && 0 <= m.noise <= MaxVolume
  }

  /** The duty and ramp positions index their tables in range. */
  predicate InRange(s: ApuState) {
    s.pulse1.dutyPos < 8 && s.pulse2.dutyPos < 8 && s.triangle.wavePos < 32
  }

  /** The triangle steps only while enabled with a nonzero timer and both counters nonzero. */
  predicate TriangleAudible(t: Triangle) {
    t.enabled && t.timer > 0 && t.lengthCounter > 0 && t.linearCounter > 0
  }

  /** The noise channel steps only while enabled with a nonzero timer and length counter. */
  predicate NoiseAudible(n: Noise) {
    n.enabled && n.timer > 0 && n.lengthCounter > 0
  }

  /** Bit 7 of $400E selects the short (tap 6) sequence. */
  predicate ShortMode(n: Noise) {
    HasBit(n.modePeriod, 0x80)
  }

  /** The early exit: no channel can sound, judged with the noise timer stored before this call. */
  predicate Silent(s: ApuState)
    ensures Silent(s) ==> (s.pulse1.enabled ==> s.pulse1.timer == 0) && (s.pulse2.enabled ==> s.pulse2.timer == 0)
    ensures Silent(s) ==> forall tick :: TriangleStepped(s.triangle, tick) == s.triangle
    ensures Silent(s) ==> forall tick :: NoiseStepped(s.noise, tick) == s.noise
    ensures Silent(s) && InRange(s) ==> Mix(s).triangle == 0 && Mix(s).noise == 0
  {
    && (!s.pulse1.enabled || s.pulse1.timer == 0)
    && (!s.pulse2.enabled || s.pulse2.timer == 0)
    && !TriangleAudible(s.triangle)
    && !NoiseAudible(s.noise)
  }

  /** The state with every waveform position and the shift register cleared: what sample
      generation never changes. */
  function Controls(s: ApuState): ApuState {
    s.(pulse1 := s.pulse1.(dutyPos := 0), pulse2 := s.pulse2.(dutyPos := 0),
       triangle := s.triangle.(wavePos := 0), noise := s.noise.(lfsr := 0))
  }

  /** Before the sample loop: the noise timer period comes from the table and a stuck
      (zero) shift register is restarted at 1. */
  function Prepared(s: ApuState): (r: ApuState)
    ensures r.noise.timer == NoisePeriod(s.noise.modePeriod)
    ensures r.noise.lfsr != 0
    ensures s.noise.lfsr != 0 ==> r.noise.lfsr == s.noise.lfsr
    ensures r == s.(noise := s.noise.(timer := r.noise.timer, lfsr := r.noise.lfsr))
    ensures Valid(s) ==> Valid(r)
    ensures InRange(s) ==> InRange(r)
  {
    var lfsr := if s.noise.lfsr == 0 then 1 else s.noise.lfsr;
    s.(noise := s.noise.(timer := NoisePeriod(s.noise.modePeriod), lfsr := lfsr))
  }

  /** A pulse channel's duty step on a run-out of its accumulator; the gate is the enable
      flag alone, since `timer + 1` is always positive. */
  function PulseStepped(p: Pulse, tick: bool): (r: Pulse)
    ensures r == p.(dutyPos := r.dutyPos)
    ensures p.enabled && tick ==> r.dutyPos == (p.dutyPos + 1) % 8
    ensures !(p.enabled && tick) ==> r == p
  {
    if p.enabled && tick then p.(dutyPos := (p.dutyPos + 1) % 8) else p
  }

  /** A pulse channel's level: its volume when enabled and the duty bit is high. */
  function PulseOutput(p: Pulse): (v: int)
    requires p.dutyPos < 8
    ensures v == 0 || v == p.volume
    ensures !p.enabled ==> v == 0
    ensures p.enabled ==> v == if DutyBit(p.dutyReg / 64, p.dutyPos) == 1 then p.volume else 0
  {
    if p.enabled && DutyBit(p.dutyReg / 64, p.dutyPos) == 1 then p.volume else 0
  }

  /** The triangle's ramp step on a run-out, only while it is audible. */
  function TriangleStepped(t: Triangle, tick: bool): (r: Triangle)
    ensures r == t.(wavePos := r.wavePos)
    ensures TriangleAudible(t) && tick ==> r.wavePos == (t.wavePos + 1) % 32
    ensures !(TriangleAudible(t) && tick) ==> r == t
  {
    if TriangleAudible(t) && tick then t.(wavePos := (t.wavePos + 1) % 32) else t
  }

  /** The triangle's level: the ramp value while audible. */
  function TriangleOutput(t: Triangle): (v: int)
    requires t.wavePos < 32
    ensures 0 <= v <= MaxVolume
    ensures TriangleAudible(t) ==> v == TriangleLevel(t.wavePos)
    ensures !TriangleAudible(t) ==> v == 0
  {
    if TriangleAudible(t) then TriangleLevel(t.wavePos) else 0
  }

  /** The noise channel's shift-register step on a run-out, only while it is audible. */
  function NoiseStepped(n: Noise, tick: bool): (r: Noise)
    ensures r == n.(lfsr := r.lfsr)
    ensures NoiseAudible(n) && tick ==> r.lfsr == LfsrStep(n.lfsr, ShortMode(n))
    ensures !(NoiseAudible(n) && tick) ==> r == n
    ensures n.lfsr != 0 ==> r.lfsr != 0
  {
    if NoiseAudible(n) && tick then n.(lfsr := LfsrStep(n.lfsr, ShortMode(n))) else n
  }

  /** The noise level is the volume while bit 0 of the shift register is clear. */
  function NoiseOutput(n: Noise): (v: int)
    ensures v == 0 || v == n.volume
    ensures !NoiseAudible(n) || HasBit(n.lfsr, 1) ==> v == 0
    ensures NoiseAudible(n) && !HasBit(n.lfsr, 1) ==> v == n.volume
  {
    if NoiseAudible(n) && n.lfsr % 2 == 0 then n.volume else 0
  }

  /** The waveform steps of sample `i`. */
  function SampleStep(s: ApuState, i: int, crossed: (int, Channel) -> bool): (r: ApuState)
    ensures Controls(r) == Controls(s)
    ensures Valid(s) ==> Valid(r)
    ensures InRange(s) ==> InRange(r)
    ensures s.noise.lfsr != 0 ==> r.noise.lfsr != 0
  {
    s.(pulse1 := PulseStepped(s.pulse1, crossed(i, Pulse1Ch)),
       pulse2 := PulseStepped(s.pulse2, crossed(i, Pulse2Ch)),
       triangle := TriangleStepped(s.triangle, crossed(i, TriangleCh)),
       noise := NoiseStepped(s.noise, crossed(i, NoiseCh)))
  }

  /** The four channel levels read after the steps of a sample. */
  function Mix(s: ApuState): (m: MixInput)
    requires InRange(s)
    ensures Valid(s) ==> LevelsOk(m)
    ensures !s.pulse1.enabled ==> m.pulse1 == 0
    ensures !s.pulse2.enabled ==> m.pulse2 == 0
    ensures s.pulse1.enabled ==>
              m.pulse1 == if DutyBit(s.pulse1.dutyReg / 64, s.pulse1.dutyPos) == 1 then s.pulse1.volume else 0
    ensures s.pulse2.enabled ==>
              m.pulse2 == if DutyBit(s.pulse2.dutyReg / 64, s.pulse2.dutyPos) == 1 then s.pulse2.volume else 0
    ensures TriangleAudible(s.triangle) ==> m.triangle == TriangleLevel(s.triangle.wavePos)
    ensures !TriangleAudible(s.triangle) ==> m.triangle == 0
    ensures !NoiseAudible(s.noise) || HasBit(s.noise.lfsr, 1) ==> m.noise == 0
    ensures NoiseAudible(s.noise) && !HasBit(s.noise.lfsr, 1) ==> m.noise == s.noise.volume
  {
    MixInput(PulseOutput(s.pulse1), PulseOutput(s.pulse2),
             TriangleOutput(s.triangle), NoiseOutput(s.noise))
  }

  /** The state after the first `n` samples of the loop. */
  function Run(s: ApuState, crossed: (int, Channel) -> bool, n: nat): (r: ApuState)
    ensures Controls(r) == Controls(s)
    ensures Valid(s) ==> Valid(r)
    ensures InRange(s) ==> InRange(r)
    ensures s.noise.lfsr != 0 ==> r.noise.lfsr != 0
    decreases n
  {
    if n == 0 then s else SampleStep(Run(s, crossed, n - 1), n - 1, crossed)
  }

  /** The first `n` samples of the loop. */
  function Outputs(s: ApuState, crossed: (int, Channel) -> bool, n: nat): (out: seq<MixInput>)
    requires InRange(s)
    ensures |out| == n
    ensures Valid(s) ==> forall k :: 0 <= k < n ==> LevelsOk(out[k])
    decreases n
  {
    if n == 0 then [] else Outputs(s, crossed, n - 1) + [Mix(Run(s, crossed, n))]
  }

  /** A whole call: the new state and the `length` samples written. */
  function Generated(s: ApuState, crossed: (int, Channel) -> bool, length: nat): (r: (ApuState, seq<MixInput>))
    requires InRange(s)
    ensures |r.1| == length
    ensures Silent(s) ==> r.0 == s && forall k :: 0 <= k < length ==> r.1[k] == Quiet
    ensures !Silent(s) ==> r.0.noise.lfsr != 0 && r.0.noise.timer == NoisePeriod(s.noise.modePeriod)
    ensures !Silent(s) ==> Controls(r.0) == Controls(Prepared(s))
    ensures Valid(s) ==> Valid(r.0) && forall k :: 0 <= k < length ==> LevelsOk(r.1[k])
  {
    if Silent(s) then (s, seq(length, _ => Quiet))
    else (Run(Prepared(s), crossed, length), Outputs(Prepared(s), crossed, length))
  }

  /** Sample `k` of a run is the mix of the state after `k + 1` steps. */
  lemma {:induction false} OutputAt(s: ApuState, crossed: (int, Channel) -> bool, n: nat, k: nat)
    requires InRange(s) && k < n
    ensures Outputs(s, crossed, n)[k] == Mix(Run(s, crossed, k + 1))
    decreases n
  {
    if k < n - 1 {
      OutputAt(s, crossed, n - 1, k);
    }
  }

  /** How many of the first `n` samples see channel `ch`'s accumulator run out. */
  function Crossings(crossed: (int, Channel) -> bool, ch: Channel, n: nat): (c: nat)
    ensures c <= n
    decreases n
  {
    if n == 0 then 0 else Crossings(crossed, ch, n - 1) + (if crossed(n - 1, ch) then 1 else 0)
  }

  /** `k` shift-register steps. */
  function LfsrSteps(x: uint16, shortMode: bool, k: nat): (r: uint16)
    ensures x != 0 ==> r != 0
    ensures x < 0x8000 ==> r < 0x8000
    decreases k
  {
    if k == 0 then x else LfsrStep(LfsrSteps(x, shortMode, k - 1), shortMode)
  }

  /** Stepping a wrapped duty position once more is wrapping the longer count. */
  lemma WrapStep8(a: int)
    ensures (a % 8 + 1) % 8 == (a + 1) % 8
  {
  }

  /** The same for the 32-step ramp. */
  lemma WrapStep32(a: int)
    ensures (a % 32 + 1) % 32 == (a + 1) % 32
  {
  }

  /** Pulse 1's duty position advances once per accumulator run-out while the channel is
      enabled, wrapping at 8, and never moves while it is disabled. */
  lemma {:induction false} RunPulse1Position(s: ApuState, crossed: (int, Channel) -> bool, n: nat)
    requires s.pulse1.dutyPos < 8
    ensures Run(s, crossed, n).pulse1.dutyPos
            == if s.pulse1.enabled then (s.pulse1.dutyPos + Crossings(crossed, Pulse1Ch, n)) % 8
               else s.pulse1.dutyPos
    decreases n
  {
    if n > 0 {
      RunPulse1Position(s, crossed, n - 1);
      var q := Run(s, crossed, n - 1);
      assert Run(s, crossed, n).pulse1.dutyPos == if q.pulse1.enabled && crossed(n - 1, Pulse1Ch) then (q.pulse1.dutyPos + 1) % 8 else q.pulse1.dutyPos;
      WrapStep8(s.pulse1.dutyPos + Crossings(crossed, Pulse1Ch, n - 1));
      assert q.pulse1.enabled == s.pulse1.enabled by {
        assert Controls(q).pulse1 == Controls(s).pulse1;
      }
    }
  }

  /** The same for Pulse 2. */
  lemma {:induction false} RunPulse2Position(s: ApuState, crossed: (int, Channel) -> bool, n: nat)
    requires s.pulse2.dutyPos < 8
    ensures Run(s, crossed, n).pulse2.dutyPos
            == if s.pulse2.enabled then (s.pulse2.dutyPos + Crossings(crossed, Pulse2Ch, n)) % 8
               else s.pulse2.dutyPos
    decreases n
  {
    if n > 0 {
      RunPulse2Position(s, crossed, n - 1);
      var q := Run(s, crossed, n - 1);
      assert Run(s, crossed, n).pulse2.dutyPos == if q.pulse2.enabled && crossed(n - 1, Pulse2Ch) then (q.pulse2.dutyPos + 1) % 8 else q.pulse2.dutyPos;
      WrapStep8(s.pulse2.dutyPos + Crossings(crossed, Pulse2Ch, n - 1));
      assert q.pulse2.enabled == s.pulse2.enabled by {
        assert Controls(q).pulse2 == Controls(s).pulse2;
      }
    }
  }

  /** The triangle's ramp position advances once per run-out while it is audible,
      wrapping at 32, and never moves otherwise. */
  lemma {:induction false} RunTrianglePosition(s: ApuState, crossed: (int, Channel) -> bool, n: nat)
    requires s.triangle.wavePos < 32
    ensures Run(s, crossed, n).triangle.wavePos
            == if TriangleAudible(s.triangle) then (s.triangle.wavePos + Crossings(crossed, TriangleCh, n)) % 32
               else s.triangle.wavePos
    decreases n
  {
    if n > 0 {
      RunTrianglePosition(s, crossed, n - 1);
      var q := Run(s, crossed, n - 1);
      assert Run(s, crossed, n).triangle.wavePos == if TriangleAudible(q.triangle) && crossed(n - 1, TriangleCh) then (q.triangle.wavePos + 1) % 32 else q.triangle.wavePos;
      WrapStep32(s.triangle.wavePos + Crossings(crossed, TriangleCh, n - 1));
      assert TriangleAudible(q.triangle) == TriangleAudible(s.triangle) by {
        assert Controls(q).triangle == Controls(s).triangle;
      }
    }
  }

  /** The shift register steps once per run-out of the noise accumulator while the
      channel is audible, and never otherwise. */
  lemma {:induction false} RunNoiseRegister(s: ApuState, crossed: (int, Channel) -> bool, n: nat)
    ensures Run(s, crossed, n).noise.lfsr
            == if NoiseAudible(s.noise) then LfsrSteps(s.noise.lfsr, ShortMode(s.noise), Crossings(crossed, NoiseCh, n))
               else s.noise.lfsr
  {
    RunNoiseChannel(s, crossed, n);
    NoiseRunRegister(s.noise, crossed, n);
  }

  /** The noise channel on its own through `n` samples. */
  function NoiseRun(nz: Noise, crossed: (int, Channel) -> bool, n: nat): Noise
    decreases n
  {
    if n == 0 then nz else NoiseStepped(NoiseRun(nz, crossed, n - 1), crossed(n - 1, NoiseCh))
  }

  lemma {:induction false} RunNoiseChannel(s: ApuState, crossed: (int, Channel) -> bool, n: nat)
    ensures Run(s, crossed, n).noise == NoiseRun(s.noise, crossed, n)
    decreases n
  {
    if n > 0 {
      RunNoiseChannel(s, crossed, n - 1);
      assert Run(s, crossed, n).noise == NoiseStepped(Run(s, crossed, n - 1).noise, crossed(n - 1, NoiseCh));
    }
  }

  lemma {:induction false} NoiseRunRegister(nz: Noise, crossed: (int, Channel) -> bool, n: nat)
    ensures NoiseRun(nz, crossed, n).modePeriod == nz.modePeriod
    ensures NoiseAudible(NoiseRun(nz, crossed, n)) == NoiseAudible(nz)
    ensures NoiseRun(nz, crossed, n).lfsr
            == if NoiseAudible(nz) then LfsrSteps(nz.lfsr, ShortMode(nz), Crossings(crossed, NoiseCh, n)) else nz.lfsr
    decreases n
  {
    if n > 0 {
      NoiseRunRegister(nz, crossed, n - 1);
      var c := Crossings(crossed, NoiseCh, n - 1);
      if crossed(n - 1, NoiseCh) && NoiseAudible(nz) {
        assert Crossings(crossed, NoiseCh, n) == c + 1;
        assert LfsrSteps(nz.lfsr, ShortMode(nz), c + 1) == LfsrStep(LfsrSteps(nz.lfsr, ShortMode(nz), c), ShortMode(nz));
      }
    }
  }


}
