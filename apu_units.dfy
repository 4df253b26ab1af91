/** The sub-units each sound channel is built from: envelope, length counter,
    sweep arithmetic and the noise shift register (APU.cpp:92-216, 281-284, 332-338, 444-598).
    The source repeats the envelope and length code for every channel; here each is defined once. */
module ApuUnits {
  import opened Word

  const MaxVolume := 15
  const MaxTimer := 0x7FF

  // ---------------------------------------------------------------- envelope

  /** Envelope state of Pulse 1, Pulse 2 or Noise: the loop, constant-volume and
      period fields of the control register plus the decay counter, the decaying
      volume and the restart-pending flag. */
  datatype Envelope = Envelope(loop: bool, constant: bool, period: uint8,
                               counter: uint8, volume: uint8, start: bool)

  /** Every 4-bit quantity of the envelope stays within 0..15. */
  predicate EnvelopeOk(e: Envelope) {
    e.period <= MaxVolume && e.counter <= MaxVolume && e.volume <= MaxVolume
  }

  /** Decoding a control-register write ($4000, $4004, $400C) into the envelope:
      bit 5 is loop, bit 4 is constant volume, bits 0-3 the period.
      The decay state (counter, volume, restart flag) is left alone. */
  function EnvelopeControlWritten(e: Envelope, value: uint8): (r: Envelope)
    ensures r.loop == HasBit(value, 0x20) && r.constant == HasBit(value, 0x10)
    ensures r.period == value % 16
    ensures r.counter == e.counter && r.volume == e.volume && r.start == e.start
    ensures EnvelopeOk(e) ==> EnvelopeOk(r)
  {
    e.(loop := HasBit(value, 0x20), constant := HasBit(value, 0x10), period := value % 16)
  }

  /** Channel volume set directly by a control-register write: the period field
      in constant-volume mode, otherwise the maximum. */
  function ControlVolume(value: uint8): (r: uint8)
    ensures r <= MaxVolume
    ensures HasBit(value, 0x10) ==> r == value % 16
    ensures !HasBit(value, 0x10) ==> r == MaxVolume
  {
    if HasBit(value, 0x10) then value % 16 else MaxVolume
  }

  /** One envelope clock (APU.cpp:446-461): a pending restart reloads volume 15 and
      the counter; otherwise, outside constant mode, the counter counts down and each
      time it reaches zero the volume decays by one (or wraps to 15 when looping). */
  function ClockEnvelope(e: Envelope): (r: Envelope)
    ensures !r.start
    ensures r.loop == e.loop && r.constant == e.constant && r.period == e.period
    ensures e.start ==> r.volume == MaxVolume && r.counter == e.period
    ensures !e.start && (e.constant || e.counter == 0) ==> r == e
    ensures !e.start && !e.constant && e.counter > 1 ==> r == e.(counter := e.counter - 1)
    ensures !e.start && !e.constant && e.counter == 1 ==>
              r == e.(counter := e.period, volume := if e.volume > 0 then e.volume - 1
                                                    else if e.loop then MaxVolume else 0)
    ensures !e.start ==> r.volume == e.volume || r.volume + 1 == e.volume
                         || (e.loop && e.volume == 0 && r.volume == MaxVolume)
    ensures EnvelopeOk(e) ==> EnvelopeOk(r)
  {
    if e.start then
      e.(start := false, volume := MaxVolume, counter := e.period)
    else if !e.constant && e.counter > 0 then
      if e.counter - 1 == 0 then
        var v := if e.volume > 0 then e.volume - 1 else if e.loop then MaxVolume else e.volume;
        e.(counter := e.period, volume := v)
      else
        e.(counter := e.counter - 1)
    else
      e
  }

  // ---------------------------------------------------------- length counter

  /** One length-counter clock: decrement unless halted or already zero. */
  function LengthTick(counter: uint8, halted: bool): (r: uint8)
    ensures r <= counter
    ensures r == counter - 1 <==> !halted && counter > 0
    ensures r != counter - 1 ==> r == counter
  {
    if !halted && counter > 0 then counter - 1 else counter
  }

  /** This clock brings a nonzero length counter to zero, which disables the channel. */
  predicate LengthExpires(counter: uint8, halted: bool)
    ensures LengthExpires(counter, halted) <==> counter > 0 && LengthTick(counter, halted) == 0
  {
    !halted && counter == 1
  }

  // ------------------------------------------------------------------- sweep

  /** Sweep-unit state of a pulse channel. */
  datatype Sweep = Sweep(enabled: bool, period: uint8, negate: bool, shift: uint8,
                         counter: uint8, reload: bool)

  /** The 3-bit fields of the sweep unit stay 3-bit. */
  predicate SweepOk(s: Sweep) {
    s.period <= 7 && s.shift <= 7 && s.counter <= 7
  }

  /** Decoding a sweep-register write ($4001, $4005): bit 7 enable, bits 4-6 period,
      bit 3 negate, bits 0-2 shift; flags a reload and keeps the divider counter. */
  function SweepWritten(s: Sweep, value: uint8): (r: Sweep)
    ensures r.enabled == HasBit(value, 0x80) && r.negate == HasBit(value, 0x08)
    ensures r.period == value / 16 % 8 && r.shift == value % 8
    ensures r.reload && r.counter == s.counter
    ensures SweepOk(s) ==> SweepOk(r)
  {
    Sweep(HasBit(value, 0x80), value / 16 % 8, HasBit(value, 0x08), value % 8, s.counter, true)
  }

  /** `timer >> shift` for a 3-bit shift. */
  function ShiftRight(timer: uint16, shift: uint8): (r: uint16)
    requires shift <= 7
    ensures r <= timer
    ensures shift == 0 ==> r == timer
    ensures shift >= 1 ==> 2 * r <= timer
  {
    match shift
    case 0 => timer
    case 1 => timer / 2
    case 2 => timer / 4
    case 3 => timer / 8
    case 4 => timer / 16
    case 5 => timer / 32
    case 6 => timer / 64
    case _ => timer / 128
  }

  /** The sweep target period as the source stores it in a `uint16_t`: Pulse 1 with
      negate subtracts the change and one more; Pulse 2 (`pulse1 == false`) always adds.
      Under the firing gate (timer >= 8, shift > 0) the subtraction cannot wrap, and for
      an 11-bit timer the addition cannot either. */
  function SweepTarget(timer: uint16, shift: uint8, negate: bool, pulse1: bool): (r: uint16)
    requires shift <= 7
    ensures pulse1 && negate && timer >= 8 && shift > 0 ==>
              r == timer - ShiftRight(timer, shift) - 1 && r < timer
    ensures !(pulse1 && negate) && timer <= MaxTimer ==> r == timer + ShiftRight(timer, shift)
  {
    var change := ShiftRight(timer, shift);
    if pulse1 && negate then (timer - change - 1) % 0x1_0000 else (timer + change) % 0x1_0000
  }

  // ---------------------------------------------------------- noise LFSR

  /** Feedback bit: bit 0 XOR bit 6 in short mode (bit 7 of $400E set), else bit 0 XOR bit 1. */
  function Feedback(lfsr: uint16, shortMode: bool): (fb: int)
    ensures fb == 0 || fb == 1
  {
    (lfsr % 2 + (if shortMode then lfsr / 0x40 % 2 else lfsr / 2 % 2)) % 2
  }

  /** The feedback is set exactly when the two tapped bits differ. */
  lemma FeedbackTaps(lfsr: uint16, shortMode: bool)
    ensures shortMode ==> (Feedback(lfsr, shortMode) == 1 <==> HasBit(lfsr, 1) != HasBit(lfsr, 0x40))
    ensures !shortMode ==> (Feedback(lfsr, shortMode) == 1 <==> HasBit(lfsr, 1) != HasBit(lfsr, 0x02))
  {
  }

  /** One shift of the register: `(lfsr >> 1) | (feedback << 14)`. When bit 14 of
      `lfsr >> 1` is already set (bit 15 of a 16-bit value) the OR leaves it set. */
  function LfsrStep(lfsr: uint16, shortMode: bool): (r: uint16)
    ensures r < 0x8000
    ensures lfsr != 0 ==> r != 0
  {
    var shifted := lfsr / 2;
    if shifted >= 0x4000 then shifted else shifted + Feedback(lfsr, shortMode) * 0x4000
  }

  /** The step shifts bits 1-14 down to bits 0-13 and, on a 15-bit register, puts the
      feedback bit in bit 14. */
  lemma LfsrStepBits(lfsr: uint16, shortMode: bool)
    ensures LfsrStep(lfsr, shortMode) % 0x4000 == lfsr / 2 % 0x4000
    ensures lfsr < 0x8000 ==> LfsrStep(lfsr, shortMode) / 0x4000 == Feedback(lfsr, shortMode)
  {
  }

  /** The inverse shift: recovers the 15-bit register from its successor. */
  function LfsrUnstep(r: uint16, shortMode: bool): (lfsr: uint16)
    requires r < 0x8000
    ensures lfsr < 0x8000
  {
    var low := r % 0x4000;
    var tap := if shortMode then low / 0x20 % 2 else low % 2;
    low * 2 + (r / 0x4000 + tap) % 2
  }

  /** Division by a constant, from a quotient and remainder written out. */
  lemma DivBy2(x: int, q: int, b: int)
    requires x == 2 * q + b && 0 <= b < 2
    ensures x / 2 == q && x % 2 == b
  {
  }

  lemma DivBy40(x: int, q: int, b: int)
    requires x == 0x40 * q + b && 0 <= b < 0x40
    ensures x / 0x40 == q
  {
  }

  lemma DivBy4000(x: int, q: int, b: int)
    requires x == 0x4000 * q + b && 0 <= b < 0x4000
    ensures x / 0x4000 == q && x % 0x4000 == b
  {
  }

  /** Stepping back undoes a step: a 15-bit register is determined by its successor. */
  lemma {:induction false} LfsrUnstepUndoesStep(x: uint16, shortMode: bool)
    requires x < 0x8000
    ensures LfsrUnstep(LfsrStep(x, shortMode), shortMode) == x
  {
    var q, b0 := x / 2, x % 2;
    var m, n := q / 0x20, q % 0x20;
    DivBy40(x, m, 2 * n + b0);
    var tap := if shortMode then m % 2 else q % 2;
    var fb := (b0 + tap) % 2;
    assert tap == 0 || tap == 1;
    assert (fb + tap) % 2 == b0;
    assert Feedback(x, shortMode) == fb;
    var r := LfsrStep(x, shortMode);
    assert r == 0x4000 * fb + q;
    DivBy4000(r, fb, q);
    assert LfsrUnstep(r, shortMode) == 2 * q + b0;
  }

  /** A step undoes stepping back, so on 15-bit values the shift is a bijection;
      with `LfsrStep(0) == 0` this is why no nonzero register ever steps to 0. */
  lemma {:induction false} LfsrStepUndoesUnstep(r: uint16, shortMode: bool)
    requires r < 0x8000
    ensures LfsrStep(LfsrUnstep(r, shortMode), shortMode) == r
  {
    var low, hi := r % 0x4000, r / 0x4000;
    var m, n := low / 0x20, low % 0x20;
    var tap := if shortMode then m % 2 else low % 2;
    var b := (hi + tap) % 2;
    var x := LfsrUnstep(r, shortMode);
    assert x == 2 * low + b;
    DivBy2(x, low, b);
    DivBy40(x, m, 2 * n + b);
    assert hi == 0 || hi == 1;
    assert tap == 0 || tap == 1;
    assert (b + tap) % 2 == hi;
    assert Feedback(x, shortMode) == hi;
    assert r == 0x4000 * hi + low;
  }
}
