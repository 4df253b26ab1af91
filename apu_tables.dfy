/** The constant lookup tables of the sound unit (APU.cpp:10-38). */
module ApuTables {
  import opened Word

  /** Four 8-step duty patterns: 12.5%, 25%, 50% and 75%. */
  const DutyWaveforms: seq<seq<int>> := [
    [0, 1, 0, 0, 0, 0, 0, 0],
    [0, 1, 1, 0, 0, 0, 0, 0],
    [0, 1, 1, 1, 1, 0, 0, 0],
    [1, 0, 0, 1, 1, 1, 1, 1]
  ]

  /** Length-counter load values, indexed by bits 3-7 of the length register. */
  const LengthTable: seq<uint8> := [
    10, 254, 20, 2, 40, 4, 80, 6, 160, 8, 60, 10, 14, 12, 26, 14,
    12, 16, 24, 18, 48, 20, 96, 22, 192, 24, 72, 26, 16, 28, 32, 30
  ]

  /** The 32-step triangle ramp 0..15..0. */
  const TriangleWave: seq<int> := [
    0, 1, 2, 3, 4, 5, 6, 7,
    8, 9, 10, 11, 12, 13, 14, 15,
    15, 14, 13, 12, 11, 10, 9, 8,
    7, 6, 5, 4, 3, 2, 1, 0
  ]

  /** Noise timer periods, indexed by bits 0-3 of $400E. */
  const NoisePeriodTable: seq<uint16> := [
    4, 8, 16, 32, 64, 96, 128, 160,
    202, 254, 380, 508, 762, 1016, 2034, 4068
  ]

  /** The length counter loaded by a write of `value` to a length register:
      `LENGTH_TABLE[(value >> 3) & 0x1F]`. A load never yields zero. */
  function LengthLoad(value: uint8): (r: uint8)
    ensures 2 <= r <= 254
  {
    LengthTable[value / 8]
  }

  /** The noise timer period selected by the low four bits of $400E;
      every period is positive, so the noise gate's `noise_timer > 0` holds after the lookup. */
  function NoisePeriod(modePeriod: uint8): (r: uint16)
    ensures 4 <= r <= 4068
  {
    NoisePeriodTable[modePeriod % 16]
  }

  /** Output bit of duty pattern `duty` at step `pos`. */
  function DutyBit(duty: int, pos: int): (b: int)
    requires 0 <= duty < 4 && 0 <= pos < 8
    ensures b == 0 || b == 1
    ensures duty == 3 ==> b == 1 - DutyWaveforms[1][pos]
  {
    DutyWaveforms[duty][pos]
  }

  /** Level of the triangle ramp at step `pos`: it rises 0..15 over the first half
      and mirrors it over the second. */
  function TriangleLevel(pos: int): (r: int)
    requires 0 <= pos < 32
    ensures 0 <= r <= 15
    ensures r == if pos < 16 then pos else 31 - pos
  {
    TriangleWave[pos]
  }
}
