/**
 * The TCS3430's register map, its default bus address and the value
 * encodings of its gain and interrupt-persistence settings.
 */
module Registers {
  import opened Bits

  /** An 8-bit register address. */
  type Address = a: int | 0 <= a < 256

  /** The bus address the chip answers at unless strapped otherwise. */
  const DEFAULT_ADDR: Byte := 0x39

  const ENABLE: Address := 0x80     // enable states and interrupts
  const ATIME: Address := 0x81      // ADC integration time
  const WTIME: Address := 0x83      // ALS wait time
  const AILTL: Address := 0x84      // ALS low threshold, low byte
  const AILTH: Address := 0x85      // ALS low threshold, high byte
  const AIHTL: Address := 0x86      // ALS high threshold, low byte
  const AIHTH: Address := 0x87      // ALS high threshold, high byte
  const PERS: Address := 0x8C       // interrupt persistence filter
  const CFG0: Address := 0x8D
  const CFG1: Address := 0x90
  const REVID: Address := 0x91      // revision ID
  const ID: Address := 0x92         // device ID
  const STATUS: Address := 0x93
  const CH0DATAL: Address := 0x94   // Z, low byte
  const CH0DATAH: Address := 0x95   // Z, high byte
  const CH1DATAL: Address := 0x96   // Y, low byte
  const CH1DATAH: Address := 0x97   // Y, high byte
  const CH2DATAL: Address := 0x98   // IR1, low byte
  const CH2DATAH: Address := 0x99   // IR1, high byte
  const CH3DATAL: Address := 0x9A   // X or IR2, low byte
  const CH3DATAH: Address := 0x9B   // X or IR2, high byte
  const CFG2: Address := 0x9F
  const CFG3: Address := 0xAB
  const AZ_CONFIG: Address := 0xD6  // auto-zero configuration
  const INTENAB: Address := 0xDD    // interrupt enables

  /** The five ALS gain settings. */
  datatype Gain = Gain1X | Gain4X | Gain16X | Gain64X | Gain128X

  /** The numeric value of each gain setting. */
  function GainCode(g: Gain): (c: Byte)
    ensures c <= 0x4
  {
    match g
    case Gain1X => 0x0
    case Gain4X => 0x1
    case Gain16X => 0x2
    case Gain64X => 0x3
    case Gain128X => 0x4
  }

  /** The gain setting a numeric value names. */
  function GainOfCode(c: Byte): (g: Gain)
    requires c <= 0x4
    ensures GainCode(g) == c
  {
    if c == 0x0 then Gain1X
    else if c == 0x1 then Gain4X
    else if c == 0x2 then Gain16X
    else if c == 0x3 then Gain64X
    else Gain128X
  }

  /**
   * An interrupt-persistence setting: 0x0 interrupts on every ALS cycle, the
   * others after 1, 2, 3, 5, 10, 15, ..., 60 consecutive out-of-range values.
   */
  type Persistence = p: Byte | p <= 0xF

  /** The number of consecutive out-of-range ALS values each setting waits for. */
  function PersistenceCycles(p: Persistence): (n: nat)
    ensures n <= 60 && (n == 0 <==> p == 0)
  {
    [0, 1, 2, 3, 5, 10, 15, 20, 25, 30, 35, 40, 45, 50, 55, 60][p as int]
  }

  /**
   * The codes are ordered as the cycle counts they stand for, so a larger code
   * always waits for more out-of-range values.
   */
  lemma PersistenceCyclesIncrease(p: Persistence, q: Persistence)
    requires p < q
    ensures PersistenceCycles(p) < PersistenceCycles(q)
  {
  }
}
