/**
 * The TCS3430 driver's operations as functions of the bus: each takes the bus
 * before the call and gives what the call returns together with the bus after
 * it, making the same transfers in the same order as the driver.
 *
 * The colour computations use exact real arithmetic where the driver uses
 * single-precision floats.
 */
module Sensor {
  import opened Bits
  import opened Registers
  import opened I2C
  import opened BusIO

  datatype Option<T> = None | Some(value: T)

  /** The value the ID register holds on a TCS3430. */
  const CHIP_ID: Byte := 0xDC
  /** Written to STATUS to clear the saturation flag only. */
  const CLEAR_SATURATION: Byte := 0x80
  /** Written to STATUS to clear every flag. */
  const CLEAR_ALL: Byte := 0xFF

  const WaitEnableBit := Field(ENABLE, 1, 3)
  const AlsEnableBit := Field(ENABLE, 1, 1)
  const PowerOnBit := Field(ENABLE, 1, 0)
  const PersistenceBits := Field(PERS, 4, 0)
  const WaitLongBit := Field(CFG0, 1, 2)
  /** Set: the fourth ADC channel reports IR2; clear: it reports X. */
  const MuxBit := Field(CFG1, 1, 3)
  const GainBits := Field(CFG1, 2, 0)
  const HighGainBit := Field(CFG2, 1, 4)
  const SaturatedBit := Field(STATUS, 1, 7)
  const InterruptBit := Field(STATUS, 1, 4)
  const ClearOnReadBit := Field(CFG3, 1, 7)
  const SleepAfterInterruptBit := Field(CFG3, 1, 4)
  const AutoZeroModeBit := Field(AZ_CONFIG, 1, 7)
  const AutoZeroEveryNBits := Field(AZ_CONFIG, 7, 0)
  const SaturationIntBit := Field(INTENAB, 1, 7)
  const AlsIntBit := Field(INTENAB, 1, 4)

  /** A one-bit field written from a flag: 1 for true, 0 for false. */
  function SetFlag(b: Bus, f: Field, enable: bool): (r: Reply<bool>)
    requires b.Valid() && f.Valid()
    ensures r.bus.Valid()
  {
    WriteField(b, f, if enable then 1 else 0)
  }

  /** A field read as a flag: true when any of its bits is set. */
  function GetFlag(b: Bus, f: Field): (r: Reply<bool>)
    requires b.Valid() && f.Valid()
    ensures r.bus == Attempt(b, Read(f.reg, 1)) && r.bus.Valid()
  {
    var got := ReadField(b, f);
    Reply(got.value != 0, got.bus)
  }

  /**
   * Start-up: the chip must acknowledge its address and report CHIP_ID; then it
   * is powered on and its ALS engine enabled. The first step that fails ends
   * the call with false.
   */
  function Begin(b: Bus): (r: Reply<bool>)
    requires b.Valid()
    ensures r.bus.Valid()
  {
    var probe := ProbeBus(b);
    if !probe.value then Reply(false, probe.bus)
    else
      var id := ReadRegister(probe.bus, ID);
      if id.value != CHIP_ID then Reply(false, id.bus)
      else
        var on := SetFlag(id.bus, PowerOnBit, true);
        if !on.value then Reply(false, on.bus)
        else
          var als := SetFlag(on.bus, AlsEnableBit, true);
          if !als.value then Reply(false, als.bus)
          else Reply(true, als.bus)
  }

  /** The integration or wait time, in milliseconds, that a cycle count stands for. */
  function CyclesToMs(cycles: Byte): (ms: real)
    ensures 2.78 <= ms <= 256.0 * 2.78
  {
    (cycles as int + 1) as real * 2.78
  }

  function GetIntegrationTime(b: Bus): (r: Reply<real>)
    requires b.Valid()
    ensures r.bus == Attempt(b, Read(ATIME, 1)) && r.bus.Valid()
    ensures 2.78 <= r.value
  {
    var cycles := ReadRegister(b, ATIME);
    Reply(CyclesToMs(cycles.value), cycles.bus)
  }

  function GetWaitTime(b: Bus): (r: Reply<real>)
    requires b.Valid()
    ensures r.bus == Attempt(b, Read(WTIME, 1)) && r.bus.Valid()
    ensures 2.78 <= r.value
  {
    var cycles := ReadRegister(b, WTIME);
    Reply(CyclesToMs(cycles.value), cycles.bus)
  }

  /**
   * The code written to the 2-bit gain field of CFG1: 128x has no code of its
   * own there and is written as 64x.
   */
  function GainBitsOf(g: Gain): (c: Byte)
    ensures c <= Mask(2)
    ensures c == GainCode(g) <==> g != Gain128X
  {
    if g == Gain128X then GainCode(Gain64X) else GainCode(g)
  }

  /** The high-gain flag written to CFG2: set for 128x only, the one gain whose value does not fit the gain field. */
  function HighGainOf(g: Gain): (high: bool)
    ensures high <==> GainCode(g) > Mask(2)
  {
    g == Gain128X
  }

  /** The gain setting the gain code and the high-gain flag stand for. */
  function DecodeGain(code: Byte, high: bool): (g: Gain)
    requires code <= Mask(2)
    ensures g == Gain128X <==> code == GainCode(Gain64X) && high
    ensures g != Gain128X ==> GainCode(g) == code
    ensures GainBitsOf(g) == code
  {
    if code == GainCode(Gain64X) && high then Gain128X else GainOfCode(code)
  }

  function SetALSGain(b: Bus, g: Gain): (r: Reply<bool>)
    requires b.Valid()
    ensures r.bus.Valid()
  {
    if g == Gain128X then
      var code := WriteField(b, GainBits, GainCode(Gain64X));
      if !code.value then Reply(false, code.bus)
      else
        var high := WriteField(code.bus, HighGainBit, 1);
        if !high.value then Reply(false, high.bus) else Reply(true, high.bus)
    else
      var code := WriteField(b, GainBits, GainCode(g));
      if !code.value then Reply(false, code.bus)
      else
        var high := WriteField(code.bus, HighGainBit, 0);
        if !high.value then Reply(false, high.bus) else Reply(true, high.bus)
  }

  function GetALSGain(b: Bus): (r: Reply<Gain>)
    requires b.Valid()
    ensures r.bus.Valid()
  {
    var code := ReadField(b, GainBits);
    var high := ReadField(code.bus, HighGainBit);
    Reply(DecodeGain(code.value, high.value != 0), high.bus)
  }

  /** One sample of the X, Y, Z and IR1 channels. */
  datatype Channels = Channels(x: Word, y: Word, z: Word, ir1: Word)

  /** The eight data registers from CH0DATAL on, as they hold a sample: Z, Y, IR1, X, each low byte first. */
  function ChannelBytes(c: Channels): (buf: seq<Byte>)
    ensures |buf| == 8
  {
    [Lo(c.z), Hi(c.z), Lo(c.y), Hi(c.y), Lo(c.ir1), Hi(c.ir1), Lo(c.x), Hi(c.x)]
  }

  /** The sample that eight bytes read from CH0DATAL on hold. */
  function DecodeChannels(buf: seq<Byte>): (c: Channels)
    requires |buf| == 8
    ensures ChannelBytes(c) == buf
  {
    Channels(x := LittleEndian(buf[6], buf[7]),
             y := LittleEndian(buf[2], buf[3]),
             z := LittleEndian(buf[0], buf[1]),
             ir1 := LittleEndian(buf[4], buf[5]))
  }

  /** The MUX is set back to IR2 if it was IR2; the outcome of that write is not looked at. */
  function RestoreMux(b: Bus, wasIR2: bool): (b': Bus)
    requires b.Valid()
    ensures b'.Valid()
  {
    if wasIR2 then SetFlag(b, MuxBit, true).bus else b
  }

  /**
   * The four channels in one 8-byte burst, with the MUX switched to X for the
   * burst when it was on IR2 and switched back afterwards, whether or not the
   * burst completed. None: the call returned false and wrote no channel.
   */
  function GetChannels(b: Bus): (r: Reply<Option<Channels>>)
    requires b.Valid()
    ensures r.bus.Valid()
  {
    var mux := GetFlag(b, MuxBit);
    var wasIR2 := mux.value;
    var cleared := if wasIR2 then SetFlag(mux.bus, MuxBit, false) else Reply(true, mux.bus);
    if !cleared.value then Reply(None, cleared.bus)
    else
      var burst := ReadBytes(cleared.bus, CH0DATAL, 8);
      if !burst.value.ok then Reply(None, RestoreMux(burst.bus, wasIR2))
      else Reply(Some(DecodeChannels(burst.value.data)), RestoreMux(burst.bus, wasIR2))
  }

  /**
   * IR2: the MUX is switched to IR2, the integration time is read (the driver
   * waits that long for the ADC to settle), CH3 is read, and the MUX is
   * switched back to X if it was on X. If switching to IR2 fails the result
   * is 0 and nothing more happens.
   */
  function GetIR2(b: Bus): (r: Reply<Word>)
    requires b.Valid()
    ensures r.bus.Valid()
  {
    var mux := GetFlag(b, MuxBit);
    var switched := SetFlag(mux.bus, MuxBit, true);
    if !switched.value then Reply(0, switched.bus)
    else
      var settle := GetIntegrationTime(switched.bus);
      var ir2 := ReadRegister16(settle.bus, CH3DATAL);
      Reply(ir2.value, if !mux.value then SetFlag(ir2.bus, MuxBit, false).bus else ir2.bus)
  }

  /**
   * getChannels as it is evidently meant to behave: a MUX read that fails ends
   * the call with false before anything is written, instead of being taken
   * for IR2. When the MUX read completes it is getChannels itself.
   */
  function GetChannelsGuarded(b: Bus): (r: Reply<Option<Channels>>)
    requires b.Valid()
    ensures r.bus.Valid()
    ensures b.Succeeds(0) ==> r == GetChannels(b)
    ensures !b.Succeeds(0) ==> r.value.None? && r.bus.regs == b.regs
  {
    if b.NextFails() then Reply(None, GetFlag(b, MuxBit).bus) else GetChannels(b)
  }

  /**
   * getIR2 as it is evidently meant to behave: a MUX read that fails ends the
   * call with 0 before anything is written. When the MUX read completes it is
   * getIR2 itself.
   */
  function GetIR2Guarded(b: Bus): (r: Reply<Word>)
    requires b.Valid()
    ensures r.bus.Valid()
    ensures b.Succeeds(0) ==> r == GetIR2(b)
    ensures !b.Succeeds(0) ==> r.value == 0 && r.bus.regs == b.regs
  {
    if b.NextFails() then Reply(0, GetFlag(b, MuxBit).bus) else GetIR2(b)
  }

  /** What the chromaticity call reports, and what it stored in its two outputs (None: left as they were). */
  datatype CIE = CIE(ok: bool, written: Option<(real, real)>)

  /** The chromaticity of one set of channel counts: x = X / (X + Y + Z), y = Y / (X + Y + Z); not ok, (0, 0) when all are 0. */
  function Chromaticity(c: Channels): (r: CIE)
    ensures r.written.Some?
    ensures r.ok <==> c.x as int + c.y as int + c.z as int > 0
    ensures !r.ok ==> r.written == Some((0.0, 0.0))
  {
    var sum := c.x as int as real + c.y as int as real + c.z as int as real;
    if sum <= 0.0 then CIE(false, Some((0.0, 0.0)))
    else CIE(true, Some((c.x as int as real / sum, c.y as int as real / sum)))
  }

  /** The chromaticity of a fresh reading; not ok, with nothing written, when the reading fails. */
  function GetCIE(b: Bus): (r: Reply<CIE>)
    requires b.Valid()
    ensures r.bus == GetChannels(b).bus
    ensures GetChannels(b).value.None? ==> r.value == CIE(false, None)
    ensures GetChannels(b).value.Some? ==> r.value == Chromaticity(GetChannels(b).value.value)
  {
    var channels := GetChannels(b);
    match channels.value
    case None => Reply(CIE(false, None), channels.bus)
    case Some(c) => Reply(Chromaticity(c), channels.bus)
  }

  /** The divisor the lux computation uses for each gain value; any other value counts as 1x. */
  function LuxGainMultiplier(code: Byte): (m: real)
    ensures m >= 1.0
  {
    if code == GainCode(Gain1X) then 1.0
    else if code == GainCode(Gain4X) then 4.0
    else if code == GainCode(Gain16X) then 16.0
    else if code == GainCode(Gain64X) then 66.0
    else if code == GainCode(Gain128X) then 137.0
    else 1.0
  }

  /** Lux from the Y channel: Y / gain multiplier / integration time in seconds; 0 when the channel read fails. */
  function GetLux(b: Bus): (r: Reply<real>)
    requires b.Valid()
    ensures r.bus.Valid()
  {
    var channels := GetChannels(b);
    match channels.value
    case None => Reply(0.0, channels.bus)
    case Some(c) =>
      var gain := GetALSGain(channels.bus);
      var multiplier := LuxGainMultiplier(GainCode(gain.value));
      var ms := GetIntegrationTime(gain.bus);
      if ms.value <= 0.0 then Reply(0.0, ms.bus)
      else Reply(Lux(c.y, multiplier, ms.value), ms.bus)
  }

  /**
   * Lux from a Y count, a gain divisor and an integration time in
   * milliseconds: never negative, and zero exactly when the count is.
   */
  function Lux(y: Word, multiplier: real, ms: real): (lux: real)
    requires 1.0 <= multiplier && 0.0 < ms
    ensures 0.0 <= lux && (lux == 0.0 <==> y == 0)
  {
    var count := y as int as real;
    QuotientSign(count, multiplier);
    QuotientSign(count / multiplier, ms / 1000.0);
    count / multiplier / (ms / 1000.0)
  }

  /** Dividing by a positive number keeps the sign and maps only zero to zero. */
  lemma QuotientSign(x: real, d: real)
    requires 0.0 <= x && 0.0 < d
    ensures 0.0 <= x / d && (x / d == 0.0 <==> x == 0.0)
  {
    assert x / d * d == x;
  }

  /**
   * McCamy's cubic approximation of the correlated colour temperature at
   * chromaticity (x, y), in kelvin. None: y is 0.1858, where the float division
   * gives an infinity or NaN.
   */
  function McCamy(x: real, y: real): (r: Option<real>)
    ensures r.None? <==> y == 0.1858
  {
    if y == 0.1858 then None
    else
      var n := (x - 0.3320) / (0.1858 - y);
      Some(449.0 * n * n * n + 3525.0 * n * n + 6823.3 * n + 5520.33)
  }

  /** The colour temperature at the measured chromaticity; 0 when the chromaticity call fails. */
  function GetCCT(b: Bus): (r: Reply<Option<real>>)
    requires b.Valid()
    ensures r.bus == GetChannels(b).bus
  {
    var cie := GetCIE(b);
    if !cie.value.ok then Reply(Some(0.0), cie.bus)
    else
      var (x, y) := cie.value.written.value;
      Reply(McCamy(x, y), cie.bus)
  }
}
