/**
 * The driver object: every public operation of the TCS3430 driver as a
 * method that talks to the chip through `dev`, in the same order and with
 * the same early returns as the driver. Each method's contract ties what it
 * returns and the state it leaves the device in to the matching function of
 * `Sensor`, whose properties `SensorProperties` proves.
 */
module Driver {
  import opened Bits
  import opened Registers
  import opened I2C
  import opened Device
  import BusIO
  import Sensor

  class TCS3430 {
    /** The chip behind the driver's bus handle. */
    const dev: Device
    /** The bus address last given to `Begin`. */
    var address: Byte

    ghost predicate Valid()
      reads this, dev
    {
      dev.Valid()
    }

    constructor(chip: Device)
      ensures dev == chip && address == DEFAULT_ADDR
    {
      dev := chip;
      address := DEFAULT_ADDR;
    }

    // -------------------------------------------------------------------------
    // Start-up

    /** Probe, check the chip ID, power on, enable ALS; false at the first step that fails. */
    method Begin(addr: Byte) returns (ok: bool)
      requires Valid()
      modifies this, dev
      ensures Valid() && address == addr
      ensures Reply(ok, dev.State()) == Sensor.Begin(old(dev.State()))
    {
      address := addr;
      ok := dev.Probe();
      if !ok {
        return false;
      }
      var id := dev.ReadRegister(ID);
      if id != Sensor.CHIP_ID {
        return false;
      }
      ok := PowerOn(true);
      if !ok {
        return false;
      }
      ok := ALSEnable(true);
      if !ok {
        return false;
      }
      return true;
    }

    // -------------------------------------------------------------------------
    // Timing

    method SetIntegrationCycles(cycles: Byte) returns (ok: bool)
      requires Valid()
      modifies dev
      ensures Valid() && Reply(ok, dev.State()) == BusIO.WriteRegister(old(dev.State()), ATIME, cycles)
    {
      ok := dev.WriteRegister(ATIME, cycles);
    }

    method GetIntegrationCycles() returns (cycles: Byte)
      requires Valid()
      modifies dev
      ensures Valid() && Reply(cycles, dev.State()) == BusIO.ReadRegister(old(dev.State()), ATIME)
    {
      cycles := dev.ReadRegister(ATIME);
    }

    method GetIntegrationTime() returns (ms: real)
      requires Valid()
      modifies dev
      ensures Valid() && Reply(ms, dev.State()) == Sensor.GetIntegrationTime(old(dev.State()))
    {
      var cycles := GetIntegrationCycles();
      ms := Sensor.CyclesToMs(cycles);
    }

    method SetWaitCycles(cycles: Byte) returns (ok: bool)
      requires Valid()
      modifies dev
      ensures Valid() && Reply(ok, dev.State()) == BusIO.WriteRegister(old(dev.State()), WTIME, cycles)
    {
      ok := dev.WriteRegister(WTIME, cycles);
    }

    method GetWaitCycles() returns (cycles: Byte)
      requires Valid()
      modifies dev
      ensures Valid() && Reply(cycles, dev.State()) == BusIO.ReadRegister(old(dev.State()), WTIME)
    {
      cycles := dev.ReadRegister(WTIME);
    }

    method GetWaitTime() returns (ms: real)
      requires Valid()
      modifies dev
      ensures Valid() && Reply(ms, dev.State()) == Sensor.GetWaitTime(old(dev.State()))
    {
      var cycles := GetWaitCycles();
      ms := Sensor.CyclesToMs(cycles);
    }

    // -------------------------------------------------------------------------
    // Thresholds, persistence, wait-long

    method SetALSThresholdLow(threshold: Word) returns (ok: bool)
      requires Valid()
      modifies dev
      ensures Valid() && Reply(ok, dev.State()) == BusIO.WriteRegister16(old(dev.State()), AILTL, threshold)
    {
      ok := dev.WriteRegister16(AILTL, threshold);
    }

    method GetALSThresholdLow() returns (threshold: Word)
      requires Valid()
      modifies dev
      ensures Valid() && Reply(threshold, dev.State()) == BusIO.ReadRegister16(old(dev.State()), AILTL)
    {
      threshold := dev.ReadRegister16(AILTL);
    }

    method SetALSThresholdHigh(threshold: Word) returns (ok: bool)
      requires Valid()
      modifies dev
      ensures Valid() && Reply(ok, dev.State()) == BusIO.WriteRegister16(old(dev.State()), AIHTL, threshold)
    {
      ok := dev.WriteRegister16(AIHTL, threshold);
    }

    method GetALSThresholdHigh() returns (threshold: Word)
      requires Valid()
      modifies dev
      ensures Valid() && Reply(threshold, dev.State()) == BusIO.ReadRegister16(old(dev.State()), AIHTL)
    {
      threshold := dev.ReadRegister16(AIHTL);
    }

    method SetInterruptPersistence(persistence: Persistence) returns (ok: bool)
      requires Valid()
      modifies dev
      ensures Valid() && Reply(ok, dev.State()) == BusIO.WriteField(old(dev.State()), Sensor.PersistenceBits, persistence)
    {
      ok := dev.WriteField(Sensor.PersistenceBits, persistence);
    }

    method GetInterruptPersistence() returns (persistence: Persistence)
      requires Valid()
      modifies dev
      ensures Valid() && Reply(persistence as Byte, dev.State()) == BusIO.ReadField(old(dev.State()), Sensor.PersistenceBits)
    {
      var bits := dev.ReadField(Sensor.PersistenceBits);
      persistence := bits;
    }

    method SetWaitLong(enable: bool) returns (ok: bool)
      requires Valid()
      modifies dev
      ensures Valid() && Reply(ok, dev.State()) == Sensor.SetFlag(old(dev.State()), Sensor.WaitLongBit, enable)
    {
      ok := SetFlag(Sensor.WaitLongBit, enable);
    }

    method GetWaitLong() returns (enabled: bool)
      requires Valid()
      modifies dev
      ensures Valid() && Reply(enabled, dev.State()) == Sensor.GetFlag(old(dev.State()), Sensor.WaitLongBit)
    {
      enabled := GetFlag(Sensor.WaitLongBit);
    }

    // -------------------------------------------------------------------------
    // Channel MUX and gain

    /** true: the fourth channel reports IR2; false: it reports X. */
    method SetALSMuxIR2(enable: bool) returns (ok: bool)
      requires Valid()
      modifies dev
      ensures Valid() && Reply(ok, dev.State()) == Sensor.SetFlag(old(dev.State()), Sensor.MuxBit, enable)
    {
      ok := SetFlag(Sensor.MuxBit, enable);
    }

    method GetALSMuxIR2() returns (ir2: bool)
      requires Valid()
      modifies dev
      ensures Valid() && Reply(ir2, dev.State()) == Sensor.GetFlag(old(dev.State()), Sensor.MuxBit)
    {
      ir2 := GetFlag(Sensor.MuxBit);
    }

    /** 128x is written as the 64x code plus the high-gain bit; every other gain as its code with the bit clear. */
    method SetALSGain(gain: Gain) returns (ok: bool)
      requires Valid()
      modifies dev
      ensures Valid() && Reply(ok, dev.State()) == Sensor.SetALSGain(old(dev.State()), gain)
    {
      if gain == Gain128X {
        ok := dev.WriteField(Sensor.GainBits, GainCode(Gain64X));
        if ok {
          ok := dev.WriteField(Sensor.HighGainBit, 1);
        }
      } else {
        ok := dev.WriteField(Sensor.GainBits, GainCode(gain));
        if ok {
          ok := dev.WriteField(Sensor.HighGainBit, 0);
        }
      }
    }

    method GetALSGain() returns (gain: Gain)
      requires Valid()
      modifies dev
      ensures Valid() && Reply(gain, dev.State()) == Sensor.GetALSGain(old(dev.State()))
    {
      var code := dev.ReadField(Sensor.GainBits);
      var high := dev.ReadField(Sensor.HighGainBit);
      if code == GainCode(Gain64X) && high != 0 {
        return Gain128X;
      }
      gain := GainOfCode(code);
    }

    // -------------------------------------------------------------------------
    // Status

    method IsALSSaturated() returns (saturated: bool)
      requires Valid()
      modifies dev
      ensures Valid() && Reply(saturated, dev.State()) == Sensor.GetFlag(old(dev.State()), Sensor.SaturatedBit)
    {
      saturated := GetFlag(Sensor.SaturatedBit);
    }

    /** Writes 0x80 to STATUS, the chip's clear for the saturation flag. */
    method ClearALSSaturated() returns (ok: bool)
      requires Valid()
      modifies dev
      ensures Valid() && Reply(ok, dev.State()) == BusIO.WriteRegister(old(dev.State()), STATUS, Sensor.CLEAR_SATURATION)
    {
      ok := dev.WriteRegister(STATUS, Sensor.CLEAR_SATURATION);
    }

    method IsALSInterrupt() returns (pending: bool)
      requires Valid()
      modifies dev
      ensures Valid() && Reply(pending, dev.State()) == Sensor.GetFlag(old(dev.State()), Sensor.InterruptBit)
    {
      pending := GetFlag(Sensor.InterruptBit);
    }

    /** Writes 0xFF to STATUS, clearing every flag. */
    method ClearALSInterrupt() returns (ok: bool)
      requires Valid()
      modifies dev
      ensures Valid() && Reply(ok, dev.State()) == BusIO.WriteRegister(old(dev.State()), STATUS, Sensor.CLEAR_ALL)
    {
      ok := dev.WriteRegister(STATUS, Sensor.CLEAR_ALL);
    }

    // -------------------------------------------------------------------------
    // Measurements

    /**
     * The X, Y, Z and IR1 counts from one 8-byte burst, with the MUX on X for
     * the burst and put back afterwards. None: the call failed and the
     * caller's outputs are left as they were.
     */
    method GetChannels() returns (channels: Sensor.Option<Sensor.Channels>)
      requires Valid()
      modifies dev
      ensures Valid() && Reply(channels, dev.State()) == Sensor.GetChannels(old(dev.State()))
    {
      var wasIR2 := GetALSMuxIR2();
      if wasIR2 {
        var cleared := SetALSMuxIR2(false);
        if !cleared {
          return Sensor.None;
        }
      }
      var buffer := new Byte[8];
      var ok := dev.ReadBytes(CH0DATAL, buffer);
      if !ok {
        if wasIR2 {
          var _ := SetALSMuxIR2(true);
        }
        return Sensor.None;
      }
      var z := LittleEndian(buffer[0], buffer[1]);
      var y := LittleEndian(buffer[2], buffer[3]);
      var ir1 := LittleEndian(buffer[4], buffer[5]);
      var x := LittleEndian(buffer[6], buffer[7]);
      if wasIR2 {
        var _ := SetALSMuxIR2(true);
      }
      channels := Sensor.Some(Sensor.Channels(x, y, z, ir1));
    }

    /** IR2 with the MUX switched to IR2, then back to X if it was on X; 0 if the switch fails. */
    method GetIR2() returns (ir2: Word)
      requires Valid()
      modifies dev
      ensures Valid() && Reply(ir2, dev.State()) == Sensor.GetIR2(old(dev.State()))
    {
      var wasIR2 := GetALSMuxIR2();
      var switched := SetALSMuxIR2(true);
      if !switched {
        return 0;
      }
      var settle := GetIntegrationTime();
      ir2 := dev.ReadRegister16(CH3DATAL);
      if !wasIR2 {
        var _ := SetALSMuxIR2(false);
      }
    }

    /** CIE 1931 x and y of a fresh reading. */
    method GetCIE() returns (cie: Sensor.CIE)
      requires Valid()
      modifies dev
      ensures Valid() && Reply(cie, dev.State()) == Sensor.GetCIE(old(dev.State()))
    {
      var channels := GetChannels();
      if channels.None? {
        return Sensor.CIE(false, Sensor.None);
      }
      cie := Sensor.Chromaticity(channels.value);
    }

    /** Lux from the Y count, the gain and the integration time; 0 when the reading fails. */
    method GetLux() returns (lux: real)
      requires Valid()
      modifies dev
      ensures Valid() && Reply(lux, dev.State()) == Sensor.GetLux(old(dev.State()))
    {
      var channels := GetChannels();
      if channels.None? {
        return 0.0;
      }
      var gain := GetALSGain();
      var multiplier := Sensor.LuxGainMultiplier(GainCode(gain));
      var ms := GetIntegrationTime();
      if ms <= 0.0 {
        return 0.0;
      }
      lux := Sensor.Lux(channels.value.y, multiplier, ms);
    }

    /** Correlated colour temperature by McCamy's formula; 0 when the chromaticity call fails. */
    method GetCCT() returns (cct: Sensor.Option<real>)
      requires Valid()
      modifies dev
      ensures Valid() && Reply(cct, dev.State()) == Sensor.GetCCT(old(dev.State()))
    {
      var cie := GetCIE();
      if !cie.ok {
        return Sensor.Some(0.0);
      }
      var (x, y) := cie.written.value;
      cct := Sensor.McCamy(x, y);
    }

    // -------------------------------------------------------------------------
    // Configuration and enable bits

    method SetInterruptClearOnRead(enable: bool) returns (ok: bool)
      requires Valid()
      modifies dev
      ensures Valid() && Reply(ok, dev.State()) == Sensor.SetFlag(old(dev.State()), Sensor.ClearOnReadBit, enable)
    {
      ok := SetFlag(Sensor.ClearOnReadBit, enable);
    }

    method GetInterruptClearOnRead() returns (enabled: bool)
      requires Valid()
      modifies dev
      ensures Valid() && Reply(enabled, dev.State()) == Sensor.GetFlag(old(dev.State()), Sensor.ClearOnReadBit)
    {
      enabled := GetFlag(Sensor.ClearOnReadBit);
    }

    method SetSleepAfterInterrupt(enable: bool) returns (ok: bool)
      requires Valid()
      modifies dev
      ensures Valid() && Reply(ok, dev.State()) == Sensor.SetFlag(old(dev.State()), Sensor.SleepAfterInterruptBit, enable)
    {
      ok := SetFlag(Sensor.SleepAfterInterruptBit, enable);
    }

    method GetSleepAfterInterrupt() returns (enabled: bool)
      requires Valid()
      modifies dev
      ensures Valid() && Reply(enabled, dev.State()) == Sensor.GetFlag(old(dev.State()), Sensor.SleepAfterInterruptBit)
    {
      enabled := GetFlag(Sensor.SleepAfterInterruptBit);
    }

    method SetAutoZeroMode(enable: bool) returns (ok: bool)
      requires Valid()
      modifies dev
      ensures Valid() && Reply(ok, dev.State()) == Sensor.SetFlag(old(dev.State()), Sensor.AutoZeroModeBit, enable)
    {
      ok := SetFlag(Sensor.AutoZeroModeBit, enable);
    }

    method GetAutoZeroMode() returns (enabled: bool)
      requires Valid()
      modifies dev
      ensures Valid() && Reply(enabled, dev.State()) == Sensor.GetFlag(old(dev.State()), Sensor.AutoZeroModeBit)
    {
      enabled := GetFlag(Sensor.AutoZeroModeBit);
    }

    /** The 7-bit auto-zero interval; bit 7 of `n` is dropped by the field write. */
    method SetRunAutoZeroEveryN(n: Byte) returns (ok: bool)
      requires Valid()
      modifies dev
      ensures Valid() && Reply(ok, dev.State()) == BusIO.WriteField(old(dev.State()), Sensor.AutoZeroEveryNBits, n)
    {
      ok := dev.WriteField(Sensor.AutoZeroEveryNBits, n);
    }

    method GetRunAutoZeroEveryN() returns (n: Byte)
      requires Valid()
      modifies dev
      ensures Valid() && Reply(n, dev.State()) == BusIO.ReadField(old(dev.State()), Sensor.AutoZeroEveryNBits)
    {
      n := dev.ReadField(Sensor.AutoZeroEveryNBits);
    }

    method EnableSaturationInt(enable: bool) returns (ok: bool)
      requires Valid()
      modifies dev
      ensures Valid() && Reply(ok, dev.State()) == Sensor.SetFlag(old(dev.State()), Sensor.SaturationIntBit, enable)
    {
      ok := SetFlag(Sensor.SaturationIntBit, enable);
    }

    method EnableALSInt(enable: bool) returns (ok: bool)
      requires Valid()
      modifies dev
      ensures Valid() && Reply(ok, dev.State()) == Sensor.SetFlag(old(dev.State()), Sensor.AlsIntBit, enable)
    {
      ok := SetFlag(Sensor.AlsIntBit, enable);
    }

    method WaitEnable(enable: bool) returns (ok: bool)
      requires Valid()
      modifies dev
      ensures Valid() && Reply(ok, dev.State()) == Sensor.SetFlag(old(dev.State()), Sensor.WaitEnableBit, enable)
    {
      ok := SetFlag(Sensor.WaitEnableBit, enable);
    }

    method IsWaitEnabled() returns (enabled: bool)
      requires Valid()
      modifies dev
      ensures Valid() && Reply(enabled, dev.State()) == Sensor.GetFlag(old(dev.State()), Sensor.WaitEnableBit)
    {
      enabled := GetFlag(Sensor.WaitEnableBit);
    }

    method ALSEnable(enable: bool) returns (ok: bool)
      requires Valid()
      modifies dev
      ensures Valid() && Reply(ok, dev.State()) == Sensor.SetFlag(old(dev.State()), Sensor.AlsEnableBit, enable)
    {
      ok := SetFlag(Sensor.AlsEnableBit, enable);
    }

    method IsALSEnabled() returns (enabled: bool)
      requires Valid()
      modifies dev
      ensures Valid() && Reply(enabled, dev.State()) == Sensor.GetFlag(old(dev.State()), Sensor.AlsEnableBit)
    {
      enabled := GetFlag(Sensor.AlsEnableBit);
    }

    method PowerOn(enable: bool) returns (ok: bool)
      requires Valid()
      modifies dev
      ensures Valid() && Reply(ok, dev.State()) == Sensor.SetFlag(old(dev.State()), Sensor.PowerOnBit, enable)
    {
      ok := SetFlag(Sensor.PowerOnBit, enable);
    }

    method IsPoweredOn() returns (enabled: bool)
      requires Valid()
      modifies dev
      ensures Valid() && Reply(enabled, dev.State()) == Sensor.GetFlag(old(dev.State()), Sensor.PowerOnBit)
    {
      enabled := GetFlag(Sensor.PowerOnBit);
    }

    // -------------------------------------------------------------------------
    // One-bit fields

    /** A one-bit field written from a flag. */
    method SetFlag(f: BusIO.Field, enable: bool) returns (ok: bool)
      requires Valid() && f.Valid()
      modifies dev
      ensures Valid() && Reply(ok, dev.State()) == Sensor.SetFlag(old(dev.State()), f, enable)
    {
      ok := dev.WriteField(f, if enable then 1 else 0);
    }

    /** A field read as a flag. */
    method GetFlag(f: BusIO.Field) returns (isSet: bool)
      requires Valid() && f.Valid()
      modifies dev
      ensures Valid() && Reply(isSet, dev.State()) == Sensor.GetFlag(old(dev.State()), f)
    {
      var bits := dev.ReadField(f);
      isSet := bits != 0;
    }
  }
}
