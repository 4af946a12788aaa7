/** What the driver's operations guarantee, stated over the model in `Sensor`. */
module SensorProperties {
  import opened Bits
  import opened Registers
  import opened I2C
  import opened BusIO
  import opened Sensor

  // ---------------------------------------------------------------------------
  // The register map and the encodings

  /** The eight channel data registers are consecutive, Z then Y then IR1 then X/IR2, low byte first. */
  lemma DataRegistersConsecutive()
    ensures CH0DATAH == CH0DATAL + 1 && CH1DATAL == CH0DATAL + 2 && CH1DATAH == CH0DATAL + 3
    ensures CH2DATAL == CH0DATAL + 4 && CH2DATAH == CH0DATAL + 5
    ensures CH3DATAL == CH0DATAL + 6 && CH3DATAH == CH0DATAL + 7
  {
  }

  /** Each threshold's high byte follows its low byte, as a 2-byte LSB-first register needs. */
  lemma ThresholdBytesAdjacent()
    ensures AILTH == AILTL + 1 && AIHTH == AIHTL + 1
  {
  }

  /** The gain values of 1x to 64x fit the 2-bit gain field; that of 128x does not. */
  lemma GainCodeFits(g: Gain)
    ensures GainCode(g) <= Mask(2) <==> g != Gain128X
  {
  }

  /** Written into the 2-bit field as it is, 128x's value would read back as 1x. */
  lemma Gain128XValueTruncates(cfg1: Byte)
    ensures GetBits(SetBits(cfg1, 2, 0, GainCode(Gain128X)), 2, 0) == GainCode(Gain1X)
  {
  }

  /** All sixteen persistence values fit the 4-bit PERS field and read back unchanged. */
  lemma PersistenceFitsField(pers: Byte, p: Persistence)
    ensures GetBits(SetBits(pers, 4, 0, p), 4, 0) == p
  {
  }

  /** 0x80 covers the saturation flag and not the interrupt flag; 0xFF covers both. */
  lemma StatusClearValues()
    ensures GetBits(CLEAR_SATURATION, SaturatedBit.width, SaturatedBit.offset) == 1
    ensures GetBits(CLEAR_SATURATION, InterruptBit.width, InterruptBit.offset) == 0
    ensures GetBits(CLEAR_ALL, SaturatedBit.width, SaturatedBit.offset) == 1
    ensures GetBits(CLEAR_ALL, InterruptBit.width, InterruptBit.offset) == 1
  {
  }

  // ---------------------------------------------------------------------------
  // Gain

  /** Each gain setting is recovered from the code and flag it is written as. */
  lemma GainEncodingRoundTrip(g: Gain)
    ensures DecodeGain(GainBitsOf(g), HighGainOf(g)) == g
  {
  }

  /**
   * When both field writes complete and the reads before them complete,
   * setting a gain changes exactly the gain field of CFG1 and the high-gain
   * bit of CFG2: the code is 64x's for 128x and the setting's own otherwise,
   * the bit set for 128x and clear otherwise.
   */
  lemma SetALSGainEffect(b: Bus, g: Gain)
    requires b.Valid() && b.Succeeds(0) && b.Succeeds(1) && b.Succeeds(2) && b.Succeeds(3)
    ensures var r := SetALSGain(b, g);
      && r.value
      && r.bus.regs == b.regs[CFG1 := SetBits(b.regs[CFG1], 2, 0, GainBitsOf(g))]
                             [CFG2 := SetBits(b.regs[CFG2], 1, 4, if HighGainOf(g) then 1 else 0)]
  {
    var code := WriteField(b, GainBits, GainBitsOf(g));
    WriteFieldFrame(b, GainBits, GainBitsOf(g));
    WriteFieldFrame(code.bus, HighGainBit, if HighGainOf(g) then 1 else 0);
  }

  /** If writing the gain code fails, CFG2 is not touched, no register changes, and the call fails. */
  lemma SetALSGainCodeFails(b: Bus, g: Gain)
    requires b.Valid() && !b.Succeeds(1)
    ensures var r := SetALSGain(b, g);
      && !r.value && r.bus.regs == b.regs
      && |r.bus.log| == |b.log| + 2
      && forall e :: e in r.bus.log[|b.log|..] ==> e.transfer.addr == CFG1
  {
    WriteFieldFrame(b, GainBits, GainBitsOf(g));
    WriteFieldTransfers(b, GainBits, GainBitsOf(g));
  }

  /** If the gain code is written but the high-gain bit is not, the call fails and the code stays written. */
  lemma SetALSGainBitFails(b: Bus, g: Gain)
    requires b.Valid() && b.Succeeds(1) && !b.Succeeds(3)
    ensures var r := SetALSGain(b, g);
      && !r.value
      && GetBits(r.bus.regs[CFG1], 2, 0) == GainBitsOf(g)
      && r.bus.regs[CFG2] == b.regs[CFG2]
  {
    var code := WriteField(b, GainBits, GainBitsOf(g));
    WriteFieldFrame(b, GainBits, GainBitsOf(g));
    WriteFieldEffect(b, GainBits, GainBitsOf(g));
    WriteFieldFrame(code.bus, HighGainBit, if HighGainOf(g) then 1 else 0);
  }

  /** After a setting that succeeded, CFG1's gain field holds the gain's code and CFG2's bit 4 its high-gain flag. */
  lemma SetALSGainFields(b: Bus, g: Gain)
    requires b.Valid() && SetALSGain(b, g).value
    ensures var regs := SetALSGain(b, g).bus.regs;
      && GetBits(regs[CFG1], 2, 0) == GainBitsOf(g)
      && GetBits(regs[CFG2], 1, 4) == if HighGainOf(g) then 1 else 0
  {
    var code := WriteField(b, GainBits, GainBitsOf(g));
    var high := WriteField(code.bus, HighGainBit, if HighGainOf(g) then 1 else 0);
    assert high.bus == SetALSGain(b, g).bus;
    WriteFieldEffect(b, GainBits, GainBitsOf(g));
    WriteFieldFrame(code.bus, HighGainBit, if HighGainOf(g) then 1 else 0);
    WriteFieldEffect(code.bus, HighGainBit, if HighGainOf(g) then 1 else 0);
  }

  /** Reading the gain back after a setting that succeeded gives that setting, if both reads complete. */
  lemma GainRoundTrip(b: Bus, g: Gain)
    requires b.Valid() && SetALSGain(b, g).value
    requires SetALSGain(b, g).bus.Succeeds(0) && SetALSGain(b, g).bus.Succeeds(1)
    ensures GetALSGain(SetALSGain(b, g).bus).value == g
  {
    var after := SetALSGain(b, g).bus;
    SetALSGainFields(b, g);
    var readCode := ReadField(after, GainBits);
    var readHigh := ReadField(readCode.bus, HighGainBit);
    assert readCode.value == GainBitsOf(g);
    assert readHigh.value == if HighGainOf(g) then 1 else 0;
    GainEncodingRoundTrip(g);
  }

  // ---------------------------------------------------------------------------
  // Channels

  /** Laying a sample out as its eight register bytes and decoding them gives the sample back. */
  lemma ChannelsRoundTrip(c: Channels)
    ensures DecodeChannels(ChannelBytes(c)) == c
  {
    LittleEndianOfBytes(c.x);
    LittleEndianOfBytes(c.y);
    LittleEndianOfBytes(c.z);
    LittleEndianOfBytes(c.ir1);
  }

  /** The MUX setting the driver finds: IR2 when the bit it reads back is set. */
  function FoundIR2(b: Bus): bool
    requires b.Valid()
  {
    GetFlag(b, MuxBit).value
  }

  /**
   * When every transfer completes, the channels are those of the data
   * registers: Z from CH0, Y from CH1, IR1 from CH2 and X from CH3, each low
   * byte first.
   */
  lemma GetChannelsReadsDataRegisters(b: Bus)
    requires b.Valid()
    requires forall i: nat :: i < 6 ==> b.Succeeds(i)
    ensures GetChannels(b).value.Some?
    ensures var c := GetChannels(b).value.value;
      && Lo(c.z) == b.regs[CH0DATAL] && Hi(c.z) == b.regs[CH0DATAH]
      && Lo(c.y) == b.regs[CH1DATAL] && Hi(c.y) == b.regs[CH1DATAH]
      && Lo(c.ir1) == b.regs[CH2DATAL] && Hi(c.ir1) == b.regs[CH2DATAH]
      && Lo(c.x) == b.regs[CH3DATAL] && Hi(c.x) == b.regs[CH3DATAH]
  {
    var mux := GetFlag(b, MuxBit);
    assert b.Succeeds(1) && b.Succeeds(3);
    var cleared := if mux.value then SetFlag(mux.bus, MuxBit, false) else Reply(true, mux.bus);
    if mux.value {
      WriteFieldFrame(mux.bus, MuxBit, 0);
    }
    assert cleared.value && cleared.bus.Succeeds(0);
    assert forall a: Address :: a != CFG1 ==> cleared.bus.regs[a] == b.regs[a];
    var burst := ReadBytes(cleared.bus, CH0DATAL, 8);
    assert burst.value.ok;
    assert GetChannels(b).value == Some(DecodeChannels(burst.value.data));
  }

  /** On X, getChannels writes nothing: the MUX read and the burst are its only transfers. */
  lemma GetChannelsFromX(b: Bus)
    requires b.Valid() && !FoundIR2(b)
    ensures GetChannels(b).bus.regs == b.regs
    ensures GetChannels(b).bus.log
              == b.log + [Event(Read(CFG1, 1), b.Succeeds(0)), Event(Read(CH0DATAL, 8), b.Succeeds(1))]
    ensures GetChannels(b).value.Some? == b.Succeeds(1)
  {
    var mux := GetFlag(b, MuxBit);
    assert mux.bus.Succeeds(0) == b.Succeeds(1);
    var burst := ReadBytes(mux.bus, CH0DATAL, 8);
    assert GetChannels(b).bus == burst.bus;
  }

  /** On IR2, if clearing the MUX fails the call fails at once: no burst, nothing else written. */
  lemma GetChannelsClearFails(b: Bus)
    requires b.Valid() && FoundIR2(b) && !b.Succeeds(2)
    ensures GetChannels(b).value.None?
    ensures GetChannels(b).bus.regs == b.regs
    ensures |GetChannels(b).bus.log| == |b.log| + 3
    ensures forall e :: e in GetChannels(b).bus.log[|b.log|..] ==> e.transfer.addr == CFG1
  {
    var mux := GetFlag(b, MuxBit);
    var cleared := SetFlag(mux.bus, MuxBit, false);
    WriteFieldFrame(mux.bus, MuxBit, 0);
    WriteFieldTransfers(mux.bus, MuxBit, 0);
    assert !cleared.value;
    assert GetChannels(b) == Reply(None, cleared.bus);
  }

  /** The MUX write getChannels makes when it finds IR2, after the MUX read. */
  function ClearMux(b: Bus): Reply<bool>
    requires b.Valid()
  {
    SetFlag(GetFlag(b, MuxBit).bus, MuxBit, false)
  }

  /** The MUX read, then the field write's read of CFG1 and a write of CFG1 with the MUX bit clear. */
  lemma ClearMuxLog(b: Bus)
    requires b.Valid()
    ensures var log := ClearMux(b).bus.log; var n := |b.log|;
      && |log| == n + 3
      && log[n] == Event(Read(CFG1, 1), b.Succeeds(0))
      && log[n + 1].transfer == Read(CFG1, 1)
      && WritesField(log[n + 2], MuxBit, 0)
      && ClearMux(b).value == b.Succeeds(2)
  {
    var n := |b.log|;
    var mux := GetFlag(b, MuxBit);
    WriteFieldTransfers(mux.bus, MuxBit, 0);
    WriteFieldWrites(mux.bus, MuxBit, 0);
    assert ClearMux(b).bus.log[..n + 1] == mux.bus.log;
  }

  /** Found on IR2: the clear, then, if it completed, the burst and the write setting the MUX again. */
  lemma GetChannelsOnIR2(b: Bus)
    requires b.Valid() && FoundIR2(b)
    ensures var cleared := ClearMux(b);
      GetChannels(b).bus == if !cleared.value then cleared.bus
                            else SetFlag(ReadBytes(cleared.bus, CH0DATAL, 8).bus, MuxBit, true).bus
  {
  }

  /**
   * On IR2, the MUX is switched to X before anything else is read: the MUX
   * read is followed by the field write's read of CFG1 and a write of CFG1
   * with the MUX bit clear, whether or not those transfers complete.
   */
  lemma GetChannelsClearsMux(b: Bus)
    requires b.Valid() && FoundIR2(b)
    ensures var log := GetChannels(b).bus.log; var n := |b.log|;
      && |log| >= n + 3
      && log[n] == Event(Read(CFG1, 1), b.Succeeds(0))
      && log[n + 1].transfer == Read(CFG1, 1)
      && WritesField(log[n + 2], MuxBit, 0)
  {
    var n := |b.log|;
    var cleared := ClearMux(b);
    GetChannelsOnIR2(b);
    ClearMuxLog(b);
    if cleared.value {
      var burst := ReadBytes(cleared.bus, CH0DATAL, 8);
      var restore := SetFlag(burst.bus, MuxBit, true);
      WriteFieldTransfers(burst.bus, MuxBit, 1);
      assert restore.bus.log[..n + 3] == cleared.bus.log by {
        assert restore.bus.log[..|burst.bus.log|] == burst.bus.log;
      }
    }
  }

  /**
   * On IR2, once the MUX is cleared the burst is made and is followed, whether
   * it completed or not, by a read of CFG1 and a write of it with the MUX bit
   * set. The call succeeds exactly when the burst does.
   */
  lemma GetChannelsRestoresAfterBurst(b: Bus)
    requires b.Valid() && FoundIR2(b) && b.Succeeds(2)
    ensures var r := GetChannels(b); var log := r.bus.log; var n := |b.log|;
      && r.value.Some? == b.Succeeds(3)
      && |log| == n + 6
      && log[n + 3] == Event(Read(CH0DATAL, 8), b.Succeeds(3))
      && log[n + 4].transfer == Read(CFG1, 1)
      && WritesField(log[n + 5], MuxBit, 1)
  {
    var n := |b.log|;
    var cleared := ClearMux(b);
    GetChannelsOnIR2(b);
    ClearMuxLog(b);
    WriteFieldFrame(GetFlag(b, MuxBit).bus, MuxBit, 0);
    assert cleared.value && cleared.bus.Succeeds(0) == b.Succeeds(3);
    var burst := ReadBytes(cleared.bus, CH0DATAL, 8);
    var restore := SetFlag(burst.bus, MuxBit, true);
    WriteFieldTransfers(burst.bus, MuxBit, 1);
    WriteFieldWrites(burst.bus, MuxBit, 1);
    assert restore.bus.log[n + 3] == burst.bus.log[n + 3] by {
      assert restore.bus.log[..n + 4] == burst.bus.log;
    }
  }

  /**
   * The MUX is left as it was found: if the MUX read and every write and read
   * around the burst complete, no register has changed, whether the burst
   * itself completed or not.
   */
  lemma GetChannelsRestoresMux(b: Bus)
    requires b.Valid() && b.Succeeds(0)
    requires FoundIR2(b) ==> b.Succeeds(1) && b.Succeeds(2) && b.Succeeds(4) && b.Succeeds(5)
    ensures GetChannels(b).bus.regs == b.regs
  {
    if FoundIR2(b) {
      var mux := GetFlag(b, MuxBit);
      var cleared := SetFlag(mux.bus, MuxBit, false);
      WriteFieldFrame(mux.bus, MuxBit, 0);
      var burst := ReadBytes(cleared.bus, CH0DATAL, 8);
      assert GetChannels(b).bus == SetFlag(burst.bus, MuxBit, true).bus;
      assert burst.bus.Succeeds(0) && burst.bus.Succeeds(1);
      WriteFieldFrame(burst.bus, MuxBit, 1);
      var cfg1 := b.regs[CFG1];
      assert GetBits(cfg1, 1, 3) == 1;
      assert GetChannels(b).bus.regs[CFG1] == SetBits(SetBits(cfg1, 1, 3, 0), 1, 3, 1);
      SetBitsTwice(cfg1, 1, 3, 0, 1);
      SetBitsOfGetBits(cfg1, 1, 3);
    } else {
      GetChannelsFromX(b);
    }
  }

  // ---------------------------------------------------------------------------
  // IR2

  /** If switching the MUX to IR2 fails, the result is 0 and nothing is read from CH3 or written. */
  lemma GetIR2SwitchFails(b: Bus)
    requires b.Valid() && !b.Succeeds(2)
    ensures GetIR2(b).value == 0
    ensures GetIR2(b).bus.regs == b.regs
    ensures |GetIR2(b).bus.log| == |b.log| + 3
    ensures forall e :: e in GetIR2(b).bus.log[|b.log|..] ==> e.transfer.addr == CFG1
  {
    var mux := GetFlag(b, MuxBit);
    var switched := SetFlag(mux.bus, MuxBit, true);
    WriteFieldFrame(mux.bus, MuxBit, 1);
    WriteFieldTransfers(mux.bus, MuxBit, 1);
    assert GetIR2(b) == Reply(0, switched.bus);
  }

  /** The MUX write getIR2 makes, after the MUX read. */
  function SwitchMux(b: Bus): Reply<bool>
    requires b.Valid()
  {
    SetFlag(GetFlag(b, MuxBit).bus, MuxBit, true)
  }

  /** The MUX read, then the field write's read of CFG1 and a write of CFG1 with the MUX bit set. */
  lemma SwitchMuxLog(b: Bus)
    requires b.Valid()
    ensures var log := SwitchMux(b).bus.log; var n := |b.log|;
      && |log| == n + 3
      && log[n] == Event(Read(CFG1, 1), b.Succeeds(0))
      && log[n + 1].transfer == Read(CFG1, 1)
      && WritesField(log[n + 2], MuxBit, 1)
      && SwitchMux(b).value == b.Succeeds(2)
  {
    var n := |b.log|;
    var mux := GetFlag(b, MuxBit);
    WriteFieldTransfers(mux.bus, MuxBit, 1);
    WriteFieldWrites(mux.bus, MuxBit, 1);
    assert SwitchMux(b).bus.log[..n + 1] == mux.bus.log;
  }

  /**
   * The MUX is switched to IR2 before the integration time and CH3 are read:
   * the MUX read is followed by the field write's read of CFG1 and a write of
   * CFG1 with the MUX bit set, whichever way the MUX was found.
   */
  lemma GetIR2SwitchesMux(b: Bus)
    requires b.Valid()
    ensures var log := GetIR2(b).bus.log; var n := |b.log|;
      && |log| >= n + 3
      && log[n] == Event(Read(CFG1, 1), b.Succeeds(0))
      && log[n + 1].transfer == Read(CFG1, 1)
      && WritesField(log[n + 2], MuxBit, 1)
  {
    var n := |b.log|;
    var switched := SwitchMux(b);
    SwitchMuxLog(b);
    if !switched.value {
      GetIR2SwitchFails(b);
      assert GetIR2(b).bus == switched.bus;
    } else {
      GetIR2Ending(b);
      AfterIR2ReadKeepsSwitch(b);
      var log := GetIR2(b).bus.log;
      assert log[..n + 3] == switched.bus.log;
      assert log[n + 2] == switched.bus.log[n + 2];
    }
  }

  /** Whether or not the MUX is cleared again after the CH3 read, the log starts with the switch to IR2. */
  lemma AfterIR2ReadKeepsSwitch(b: Bus)
    requires b.Valid()
    ensures var n := |b.log|; var read := AfterIR2Read(b);
      && |read.log| >= n + 3 && read.log[..n + 3] == SwitchMux(b).bus.log
      && |SetFlag(read, MuxBit, false).bus.log| >= n + 3
      && SetFlag(read, MuxBit, false).bus.log[..n + 3] == SwitchMux(b).bus.log
  {
    var n := |b.log|;
    var read := AfterIR2Read(b);
    AfterIR2ReadLog(b);
    WriteFieldTransfers(read, MuxBit, 0);
    var restore := SetFlag(read, MuxBit, false);
    assert restore.bus.log[..n + 3] == read.log[..n + 3] by {
      assert restore.bus.log[..|read.log|] == read.log;
    }
  }

  /** After the switch to IR2: a read of ATIME for the settling delay, then a read of the CH3 pair. */
  lemma SettleThenRead(s: Bus)
    requires s.Valid()
    ensures ReadRegister16(GetIntegrationTime(s).bus, CH3DATAL).bus.log
              == s.log + [Event(Read(ATIME, 1), s.Succeeds(0)), Event(Read(CH3DATAL, 2), s.Succeeds(1))]
  {
    assert GetIntegrationTime(s).bus.Succeeds(0) == s.Succeeds(1);
  }

  /** The bus once getIR2 has switched the MUX to IR2 and read CH3. */
  function AfterIR2Read(b: Bus): Bus
    requires b.Valid()
  {
    ReadRegister16(GetIntegrationTime(SwitchMux(b).bus).bus, CH3DATAL).bus
  }

  /** Once the MUX is on IR2, the integration time is read, then CH3. */
  lemma AfterIR2ReadLog(b: Bus)
    requires b.Valid()
    ensures var log := AfterIR2Read(b).log; var n := |b.log|;
      && |log| == n + 5
      && log[..n + 3] == SwitchMux(b).bus.log
      && log[n + 3] == Event(Read(ATIME, 1), b.Succeeds(3))
      && log[n + 4] == Event(Read(CH3DATAL, 2), b.Succeeds(4))
  {
    var n := |b.log|;
    var mux := GetFlag(b, MuxBit);
    var switched := SwitchMux(b);
    WriteFieldTransfers(mux.bus, MuxBit, 1);
    assert switched.bus.Succeeds(0) == b.Succeeds(3) && switched.bus.Succeeds(1) == b.Succeeds(4);
    SettleThenRead(switched.bus);
  }

  /** After the CH3 read, the MUX is cleared again exactly when it was found on X. */
  lemma GetIR2Ending(b: Bus)
    requires b.Valid() && b.Succeeds(2)
    ensures GetIR2(b).bus == if FoundIR2(b) then AfterIR2Read(b) else SetFlag(AfterIR2Read(b), MuxBit, false).bus
  {
    var mux := GetFlag(b, MuxBit);
    WriteFieldTransfers(mux.bus, MuxBit, 1);
  }

  /** Once the MUX is on IR2, the integration time is read, then CH3, whichever way the MUX was found. */
  lemma GetIR2Reads(b: Bus)
    requires b.Valid() && b.Succeeds(2)
    ensures var log := GetIR2(b).bus.log; var n := |b.log|;
      && |log| >= n + 5
      && log[n + 3] == Event(Read(ATIME, 1), b.Succeeds(3))
      && log[n + 4] == Event(Read(CH3DATAL, 2), b.Succeeds(4))
  {
    var n := |b.log|;
    var read := AfterIR2Read(b);
    AfterIR2ReadLog(b);
    GetIR2Ending(b);
    if !FoundIR2(b) {
      WriteFieldTransfers(read, MuxBit, 0);
      var log := SetFlag(read, MuxBit, false).bus.log;
      assert log[..n + 5] == read.log;
      assert log[n + 3] == read.log[n + 3] && log[n + 4] == read.log[n + 4];
    }
  }

  /** Found on IR2, the MUX is left on IR2: the CH3 read is the last transfer. */
  lemma GetIR2FromIR2(b: Bus)
    requires b.Valid() && b.Succeeds(2) && FoundIR2(b)
    ensures |GetIR2(b).bus.log| == |b.log| + 5
  {
    var mux := GetFlag(b, MuxBit);
    var switched := SetFlag(mux.bus, MuxBit, true);
    WriteFieldTransfers(mux.bus, MuxBit, 1);
  }

  /** Found on X, the CH3 read is followed by a read of CFG1 and a write of it with the MUX bit clear. */
  lemma GetIR2FromX(b: Bus)
    requires b.Valid() && b.Succeeds(2) && !FoundIR2(b)
    ensures var log := GetIR2(b).bus.log; var n := |b.log|;
      && |log| == n + 7
      && log[n + 5].transfer == Read(CFG1, 1)
      && log[n + 6].transfer.Write? && log[n + 6].transfer.addr == CFG1
      && |log[n + 6].transfer.data| == 1
      && GetBits(log[n + 6].transfer.data[0], 1, 3) == 0
  {
    var mux := GetFlag(b, MuxBit);
    var switched := SetFlag(mux.bus, MuxBit, true);
    WriteFieldTransfers(mux.bus, MuxBit, 1);
    var settle := GetIntegrationTime(switched.bus);
    var ir2 := ReadRegister16(settle.bus, CH3DATAL);
    WriteFieldTransfers(ir2.bus, MuxBit, 0);
    var got := ReadRegister(ir2.bus, CFG1);
    var restore := WriteRegister(got.bus, CFG1, SetBits(got.value, 1, 3, 0));
    assert GetIR2(b).bus == restore.bus;
    assert restore.bus.log[|b.log| + 6] == Event(Write(CFG1, [SetBits(got.value, 1, 3, 0)]), restore.value);
  }

  /**
   * Found on IR2, with the MUX read and the switch's read and write
   * completing, no register changes, whether or not the ATIME and CH3 reads
   * complete; when the CH3 read completes the result is the CH3 pair.
   */
  lemma GetIR2RestoresMuxFromIR2(b: Bus)
    requires b.Valid() && FoundIR2(b)
    requires b.Succeeds(0) && b.Succeeds(1) && b.Succeeds(2)
    ensures b.Succeeds(4) ==> GetIR2(b).value == LittleEndian(b.regs[CH3DATAL], b.regs[CH3DATAH])
    ensures GetIR2(b).bus.regs == b.regs
  {
    var mux := GetFlag(b, MuxBit);
    var switched := SetFlag(mux.bus, MuxBit, true);
    WriteFieldFrame(mux.bus, MuxBit, 1);
    var settle := GetIntegrationTime(switched.bus);
    var ir2 := ReadRegister16(settle.bus, CH3DATAL);
    assert settle.bus.Succeeds(0) == b.Succeeds(4);
    LittleEndianOfBytes(ir2.value);
    var cfg1 := b.regs[CFG1];
    assert GetBits(cfg1, 1, 3) == 1;
    SetBitsOfGetBits(cfg1, 1, 3);
    assert GetIR2(b).bus == ir2.bus;
  }

  /**
   * Found on X, with the MUX read, the switch and the clear completing, the
   * MUX is back on X and no register changes, whether or not the ATIME and
   * CH3 reads complete; when the CH3 read completes the result is the CH3 pair.
   */
  lemma GetIR2RestoresMuxFromX(b: Bus)
    requires b.Valid() && !FoundIR2(b)
    requires b.Succeeds(0) && b.Succeeds(1) && b.Succeeds(2) && b.Succeeds(5) && b.Succeeds(6)
    ensures b.Succeeds(4) ==> GetIR2(b).value == LittleEndian(b.regs[CH3DATAL], b.regs[CH3DATAH])
    ensures GetIR2(b).bus.regs == b.regs
  {
    var mux := GetFlag(b, MuxBit);
    var switched := SetFlag(mux.bus, MuxBit, true);
    WriteFieldFrame(mux.bus, MuxBit, 1);
    var settle := GetIntegrationTime(switched.bus);
    var ir2 := ReadRegister16(settle.bus, CH3DATAL);
    assert settle.bus.Succeeds(0) == b.Succeeds(4);
    LittleEndianOfBytes(ir2.value);
    var cfg1 := b.regs[CFG1];
    assert ir2.bus.Succeeds(0) && ir2.bus.Succeeds(1);
    WriteFieldFrame(ir2.bus, MuxBit, 0);
    assert GetBits(cfg1, 1, 3) == 0;
    SetBitsTwice(cfg1, 1, 3, 1, 0);
    SetBitsOfGetBits(cfg1, 1, 3);
  }

  /**
   * The MUX ends as it was found: when the MUX read, the switch to IR2 and,
   * found on X, the switch back complete, the registers are as they were,
   * whatever the ATIME and CH3 reads do. When the CH3 read completes too, the
   * result is the CH3 register pair, low byte first.
   */
  lemma GetIR2RestoresMux(b: Bus)
    requires b.Valid() && b.Succeeds(0) && b.Succeeds(1) && b.Succeeds(2)
    requires !FoundIR2(b) ==> b.Succeeds(5) && b.Succeeds(6)
    ensures b.Succeeds(4) ==> GetIR2(b).value == LittleEndian(b.regs[CH3DATAL], b.regs[CH3DATAH])
    ensures GetIR2(b).bus.regs == b.regs
  {
    if FoundIR2(b) {
      GetIR2RestoresMuxFromIR2(b);
    } else {
      GetIR2RestoresMuxFromX(b);
    }
  }

  // ---------------------------------------------------------------------------
  // A MUX read that fails

  /**
   * As written, a failed MUX read is taken for IR2 when the byte it delivers
   * has bit 3 set (the register library delivers all ones). getChannels then
   * clears the MUX for the burst and sets it afterwards: a MUX found on X is
   * left on IR2, although every later transfer completed.
   */
  lemma GetChannelsMuxReadFails(b: Bus)
    requires b.Valid() && !b.Succeeds(0) && GetBits(b.floating, 1, 3) == 1
    requires GetBits(b.regs[CFG1], 1, 3) == 0
    requires b.Succeeds(1) && b.Succeeds(2) && b.Succeeds(4) && b.Succeeds(5)
    ensures FoundIR2(b)
    ensures GetBits(GetChannels(b).bus.regs[CFG1], 1, 3) == 1
  {
    var mux := GetFlag(b, MuxBit);
    var cleared := SetFlag(mux.bus, MuxBit, false);
    WriteFieldFrame(mux.bus, MuxBit, 0);
    var burst := ReadBytes(cleared.bus, CH0DATAL, 8);
    assert burst.bus.Succeeds(0) && burst.bus.Succeeds(1);
    WriteFieldFrame(burst.bus, MuxBit, 1);
  }

  /** As written, the same failed MUX read makes getIR2 leave a MUX found on X switched to IR2. */
  lemma GetIR2MuxReadFails(b: Bus)
    requires b.Valid() && !b.Succeeds(0) && GetBits(b.floating, 1, 3) == 1
    requires GetBits(b.regs[CFG1], 1, 3) == 0
    requires b.Succeeds(1) && b.Succeeds(2)
    ensures FoundIR2(b)
    ensures GetBits(GetIR2(b).bus.regs[CFG1], 1, 3) == 1
  {
    var mux := GetFlag(b, MuxBit);
    var switched := SetFlag(mux.bus, MuxBit, true);
    WriteFieldFrame(mux.bus, MuxBit, 1);
    var settle := GetIntegrationTime(switched.bus);
    var ir2 := ReadRegister16(settle.bus, CH3DATAL);
    assert GetIR2(b).bus.regs == switched.bus.regs;
  }

  /**
   * With the MUX read checked, getChannels leaves the MUX as it was found
   * whenever the MUX transfers it makes complete, including when the MUX read
   * itself fails.
   */
  lemma GetChannelsGuardedRestoresMux(b: Bus)
    requires b.Valid()
    requires b.Succeeds(0) && FoundIR2(b) ==> b.Succeeds(1) && b.Succeeds(2) && b.Succeeds(4) && b.Succeeds(5)
    ensures GetChannelsGuarded(b).bus.regs == b.regs
  {
    if b.Succeeds(0) {
      GetChannelsRestoresMux(b);
    }
  }

  /**
   * With the MUX read checked, getIR2 leaves the MUX as it was found whenever
   * the MUX transfers it makes complete, whatever the ATIME and CH3 reads do,
   * and also when the MUX read itself fails.
   */
  lemma GetIR2GuardedRestoresMux(b: Bus)
    requires b.Valid()
    requires b.Succeeds(0) ==> b.Succeeds(1) && b.Succeeds(2) && (!FoundIR2(b) ==> b.Succeeds(5) && b.Succeeds(6))
    ensures GetIR2Guarded(b).bus.regs == b.regs
  {
    if b.Succeeds(0) {
      GetIR2RestoresMux(b);
    }
  }

  // ---------------------------------------------------------------------------
  // Start-up

  /** The ID the start-up read delivers: the ID register if the read completes. */
  function IdRead(b: Bus): Byte
    requires b.Valid()
  {
    ReadRegister(ProbeBus(b).bus, ID).value
  }

  /**
   * Start-up succeeds exactly when the chip acknowledges, the ID read delivers
   * CHIP_ID, and the power-on and ALS-enable writes both complete. Each step
   * runs only if the ones before it succeeded: the transfers stop at the first
   * failure.
   */
  lemma BeginSteps(b: Bus)
    requires b.Valid()
    ensures Begin(b).value <==> b.Succeeds(0) && IdRead(b) == CHIP_ID && b.Succeeds(3) && b.Succeeds(5)
    ensures var steps := |Begin(b).bus.log| - |b.log|;
      && steps == if !b.Succeeds(0) then 1
                  else if IdRead(b) != CHIP_ID then 2
                  else if !b.Succeeds(3) then 4
                  else 6
    ensures Begin(b).bus.log[|b.log|] == Event(Probe, b.Succeeds(0))
    ensures b.Succeeds(0) ==> Begin(b).bus.log[|b.log| + 1] == Event(Read(ID, 1), b.Succeeds(1))
    ensures b.Succeeds(0) && IdRead(b) == CHIP_ID ==>
              WritesField(Begin(b).bus.log[|b.log| + 3], PowerOnBit, 1)
    ensures b.Succeeds(0) && IdRead(b) == CHIP_ID && b.Succeeds(3) ==>
              WritesField(Begin(b).bus.log[|b.log| + 5], AlsEnableBit, 1)
  {
    var n := |b.log|;
    var probe := ProbeBus(b);
    if probe.value {
      var id := ReadRegister(probe.bus, ID);
      if id.value == CHIP_ID {
        var on := SetFlag(id.bus, PowerOnBit, true);
        WriteFieldTransfers(id.bus, PowerOnBit, 1);
        WriteFieldWrites(id.bus, PowerOnBit, 1);
        if on.value {
          var als := SetFlag(on.bus, AlsEnableBit, true);
          WriteFieldTransfers(on.bus, AlsEnableBit, 1);
          WriteFieldWrites(on.bus, AlsEnableBit, 1);
          assert als.bus.log[n + 3] == on.bus.log[n + 3] by {
            assert als.bus.log[..n + 4] == on.bus.log;
          }
        }
      }
    }
  }

  /**
   * When every transfer completes on a chip that reports CHIP_ID, start-up
   * succeeds and sets the power-on and ALS-enable bits of ENABLE, leaving its
   * other bits and every other register as they were.
   */
  lemma BeginPowersOn(b: Bus)
    requires b.Valid() && b.regs[ID] == CHIP_ID
    requires forall i: nat :: i < 6 ==> b.Succeeds(i)
    ensures Begin(b).value
    ensures Begin(b).bus.regs == b.regs[ENABLE := SetBits(SetBits(b.regs[ENABLE], 1, 0, 1), 1, 1, 1)]
  {
    var probe := ProbeBus(b);
    assert b.Succeeds(0) && b.Succeeds(1) && b.Succeeds(2) && b.Succeeds(3) && b.Succeeds(4) && b.Succeeds(5);
    var id := ReadRegister(probe.bus, ID);
    var on := SetFlag(id.bus, PowerOnBit, true);
    WriteFieldFrame(id.bus, PowerOnBit, 1);
    WriteFieldFrame(on.bus, AlsEnableBit, 1);
  }

  // ---------------------------------------------------------------------------
  // Derived measurements

  /** The lux divisors: 1, 4, 16, 66 and 137 for 1x to 128x, and 1 for any other value. */
  lemma LuxGainTable(code: Byte)
    ensures LuxGainMultiplier(GainCode(Gain1X)) == 1.0 && LuxGainMultiplier(GainCode(Gain4X)) == 4.0
    ensures LuxGainMultiplier(GainCode(Gain16X)) == 16.0 && LuxGainMultiplier(GainCode(Gain64X)) == 66.0
    ensures LuxGainMultiplier(GainCode(Gain128X)) == 137.0
    ensures code > GainCode(Gain128X) ==> LuxGainMultiplier(code) == 1.0
  {
  }

  /**
   * Lux is 0 when the channel read fails; otherwise it is never negative, and
   * zero exactly when Y is. The zero-time guard never fires: the integration
   * time is at least 2.78 ms.
   */
  lemma GetLuxSign(b: Bus)
    requires b.Valid()
    ensures GetChannels(b).value.None? ==> GetLux(b).value == 0.0
    ensures GetChannels(b).value.Some? ==>
              0.0 <= GetLux(b).value && (GetLux(b).value == 0.0 <==> GetChannels(b).value.value.y == 0)
  {
  }

  /** Ratios of three non-negative numbers to their positive sum lie in the triangle x, y >= 0, x + y <= 1. */
  lemma RatiosInTriangle(cx: real, cy: real, cz: real)
    requires 0.0 <= cx && 0.0 <= cy && 0.0 <= cz && 0.0 < cx + cy + cz
    ensures var sum := cx + cy + cz;
      0.0 <= cx / sum && 0.0 <= cy / sum && cx / sum + cy / sum <= 1.0
  {
    var sum := cx + cy + cz;
    QuotientSign(cx, sum);
    QuotientSign(cy, sum);
    QuotientSign(cz, sum);
    assert cx / sum + cy / sum + cz / sum == 1.0 by {
      assert cx / sum + cy / sum + cz / sum == (cx + cy + cz) / sum;
    }
  }

  /** Chromaticity coordinates reported as good lie in the triangle x, y >= 0, x + y <= 1. */
  lemma ChromaticityInRange(c: Channels)
    requires Chromaticity(c).ok
    ensures var (x, y) := Chromaticity(c).written.value;
      0.0 <= x && 0.0 <= y && x + y <= 1.0
  {
    var cx, cy, cz := c.x as int as real, c.y as int as real, c.z as int as real;
    var sum := cx + cy + cz;
    var written := Chromaticity(c).written.value;
    assert 0.0 < sum;
    assert written.0 == cx / sum && written.1 == cy / sum;
    RatiosInTriangle(cx, cy, cz);
  }

  /** The colour temperature is 0 when the chromaticity call fails. */
  lemma GetCCTOnFailure(b: Bus)
    requires b.Valid() && !GetCIE(b).value.ok
    ensures GetCCT(b).value == Some(0.0)
  {
  }

  /** At x = 0.3320, n is 0 and the temperature is the cubic's constant term, for every y but 0.1858. */
  lemma McCamyAtReferenceX(y: real)
    requires y != 0.1858
    ensures McCamy(0.3320, y) == Some(5520.33)
  {
    assert (0.3320 - 0.3320) / (0.1858 - y) == 0.0;
  }

  /** At y = 0.1858 the division has a zero divisor: the float result is not a finite number. */
  lemma GetCCTAtSingularY(b: Bus)
    requires b.Valid() && GetCIE(b).value.ok && GetCIE(b).value.written.value.1 == 0.1858
    ensures GetCCT(b).value.None?
  {
  }

  // ---------------------------------------------------------------------------
  // Single-field setters and getters

  /** A flag written and then read back, both transfers completing, reads as written. */
  lemma FlagRoundTrip(b: Bus, f: Field, enable: bool)
    requires b.Valid() && f.Valid() && f.width == 1
    requires SetFlag(b, f, enable).value && SetFlag(b, f, enable).bus.Succeeds(0)
    ensures GetFlag(SetFlag(b, f, enable).bus, f).value == enable
  {
    FieldRoundTrip(b, f, if enable then 1 else 0);
  }

  /** A flag write changes no register but its own, and that one only in the flag's bit. */
  lemma FlagFrame(b: Bus, f: Field, enable: bool)
    requires b.Valid() && f.Valid() && f.width == 1
    requires SetFlag(b, f, enable).value && b.Succeeds(0)
    ensures var after := SetFlag(b, f, enable).bus.regs;
      && (forall a: Address :: a != f.reg ==> after[a] == b.regs[a])
      && after[f.reg] & !FieldMask(1, f.offset) == b.regs[f.reg] & !FieldMask(1, f.offset)
  {
    WriteFieldFrame(b, f, if enable then 1 else 0);
    WriteFieldEffect(b, f, if enable then 1 else 0);
  }

  /** Every persistence setting is read back unchanged after it is written. */
  lemma PersistenceRoundTrip(b: Bus, p: Persistence)
    requires b.Valid()
    requires WriteField(b, PersistenceBits, p).value && WriteField(b, PersistenceBits, p).bus.Succeeds(0)
    ensures ReadField(WriteField(b, PersistenceBits, p).bus, PersistenceBits).value == p
  {
    FieldRoundTrip(b, PersistenceBits, p);
  }

  /** The auto-zero interval is read back cut to its 7 bits. */
  lemma AutoZeroEveryNRoundTrip(b: Bus, n: Byte)
    requires b.Valid()
    requires WriteField(b, AutoZeroEveryNBits, n).value && WriteField(b, AutoZeroEveryNBits, n).bus.Succeeds(0)
    ensures ReadField(WriteField(b, AutoZeroEveryNBits, n).bus, AutoZeroEveryNBits).value == n & 0x7F
  {
    FieldRoundTrip(b, AutoZeroEveryNBits, n);
  }

  /** A threshold written and read back, both transfers completing, reads as written. */
  lemma ThresholdRoundTrip(b: Bus, low: bool, t: Word)
    requires b.Valid()
    requires var reg := if low then AILTL else AIHTL;
      WriteRegister16(b, reg, t).value && WriteRegister16(b, reg, t).bus.Succeeds(0)
    ensures var reg := if low then AILTL else AIHTL;
      ReadRegister16(WriteRegister16(b, reg, t).bus, reg).value == t
  {
    Register16RoundTrip(b, if low then AILTL else AIHTL, t);
  }

  /** Clearing the saturation flag writes 0x80 to STATUS and nothing else. */
  lemma ClearALSSaturatedWrites(b: Bus)
    requires b.Valid()
    ensures var r := WriteRegister(b, STATUS, CLEAR_SATURATION);
      && r.bus.log == b.log + [Event(Write(STATUS, [0x80]), b.Succeeds(0))]
      && r.bus.regs == if b.Succeeds(0) then b.regs[STATUS := 0x80] else b.regs
  {
  }
}
