# TCS3430 colour and ambient-light sensor driver, modelled in Dafny

This project models the Adafruit TCS3430 driver: the `Adafruit_TCS3430` class
and the register map, gain and persistence encodings of its header. The chip
sits behind a register bus. The driver reads and writes whole registers,
16-bit little-endian register pairs, and bit fields inside registers. It
builds its operations from those accesses: start-up, timing, thresholds, the
channel MUX, gain, status flags, the burst read of the four channels, the IR2
read, chromaticity, lux and colour temperature.

The model has three layers:

- `Bits`, `Registers`, `I2C` and `BusIO` describe the bus as a value.
  - `Bus` holds a register file (a total map from 8-bit address to byte).
  - It holds a failure script: transfer *i* from now fails exactly when `faults[i]` is true.
  - It holds the byte a failed read delivers.
  - It holds the log of every transfer attempted, with its outcome.
  - Register and bit-field accesses are functions from the bus before to the bus after.
  - A field write is read-modify-write. The write is made even when the read failed, with the field spliced into the byte that read delivered.
- `Sensor` gives every driver operation as a function of the bus. Each makes the driver's transfers in the driver's order, with its early returns. `SensorProperties` proves what the driver promises about those functions.
- `Device` and `Driver` are the imperative form.
  - `Device.Device` is a class whose fields are the bus state.
  - `Driver.TCS3430` is the driver class.
  - Each method mutates the device step by step, as the C++ does (the channel burst fills an 8-byte array).
  - Each method's `ensures` ties its result and the device's new state to the `Sensor` or `BusIO` function. So every property proved about the functions holds of the methods.

## Model

| member | source | states |
|---|---|---|
| Bits.GetBits | Adafruit_TCS3430.cpp:145-151 | a field read yields a value that fits the field's width |
| Bits.SetBits | Adafruit_TCS3430.cpp:133-139 | after splicing, the field holds the value cut to its width and every bit outside the field is unchanged |
| Bits.LittleEndian | Adafruit_TCS3430.cpp:490-493 | the 16-bit value built from two bytes has exactly those bytes as its low and high byte |
| Bits.LittleEndianOfBytes | Adafruit_TCS3430.cpp:490-493 | every 16-bit value is rebuilt from its own low and high byte |
| Bits.SetBitsOfGetBits | Adafruit_TCS3430.cpp:340-346 | writing a field's current value back leaves the byte unchanged |
| Bits.SetBitsTwice | Adafruit_TCS3430.cpp:340-346 | a second write of the same field overrides the first |
| Registers.GainCode | Adafruit_TCS3430.h:108-114 | the five gain values are 0 to 4 |
| Registers.GainOfCode | Adafruit_TCS3430.h:108-114 | every value 0 to 4 names the gain whose value it is |
| Registers.PersistenceCycles | Adafruit_TCS3430.h:88-105 | each persistence value's wait is at most 60 cycles, and only 0x0 stands for every cycle |
| Registers.PersistenceCyclesIncrease | Adafruit_TCS3430.h:88-105 | a larger persistence value always waits for more out-of-range cycles |
| I2C.Attempt | Adafruit_TCS3430.cpp:65 | a transfer keeps the registers, logs itself with its outcome, and uses up one entry of the failure script |
| I2C.ProbeBus | Adafruit_TCS3430.cpp:64-66 | the probe succeeds exactly when the next transfer does |
| I2C.Consecutive | Adafruit_TCS3430.cpp:480-493 | a burst of n bytes from an address delivers the n consecutive registers from it, in order, so the eight-byte burst from CH0DATAL covers CH0DATAL to CH3DATAH |
| I2C.ReadBytes | Adafruit_TCS3430.cpp:480-483 | a burst read delivers the n registers from the address on if it completes, the failure byte in every position if not |
| I2C.Store | Adafruit_TCS3430.cpp:248-253 | storing bytes changes exactly the registers they cover |
| I2C.WriteBytes | Adafruit_TCS3430.cpp:248-253 | a burst write reports its outcome and changes the registers only if it completes |
| BusIO.ReadRegister | Adafruit_TCS3430.cpp:103-107 | a one-byte register read delivers the register if it completes, the failure byte if not |
| BusIO.ReadRegister16 | Adafruit_TCS3430.cpp:258-263 | a two-byte read delivers the low byte from the first address and the high byte from the next |
| BusIO.WriteRegister | Adafruit_TCS3430.cpp:93-97 | a one-byte write changes that register only, and only if it completes |
| BusIO.WriteRegister16 | Adafruit_TCS3430.cpp:248-253 | a two-byte write stores the low byte first, and only if it completes |
| BusIO.ReadField | Adafruit_TCS3430.cpp:145-151 | a field read is one register read and fits the field |
| BusIO.WriteField | Adafruit_TCS3430.cpp:133-139 | a field write uses two transfers of the failure script |
| BusIO.WriteFieldTransfers | Adafruit_TCS3430.cpp:133-139 | a field write is a read of its register then a write of it, and reports the write's outcome |
| BusIO.WriteFieldWrites | Adafruit_TCS3430.cpp:133-139 | the byte a field write sends holds the value, cut to the width, in the field |
| BusIO.WriteFieldFrame | Adafruit_TCS3430.cpp:133-139 | a field write changes no other register, nothing if the write fails, and its own register to the read byte with the field spliced in |
| BusIO.WriteFieldEffect | Adafruit_TCS3430.cpp:133-139 | after a completed field write the field holds the value and the register's other bits are as the read delivered them |
| BusIO.FieldRoundTrip | Adafruit_TCS3430.cpp:133-151 | a field read after a completed field write gives back the value written, cut to the width |
| BusIO.Register16RoundTrip | Adafruit_TCS3430.cpp:248-263 | a two-byte read after a completed two-byte write gives back the word |
| Sensor.SetFlag | Adafruit_TCS3430.cpp:133-139 | a flag write keeps the bus well formed |
| Sensor.GetFlag | Adafruit_TCS3430.cpp:145-151 | a flag read is one read of the flag's register |
| Sensor.Begin | Adafruit_TCS3430.cpp:58-86 | start-up keeps the bus well formed |
| Sensor.CyclesToMs | Adafruit_TCS3430.cpp:123-126 | a cycle count stands for (cycles + 1) × 2.78 ms, between 2.78 and 711.68 |
| Sensor.GetIntegrationTime | Adafruit_TCS3430.cpp:123-126 | one read of ATIME, and the time is at least 2.78 ms |
| Sensor.GetWaitTime | Adafruit_TCS3430.cpp:238-241 | one read of WTIME, and the time is at least 2.78 ms |
| Sensor.GainBitsOf | Adafruit_TCS3430.cpp:365-389 | the gain code written fits the 2-bit field, and equals the gain's own value exactly when the gain is not 128x |
| Sensor.HighGainOf | Adafruit_TCS3430.cpp:365-389 | the high-gain flag is set exactly for the gain whose value does not fit the 2-bit gain field, that is 128x |
| Sensor.DecodeGain | Adafruit_TCS3430.cpp:395-413 | the decoded gain is 128x exactly when the code is 3 and the high-gain bit is set, and is the raw code otherwise |
| Sensor.SetALSGain | Adafruit_TCS3430.cpp:365-389 | setting the gain keeps the bus well formed |
| Sensor.GetALSGain | Adafruit_TCS3430.cpp:395-413 | reading the gain keeps the bus well formed |
| Sensor.ChannelBytes | Adafruit_TCS3430.cpp:490-493 | a sample is laid out as eight bytes |
| Sensor.DecodeChannels | Adafruit_TCS3430.cpp:490-493 | the decoded sample lays out as exactly the eight bytes it came from: Z, Y, IR1, X, each low byte first |
| Sensor.RestoreMux | Adafruit_TCS3430.cpp:484-486 | putting the MUX back keeps the bus well formed |
| Sensor.GetChannels | Adafruit_TCS3430.cpp:471-500 | reading the channels keeps the bus well formed |
| Sensor.GetIR2 | Adafruit_TCS3430.cpp:506-525 | reading IR2 keeps the bus well formed |
| Sensor.GetChannelsGuarded | Adafruit_TCS3430.cpp:471-500 | getChannels with its MUX read checked: a failed MUX read fails the call with no register changed, and otherwise it is getChannels |
| Sensor.GetIR2Guarded | Adafruit_TCS3430.cpp:506-525 | getIR2 with its MUX read checked: a failed MUX read gives 0 with no register changed, and otherwise it is getIR2 |
| Sensor.Chromaticity | Adafruit_TCS3430.cpp:543-552 | the chromaticity is good exactly when X + Y + Z is positive, and (0, 0) is stored when it is not |
| Sensor.GetCIE | Adafruit_TCS3430.cpp:533-553 | a failed channel read stores nothing and fails; otherwise the result is the chromaticity of the sample read |
| Sensor.LuxGainMultiplier | Adafruit_TCS3430.cpp:569-589 | every lux divisor is at least 1 |
| Sensor.GetLux | Adafruit_TCS3430.cpp:559-597 | computing lux keeps the bus well formed |
| Sensor.Lux | Adafruit_TCS3430.cpp:596 | lux from a Y count is never negative and is zero exactly when the count is |
| Sensor.QuotientSign | Adafruit_TCS3430.cpp:596 | dividing by a positive number keeps the sign and maps only zero to zero |
| Sensor.McCamy | Adafruit_TCS3430.cpp:611-612 | the temperature is a finite number exactly when y is not 0.1858 |
| Sensor.GetCCT | Adafruit_TCS3430.cpp:603-613 | the temperature call makes exactly the channel read's transfers |
| SensorProperties.DataRegistersConsecutive | Adafruit_TCS3430.h:62-76 | the eight data registers are consecutive from CH0DATAL: Z, Y, IR1, X/IR2, low byte first |
| SensorProperties.ThresholdBytesAdjacent | Adafruit_TCS3430.h:42-48 | each threshold's high byte follows its low byte |
| SensorProperties.GainCodeFits | Adafruit_TCS3430.h:108-114 | a gain's value fits the 2-bit field exactly when the gain is not 128x |
| SensorProperties.Gain128XValueTruncates | Adafruit_TCS3430.cpp:368-369 | 128x's value written as it is into the 2-bit field would read back as 1x |
| SensorProperties.PersistenceFitsField | Adafruit_TCS3430.cpp:290-308 | every persistence value fits the 4-bit PERS field and reads back unchanged |
| SensorProperties.StatusClearValues | Adafruit_TCS3430.cpp:431-461 | 0x80 covers the saturation flag and not the interrupt flag; 0xFF covers both |
| SensorProperties.GainEncodingRoundTrip | Adafruit_TCS3430.cpp:365-413 | every gain is recovered from the code and high-gain flag it is written as |
| SensorProperties.SetALSGainEffect | Adafruit_TCS3430.cpp:365-389 | when the transfers complete, setting a gain changes exactly CFG1's gain field (64x's code for 128x) and CFG2's high-gain bit (set only for 128x) |
| SensorProperties.SetALSGainCodeFails | Adafruit_TCS3430.cpp:376 | a failed gain-code write fails the call, touches only CFG1 and changes no register |
| SensorProperties.SetALSGainBitFails | Adafruit_TCS3430.cpp:384 | a failed high-gain write fails the call, and the gain code already written is not rolled back |
| SensorProperties.SetALSGainFields | Adafruit_TCS3430.cpp:365-389 | after a successful set, CFG1's gain field holds the gain's code and CFG2 bit 4 its high-gain flag |
| SensorProperties.GainRoundTrip | Adafruit_TCS3430.cpp:365-413 | reading the gain after a successful set gives the gain set, for all five gains |
| SensorProperties.ChannelsRoundTrip | Adafruit_TCS3430.cpp:490-493 | decoding a sample's eight register bytes gives the sample back |
| SensorProperties.GetChannelsReadsDataRegisters | Adafruit_TCS3430.cpp:471-500 | when every transfer completes, Z, Y, IR1 and X are the CH0 to CH3 register pairs |
| SensorProperties.GetChannelsFromX | Adafruit_TCS3430.cpp:473-480 | with the MUX on X the call only reads CFG1 and makes the burst, writes nothing, and succeeds exactly when the burst does |
| SensorProperties.GetChannelsClearFails | Adafruit_TCS3430.cpp:474-477 | with the MUX on IR2, a failed clear fails the call with no burst and no register changed |
| SensorProperties.ClearMuxLog | Adafruit_TCS3430.cpp:473-476 | the MUX read is followed by a read of CFG1 and a write of CFG1 with the MUX bit clear, which completes exactly when its transfer does |
| SensorProperties.GetChannelsOnIR2 | Adafruit_TCS3430.cpp:474-497 | found on IR2, the call is the clear and, if it completed, the burst followed by setting the MUX bit |
| SensorProperties.GetChannelsClearsMux | Adafruit_TCS3430.cpp:473-476 | found on IR2, the MUX is switched to X before the burst: the third transfer writes CFG1 with bit 3 clear |
| SensorProperties.GetChannelsRestoresAfterBurst | Adafruit_TCS3430.cpp:483-497 | found on IR2, the burst is followed by a read of CFG1 and a write of it with bit 3 set, whether or not the burst completed |
| SensorProperties.GetChannelsRestoresMux | Adafruit_TCS3430.cpp:471-500 | when the MUX transfers complete, the call leaves every register as it found it, burst completed or not |
| SensorProperties.GetIR2SwitchFails | Adafruit_TCS3430.cpp:510-512 | a failed switch to IR2 gives 0, with no CH3 read and no register changed |
| SensorProperties.SwitchMuxLog | Adafruit_TCS3430.cpp:508-510 | the MUX read is followed by a read of CFG1 and a write of CFG1 with the MUX bit set, which completes exactly when its transfer does |
| SensorProperties.GetIR2SwitchesMux | Adafruit_TCS3430.cpp:508-512 | the MUX is switched to IR2 before the integration time and CH3 are read: the third transfer writes CFG1 with bit 3 set, whichever way the MUX was found |
| SensorProperties.AfterIR2ReadKeepsSwitch | Adafruit_TCS3430.cpp:510-522 | the transfers after the switch, the MUX cleared again or not, leave the switch at the head of the log |
| SensorProperties.SettleThenRead | Adafruit_TCS3430.cpp:514-518 | the settling delay costs one read of ATIME, followed by one two-byte read of CH3 |
| SensorProperties.AfterIR2ReadLog | Adafruit_TCS3430.cpp:508-518 | up to the CH3 read the call makes five transfers: the switch to IR2, then a read of ATIME, then a read of CH3 |
| SensorProperties.GetIR2Ending | Adafruit_TCS3430.cpp:520-522 | after the CH3 read the MUX is cleared exactly when it was found on X |
| SensorProperties.GetIR2Reads | Adafruit_TCS3430.cpp:514-518 | once on IR2 the call reads ATIME for the settling delay, then CH3 |
| SensorProperties.GetIR2FromIR2 | Adafruit_TCS3430.cpp:520-522 | found on IR2, the MUX is not switched back: the CH3 read is the last transfer |
| SensorProperties.GetIR2FromX | Adafruit_TCS3430.cpp:520-522 | found on X, the CH3 read is followed by clearing the MUX bit |
| SensorProperties.GetIR2RestoresMuxFromIR2 | Adafruit_TCS3430.cpp:506-525 | found on IR2, with the MUX read and the switch completing, no register changes whatever the ATIME and CH3 reads do; when the CH3 read completes the result is the CH3 pair |
| SensorProperties.GetIR2RestoresMuxFromX | Adafruit_TCS3430.cpp:506-525 | found on X, with the MUX read, the switch and the switch back completing, the MUX is back on X and no register changes whatever the ATIME and CH3 reads do; when the CH3 read completes the result is the CH3 pair |
| SensorProperties.GetIR2RestoresMux | Adafruit_TCS3430.cpp:506-525 | when the MUX read, the switch and, found on X, the switch back complete, every register ends as it was, whatever the ATIME and CH3 reads do; when the CH3 read completes the result is the CH3 pair |
| SensorProperties.BeginSteps | Adafruit_TCS3430.cpp:58-86 | start-up succeeds exactly when the probe, the ID check, the power-on and the ALS-enable all succeed, with no transfer after the first failure; the fourth transfer writes ENABLE with bit 0 (power on) set, and the sixth, after it, writes ENABLE with bit 1 (ALS enable) set |
| SensorProperties.BeginPowersOn | Adafruit_TCS3430.cpp:74-83 | on a chip reporting 0xDC with every transfer completing, start-up sets ENABLE bits 0 and 1 and changes nothing else |
| SensorProperties.GetChannelsMuxReadFails | Adafruit_TCS3430.cpp:473-497 | as written, a failed MUX read delivering bit 3 set is taken for IR2, and a MUX found on X ends on IR2 although the later transfers complete |
| SensorProperties.GetIR2MuxReadFails | Adafruit_TCS3430.cpp:508-522 | as written, the same failed MUX read leaves a MUX found on X switched to IR2 |
| SensorProperties.GetChannelsGuardedRestoresMux | Adafruit_TCS3430.cpp:471-500 | with the MUX read checked, the MUX ends as found whenever the MUX transfers made complete, a failed MUX read included |
| SensorProperties.GetIR2GuardedRestoresMux | Adafruit_TCS3430.cpp:506-525 | with the MUX read checked, the MUX ends as found whenever the MUX transfers made complete, whatever the ATIME and CH3 reads do, a failed MUX read included |
| SensorProperties.LuxGainTable | Adafruit_TCS3430.cpp:569-589 | the lux divisors are 1, 4, 16, 66 and 137 for 1x to 128x, and 1 for any other value |
| SensorProperties.GetLuxSign | Adafruit_TCS3430.cpp:559-597 | lux is 0 on a failed read, otherwise never negative and zero exactly when Y is |
| SensorProperties.RatiosInTriangle | Adafruit_TCS3430.cpp:543-552 | the ratios of three non-negative counts to their positive sum lie in the chromaticity triangle |
| SensorProperties.ChromaticityInRange | Adafruit_TCS3430.cpp:543-552 | good chromaticity coordinates satisfy x, y >= 0 and x + y <= 1 |
| SensorProperties.GetCCTOnFailure | Adafruit_TCS3430.cpp:606-609 | the temperature is 0 when the chromaticity call fails |
| SensorProperties.McCamyAtReferenceX | Adafruit_TCS3430.cpp:611-612 | at x = 0.3320 the temperature is 5520.33 K for every y but 0.1858 |
| SensorProperties.GetCCTAtSingularY | Adafruit_TCS3430.cpp:611 | at y = 0.1858 the temperature is not a finite number |
| SensorProperties.FlagRoundTrip | Adafruit_TCS3430.cpp:315-333 | a one-bit setting read after a successful write reads as written |
| SensorProperties.FlagFrame | Adafruit_TCS3430.cpp:620-739 | a one-bit setter changes no register but its own, and no bit of it but the flag's |
| SensorProperties.PersistenceRoundTrip | Adafruit_TCS3430.cpp:290-308 | every persistence value reads back unchanged after a successful write |
| SensorProperties.AutoZeroEveryNRoundTrip | Adafruit_TCS3430.cpp:695-712 | the auto-zero interval reads back cut to its 7 bits |
| SensorProperties.ThresholdRoundTrip | Adafruit_TCS3430.cpp:248-283 | both thresholds read back as written after a successful write |
| SensorProperties.ClearALSSaturatedWrites | Adafruit_TCS3430.cpp:431-436 | clearing saturation is one write of 0x80 to STATUS, which changes STATUS only if it completes |
| Device.Device.Perform | Adafruit_TCS3430.cpp:65 | one transfer uses up a script entry and is logged with its outcome |
| Device.Device.Probe | Adafruit_TCS3430.cpp:64-66 | the probe method does what `ProbeBus` states |
| Device.Device.ReadBytes | Adafruit_TCS3430.cpp:480-483 | the burst fills the array as `I2C.ReadBytes` states |
| Device.Device.WriteBytes | Adafruit_TCS3430.cpp:248-253 | the burst write updates the device as `I2C.WriteBytes` states |
| Device.Device.ReadRegister | Adafruit_TCS3430.cpp:103-107 | as `BusIO.ReadRegister` |
| Device.Device.ReadRegister16 | Adafruit_TCS3430.cpp:258-263 | as `BusIO.ReadRegister16` |
| Device.Device.WriteRegister | Adafruit_TCS3430.cpp:93-97 | as `BusIO.WriteRegister` |
| Device.Device.WriteRegister16 | Adafruit_TCS3430.cpp:248-253 | as `BusIO.WriteRegister16` |
| Device.Device.ReadField | Adafruit_TCS3430.cpp:145-151 | as `BusIO.ReadField` |
| Device.Device.WriteField | Adafruit_TCS3430.cpp:133-139 | as `BusIO.WriteField` |
| Driver.TCS3430.Begin | Adafruit_TCS3430.cpp:58-86 | result and device state as `Sensor.Begin`; the address is recorded |
| Driver.TCS3430.SetIntegrationCycles | Adafruit_TCS3430.cpp:93-97 | one write of ATIME |
| Driver.TCS3430.GetIntegrationCycles | Adafruit_TCS3430.cpp:103-107 | one read of ATIME |
| Driver.TCS3430.GetIntegrationTime | Adafruit_TCS3430.cpp:123-126 | as `Sensor.GetIntegrationTime` |
| Driver.TCS3430.SetWaitCycles | Adafruit_TCS3430.cpp:208-212 | one write of WTIME |
| Driver.TCS3430.GetWaitCycles | Adafruit_TCS3430.cpp:218-222 | one read of WTIME |
| Driver.TCS3430.GetWaitTime | Adafruit_TCS3430.cpp:238-241 | as `Sensor.GetWaitTime` |
| Driver.TCS3430.SetALSThresholdLow | Adafruit_TCS3430.cpp:248-253 | one two-byte write from AILTL |
| Driver.TCS3430.GetALSThresholdLow | Adafruit_TCS3430.cpp:258-262 | one two-byte read from AILTL |
| Driver.TCS3430.SetALSThresholdHigh | Adafruit_TCS3430.cpp:269-274 | one two-byte write from AIHTL |
| Driver.TCS3430.GetALSThresholdHigh | Adafruit_TCS3430.cpp:279-283 | one two-byte read from AIHTL |
| Driver.TCS3430.SetInterruptPersistence | Adafruit_TCS3430.cpp:290-296 | a write of the 4-bit field at bit 0 of PERS |
| Driver.TCS3430.GetInterruptPersistence | Adafruit_TCS3430.cpp:302-308 | a read of the 4-bit field at bit 0 of PERS |
| Driver.TCS3430.SetWaitLong | Adafruit_TCS3430.cpp:315-321 | a write of CFG0 bit 2 |
| Driver.TCS3430.GetWaitLong | Adafruit_TCS3430.cpp:327-333 | a read of CFG0 bit 2 |
| Driver.TCS3430.SetALSMuxIR2 | Adafruit_TCS3430.cpp:340-346 | a write of CFG1 bit 3 |
| Driver.TCS3430.GetALSMuxIR2 | Adafruit_TCS3430.cpp:352-358 | a read of CFG1 bit 3 |
| Driver.TCS3430.SetALSGain | Adafruit_TCS3430.cpp:365-389 | as `Sensor.SetALSGain` |
| Driver.TCS3430.GetALSGain | Adafruit_TCS3430.cpp:395-413 | as `Sensor.GetALSGain` |
| Driver.TCS3430.IsALSSaturated | Adafruit_TCS3430.cpp:419-425 | a read of STATUS bit 7 |
| Driver.TCS3430.ClearALSSaturated | Adafruit_TCS3430.cpp:431-436 | one write of 0x80 to STATUS |
| Driver.TCS3430.IsALSInterrupt | Adafruit_TCS3430.cpp:442-448 | a read of STATUS bit 4 |
| Driver.TCS3430.ClearALSInterrupt | Adafruit_TCS3430.cpp:454-461 | one write of 0xFF to STATUS |
| Driver.TCS3430.GetChannels | Adafruit_TCS3430.cpp:471-500 | as `Sensor.GetChannels`, decoding the 8-byte buffer the burst fills |
| Driver.TCS3430.GetIR2 | Adafruit_TCS3430.cpp:506-525 | as `Sensor.GetIR2` |
| Driver.TCS3430.GetCIE | Adafruit_TCS3430.cpp:533-553 | as `Sensor.GetCIE` |
| Driver.TCS3430.GetLux | Adafruit_TCS3430.cpp:559-597 | as `Sensor.GetLux` |
| Driver.TCS3430.GetCCT | Adafruit_TCS3430.cpp:603-613 | as `Sensor.GetCCT` |
| Driver.TCS3430.SetFlag | Adafruit_TCS3430.cpp:133-139 | a one-bit setter's field write, as `Sensor.SetFlag` |
| Driver.TCS3430.GetFlag | Adafruit_TCS3430.cpp:145-151 | a one-bit getter's field read, as `Sensor.GetFlag` |
| Driver.TCS3430.SetInterruptClearOnRead | Adafruit_TCS3430.cpp:620-626 | a write of CFG3 bit 7 |
| Driver.TCS3430.GetInterruptClearOnRead | Adafruit_TCS3430.cpp:632-638 | a read of CFG3 bit 7 |
| Driver.TCS3430.SetSleepAfterInterrupt | Adafruit_TCS3430.cpp:645-651 | a write of CFG3 bit 4 |
| Driver.TCS3430.GetSleepAfterInterrupt | Adafruit_TCS3430.cpp:657-663 | a read of CFG3 bit 4 |
| Driver.TCS3430.SetAutoZeroMode | Adafruit_TCS3430.cpp:670-676 | a write of AZ_CONFIG bit 7 |
| Driver.TCS3430.GetAutoZeroMode | Adafruit_TCS3430.cpp:682-688 | a read of AZ_CONFIG bit 7 |
| Driver.TCS3430.SetRunAutoZeroEveryN | Adafruit_TCS3430.cpp:695-701 | a write of the 7-bit field at bit 0 of AZ_CONFIG |
| Driver.TCS3430.GetRunAutoZeroEveryN | Adafruit_TCS3430.cpp:707-713 | a read of the 7-bit field at bit 0 of AZ_CONFIG |
| Driver.TCS3430.EnableSaturationInt | Adafruit_TCS3430.cpp:720-726 | a write of INTENAB bit 7 |
| Driver.TCS3430.EnableALSInt | Adafruit_TCS3430.cpp:733-739 | a write of INTENAB bit 4 |
| Driver.TCS3430.WaitEnable | Adafruit_TCS3430.cpp:133-139 | a write of ENABLE bit 3 |
| Driver.TCS3430.IsWaitEnabled | Adafruit_TCS3430.cpp:145-151 | a read of ENABLE bit 3 |
| Driver.TCS3430.ALSEnable | Adafruit_TCS3430.cpp:158-164 | a write of ENABLE bit 1 |
| Driver.TCS3430.IsALSEnabled | Adafruit_TCS3430.cpp:170-176 | a read of ENABLE bit 1 |
| Driver.TCS3430.PowerOn | Adafruit_TCS3430.cpp:183-189 | a write of ENABLE bit 0 |
| Driver.TCS3430.IsPoweredOn | Adafruit_TCS3430.cpp:195-201 | a read of ENABLE bit 0 |

## Left out

- The I2C transport and the register library are not part of this model. They are stood in for by the `Bus` value with its failure script. Three behaviours of the register library are assumed:
  - a register or field access is one transfer;
  - a two-byte register is least significant byte first;
  - a field write reads the register and writes it back even when the read failed.
- A failed read's bytes: the driver never looks at whether a one- or two-byte register read or a field read completed; only the channel burst's outcome is checked (Adafruit_TCS3430.cpp:483). The register library delivers all ones for a failed read. The model takes that byte as a parameter (`floating`), so any value is covered.
- The bus handle's allocation and release in the constructor, destructor and `begin` are not modelled. The driver object is built around an existing device, and `Begin` records the address it is given without switching devices.
- Whether the chip answers at the given address is not modelled beyond the probe's outcome in the failure script.
- The `delay` in `getIR2` is timing only. The model keeps the integration-time read that computes it, because that read is a bus transfer.
- `setIntegrationTime` and `setWaitTime` are not modelled. They cast a float to an 8-bit integer, and that cast is undefined for values out of range.
- Single-precision rounding is not modelled. Chromaticity, lux, the cycle-to-millisecond conversion and the colour temperature use exact reals. A temperature whose divisor is zero, which is an infinity or NaN in floats, is `None`.
- Chip-side behaviour is not modelled: the status register's write-to-clear and an interrupt flag firing again after a clear. A write to STATUS is modelled as storing the byte written.
- Sensor.GetChannels, Sensor.GetIR2, Sensor.Begin, Sensor.SetALSGain, Sensor.GetALSGain, Sensor.GetLux: these functions' own contracts state only that the bus stays well formed. Their behaviour is stated by the lemmas in `SensorProperties` listed above: for the MUX, the switch (`GetChannelsClearsMux`, `GetIR2SwitchesMux`), the reads in between and the restore; for start-up, the order of the two ENABLE writes (`BeginSteps`).
- GetChannelsRestoresMux, GetIR2RestoresMux: they hold only when the MUX read and the MUX writes themselves complete; the data reads' outcomes are left free. A failed MUX read can leave the MUX changed, as recorded under "## Findings".

## Findings

| source | as written | input that shows it | evidently intended | confidence | as-written member | corrected member |
|---|---|---|---|---|---|---|
| Adafruit_TCS3430.cpp:473-497 | getChannels takes the MUX read's value without knowing whether the read completed; a failed read delivering bit 3 set counts as IR2, so the MUX is cleared for the burst and then set | CFG1 bit 3 clear (MUX on X), the MUX read fails, the failure byte is 0xFF, and every later MUX transfer completes: CFG1 bit 3 ends set | the MUX ends as it was found | not executed | SensorProperties.GetChannelsMuxReadFails | SensorProperties.GetChannelsGuardedRestoresMux |
| Adafruit_TCS3430.cpp:508-522 | getIR2 takes the MUX read's value the same way; a failed read delivering bit 3 set counts as IR2, so the MUX is not switched back after the CH3 read | CFG1 bit 3 clear, the MUX read fails, the failure byte is 0xFF, and the switch to IR2 completes: CFG1 bit 3 ends set | the MUX ends as it was found | not executed | SensorProperties.GetIR2MuxReadFails | SensorProperties.GetIR2GuardedRestoresMux |

The corrected forms, `Sensor.GetChannelsGuarded` and `Sensor.GetIR2Guarded`, end the call before any write when the MUX read fails, and are the driver's functions otherwise. The driver class and the derived measurements (`GetCIE`, `GetLux`, `GetCCT`) keep the code as written, so that the model of the driver stays the driver.
