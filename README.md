# DRV8873 register protocol, modelled in Dafny

This project models the register-access core of a driver for the DRV8873
H-bridge motor driver, an IC configured over SPI through six 8-bit registers.

- **Register layer** (`fields.dfy`, `registers.dfy`, `access.dfy`)
  - The command byte: bits 5..1 hold the address and bit 6 is the read flag.
  - The status byte that comes back first on every exchange. `11000000b` means
    "no fault"; anything else is reported as a fault register holding its low six bits.
  - The field enumerations and their bit patterns.
  - The six registers, with bit-field getters and setters and power-on defaults:
    `FaultStatus` (0x00), `DiagnosticStatus` (0x01) and `ControlRegister1..4` (0x02-0x05).
  - The single-register read and write. Each is one 2-byte full-duplex exchange.
- **Configuration bundle** (`config.dfy`). The four control registers as independent
  fields. Its batched write is one 8-byte transfer carrying the four write frames in
  ascending address order.
- **Device handle** (`driver.dfy`)
  - It owns the SPI device, the optional nFAULT, nSLEEP and DISABLE lines, the input
    mode and a bundle. Builders add the lines.
  - It reads the fault and diagnostic registers and writes the bundle.
  - It guards nSLEEP as a two-state machine: `awaken` drives the line high and waits
    t_wake = 1500 us; `sleep` drives it low and waits t_sleep = 50 us. Each acts only
    from the other state.

The hardware the driver is generic over is in `hal.dfy`. Each stand-in answers from a
script fixed in advance and logs what the driver did:
- the SPI device: a list of replies; a log of the frames sent;
- an output line: its level, which operations fail, and a log of reads and drives;
- the delay: a log of waits.
The driver's contracts are therefore exact traces. `bits.dfy` holds the shift/mask
helpers that stand in for the `bitfield!` macro. `wrappers.dfy` holds Option and Result.

The model follows the code:
- A register write ignores the status byte clocked back. It succeeds exactly when the
  transfer does (src/registers.rs:70-77). No fault is surfaced.
- The handle is created holding the default bundle (src/lib.rs:49), not empty.
- The waits are exactly 1500 us and 50 us (src/lib.rs:156, src/lib.rs:168).

## Model

| member | source | states |
|---|---|---|
| Registers.CommandByte.SetAddress | src/registers.rs:13 | the address field (bits 5..1) then reads back as the low five bits of the address; no other bit changes |
| Registers.CommandByte.SetReadBit | src/registers.rs:14 | the read flag (bit 6) then reads back as the value set; no other bit changes |
| Registers.CommandByte.Write | src/registers.rs:17-22 | the byte is `(addr & 0x1F) << 1`: read flag clear, bits 0 and 7 clear, address field equal to the masked address |
| Registers.CommandByte.Read | src/registers.rs:23-29 | the byte is 0x40 OR-ed with `(addr & 0x1F) << 1`: read flag set, bits 0 and 7 clear, address field equal to the masked address |
| Registers.GetStatus | src/registers.rs:31-39 | no fault exactly when the status is `11000000b`; otherwise a fault whose low six bits are the status's and whose bits 7 and 6 (including the global `Fault` flag) are clear; a status with correct marker bits is never reported as an all-clear fault |
| Fields.Mode.Code | src/registers.rs:342-351 | each input mode has a 2-bit pattern that decodes back to it |
| Fields.Mode.FromCode | src/registers.rs:342-351 | a pattern above 3 decodes to the default, PWM |
| Fields.RiseTime.Code | src/registers.rs:327-340 | each slew rate has a 3-bit pattern that decodes back to it |
| Fields.RiseTime.FromCode | src/registers.rs:327-340 | a pattern above 7 decodes to the default, 10.8 V/us |
| Fields.Toff.Code | src/registers.rs:316-325 | each off time has a 2-bit pattern that decodes back to it |
| Fields.Toff.FromCode | src/registers.rs:316-325 | a pattern above 3 decodes to the default, 40 us |
| Fields.OcpMode.Code | src/registers.rs:353-361 | each overcurrent mode has a 2-bit pattern that decodes back to it |
| Fields.OcpMode.FromCode | src/registers.rs:353-361 | a pattern above 3 decodes to the default, latched fault |
| Fields.OcpTRetry.Code | src/registers.rs:362-370 | each retry time has a 2-bit pattern that decodes back to it |
| Fields.OcpTRetry.FromCode | src/registers.rs:362-370 | a pattern above 3 decodes to the default, 4 ms |
| Fields.Lock.Code | src/registers.rs:372-378 | Unlocked is 100b and Locked is 011b, and each decodes back to its variant |
| Fields.Lock.FromCode | src/registers.rs:372-378 | a pattern decodes to Locked exactly when it is 011b; every other pattern decodes to Unlocked |
| Fields.ITrip.Code | src/registers.rs:380-388 | each current-regulation setting has a 2-bit pattern that decodes back to it |
| Fields.ITrip.FromCode | src/registers.rs:380-388 | a pattern above 3 decodes to the default, Enabled |
| Fields.ITripLvl.Code | src/registers.rs:389-397 | each trip level has a 2-bit pattern that decodes back to it |
| Fields.ITripLvl.FromCode | src/registers.rs:389-397 | a pattern above 3 decodes to the default, 6.5 A |
| Fields.FieldPatternsDecodeUniquely | src/registers.rs:316-397 | every 2-bit pattern (3-bit for the rise time) decodes to the one variant that encodes it; a Lock pattern survives a decode-encode round trip exactly when it is 100b or 011b |
| Registers.FaultStatus.FromByte | src/registers.rs:79-89 | decoding keeps the byte: `ToByte` gives it back, reserved bit included |
| Registers.FaultStatus.Default | src/registers.rs:90-95 | no fault flag is set; the byte is 0 |
| Registers.DiagnosticStatus.FromByte | src/registers.rs:96-106 | decoding keeps the byte: `ToByte` gives it back |
| Registers.DiagnosticStatus.Default | src/registers.rs:107-112 | no diagnostic flag is set; the byte is 0 |
| Registers.ControlRegister1.FromByte | src/registers.rs:113-123 | decoding keeps the byte: `ToByte` gives it back |
| Registers.ControlRegister1.Default | src/registers.rs:124-132 | PWM mode, 10.8 V/us, 40 us off time, SPI input off; the byte is 0x51 |
| Registers.ControlRegister1.SetMode | src/registers.rs:247 | the mode getter returns the value set; bits outside 1..0 are unchanged |
| Registers.ControlRegister1.SetSr | src/registers.rs:249 | the rise-time getter returns the value set; bits outside 4..2 are unchanged |
| Registers.ControlRegister1.SetSpiIn | src/registers.rs:252 | the SPI_IN flag reads back as set; only bit 5 may change |
| Registers.ControlRegister1.SetToff | src/registers.rs:254 | the off-time getter returns the value set; bits outside 7..6 are unchanged |
| Registers.ControlRegister2.FromByte | src/registers.rs:133-143 | decoding keeps the byte: `ToByte` gives it back |
| Registers.ControlRegister2.Default | src/registers.rs:144-151 | latched overcurrent fault, 4 ms retry, all flags clear; the byte is 0x0C |
| Registers.ControlRegister2.SetOcpMode | src/registers.rs:261 | the overcurrent-mode getter returns the value set; bits outside 1..0 are unchanged |
| Registers.ControlRegister2.SetOcpTRetry | src/registers.rs:263 | the retry-time getter returns the value set; bits outside 3..2 are unchanged |
| Registers.ControlRegister2.SetDisCpuv | src/registers.rs:265 | the DIS_CPUV flag reads back as set; only bit 4 may change |
| Registers.ControlRegister2.SetOtwRep | src/registers.rs:267 | the OTW_REP flag reads back as set; only bit 5 may change |
| Registers.ControlRegister2.SetTsdMode | src/registers.rs:269 | the TSD_MODE flag reads back as set; only bit 6 may change |
| Registers.ControlRegister2.SetItripRep | src/registers.rs:271 | the ITRIP_REP flag reads back as set; only bit 7 may change |
| Registers.ControlRegister3.FromByte | src/registers.rs:152-162 | decoding keeps the byte: `ToByte` gives it back |
| Registers.ControlRegister3.Default | src/registers.rs:163-169 | registers unlocked, all other bits clear; the byte is 0x40 |
| Registers.ControlRegister3.SetPhIn2 | src/registers.rs:278 | the PH/IN2 flag reads back as set; only bit 0 may change |
| Registers.ControlRegister3.SetEnIn1 | src/registers.rs:280 | the EN/IN1 flag reads back as set; only bit 1 may change |
| Registers.ControlRegister3.SetOut2Dis | src/registers.rs:284 | the OUT2_DIS flag reads back as set; only bit 2 may change |
| Registers.ControlRegister3.SetOut1Dis | src/registers.rs:288 | the OUT1_DIS flag reads back as set; only bit 3 may change |
| Registers.ControlRegister3.SetLock | src/registers.rs:293 | the lock getter returns the value set; bits 6..4 become exactly the variant's pattern (100b to unlock, 011b to lock); bits outside 6..4 are unchanged |
| Registers.ControlRegister3.SetClrFlt | src/registers.rs:296 | the CLR_FLT flag reads back as set; only bit 7 may change |
| Registers.ControlRegister4.FromByte | src/registers.rs:170-180 | decoding keeps the byte: `ToByte` gives it back, reserved bit included |
| Registers.ControlRegister4.Default | src/registers.rs:181-187 | 6.5 A trip level, regulation enabled, all flags clear; the byte is 0x08 |
| Registers.ControlRegister4.SetITrip | src/registers.rs:303 | the regulation getter returns the value set; bits outside 1..0 are unchanged |
| Registers.ControlRegister4.SetITripLvl | src/registers.rs:305 | the trip-level getter returns the value set; bits outside 3..2 are unchanged |
| Registers.ControlRegister4.SetEnOla | src/registers.rs:307 | the EN_OLA flag reads back as set; only bit 4 may change |
| Registers.ControlRegister4.SetOldDly | src/registers.rs:309 | the OLP_DLY flag reads back as set; only bit 5 may change |
| Registers.ControlRegister4.SetEnOlp | src/registers.rs:312 | the EN_OLP flag reads back as set; only bit 6 may change |
| Registers.RegisterBytesRoundTrip | src/registers.rs:79-187 | for all six registers, `FromByte` undoes `ToByte` |
| Access.ReadFrame | src/registers.rs:56-58 | a read sends two bytes: a command with the read flag and the masked address and bits 0 and 7 clear, then 0x00 |
| Access.WriteFrame | src/registers.rs:71-73 | a write sends two bytes: a command with the read flag, bit 0 and bit 7 clear and the masked address, then the register's byte |
| Access.ReadOutcome | src/registers.rs:55-62 | a read succeeds exactly when the transfer does; the register comes from the second byte received; the status is reported exactly when the first byte is not `11000000b`, and then holds that byte's low six bits; a transfer failure is `SpiError` |
| Access.Read | src/registers.rs:47-63 | exactly one read frame is sent and one reply consumed; the result is `ReadOutcome` of the reply |
| Access.Write | src/registers.rs:64-78 | exactly one write frame is sent; the result is a success exactly when the transfer answers, whatever the status byte; otherwise `SpiError` |
| Access.RegistersExchange | src/lib.rs:191-246 | against the test's replies, the frames sent are `40 00`, `42 00`, `04 FF`; the fault read has the open-load flag and no reported fault; the diagnostic read has OL1 and no reported fault; the write succeeds |
| Access.ReadSurfacesStatusFault | src/registers.rs:61 | with status `11000101b`, a fault-register read returns the register and a reported fault with bits `000101b` |
| Config.BatchFrame | src/lib.rs:263-273 | a batch of n register writes is 2n bytes long |
| Config.BatchFrameAt | src/lib.rs:263-273 | the i-th byte pair of a batch is the single-register write frame of the i-th write |
| Config.Drv8873Config.Default | src/config.rs:3-9 | every register at its power-on value: bytes 0x51, 0x0C, 0x40, 0x08 with the decoded defaults |
| Config.Drv8873Config.Writes | src/config.rs:4-9 | the bundle stands for four writes, one per control register, to addresses 0x02..0x05 in order |
| Config.Drv8873Config.WriteConfig | src/lib.rs:263-279 | exactly one transfer, the bundle's frame, is sent; it succeeds exactly when an 8-byte reply comes back, otherwise `SpiError` |
| Config.FrameLayout | src/lib.rs:263-273 | the bundle's frame is `04 cr1 06 cr2 08 cr3 0A cr4`, the four single-register write frames back to back |
| Config.FrameAscending | src/lib.rs:263-273 | every command byte of the frame is a write, and the addresses strictly ascend |
| Config.DefaultFrame | src/lib.rs:263-273 | the default bundle goes out as `04 51 06 0C 08 40 0A 08` |
| Config.FieldsIndependent | src/config.rs:4-9 | replacing one register of the bundle changes only that register's data byte in the frame |
| Driver.SleepingStep | src/lib.rs:142-149 | with an nSLEEP line, the device is asleep exactly when the line is driven low; a read failure is `SleepError` and logs nothing |
| Driver.AwakenStep | src/lib.rs:150-160 | from Low: read the line, drive it High, wait 1500 us; from High: no drive and no wait; succeeds exactly when the line read, and from Low the drive, succeed; success leaves the line High; any failure is `SleepError` with no wait |
| Driver.SleepStep | src/lib.rs:161-173 | from High: read the line, drive it Low, wait 50 us; from Low: no drive and no wait; succeeds exactly when the line read, and from High the drive, succeed; success leaves the line Low; any failure is `SleepError` with no wait |
| Driver.AwakenTwice | src/lib.rs:150-160 | after a successful awaken, a second awaken only reads the line: no drive, no wait |
| Driver.SleepTwice | src/lib.rs:161-173 | after a successful sleep, a second sleep only reads the line: no drive, no wait |
| Driver.AwakenThenSleepTrace | src/lib.rs:283-288 | from a healthy low line, awaken then sleep logs exactly get Low, set High, get High, set Low, and waits 1500 us then 50 us |
| Driver.Drv8873.constructor | src/lib.rs:41-51 | the handle owns the given SPI device, has no lines, PWM input with no pins, and the default bundle |
| Driver.Drv8873.WithFaultPin | src/lib.rs:115-118 | sets only the nFAULT line and returns the same handle |
| Driver.Drv8873.WithSleepPin | src/lib.rs:119-122 | sets only the nSLEEP line and returns the same handle |
| Driver.Drv8873.WithDisablePin | src/lib.rs:123-127 | sets only the DISABLE line and returns the same handle |
| Driver.Drv8873.SetConfig | src/lib.rs:128-131 | sends the held bundle's frame; succeeds exactly when the bundle write does, otherwise its `SpiError` is passed on |
| Driver.Drv8873.GetFault | src/lib.rs:132-136 | one read exchange at 0x00; returns the register from the second byte received and drops the status; a transfer failure is `SpiError` |
| Driver.Drv8873.GetDiagnostics | src/lib.rs:137-141 | one read exchange at 0x01; returns the register from the second byte received and drops the status; a transfer failure is `SpiError` |
| Driver.Drv8873.IsSleeping | src/lib.rs:142-149 | without an nSLEEP line, not asleep and nothing touched; with one, as `SleepingStep` |
| Driver.Drv8873.Awaken | src/lib.rs:150-160 | without an nSLEEP line, no effect; with one, the line, the wait log and the result are as `AwakenStep` |
| Driver.Drv8873.Sleep | src/lib.rs:161-173 | without an nSLEEP line, no effect; with one, the line, the wait log and the result are as `SleepStep` |
| Driver.RunSession | src/lib.rs:297-301 | the test's call sequence on a prepared handle sends the three expected frames and logs the four nSLEEP events and the two waits |
| Driver.DeviceSession | src/lib.rs:247-306 | the `dev` test: frames `40 00`, `42 00`, `04 51 06 0C 08 40 0A 08`; nSLEEP trace get Low, set High, get High, set Low; waits 1500 then 50 us; the open-load and OL1 flags read back; every call succeeds |

## Left out

- Motor direction and PWM control are not modelled: `set_mode`, `brake`, `forward_with_speed`,
  `backward_with_speed` and src/inputs.rs. They are GPIO/PWM glue, partly unimplemented
  (`todo!()`, empty bodies). Only the handle's initial input mode, PWM without pins, is kept.
- Register setters are functions that return the updated register. The source updates
  the register in place through `&mut self`. A register is a plain byte, so no aliasing is lost.
- The body of `write_config` is not part of this model. `Drv8873Config.WriteConfig` is
  built from the transfer the driver's test expects (src/lib.rs:263-279). Like the
  single-register write, it ignores the status bytes clocked back.
- `read_config`, `modify_config`, the per-register `modify_*` and `clear_fault` are not in
  the source files of this model.
- Driver.Drv8873.Awaken: the nSLEEP trace and the wait log are separate, so the contract does
  not record that the wait comes after the line is driven. The same holds for Driver.Drv8873.Sleep.
- Real time, `async` suspension and real SPI/GPIO hardware are out. Waits are logged as
  microsecond values. The hardware answers from fixed scripts.
- The transport's `transaction_start`/`transaction_end` framing is out. One transfer is one logged frame.
- The nFAULT and DISABLE lines are stored but never read or driven, so they carry no state here.
- The handle does not state that its nSLEEP and DISABLE lines are distinct objects, which
  Rust's ownership guarantees. DISABLE is never driven, so no modelled operation depends on it.
- The `Debug` impls and the `bitfield!`/`num_enum` macro machinery are out. Explicit masks
  reproduce their effect. `Drv8873Error::Drv8873Fault` and `InputError` are declared, but no
  modelled operation produces them.
