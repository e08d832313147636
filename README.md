# Brusa DMC5 motor controller: a Dafny model

This project models the CAN protocol engine of GEVCU's driver for the Brusa
DMC5 motor controller (inverter). The engine has three jobs.

- **Scheduler.** On every tick it sends the control frame. On every fifth tick
  it also sends the control-2 frame and the limits frame.
- **Control frame.** It builds the control frame from the telemetry last
  received. An error present means only "clear the error latch". Otherwise the
  power stage is enabled when the DMC is ready or turns faster than 1000 rpm.
  Speed and torque are written only when the DMC also reports that it is
  running.
- **Decoder.** It decodes the five incoming frame types into telemetry fields:
  status, actual values, errors and warnings, torque limits, temperatures.

The model has three modules.

- `Dmc5Codec` (`codec.dfy`): the byte layout.
  - Big-endian 16-bit words (`BE16`, `Hi`, `Lo`).
  - The `int16_t` reading of a word (`Int16`) and its inverse (`Uint16`).
  - 16-bit multiplication by ten (`Tenfold`).
  - The 32-bit error word, spread over bytes 1, 0, 5 and 4 (`Err32`).
- `Dmc5Protocol` (`protocol.dfy`): the protocol as values. It holds:
  - the identifiers and bit masks;
  - the telemetry, grouped by the frame that sets it;
  - `Decode`, what one incoming frame does to the telemetry;
  - `ControlPayload`, the bytes of the control frame;
  - the two fixed frames and the tick schedule;
  - the lemmas about all of these.
- `Dmc5Controller` (`controller.dfy`): the C++ object as a class.
  - The class `BrusaMotorController` has the object's fields.
  - A shared transmit buffer `OutputFrame` holds an `array<bv8>` of eight
    bytes. Every send overwrites it in place.
  - The ghost sequence `sent` records every frame handed to the CAN bus.
  - `HandleTick`, `SendControl`, `WriteControlBytes`, `SendControl2`,
    `SendLimits`, `HandleCanFrame` and the five per-frame `Read…` helpers are
    proved against the value-level definitions of `Dmc5Protocol`. For example,
    `HandleCanFrame` ends with `Telem() == Decode(old(Telem()), frame)`, and
    `HandleTick` appends exactly `TickFrames(...)` to `sent`.
  - `PrepareOutputFrame`, `UpdateStatusFlags` and `SendFrame` are specified
    directly on the fields and bytes they set.

## Model

| member | source | states |
|---|---|---|
| Dmc5Controller.BrusaMotorController.constructor | BrusaMotorController.cpp:39-73 | All telemetry is zero or false. The counter is 0, the mode is torque mode, the requests are 0, the test limits are 20 and 2000, and nothing has been sent. |
| Dmc5Controller.BrusaMotorController.HandleTick | BrusaMotorController.cpp:86-95 | The counter becomes `NextCounter` of the old one, which is at most 4. The ramp is applied to the requests. The frames sent are exactly `TickFrames`: the control frame first, then control-2 and limits, in that order, exactly when the incremented counter exceeds 4. |
| Dmc5Controller.BrusaMotorController.SendControl | BrusaMotorController.cpp:97-136 | Torque request := 50. Rpm request := 1000 when the speed is 0, 0 when the speed is above 950, unchanged otherwise. Exactly one frame is sent, id 0x210, and its bytes are `ControlPayload` of the status fields, the mode and the new requests. No byte of an earlier frame survives. |
| Dmc5Controller.BrusaMotorController.WriteControlBytes | BrusaMotorController.cpp:110-133 | Given a buffer whose bytes 1-7 are zero, the nested flag and setpoint branches leave exactly `ControlPayload` in the buffer. |
| Dmc5Controller.BrusaMotorController.SendControl2 | BrusaMotorController.cpp:138-156 | Exactly one frame is sent: id 0x212 with `Control2Payload`. |
| Dmc5Controller.BrusaMotorController.SendLimits | BrusaMotorController.cpp:158-176 | Exactly one frame is sent: id 0x211 with `LimitsPayload`. |
| Dmc5Controller.BrusaMotorController.SendFrame | BrusaMotorController.cpp:135 | The bus receives a copy of the buffer as it is now; the copy is appended to `sent`. |
| Dmc5Controller.BrusaMotorController.PrepareOutputFrame | BrusaMotorController.cpp:178-191 | Header: the given id, dlc 8, ide 0, rtr 0. Bytes 1-7 become zero and byte 0 is left as it was. |
| Dmc5Controller.BrusaMotorController.HandleCanFrame | BrusaMotorController.cpp:193-355 | The new telemetry is `Decode` of the old telemetry and the frame. Each known id replaces its own group only; any other id changes nothing. |
| Dmc5Controller.BrusaMotorController.ReadStatus | BrusaMotorController.cpp:195-216 | The status group becomes `DecodeStatus` of the bytes. All other telemetry fields are unchanged. |
| Dmc5Controller.BrusaMotorController.UpdateStatusFlags | BrusaMotorController.cpp:202-216 | Each of ready, running, error and warning equals its mask bit in the status word. Nothing else changes. |
| Dmc5Controller.BrusaMotorController.ReadActualValues | BrusaMotorController.cpp:242-246 | DC voltage, DC current, AC current and mechanical power are the four unsigned big-endian words. All other telemetry fields are unchanged. |
| Dmc5Controller.BrusaMotorController.ReadErrors | BrusaMotorController.cpp:250-252 | The error word is `Err32` of the bytes and the warning word is bytes 6-7. All other telemetry fields are unchanged. |
| Dmc5Controller.BrusaMotorController.ReadTorqueLimit | BrusaMotorController.cpp:336-339 | The two torque limits are `int16_t` words and the limiter state is byte 4. All other telemetry fields are unchanged. |
| Dmc5Controller.BrusaMotorController.ReadTemperature | BrusaMotorController.cpp:344-347 | The inverter and motor temperatures are unsigned words and the system temperature is byte 4. All other telemetry fields are unchanged. |
| Dmc5Protocol.Decode | BrusaMotorController.cpp:193-355 | A frame whose id is not X leaves group X as it was, for each of the five groups. |
| Dmc5Protocol.DecodeUnknownId | BrusaMotorController.cpp:352-354 | A frame with any other id leaves the telemetry unchanged. |
| Dmc5Protocol.DecodeIdempotent | BrusaMotorController.cpp:194-350 | Receiving a frame twice equals receiving it once. The group a known frame sets does not depend on the earlier telemetry. |
| Dmc5Protocol.StatusFlags | BrusaMotorController.cpp:196-214 | After a status frame the status word is bytes 0-1, and each flag holds exactly when its mask bit is set. No flag is kept from an earlier frame. |
| Dmc5Protocol.StatusRoundTrip | BrusaMotorController.cpp:196-199 | For every status word and every `int16_t` torque and speed the DMC encodes, the decoder returns those same values. |
| Dmc5Protocol.StatusDecodeInjective | BrusaMotorController.cpp:196-199 | Two status payloads that decode to the same fields are the same bytes. |
| Dmc5Protocol.ActualValuesRoundTrip | BrusaMotorController.cpp:243-246 | Four words sent big-endian are read back as their unsigned values. |
| Dmc5Protocol.TorqueLimitRoundTrip | BrusaMotorController.cpp:337-339 | For every pair of `int16_t` torque limits and every limiter state byte the DMC encodes, the decoder returns those same values. |
| Dmc5Protocol.TemperatureRoundTrip | BrusaMotorController.cpp:345-347 | Two big-endian words and the system temperature byte are read back as their unsigned values. |
| Dmc5Protocol.ErrorsFrameRoundTrip | BrusaMotorController.cpp:251-252 | The error word and the warning word come back from the device's byte layout. |
| Dmc5Codec.ErrorsRoundTrip | BrusaMotorController.cpp:251-252 | `Err32` undoes the byte order 1, 0, 5, 4, and bytes 6-7 give back the warning word. |
| Dmc5Codec.ErrorsBytesRecovered | BrusaMotorController.cpp:251-252 | Re-encoding the decoded words gives back every byte the decoder reads. |
| Dmc5Codec.Err32 | BrusaMotorController.cpp:251 | Bytes 1, 0, 5 and 4 are the error word's bits 0-7, 8-15, 16-23 and 24-31. |
| Dmc5Codec.BE16 | BrusaMotorController.cpp:196 | The word assembled from a byte pair splits back into the same pair. |
| Dmc5Codec.SplitJoin | BrusaMotorController.cpp:125-126 | Splitting a word into its high and low byte and joining them again is the identity. |
| Dmc5Codec.WordValue | BrusaMotorController.cpp:196 | The assembled word's unsigned value is 256 times the first byte plus the second. |
| Dmc5Codec.Int16 | BrusaMotorController.cpp:197-199 | A word stored into an `int16_t` lies in [-32768, 32767]. It is negative exactly when the top bit is set. |
| Dmc5Codec.Int16Bijection | BrusaMotorController.cpp:197-199 | `Int16` and `Uint16` are inverse on the `int16_t` range. |
| Dmc5Codec.Int16Injective | BrusaMotorController.cpp:197-199 | Distinct words are read as distinct `int16_t` values. |
| Dmc5Codec.TenfoldIsProduct | BrusaMotorController.cpp:129-130 | The shift-and-add form equals the 16-bit product by ten. |
| Dmc5Protocol.ErrorGate | BrusaMotorController.cpp:110-112 | With an error present, byte 0 is exactly "both directions + clear error latch" and bytes 1-7 are zero. The power stage is not requested, whatever the ready flag and the speed. |
| Dmc5Protocol.PowerStageGate | BrusaMotorController.cpp:110-119 | Both directions of two equivalences. The power stage is requested iff there is no error and (ready or speed > 1000). Clear-latch is requested iff there is an error. Both torque directions are always allowed and the oscillation limiter never is. |
| Dmc5Protocol.IdleFrame | BrusaMotorController.cpp:110-115 | No error, not ready and speed ≤ 1000 give `06 00 00 00 00 00 00 00`. |
| Dmc5Protocol.RunningPayload | BrusaMotorController.cpp:114-130 | Power stage on and running: speed mode is set iff the mode is speed mode. Bytes 2-3 are the rpm request and bytes 4-5 ten times the torque request, both big-endian modulo 2^16. Bytes 1, 6 and 7 are zero. The DMC reads back the same signed rpm. |
| Dmc5Protocol.NoSetpoints | BrusaMotorController.cpp:113-133 | Without the running path, speed mode is off and bytes 1-7 are zero. |
| Dmc5Protocol.RampTorqueOnWire | BrusaMotorController.cpp:128-130 | The ramp's torque request of 50 goes out as `01 F4`, read as 500 (5.00 Nm). |
| Dmc5Protocol.ErrorFrameGatesControl | BrusaMotorController.cpp:210-212 | After a status frame with the error bit, the next control frame requests clear-latch and neither the power stage nor speed mode. |
| Dmc5Protocol.StatusScenario | BrusaMotorController.cpp:114 | Status bytes `00 04 00 C8 00 64 03 E8` decode to status word 0x0004, 200, 100 and 1000 rpm. Since 1000 is not above the threshold, the next control frame is `06 00 …`, without the power stage. |
| Dmc5Protocol.ReverseSpeed | BrusaMotorController.cpp:103-114 | A speed word of 0xFFFF is read as -1 rpm. So neither the power-stage override nor the ramp's zeroing above 950 rpm applies, and the rpm request is kept. |
| Dmc5Protocol.FixedFrames | BrusaMotorController.cpp:138-176 | Control-2 is `00 00 00 00 C3 50 C3 50` and limits is `03 E8 03 E8 00 00 00 00`. |
| Dmc5Protocol.TickFrames | BrusaMotorController.cpp:89-93 | The frames of one tick have exactly the ids `TickIds` of the counter, and the first carries the control payload. |
| Dmc5Protocol.CounterBounded | BrusaMotorController.cpp:87-94 | After any tick the counter is at most 4, from any `uint8_t` start. From 0..4 it advances modulo 5. |
| Dmc5Protocol.Schedule | BrusaMotorController.cpp:86-95 | From a counter c in 0..4, after n ticks the counter is (c+n) mod 5, and (c+n) div 5 of the ticks sent control-2 and limits. |
| Dmc5Protocol.OncePerFiveTicks | BrusaMotorController.cpp:90-94 | From a fresh controller, every window of five consecutive ticks, wherever it starts, sends control-2 and limits exactly once. |

## Left out

- Logging: every `Logger` call is left out; it only produces output. This includes the per-bit dispatch of limitation causes, errors and warnings at lines 218-239 and 257-333, and the debug message for an unknown id.
- `setup()` is left out. It registers the object with the tick and CAN singletons, and registration is I/O.
- `getId()` is left out; it only returns a constant. The `#ifdef` configuration guard is left out too.
- `CanHandler::sendFrame` is not executed. The model's stand-in is the ghost log `sent`, which gets a copy of the buffer.
- The header `BrusaMotorController.h` is not part of this model, so the constants it defines are the model's own choice:
  - the incoming CAN ids 0x258, 0x259, 0x25A, 0x268 and 0x458, chosen inside the ranges the comment in `setup()` names (0x258-0x268 and 0x458);
  - the outgoing CAN ids 0x210, 0x211 and 0x212, which appear nowhere in the source and are arbitrary distinct values;
  - single-bit masks for the control byte and the four status flags.

  The proofs about identifiers need only that the ids are distinct. The concrete bytes in `IdleFrame` and `StatusScenario` depend on these values.
- The same header fixes the C types of the fields. The model assumes these types:
  - `speedActual`, `torqueAvailable`, `torqueActual`, `maxPositiveTorque` and `minNegativeTorque` are `int16_t`. The pair of bytes is read as two's complement (`Int16`). This choice decides the safety gates at lines 105 and 114. As `uint16_t`, a motor turning at -1 rpm would read as 65535. That is above 1000, so the power stage would be enabled, and above 950, so the rpm request would be zeroed. Under the `int16_t` reading, neither happens.
  - `dcVoltage`, `dcCurrent`, `acCurrent`, `mechanicalPower`, `temperatureInverter` and `temperatureMotor` are `uint16_t`, read unsigned. DC current and mechanical power are physically signed under regeneration. If the header declares them signed, their negative values are read here as values of 32768 and above.
  - `limiterStateNumber` and `temperatureSystem` hold byte 4 unchanged (`uint8_t` or wider).
  - `tickCounter` is `uint8_t`, so `++` wraps at 256 (`Incremented`).
  - `statusBitField` and `warningBitField` are `uint16_t`, and `errorBitField` is `uint32_t` (bit patterns `bv16` and `bv32`).
  - `requestedRPM` and `requestedTorque` are `int16_t`, modelled by their 16-bit patterns (see `SendControl` below).
- `maxTorque`, `maxRPM` and `requestedThrottle` are kept as fields. The source never reads them, so nothing clamps the requests.
- `SendControl`: the `int16_t` requests are modelled as their 16-bit patterns. The ramp only ever stores 0, 50 and 1000. The on-wire torque is ten times the request modulo 2^16, which is what the source's `& 0xFF00` and `& 0x00FF` masks keep of the promoted `int` product.
- `ReadErrors`: `data[4] << 24` is modelled as 32-bit, bit-exact. In the source the shift happens in a signed `int`, so a byte of 0x80 or more overflows before the value is stored into the 32-bit field. The stored bits are the same on the usual targets.
- HandleCanFrame: the frame length is not checked. There is no such check in the source: the payload is always eight bytes.
- The range subscription and the mask filtering done by the CAN handler are not modelled. `HandleCanFrame` accepts any id and ignores the unknown ones.
- The speed override at line 114 is strict: `speedActual > 1000`. So at exactly 1000 rpm with the ready flag clear, the power stage is not enabled (`StatusScenario`, `PowerStageGate`).
