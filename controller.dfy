/** The Brusa DMC5 motor controller object: its telemetry and command fields,
    the transmit buffer it reuses for every outgoing frame, and the tick and
    frame handlers that change them in place. Each method is proved against
    the value-level definitions of Dmc5Protocol. */
module Dmc5Controller {
  import opened Dmc5Codec
  import opened Dmc5Protocol

  /** The transmit buffer: header fields and eight data bytes, overwritten for
      every frame. Its bytes start out unspecified. */
  class OutputFrame {
    var id: nat
    var dlc: nat
    var ide: nat
    var rtr: nat
    const data: array<bv8>

    constructor ()
      ensures data.Length == 8 && fresh(data)
    {
      data := new bv8[8];
    }
  }

  /** Eight bytes that agree with the control payload byte by byte are that payload. */
  lemma {:induction false} ControlPayloadBytes(s: seq<bv8>, st: StatusFields, mode: PowerMode, rpm: bv16, torque: bv16)
    requires |s| == 8 && s[0] == ControlByte(st, mode) && s[1] == 0 && s[6] == 0 && s[7] == 0
    requires WritesSetpoints(st) ==>
               s[2] == Hi(rpm) && s[3] == Lo(rpm) && s[4] == Hi(Tenfold(torque)) && s[5] == Lo(Tenfold(torque))
    requires !WritesSetpoints(st) ==> s[2] == 0 && s[3] == 0 && s[4] == 0 && s[5] == 0
    ensures s == ControlPayload(st, mode, rpm, torque)
  {
  }

  class BrusaMotorController {
    var dmcReady: bool
    var dmcRunning: bool
    var dmcError: bool
    var dmcWarning: bool
    var statusBitField: bv16
    var torqueAvailable: int
    var torqueActual: int
    var speedActual: int
    var dcVoltage: int
    var dcCurrent: int
    var acCurrent: int
    var mechanicalPower: int
    var errorBitField: bv32
    var warningBitField: bv16
    var maxPositiveTorque: int
    var minNegativeTorque: int
    var limiterStateNumber: int
    var temperatureInverter: int
    var temperatureMotor: int
    var temperatureSystem: int

    var tickCounter: Uint8
    var powerMode: PowerMode
    var maxTorque: int
    var maxRPM: int
    /** The `int16_t` requests as their 16-bit patterns (rpm, 0.1 Nm). */
    var requestedRPM: bv16
    var requestedTorque: bv16
    var requestedThrottle: int

    const outputFrame: OutputFrame
    /** Every frame handed to the CAN bus so far, oldest first. */
    ghost var sent: seq<Frame>

    ghost predicate Valid() {
      outputFrame.data.Length == 8
    }

    /** The fields the status frame sets. */
    ghost function Status(): StatusFields
      reads this`dmcReady, this`dmcRunning, this`dmcError, this`dmcWarning
      reads this`statusBitField, this`torqueAvailable, this`torqueActual, this`speedActual
    {
      StatusFields(dmcReady, dmcRunning, dmcError, dmcWarning,
                   statusBitField, torqueAvailable, torqueActual, speedActual)
    }

    /** The fields the actual-values frame sets. */
    ghost function Actual(): ActualValues
      reads this`dcVoltage, this`dcCurrent, this`acCurrent, this`mechanicalPower
    {
      ActualValues(dcVoltage, dcCurrent, acCurrent, mechanicalPower)
    }

    /** The fields the errors frame sets. */
    ghost function Errors(): ErrorWords
      reads this`errorBitField, this`warningBitField
    {
      ErrorWords(errorBitField, warningBitField)
    }

    /** The fields the torque-limit frame sets. */
    ghost function Limits(): TorqueLimits
      reads this`maxPositiveTorque, this`minNegativeTorque, this`limiterStateNumber
    {
      TorqueLimits(maxPositiveTorque, minNegativeTorque, limiterStateNumber)
    }

    /** The fields the temperature frame sets. */
    ghost function Temps(): Temperatures
      reads this`temperatureInverter, this`temperatureMotor, this`temperatureSystem
    {
      Temperatures(temperatureInverter, temperatureMotor, temperatureSystem)
    }

    /** The telemetry fields as one value. */
    ghost function Telem(): Telemetry
      reads this`dmcReady, this`dmcRunning, this`dmcError, this`dmcWarning
      reads this`statusBitField, this`torqueAvailable, this`torqueActual, this`speedActual
      reads this`dcVoltage, this`dcCurrent, this`acCurrent, this`mechanicalPower
      reads this`errorBitField, this`warningBitField
      reads this`maxPositiveTorque, this`minNegativeTorque, this`limiterStateNumber
      reads this`temperatureInverter, this`temperatureMotor, this`temperatureSystem
    {
      Telemetry(Status(), Actual(), Errors(), Limits(), Temps())
    }

    /** The transmit buffer as a frame value. */
    ghost function Buffer(): Frame
      requires Valid()
      reads outputFrame, outputFrame.data
    {
      Frame(outputFrame.id, outputFrame.dlc, outputFrame.ide, outputFrame.rtr, Bytes())
    }

    /** The eight bytes of the transmit buffer. */
    ghost function Bytes(): Payload
      requires Valid()
      reads outputFrame.data
    {
      var d := outputFrame.data;
      [d[0], d[1], d[2], d[3], d[4], d[5], d[6], d[7]]
    }

    constructor ()
      ensures Valid() && fresh(outputFrame) && fresh(outputFrame.data)
      ensures Telem() == InitialTelemetry
      ensures tickCounter == 0 && powerMode == ModeTorque
      ensures maxTorque == 20 && maxRPM == 2000
      ensures requestedRPM == 0 && requestedTorque == 0 && requestedThrottle == 0
      ensures sent == []
    {
      dmcReady := false;
      dmcRunning := false;
      dmcError := false;
      dmcWarning := false;
      torqueAvailable := 0;
      torqueActual := 0;
      speedActual := 0;

      dcVoltage := 0;
      dcCurrent := 0;
      acCurrent := 0;
      mechanicalPower := 0;

      temperatureInverter := 0;
      temperatureMotor := 0;
      temperatureSystem := 0;

      errorBitField := 0;
      warningBitField := 0;
      statusBitField := 0;

      maxPositiveTorque := 0;
      minNegativeTorque := 0;
      limiterStateNumber := 0;

      tickCounter := 0;
      powerMode := ModeTorque;

      maxTorque := 20;
      maxRPM := 2000;
      requestedRPM := 0;
      requestedTorque := 0;
      requestedThrottle := 0;

      outputFrame := new OutputFrame();
      sent := [];
    }

    /** Hands the transmit buffer to the CAN bus, which takes a copy. */
    method SendFrame()
      requires Valid()
      modifies this`sent
      ensures sent == old(sent) + [Buffer()]
    {
      sent := sent + [Buffer()];
    }

    /** Sets the header for `id` and clears bytes 1 to 7; byte 0 is left for the caller. */
    method PrepareOutputFrame(id: nat)
      requires Valid()
      modifies outputFrame, outputFrame.data
      ensures outputFrame.id == id && outputFrame.dlc == 8 && outputFrame.ide == 0 && outputFrame.rtr == 0
      ensures outputFrame.data[0] == old(outputFrame.data[0])
      ensures forall i :: 1 <= i < 8 ==> outputFrame.data[i] == 0
    {
      outputFrame.dlc := 8;
      outputFrame.id := id;
      outputFrame.ide := 0;
      outputFrame.rtr := 0;

      outputFrame.data[1] := 0;
      outputFrame.data[2] := 0;
      outputFrame.data[3] := 0;
      outputFrame.data[4] := 0;
      outputFrame.data[5] := 0;
      outputFrame.data[6] := 0;
      outputFrame.data[7] := 0;
    }

    /** Applies the test ramp to the requests, then sends the control frame.
        Every byte of the frame is a function of the current state: nothing
        of the frame sent before it survives. */
    method SendControl()
      requires Valid()
      modifies this`requestedTorque, this`requestedRPM, this`sent, outputFrame, outputFrame.data
      ensures requestedTorque == RampTorque
      ensures old(speedActual) == 0 ==> requestedRPM == 1000
      ensures old(speedActual) > 950 ==> requestedRPM == 0
      ensures 0 != old(speedActual) <= 950 ==> requestedRPM == old(requestedRPM)
      ensures requestedRPM == RampRpm(old(requestedRPM), old(speedActual))
      ensures Buffer() == Sent(CanIdControl, ControlPayload(Status(), powerMode, requestedRPM, requestedTorque))
      ensures sent == old(sent) + [Buffer()]
    {
      PrepareOutputFrame(CanIdControl);

      requestedTorque := RampTorque;
      if speedActual == 0 {
        requestedRPM := 1000;
      }
      if speedActual > 950 {
        requestedRPM := 0;
      }

      WriteControlBytes();
      SendFrame();
    }

    /** The part of `SendControl` that fills the data bytes of the prepared
        buffer: byte 0 from the flags, bytes 2-5 only when the power stage is
        on and the DMC is running. */
    method WriteControlBytes()
      requires Valid() && forall i :: 1 <= i < 8 ==> outputFrame.data[i] == 0
      modifies outputFrame.data
      ensures Bytes() == ControlPayload(Status(), powerMode, requestedRPM, requestedTorque)
    {
      var data := outputFrame.data;
      data[0] := EnablePositiveTorqueSpeed | EnableNegativeTorqueSpeed;
      if dmcError {
        data[0] := data[0] | ClearErrorLatch;
      } else {
        if dmcReady || speedActual > PowerStageOverrideSpeed {
          data[0] := data[0] | EnablePowerStage;
          if dmcRunning {
            if powerMode == ModeSpeed {
              data[0] := data[0] | EnableSpeedMode;
            }
            var torqueHundredths := Tenfold(requestedTorque);
            data[2] := Hi(requestedRPM);
            data[3] := Lo(requestedRPM);
            data[4] := Hi(torqueHundredths);
            data[5] := Lo(torqueHundredths);
          }
        }
      }
      ControlPayloadBytes(Bytes(), Status(), powerMode, requestedRPM, requestedTorque);
    }

    /** Sends the control-2 frame: both slew rates off, 50000 x 4 W of
        mechanical power for motoring and for regeneration. */
    method SendControl2()
      requires Valid()
      modifies this`sent, outputFrame, outputFrame.data
      ensures Buffer() == Sent(CanIdControl2, Control2Payload())
      ensures sent == old(sent) + [Buffer()]
    {
      var torqueSlewRate: bv16 := 0;
      var speedSlewRate: bv16 := 0;
      var maxMechanicalPowerMotor: bv16 := 50000;
      var maxMechanicalPowerRegen: bv16 := 50000;

      PrepareOutputFrame(CanIdControl2);
      var data := outputFrame.data;
      data[0] := Hi(torqueSlewRate);
      data[1] := Lo(torqueSlewRate);
      data[2] := Hi(speedSlewRate);
      data[3] := Lo(speedSlewRate);
      data[4] := Hi(maxMechanicalPowerMotor);
      data[5] := Lo(maxMechanicalPowerMotor);
      data[6] := Hi(maxMechanicalPowerRegen);
      data[7] := Lo(maxMechanicalPowerRegen);

      SendFrame();
    }

    /** Sends the limits frame: 100.0 V DC voltage limits for motoring and
        regeneration, DC current limits 0. */
    method SendLimits()
      requires Valid()
      modifies this`sent, outputFrame, outputFrame.data
      ensures Buffer() == Sent(CanIdLimit, LimitsPayload())
      ensures sent == old(sent) + [Buffer()]
    {
      var dcVoltLimitMotor: bv16 := 1000;
      var dcVoltLimitRegen: bv16 := 1000;
      var dcCurrentLimitMotor: bv16 := 0;
      var dcCurrentLimitRegen: bv16 := 0;

      PrepareOutputFrame(CanIdLimit);
      var data := outputFrame.data;
      data[0] := Hi(dcVoltLimitMotor);
      data[1] := Lo(dcVoltLimitMotor);
      data[2] := Hi(dcVoltLimitRegen);
      data[3] := Lo(dcVoltLimitRegen);
      data[4] := Hi(dcCurrentLimitMotor);
      data[5] := Lo(dcCurrentLimitMotor);
      data[6] := Hi(dcCurrentLimitRegen);
      data[7] := Lo(dcCurrentLimitRegen);

      SendFrame();
    }

    /** One scheduler tick: the control frame always and first; control-2 and
        limits, in that order, when the incremented counter passes 4, which
        then resets it. */
    method HandleTick()
      requires Valid()
      modifies this`tickCounter, this`requestedTorque, this`requestedRPM, this`sent
      modifies outputFrame, outputFrame.data
      ensures tickCounter == NextCounter(old(tickCounter)) && tickCounter <= 4
      ensures requestedTorque == RampTorque && requestedRPM == RampRpm(old(requestedRPM), old(speedActual))
      ensures sent == old(sent) + TickFrames(old(tickCounter), ControlPayload(Status(), powerMode, requestedRPM, requestedTorque))
    {
      tickCounter := Incremented(tickCounter);

      SendControl();
      if tickCounter > 4 {
        SendControl2();
        SendLimits();
        tickCounter := 0;
      }
      CounterBounded(old(tickCounter));
    }

    /** Decodes one incoming frame into the telemetry fields; a frame with
        any other identifier is ignored. */
    method HandleCanFrame(frame: Frame)
      modifies this`dmcReady, this`dmcRunning, this`dmcError, this`dmcWarning
      modifies this`statusBitField, this`torqueAvailable, this`torqueActual, this`speedActual
      modifies this`dcVoltage, this`dcCurrent, this`acCurrent, this`mechanicalPower
      modifies this`errorBitField, this`warningBitField
      modifies this`maxPositiveTorque, this`minNegativeTorque, this`limiterStateNumber
      modifies this`temperatureInverter, this`temperatureMotor, this`temperatureSystem
      ensures Telem() == Decode(old(Telem()), frame)
    {
      if frame.id == CanIdStatus {
        ReadStatus(frame.data);
      } else if frame.id == CanIdActualValues {
        ReadActualValues(frame.data);
      } else if frame.id == CanIdErrors {
        ReadErrors(frame.data);
      } else if frame.id == CanIdTorqueLimit {
        ReadTorqueLimit(frame.data);
      } else if frame.id == CanIdTemp {
        ReadTemperature(frame.data);
      }
    }

    /** The status case: status word, torques and speed, then the four flags
        recomputed from the new status word. */
    method ReadStatus(d: Payload)
      modifies this`dmcReady, this`dmcRunning, this`dmcError, this`dmcWarning
      modifies this`statusBitField, this`torqueAvailable, this`torqueActual, this`speedActual
      ensures Status() == DecodeStatus(d)
      ensures unchanged(this`dcVoltage, this`dcCurrent, this`acCurrent, this`mechanicalPower)
      ensures unchanged(this`errorBitField, this`warningBitField)
      ensures unchanged(this`maxPositiveTorque, this`minNegativeTorque, this`limiterStateNumber)
      ensures unchanged(this`temperatureInverter, this`temperatureMotor, this`temperatureSystem)
    {
      statusBitField := BE16(d[0], d[1]);
      torqueAvailable := Int16(BE16(d[2], d[3]));
      torqueActual := Int16(BE16(d[4], d[5]));
      speedActual := Int16(BE16(d[6], d[7]));
      UpdateStatusFlags();
    }

    /** Recomputes the readiness flags from the status word. */
    method UpdateStatusFlags()
      modifies this`dmcReady, this`dmcRunning, this`dmcError, this`dmcWarning
      ensures dmcReady == (statusBitField & StateReady != 0)
      ensures dmcRunning == (statusBitField & StateRunning != 0)
      ensures dmcError == (statusBitField & ErrorFlag != 0)
      ensures dmcWarning == (statusBitField & WarningFlag != 0)
      ensures unchanged(this`statusBitField, this`torqueAvailable, this`torqueActual, this`speedActual)
      ensures unchanged(this`dcVoltage, this`dcCurrent, this`acCurrent, this`mechanicalPower)
      ensures unchanged(this`errorBitField, this`warningBitField)
      ensures unchanged(this`maxPositiveTorque, this`minNegativeTorque, this`limiterStateNumber)
      ensures unchanged(this`temperatureInverter, this`temperatureMotor, this`temperatureSystem)
    {
      dmcReady := statusBitField & StateReady != 0;
      dmcRunning := statusBitField & StateRunning != 0;
      dmcError := statusBitField & ErrorFlag != 0;
      dmcWarning := statusBitField & WarningFlag != 0;
    }

    /** The actual-values case: DC voltage and current, AC current, mechanical power. */
    method ReadActualValues(d: Payload)
      modifies this`dcVoltage, this`dcCurrent, this`acCurrent, this`mechanicalPower
      ensures Actual() == DecodeActualValues(d)
      ensures unchanged(this`dmcReady, this`dmcRunning, this`dmcError, this`dmcWarning, this`statusBitField, this`torqueAvailable, this`torqueActual, this`speedActual)
      ensures unchanged(this`errorBitField, this`warningBitField)
      ensures unchanged(this`maxPositiveTorque, this`minNegativeTorque, this`limiterStateNumber)
      ensures unchanged(this`temperatureInverter, this`temperatureMotor, this`temperatureSystem)
    {
      dcVoltage := BE16(d[0], d[1]) as int;
      dcCurrent := BE16(d[2], d[3]) as int;
      acCurrent := BE16(d[4], d[5]) as int;
      mechanicalPower := BE16(d[6], d[7]) as int;
    }

    /** The errors case: the 32-bit error word and the warning word. */
    method ReadErrors(d: Payload)
      modifies this`errorBitField, this`warningBitField
      ensures Errors() == DecodeErrors(d)
      ensures unchanged(this`dmcReady, this`dmcRunning, this`dmcError, this`dmcWarning, this`statusBitField, this`torqueAvailable, this`torqueActual, this`speedActual)
      ensures unchanged(this`dcVoltage, this`dcCurrent, this`acCurrent, this`mechanicalPower)
      ensures unchanged(this`maxPositiveTorque, this`minNegativeTorque, this`limiterStateNumber)
      ensures unchanged(this`temperatureInverter, this`temperatureMotor, this`temperatureSystem)
    {
      errorBitField := Err32(d);
      warningBitField := BE16(d[6], d[7]);
    }

    /** The torque-limit case: both torque limits and the limiter state. */
    method ReadTorqueLimit(d: Payload)
      modifies this`maxPositiveTorque, this`minNegativeTorque, this`limiterStateNumber
      ensures Limits() == DecodeTorqueLimit(d)
      ensures unchanged(this`dmcReady, this`dmcRunning, this`dmcError, this`dmcWarning, this`statusBitField, this`torqueAvailable, this`torqueActual, this`speedActual)
      ensures unchanged(this`dcVoltage, this`dcCurrent, this`acCurrent, this`mechanicalPower)
      ensures unchanged(this`errorBitField, this`warningBitField)
      ensures unchanged(this`temperatureInverter, this`temperatureMotor, this`temperatureSystem)
    {
      maxPositiveTorque := Int16(BE16(d[0], d[1]));
      minNegativeTorque := Int16(BE16(d[2], d[3]));
      limiterStateNumber := d[4] as int;
    }

    /** The temperature case: inverter, motor and system temperature. */
    method ReadTemperature(d: Payload)
      modifies this`temperatureInverter, this`temperatureMotor, this`temperatureSystem
      ensures Temps() == DecodeTemperature(d)
      ensures unchanged(this`dmcReady, this`dmcRunning, this`dmcError, this`dmcWarning, this`statusBitField, this`torqueAvailable, this`torqueActual, this`speedActual)
      ensures unchanged(this`dcVoltage, this`dcCurrent, this`acCurrent, this`mechanicalPower)
      ensures unchanged(this`errorBitField, this`warningBitField)
      ensures unchanged(this`maxPositiveTorque, this`minNegativeTorque, this`limiterStateNumber)
    {
      temperatureInverter := BE16(d[0], d[1]) as int;
      temperatureMotor := BE16(d[2], d[3]) as int;
      temperatureSystem := d[4] as int;
    }
  }
}
