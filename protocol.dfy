/** The DMC5 protocol as values: the identifiers and bit masks, the telemetry
    the controller keeps, what each incoming frame does to it, what the
    outgoing frames contain, and the tick schedule. The class in
    Dmc5Controller is proved against these definitions. */
module Dmc5Protocol {
  import opened Dmc5Codec

  // CAN identifiers. Their values come from a header that is not part of this
  // model; all the proofs use is that they are pairwise distinct.
  const CanIdControl: nat := 0x210
  const CanIdLimit: nat := 0x211
  const CanIdControl2: nat := 0x212
  const CanIdStatus: nat := 0x258
  const CanIdActualValues: nat := 0x259
  const CanIdErrors: nat := 0x25A
  const CanIdTorqueLimit: nat := 0x268
  const CanIdTemp: nat := 0x458

  // Bits of byte 0 of the control frame, each a single bit.
  const EnablePowerStage: bv8 := 0x01
  const EnablePositiveTorqueSpeed: bv8 := 0x02
  const EnableNegativeTorqueSpeed: bv8 := 0x04
  const ClearErrorLatch: bv8 := 0x08
  const EnableOscillationLimiter: bv8 := 0x20
  const EnableSpeedMode: bv8 := 0x40

  // Bits of the status word that drive the readiness flags, each a single bit.
  const ErrorFlag: bv16 := 0x0200
  const WarningFlag: bv16 := 0x0400
  const StateRunning: bv16 := 0x4000
  const StateReady: bv16 := 0x8000

  /** Above this speed (rpm) the power stage stays enabled even when the DMC
      is not ready: switching it off would drop the field-weakening current
      and cause uncontrolled regenerative torque. */
  const PowerStageOverrideSpeed: int := 1000

  type Uint8 = x: int | 0 <= x < 0x100

  datatype PowerMode = ModeTorque | ModeSpeed

  /** A CAN frame: identifier, length, extended-id and remote-request flags, eight bytes. */
  datatype Frame = Frame(id: nat, dlc: nat, ide: nat, rtr: nat, data: Payload)

  //////////////////////////////////////////////////////////////////////////
  // Telemetry and the decode path
  //////////////////////////////////////////////////////////////////////////

  /** The fields the status frame sets: the flags derived from the status
      word, the word itself, torques (0.01 Nm) and speed (rpm). */
  datatype StatusFields = StatusFields(
    dmcReady: bool, dmcRunning: bool, dmcError: bool, dmcWarning: bool,
    statusBitField: bv16, torqueAvailable: int, torqueActual: int, speedActual: int)

  /** The fields the actual-values frame sets: DC voltage and current, AC current,
      mechanical power. */
  datatype ActualValues = ActualValues(dcVoltage: int, dcCurrent: int, acCurrent: int, mechanicalPower: int)

  /** The fields the errors frame sets. */
  datatype ErrorWords = ErrorWords(errorBitField: bv32, warningBitField: bv16)

  /** The fields the torque-limit frame sets. */
  datatype TorqueLimits = TorqueLimits(maxPositiveTorque: int, minNegativeTorque: int, limiterStateNumber: int)

  /** The fields the temperature frame sets. */
  datatype Temperatures = Temperatures(temperatureInverter: int, temperatureMotor: int, temperatureSystem: int)

  /** Everything the controller learns from the DMC, one group per incoming frame.
      Signed fields hold the `int16_t` reading of their byte pair; the others
      the unsigned one. */
  datatype Telemetry = Telemetry(
    status: StatusFields, actual: ActualValues, errors: ErrorWords,
    limits: TorqueLimits, temps: Temperatures)

  /** The all-zero, all-false telemetry a new controller starts with. */
  const InitialTelemetry := Telemetry(
    StatusFields(false, false, false, false, 0, 0, 0, 0),
    ActualValues(0, 0, 0, 0), ErrorWords(0, 0), TorqueLimits(0, 0, 0), Temperatures(0, 0, 0))

  /** Status frame: status word from bytes 0-1, then the available torque,
      the actual torque and the speed as `int16_t`; the four flags are
      recomputed from the new status word. */
  function DecodeStatus(d: Payload): StatusFields {
    var s := BE16(d[0], d[1]);
    StatusFields(s & StateReady != 0, s & StateRunning != 0, s & ErrorFlag != 0, s & WarningFlag != 0,
                 s, Int16(BE16(d[2], d[3])), Int16(BE16(d[4], d[5])), Int16(BE16(d[6], d[7])))
  }

  /** Actual-values frame: four unsigned words. */
  function DecodeActualValues(d: Payload): ActualValues {
    ActualValues(BE16(d[0], d[1]) as int, BE16(d[2], d[3]) as int,
                 BE16(d[4], d[5]) as int, BE16(d[6], d[7]) as int)
  }

  /** Errors frame: the error word spread over bytes 1, 0, 5, 4 and the warning word. */
  function DecodeErrors(d: Payload): ErrorWords {
    ErrorWords(Err32(d), BE16(d[6], d[7]))
  }

  /** Torque-limit frame: two `int16_t` torque limits and the limiter state byte. */
  function DecodeTorqueLimit(d: Payload): TorqueLimits {
    TorqueLimits(Int16(BE16(d[0], d[1])), Int16(BE16(d[2], d[3])), d[4] as int)
  }

  /** Temperature frame: two unsigned words and the system temperature byte. */
  function DecodeTemperature(d: Payload): Temperatures {
    Temperatures(BE16(d[0], d[1]) as int, BE16(d[2], d[3]) as int, d[4] as int)
  }

  /** The telemetry after one incoming frame. Each known identifier replaces
      only the group it owns, with a value that depends on the payload alone;
      any other identifier changes nothing. */
  function Decode(t: Telemetry, f: Frame): (r: Telemetry)
    ensures f.id != CanIdStatus ==> r.status == t.status
    ensures f.id != CanIdActualValues ==> r.actual == t.actual
    ensures f.id != CanIdErrors ==> r.errors == t.errors
    ensures f.id != CanIdTorqueLimit ==> r.limits == t.limits
    ensures f.id != CanIdTemp ==> r.temps == t.temps
  {
    if f.id == CanIdStatus then t.(status := DecodeStatus(f.data))
    else if f.id == CanIdActualValues then t.(actual := DecodeActualValues(f.data))
    else if f.id == CanIdErrors then t.(errors := DecodeErrors(f.data))
    else if f.id == CanIdTorqueLimit then t.(limits := DecodeTorqueLimit(f.data))
    else if f.id == CanIdTemp then t.(temps := DecodeTemperature(f.data))
    else t
  }

  predicate KnownId(id: nat) {
    id in {CanIdStatus, CanIdActualValues, CanIdErrors, CanIdTorqueLimit, CanIdTemp}
  }

  /** A frame with an identifier outside the five handled ones leaves the telemetry as it was. */
  lemma {:induction false} DecodeUnknownId(t: Telemetry, f: Frame)
    requires !KnownId(f.id)
    ensures Decode(t, f) == t
  {
  }

  /** Decoding never accumulates: a frame received twice in a row leaves the
      same telemetry as receiving it once, and the group a known frame sets
      does not depend on the telemetry before it. */
  lemma {:induction false} DecodeIdempotent(t1: Telemetry, t2: Telemetry, f: Frame)
    ensures Decode(Decode(t1, f), f) == Decode(t1, f)
    ensures f.id == CanIdStatus ==> Decode(t1, f).status == Decode(t2, f).status
    ensures f.id == CanIdActualValues ==> Decode(t1, f).actual == Decode(t2, f).actual
    ensures f.id == CanIdErrors ==> Decode(t1, f).errors == Decode(t2, f).errors
    ensures f.id == CanIdTorqueLimit ==> Decode(t1, f).limits == Decode(t2, f).limits
    ensures f.id == CanIdTemp ==> Decode(t1, f).temps == Decode(t2, f).temps
  {
  }

  /** After a status frame the readiness flags are exactly the mask bits of
      its status word: no flag is kept from an earlier frame. */
  lemma {:induction false} StatusFlags(t: Telemetry, f: Frame)
    requires f.id == CanIdStatus
    ensures var r := Decode(t, f).status;
      && r.statusBitField == BE16(f.data[0], f.data[1])
      && (r.dmcReady <==> r.statusBitField & StateReady != 0)
      && (r.dmcRunning <==> r.statusBitField & StateRunning != 0)
      && (r.dmcError <==> r.statusBitField & ErrorFlag != 0)
      && (r.dmcWarning <==> r.statusBitField & WarningFlag != 0)
  {
  }

  /** The payload a DMC5 sends in its status frame: the status word, then the
      16-bit patterns of the available torque, the actual torque and the speed. */
  function StatusPayload(status: bv16, torqueAvailable: bv16, torqueActual: bv16, speed: bv16): Payload {
    [Hi(status), Lo(status), Hi(torqueAvailable), Lo(torqueAvailable),
     Hi(torqueActual), Lo(torqueActual), Hi(speed), Lo(speed)]
  }

  /** Status frame round trip: the controller gets back the status word, and
      for every `int16_t` value the DMC encodes (torques in 0.01 Nm, speed in
      rpm) it decodes that same value. */
  lemma {:induction false} StatusRoundTrip(t: Telemetry, status: bv16, avail: bv16, actual: bv16, speed: bv16,
                                           availValue: int, actualValue: int, speedValue: int)
    requires -0x8000 <= availValue < 0x8000 && avail as int == Uint16(availValue)
    requires -0x8000 <= actualValue < 0x8000 && actual as int == Uint16(actualValue)
    requires -0x8000 <= speedValue < 0x8000 && speed as int == Uint16(speedValue)
    ensures var r := Decode(t, Frame(CanIdStatus, 8, 0, 0, StatusPayload(status, avail, actual, speed))).status;
      r.statusBitField == status && r.torqueAvailable == availValue && r.torqueActual == actualValue
      && r.speedActual == speedValue
  {
    SplitJoin(status);
    SplitJoin(avail);
    SplitJoin(actual);
    SplitJoin(speed);
    Int16Bijection(availValue, avail);
    Int16Bijection(actualValue, actual);
    Int16Bijection(speedValue, speed);
  }

  /** Status frame, the other way round: two status frames that decode to the
      same status fields carry the same bytes, so decoding loses nothing. */
  lemma {:induction false} StatusDecodeInjective(t: Telemetry, d1: Payload, d2: Payload)
    requires Decode(t, Frame(CanIdStatus, 8, 0, 0, d1)).status == Decode(t, Frame(CanIdStatus, 8, 0, 0, d2)).status
    ensures d1 == d2
  {
    var r1 := Decode(t, Frame(CanIdStatus, 8, 0, 0, d1)).status;
    var r2 := Decode(t, Frame(CanIdStatus, 8, 0, 0, d2)).status;
    assert r1.statusBitField == r2.statusBitField;
    Int16Injective(BE16(d1[2], d1[3]), BE16(d2[2], d2[3]));
    Int16Injective(BE16(d1[4], d1[5]), BE16(d2[4], d2[5]));
    Int16Injective(BE16(d1[6], d1[7]), BE16(d2[6], d2[7]));
    assert d1 == [d1[0], d1[1], d1[2], d1[3], d1[4], d1[5], d1[6], d1[7]];
  }

  /** Four 16-bit words, big-endian, as the actual-values, control-2 and limits frames carry them. */
  function Words4(a: bv16, b: bv16, c: bv16, e: bv16): Payload {
    [Hi(a), Lo(a), Hi(b), Lo(b), Hi(c), Lo(c), Hi(e), Lo(e)]
  }

  /** Actual-values round trip: the controller reads back the unsigned value of each word. */
  lemma {:induction false} ActualValuesRoundTrip(t: Telemetry, volt: bv16, cur: bv16, ac: bv16, power: bv16)
    ensures Decode(t, Frame(CanIdActualValues, 8, 0, 0, Words4(volt, cur, ac, power))).actual
         == ActualValues(volt as int, cur as int, ac as int, power as int)
  {
    SplitJoin(volt);
    SplitJoin(cur);
    SplitJoin(ac);
    SplitJoin(power);
  }

  /** Errors frame round trip: the 32-bit error word and the 16-bit warning
      word come back from the device's non-contiguous byte layout. */
  lemma {:induction false} ErrorsFrameRoundTrip(t: Telemetry, e: bv32, warn: bv16)
    ensures Decode(t, Frame(CanIdErrors, 8, 0, 0, ErrorsPayload(e, warn))).errors == ErrorWords(e, warn)
  {
    ErrorsRoundTrip(e, warn);
  }

  /** Torque-limit frame round trip: the controller gets back both `int16_t`
      torque limits and the limiter state byte. */
  lemma {:induction false} TorqueLimitRoundTrip(t: Telemetry, maxPos: bv16, minNeg: bv16, state: bv8,
                                                maxPosValue: int, minNegValue: int)
    requires -0x8000 <= maxPosValue < 0x8000 && maxPos as int == Uint16(maxPosValue)
    requires -0x8000 <= minNegValue < 0x8000 && minNeg as int == Uint16(minNegValue)
    ensures Decode(t, Frame(CanIdTorqueLimit, 8, 0, 0, [Hi(maxPos), Lo(maxPos), Hi(minNeg), Lo(minNeg), state, 0, 0, 0])).limits
         == TorqueLimits(maxPosValue, minNegValue, state as int)
  {
    SplitJoin(maxPos);
    SplitJoin(minNeg);
    Int16Bijection(maxPosValue, maxPos);
    Int16Bijection(minNegValue, minNeg);
  }

  /** Temperature frame round trip: two unsigned words and the system temperature byte. */
  lemma {:induction false} TemperatureRoundTrip(t: Telemetry, inverter: bv16, motor: bv16, system: bv8)
    ensures Decode(t, Frame(CanIdTemp, 8, 0, 0, [Hi(inverter), Lo(inverter), Hi(motor), Lo(motor), system, 0, 0, 0])).temps
         == Temperatures(inverter as int, motor as int, system as int)
  {
    SplitJoin(inverter);
    SplitJoin(motor);
  }

  //////////////////////////////////////////////////////////////////////////
  // The encode path
  //////////////////////////////////////////////////////////////////////////

  /** Byte 0 of the control frame: both torque directions always allowed; on
      an error only the latch clear; otherwise the power stage when ready or
      fast, and speed mode only when also running in speed mode. */
  function ControlByte(st: StatusFields, mode: PowerMode): bv8 {
    var both := EnablePositiveTorqueSpeed | EnableNegativeTorqueSpeed;
    if st.dmcError then both | ClearErrorLatch
    else if !(st.dmcReady || st.speedActual > PowerStageOverrideSpeed) then both
    else if st.dmcRunning && mode == ModeSpeed then both | EnablePowerStage | EnableSpeedMode
    else both | EnablePowerStage
  }

  /** Whether speed and torque are written into the control frame. */
  predicate WritesSetpoints(st: StatusFields) {
    !st.dmcError && (st.dmcReady || st.speedActual > PowerStageOverrideSpeed) && st.dmcRunning
  }

  /** The control frame's payload for the given status fields and the 16-bit
      requests (speed in rpm, torque in 0.1 Nm; the frame carries 0.01 Nm, so
      the low 16 bits of ten times the torque request). */
  function ControlPayload(st: StatusFields, mode: PowerMode, rpm: bv16, torque: bv16): Payload {
    var b0 := ControlByte(st, mode);
    var torqueHundredths := Tenfold(torque);
    if WritesSetpoints(st) then
      [b0, 0, Hi(rpm), Lo(rpm), Hi(torqueHundredths), Lo(torqueHundredths), 0, 0]
    else
      [b0, 0, 0, 0, 0, 0, 0, 0]
  }

  /** What a DMC5 reads from a control frame. */
  datatype ControlRequest = ControlRequest(
    powerStage: bool, positive: bool, negative: bool, clearError: bool,
    oscillationLimiter: bool, speedMode: bool, speed: int, torque: int)

  function ReadControl(p: Payload): ControlRequest {
    ControlRequest(p[0] & EnablePowerStage != 0, p[0] & EnablePositiveTorqueSpeed != 0,
                   p[0] & EnableNegativeTorqueSpeed != 0, p[0] & ClearErrorLatch != 0,
                   p[0] & EnableOscillationLimiter != 0, p[0] & EnableSpeedMode != 0,
                   Int16(BE16(p[2], p[3])), Int16(BE16(p[4], p[5])))
  }

  /** Error gate: with an error present, the frame only asks to clear the error
      latch; it never enables the power stage and carries no setpoints,
      whatever the ready flag and the speed are. */
  lemma {:induction false} ErrorGate(st: StatusFields, mode: PowerMode, rpm: bv16, torque: bv16)
    requires st.dmcError
    ensures var p := ControlPayload(st, mode, rpm, torque);
      && p[0] == EnablePositiveTorqueSpeed | EnableNegativeTorqueSpeed | ClearErrorLatch
      && p[1..] == [0, 0, 0, 0, 0, 0, 0]
      && !ReadControl(p).powerStage && ReadControl(p).clearError
  {
  }

  /** Power-stage gate, both directions: the power stage is requested exactly
      when there is no error and the DMC is ready or turns faster than 1000 rpm;
      the error latch clear is requested exactly when there is an error. */
  lemma {:induction false} PowerStageGate(st: StatusFields, mode: PowerMode, rpm: bv16, torque: bv16)
    ensures var c := ReadControl(ControlPayload(st, mode, rpm, torque));
      && (c.powerStage <==> !st.dmcError && (st.dmcReady || st.speedActual > PowerStageOverrideSpeed))
      && (c.clearError <==> st.dmcError)
      && c.positive && c.negative && !c.oscillationLimiter
  {
  }

  /** Without error, not ready and at most 1000 rpm, the frame only allows
      both torque directions and is otherwise zero. */
  lemma {:induction false} IdleFrame(st: StatusFields, mode: PowerMode, rpm: bv16, torque: bv16)
    requires !st.dmcError && !st.dmcReady && st.speedActual <= PowerStageOverrideSpeed
    ensures ControlPayload(st, mode, rpm, torque)
         == [EnablePositiveTorqueSpeed | EnableNegativeTorqueSpeed, 0, 0, 0, 0, 0, 0, 0]
  {
  }

  /** Running payload: with the power stage on and the DMC running, speed mode
      is requested exactly in speed mode, bytes 2-3 carry the rpm request and
      bytes 4-5 ten times the torque request, both big-endian with 16-bit
      wrap-around, and the DMC reads the rpm request back as the same `int16_t`. */
  lemma {:induction false} RunningPayload(st: StatusFields, mode: PowerMode, rpm: bv16, torque: bv16)
    requires WritesSetpoints(st)
    ensures var p := ControlPayload(st, mode, rpm, torque);
      && ReadControl(p).powerStage
      && (ReadControl(p).speedMode <==> mode == ModeSpeed)
      && BE16(p[2], p[3]) == rpm
      && BE16(p[4], p[5]) == torque * 10
      && p[1] == 0 && p[6] == 0 && p[7] == 0
      && ReadControl(p).speed == Int16(rpm)
  {
    SplitJoin(rpm);
    SplitJoin(Tenfold(torque));
    TenfoldIsProduct(torque);
  }

  /** The torque the test ramp forces (5.0 Nm) goes out as 500 hundredths of a Nm. */
  lemma RampTorqueOnWire(st: StatusFields, mode: PowerMode, rpm: bv16)
    requires WritesSetpoints(st)
    ensures var p := ControlPayload(st, mode, rpm, RampTorque);
      p[4] == 0x01 && p[5] == 0xF4 && ReadControl(p).torque == 500
  {
  }

  /** When setpoints are not written, speed mode is off and bytes 1-7 are zero. */
  lemma {:induction false} NoSetpoints(st: StatusFields, mode: PowerMode, rpm: bv16, torque: bv16)
    requires !WritesSetpoints(st)
    ensures var p := ControlPayload(st, mode, rpm, torque);
      !ReadControl(p).speedMode && p[1..] == [0, 0, 0, 0, 0, 0, 0]
  {
  }

  /** A status frame with the error bit set makes the next control frame ask
      for the error latch clear and not for the power stage. */
  lemma {:induction false} ErrorFrameGatesControl(t: Telemetry, f: Frame, mode: PowerMode, rpm: bv16, torque: bv16)
    requires f.id == CanIdStatus && BE16(f.data[0], f.data[1]) & ErrorFlag != 0
    ensures var c := ReadControl(ControlPayload(Decode(t, f).status, mode, rpm, torque));
      c.clearError && !c.powerStage && !c.speedMode
  {
    StatusFlags(t, f);
    ErrorGate(Decode(t, f).status, mode, rpm, torque);
  }

  /** The status frame `00 04 00 C8 00 64 03 E8`: status word 0x0004, 2.00 Nm
      available, 1.00 Nm actual, 1000 rpm. None of the four flag bits is set,
      and 1000 rpm is not above the override threshold, so the next control
      frame does not enable the power stage. */
  lemma StatusScenario(t: Telemetry, mode: PowerMode, rpm: bv16, torque: bv16)
    ensures var st := Decode(t, Frame(CanIdStatus, 8, 0, 0, [0x00, 0x04, 0x00, 0xC8, 0x00, 0x64, 0x03, 0xE8])).status;
      && st.statusBitField == 0x0004 && st.torqueAvailable == 200 && st.torqueActual == 100
      && st.speedActual == 1000 && !st.dmcReady && !st.dmcRunning && !st.dmcError && !st.dmcWarning
      && ControlPayload(st, mode, rpm, torque) == [0x06, 0, 0, 0, 0, 0, 0, 0]
  {
  }

  /** A motor turning backwards at 1 rpm reports the speed word 0xFFFF. Read
      as an `int16_t` it is -1 rpm: the power-stage override and the
      ramp's zeroing above 950 rpm stay off. */
  lemma ReverseSpeed(t: Telemetry, mode: PowerMode, rpm: bv16, torque: bv16)
    ensures var st := Decode(t, Frame(CanIdStatus, 8, 0, 0, [0x00, 0x00, 0x00, 0x00, 0x00, 0x00, 0xFF, 0xFF])).status;
      && st.speedActual == -1
      && ControlPayload(st, mode, rpm, torque) == [0x06, 0, 0, 0, 0, 0, 0, 0]
      && RampRpm(rpm, st.speedActual) == rpm
  {
  }

  /** The test ramp in the control path: a stopped motor is asked for
      1000 rpm, one faster than 950 rpm for 0 rpm, otherwise the request stays. */
  function RampRpm(rpm: bv16, speedActual: int): bv16 {
    if speedActual > 950 then 0 else if speedActual == 0 then 1000 else rpm
  }

  /** The torque request the test ramp forces, in 0.1 Nm. */
  const RampTorque: bv16 := 50

  /** Control-2 frame: torque and speed slew rates (0 = disabled),
      maximum mechanical power for motoring and for regeneration (4 W steps). */
  function Control2Payload(): Payload {
    Words4(0, 0, 50000, 50000)
  }

  /** Limits frame: DC voltage limits for motoring and regeneration (0.1 V),
      DC current limits for motoring and regeneration (0.1 A). */
  function LimitsPayload(): Payload {
    Words4(1000, 1000, 0, 0)
  }

  /** The two fixed frames, byte for byte. */
  lemma FixedFrames()
    ensures Control2Payload() == [0x00, 0x00, 0x00, 0x00, 0xC3, 0x50, 0xC3, 0x50]
    ensures LimitsPayload() == [0x03, 0xE8, 0x03, 0xE8, 0x00, 0x00, 0x00, 0x00]
  {
  }

  /** A sender's view of a frame it has prepared for `id` and filled with `data`. */
  function Sent(id: nat, data: Payload): Frame {
    Frame(id, 8, 0, 0, data)
  }

  /** The identifiers of a sequence of frames, in order. */
  function Ids(fs: seq<Frame>): (ids: seq<nat>)
    ensures |ids| == |fs| && forall i :: 0 <= i < |fs| ==> ids[i] == fs[i].id
  {
    if fs == [] then [] else [fs[0].id] + Ids(fs[1..])
  }

  /** The frames one tick sends, in order, for the control payload it builds:
      the control frame first, then control-2 and limits when the counter passes 4. */
  function TickFrames(c: Uint8, control: Payload): (fs: seq<Frame>)
    ensures Ids(fs) == TickIds(c)
    ensures fs[0] == Sent(CanIdControl, control)
  {
    [Sent(CanIdControl, control)]
      + (if SendsSecondary(c) then [Sent(CanIdControl2, Control2Payload()), Sent(CanIdLimit, LimitsPayload())] else [])
  }

  //////////////////////////////////////////////////////////////////////////
  // The tick schedule
  //////////////////////////////////////////////////////////////////////////

  /** The incremented (`uint8_t`) tick counter. */
  function Incremented(c: Uint8): Uint8 {
    (c + 1) % 0x100
  }

  /** Whether a tick starting at counter `c` also sends control-2 and limits. */
  predicate SendsSecondary(c: Uint8) {
    Incremented(c) > 4
  }

  /** The counter after one tick. */
  function NextCounter(c: Uint8): Uint8 {
    if SendsSecondary(c) then 0 else Incremented(c)
  }

  /** The identifiers one tick sends, in order: always the control frame first. */
  function TickIds(c: Uint8): seq<nat> {
    if SendsSecondary(c) then [CanIdControl, CanIdControl2, CanIdLimit] else [CanIdControl]
  }

  /** The counter after `n` ticks. */
  function CounterAfter(c: Uint8, n: nat): Uint8
    decreases n
  {
    if n == 0 then c else CounterAfter(NextCounter(c), n - 1)
  }

  /** How many of `n` ticks starting at counter `c` send the secondary frames. */
  function SecondaryTicks(c: Uint8, n: nat): nat
    decreases n
  {
    if n == 0 then 0 else (if SendsSecondary(c) then 1 else 0) + SecondaryTicks(NextCounter(c), n - 1)
  }

  /** After any tick the counter is in 0..4, whatever it was before. */
  lemma {:induction false} CounterBounded(c: Uint8)
    ensures NextCounter(c) <= 4
    ensures c <= 4 ==> NextCounter(c) == (c + 1) % 5
  {
  }

  /** Starting from a counter in 0..4 the counter after n ticks is (c + n) mod 5,
      and exactly (c + n) div 5 of those ticks send control-2 and limits: once
      every five ticks. */
  lemma {:induction false} Schedule(c: Uint8, n: nat)
    requires c <= 4
    ensures CounterAfter(c, n) == (c + n) % 5
    ensures SecondaryTicks(c, n) == (c + n) / 5
    decreases n
  {
    if n > 0 {
      CounterBounded(c);
      Schedule(NextCounter(c), n - 1);
      if c == 4 {
        assert (c + n) / 5 == 1 + (n - 1) / 5;
        assert (c + n) % 5 == (n - 1) % 5;
      } else {
        assert NextCounter(c) + n - 1 == c + n;
      }
    }
  }

  /** From a fresh controller (counter 0), every window of five consecutive
      ticks, wherever it starts, sends the secondary frames exactly once. */
  lemma {:induction false} OncePerFiveTicks(m: nat)
    ensures SecondaryTicks(CounterAfter(0, m), 5) == 1
  {
    Schedule(0, m);
    Schedule(CounterAfter(0, m), 5);
  }
}
