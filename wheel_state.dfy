/**
 * The shared telemetry record (`struct WheelData`) and what one
 * notification, one duty-cycle peak update and one link loss do to it,
 * written as functions from the old record to the new one. The class in
 * module WheelIo updates the same fields in place and is proved to follow
 * these functions.
 */
module WheelState {
  import opened Bytes
  import opened WheelFrames

  /** How long a duty-cycle peak is held before it starts to decay (ms). */
  const PEAK_HOLD_MSEC: nat := 1000
  /** How much one decay step takes off the peak (percentage points). */
  const PEAK_DECAY_STEP: int := 3
  /** The largest duty cycle an extended message can carry: 0xFFFF / 100. */
  const MAX_DUTY_CYCLE: nat := 655

  /**
   * The fields of `struct WheelData`. The primary fields the source keeps
   * as floats are kept as the raw wire integers; their engineering value is
   * raw / divisor (see the *_DIVISOR constants). `msgPerSec` and
   * `speedPeak` are floats this core writes only as opaque values.
   */
  datatype WheelData = WheelData(
    voltage: uint16,
    speed: uint16,
    speedPeak: real,
    trip: uint32,
    current: uint16,
    temp: uint16,
    odometer: uint32,
    powerOffTime: uint16,
    chargeMode: uint16,
    alarmSpeed: uint16,
    version: uint16,
    tiltbackSpeed: uint16,
    pedalMode: uint16,
    roll: uint16,
    dutyCycle: uint16,
    dutyPeak: int,
    dutyPeakTime: uint32,
    connected: bool,
    doConnect: bool,
    msgPerSec: real)

  /** The all-zero record: `struct WheelData currEucState = {}` and the `memset` on link loss. */
  function Zero(): WheelData
  {
    WheelData(0, 0, 0.0, 0, 0, 0, 0, 0, 0, 0, 0, 0, 0, 0, 0, 0, 0, false, false, 0.0)
  }

  /** Every numeric field is zero and neither flag is set. */
  ghost predicate IsCleared(d: WheelData)
  {
    && d.voltage == 0 && d.speed == 0 && d.speedPeak == 0.0 && d.trip == 0
    && d.current == 0 && d.temp == 0 && d.odometer == 0
    && d.powerOffTime == 0 && d.chargeMode == 0 && d.alarmSpeed == 0 && d.version == 0
    && d.tiltbackSpeed == 0 && d.pedalMode == 0 && d.roll == 0
    && d.dutyCycle == 0 && d.dutyPeak == 0 && d.dutyPeakTime == 0
    && !d.connected && !d.doConnect && d.msgPerSec == 0.0
  }

  /** The record invariant on the duty-cycle channel: the duty cycle fits a message and the peak lies in 0..655. */
  ghost predicate DutyInRange(d: WheelData)
  {
    d.dutyCycle <= MAX_DUTY_CYCLE && 0 <= d.dutyPeak <= MAX_DUTY_CYCLE
  }

  /** Engineering values of the scaled primary fields. */
  function Volts(d: WheelData): real { d.voltage as real / VOLTAGE_DIVISOR as real }
  function SpeedKmh(d: WheelData): real { d.speed as real / SPEED_DIVISOR as real }
  function TripKm(d: WheelData): real { d.trip as real / TRIP_DIVISOR as real }
  function OdometerKm(d: WheelData): real { d.odometer as real / ODOMETER_DIVISOR as real }
  function Amps(d: WheelData): real { d.current as real / CURRENT_DIVISOR as real }
  function Celsius(d: WheelData): real { d.temp as real / TEMP_DIVISOR as real }

  /**
   * `currentTime - dutyPeakTime` on 32-bit `unsigned long`: wraps modulo
   * 2^32. (Its conversion to float cannot change the comparison with 1000.)
   */
  function Elapsed(now: uint32, since: uint32): uint32
  {
    (now - since) % 0x1_0000_0000
  }

  function Max0(x: int): int { if x < 0 then 0 else x }

  /** `calcDutyPeak` at time `now`. */
  function PeakStep(d: WheelData, now: uint32): WheelData
  {
    if d.dutyCycle > d.dutyPeak then
      d.(dutyPeak := d.dutyCycle, dutyPeakTime := now)
    else if Elapsed(now, d.dutyPeakTime) > PEAK_HOLD_MSEC then
      d.(dutyPeak := Max0(d.dutyPeak - PEAK_DECAY_STEP))
    else
      d
  }

  /** `parseWheelDataMsg` on a 20-byte buffer; `msgRate` is what `calcUpdateFreq` returned. */
  function ApplyPrimary(d: WheelData, raw: seq<byte>, msgRate: real): WheelData
    requires |raw| == PRIMARY_MSG_SIZE
  {
    var m := DecodeMsg(raw);
    if m.header != WHEEL_MAGIC then d
    else d.(voltage := m.voltage, speed := m.speed, trip := m.trip,
            current := m.phaseCurrent, temp := m.temp, odometer := m.odometer,
            msgPerSec := msgRate)
  }

  /** The field writes of `parseWheelDataExtendedMsg`, before its call to `calcDutyPeak`. */
  function StoreExtended(d: WheelData, raw: seq<byte>): WheelData
    requires |raw| == EXTENDED_MSG_SIZE
  {
    var m := DecodeExtendedMsg(raw);
    d.(powerOffTime := m.powerOffTime, chargeMode := m.chargeMode,
       alarmSpeed := m.alarmSpeed / ALARM_SPEED_DIVISOR,
       tiltbackSpeed := m.alarmSpeed / ALARM_SPEED_DIVISOR,
       version := m.version, pedalMode := m.pedalMode, roll := m.roll,
       dutyCycle := m.dutyCycle / DUTY_CYCLE_DIVISOR)
  }

  /** `parseWheelDataExtendedMsg` on a 16-byte buffer at time `now`. */
  function ApplyExtended(d: WheelData, raw: seq<byte>, now: uint32): WheelData
    requires |raw| == EXTENDED_MSG_SIZE
  {
    PeakStep(StoreExtended(d, raw), now)
  }

  /** `notifyCallback`: the frame kind is chosen by the payload length alone. */
  function Notify(d: WheelData, raw: seq<byte>, now: uint32, msgRate: real): WheelData
  {
    if |raw| == PRIMARY_MSG_SIZE then ApplyPrimary(d, raw, msgRate)
    else if |raw| == EXTENDED_MSG_SIZE then ApplyExtended(d, raw, now)
    else d
  }

  // ---------------------------------------------------------------------
  // Frame decoding

  /** A payload of any length other than 20 or 16 changes nothing. */
  lemma NotifyIgnoresOtherLengths(d: WheelData, raw: seq<byte>, now: uint32, msgRate: real)
    requires |raw| != PRIMARY_MSG_SIZE && |raw| != EXTENDED_MSG_SIZE
    ensures Notify(d, raw, now, msgRate) == d
  {
  }

  /** A 20-byte payload whose first four bytes are not the magic value changes nothing. */
  lemma NotifyRejectsBadMagic(d: WheelData, raw: seq<byte>, now: uint32, msgRate: real)
    requires |raw| == PRIMARY_MSG_SIZE
    requires raw[0] as nat * 0x100_0000 + raw[1] as nat * 0x1_0000 + raw[2] as nat * 0x100 + raw[3] != 0xDC5A5C20
    ensures Notify(d, raw, now, msgRate) == d
  {
  }

  /**
   * An accepted primary frame: each field is the big-endian value at its
   * offset, and only the six primary fields and `msgPerSec` change.
   */
  lemma NotifyPrimaryFields(d: WheelData, raw: seq<byte>, now: uint32, msgRate: real)
    requires |raw| == PRIMARY_MSG_SIZE
    requires raw[0..4] == [0xDC, 0x5A, 0x5C, 0x20]
    ensures var r := Notify(d, raw, now, msgRate);
      && r.voltage == raw[4] as nat * 0x100 + raw[5]
      && r.speed == raw[6] as nat * 0x100 + raw[7]
      && r.trip == raw[8] as nat * 0x100_0000 + raw[9] as nat * 0x1_0000 + raw[10] as nat * 0x100 + raw[11]
      && r.odometer == raw[12] as nat * 0x100_0000 + raw[13] as nat * 0x1_0000 + raw[14] as nat * 0x100 + raw[15]
      && r.current == raw[16] as nat * 0x100 + raw[17]
      && r.temp == raw[18] as nat * 0x100 + raw[19]
      && r.msgPerSec == msgRate
      && r == d.(voltage := r.voltage, speed := r.speed, trip := r.trip, odometer := r.odometer,
                 current := r.current, temp := r.temp, msgPerSec := r.msgPerSec)
  {
    assert raw[0] == 0xDC && raw[1] == 0x5A && raw[2] == 0x5C && raw[3] == 0x20;
  }

  /** The scale factors: voltage bytes 0x01 0x90 read as 400 hundredths, i.e. 4.00 V. */
  lemma VoltageScaleExample(d: WheelData, raw: seq<byte>, now: uint32, msgRate: real)
    requires |raw| == PRIMARY_MSG_SIZE
    requires raw[0..4] == [0xDC, 0x5A, 0x5C, 0x20] && raw[4] == 0x01 && raw[5] == 0x90
    ensures Volts(Notify(d, raw, now, msgRate)) == 4.0
  {
    NotifyPrimaryFields(d, raw, now, msgRate);
  }

  /**
   * An extended frame: field i is the big-endian value of bytes 2i..2i+1,
   * alarm speed is divided by 10 and duty cycle by 100 (integer division),
   * tilt-back speed is read from the alarm-speed bytes, the peak tracker
   * runs on the new duty cycle, and the primary fields and flags keep their values.
   */
  lemma NotifyExtendedFields(d: WheelData, raw: seq<byte>, now: uint32, msgRate: real)
    requires |raw| == EXTENDED_MSG_SIZE
    ensures var r := Notify(d, raw, now, msgRate);
      var s := d.(dutyCycle := (raw[14] as nat * 0x100 + raw[15]) / 100);
      && r.powerOffTime == raw[0] as nat * 0x100 + raw[1]
      && r.chargeMode == raw[2] as nat * 0x100 + raw[3]
      && r.alarmSpeed == (raw[4] as nat * 0x100 + raw[5]) / 10
      && r.tiltbackSpeed == r.alarmSpeed
      && r.version == raw[8] as nat * 0x100 + raw[9]
      && r.pedalMode == raw[10] as nat * 0x100 + raw[11]
      && r.roll == raw[12] as nat * 0x100 + raw[13]
      && r.dutyCycle == s.dutyCycle
      && (r.dutyPeak, r.dutyPeakTime) == (PeakStep(s, now).dutyPeak, PeakStep(s, now).dutyPeakTime)
      && r == d.(powerOffTime := r.powerOffTime, chargeMode := r.chargeMode,
                 alarmSpeed := r.alarmSpeed, tiltbackSpeed := r.tiltbackSpeed,
                 version := r.version, pedalMode := r.pedalMode, roll := r.roll,
                 dutyCycle := r.dutyCycle, dutyPeak := r.dutyPeak, dutyPeakTime := r.dutyPeakTime)
  {
  }

  /** Bytes 6..7 (the tilt-back speed on the wire) never influence the record. */
  lemma NotifyIgnoresTiltbackBytes(d: WheelData, raw1: seq<byte>, raw2: seq<byte>, now: uint32, msgRate: real)
    requires |raw1| == |raw2| == EXTENDED_MSG_SIZE
    requires raw1[..6] == raw2[..6] && raw1[8..] == raw2[8..]
    ensures Notify(d, raw1, now, msgRate) == Notify(d, raw2, now, msgRate)
  {
    assert forall i :: 0 <= i < 6 ==> raw1[i] == raw1[..6][i];
    assert forall i :: 8 <= i < 16 ==> raw1[i] == raw1[8..][i - 8];
  }

  // ---------------------------------------------------------------------
  // Duty-cycle peak tracking

  /** Raise: a duty cycle above the peak becomes the peak, stamped with `now`. */
  lemma PeakRaise(d: WheelData, now: uint32)
    requires d.dutyCycle > d.dutyPeak
    ensures PeakStep(d, now) == d.(dutyPeak := d.dutyCycle, dutyPeakTime := now)
  {
  }

  /** Decay: once the hold has elapsed, the peak drops by 3 (not below 0) and its time stays. */
  lemma PeakDecay(d: WheelData, now: uint32)
    requires d.dutyCycle <= d.dutyPeak
    requires (now - d.dutyPeakTime) % 0x1_0000_0000 > 1000
    ensures PeakStep(d, now) == d.(dutyPeak := if d.dutyPeak < 3 then 0 else d.dutyPeak - 3)
  {
  }

  /** Hold: within the hold window nothing changes. */
  lemma PeakHold(d: WheelData, now: uint32)
    requires d.dutyCycle <= d.dutyPeak
    requires (now - d.dutyPeakTime) % 0x1_0000_0000 <= 1000
    ensures PeakStep(d, now) == d
  {
  }

  /**
   * The peak never goes negative and never exceeds the larger of the old
   * peak and the new duty cycle; only the peak and its time can change.
   */
  lemma PeakStepBounds(d: WheelData, now: uint32)
    requires d.dutyPeak >= 0
    ensures var r := PeakStep(d, now);
      && 0 <= r.dutyPeak <= (if d.dutyCycle > d.dutyPeak then d.dutyCycle else d.dutyPeak)
      && r == d.(dutyPeak := r.dutyPeak, dutyPeakTime := r.dutyPeakTime)
  {
  }

  /** One duty-cycle reading and the time it arrived. */
  datatype DutySample = DutySample(dutyCycle: uint16, now: uint32)

  /** The peak tracker fed one sample after another, as successive extended frames do. */
  function PeakRun(d: WheelData, samples: seq<DutySample>): WheelData
    decreases |samples|
  {
    if samples == [] then d
    else PeakRun(PeakStep(d.(dutyCycle := samples[0].dutyCycle), samples[0].now), samples[1..])
  }

  /**
   * The decay does not advance `dutyPeakTime`, so after the hold has
   * elapsed every call decays again: n samples that stay at or below the
   * decaying peak take 3n off it (clamped at 0), however close together they arrive.
   */
  lemma {:induction false} PeakRunDecays(d: WheelData, samples: seq<DutySample>)
    requires d.dutyPeak >= 0
    requires forall k :: 0 <= k < |samples| ==> samples[k].dutyCycle <= Max0(d.dutyPeak - 3 * k)
    requires forall k :: 0 <= k < |samples| ==> Elapsed(samples[k].now, d.dutyPeakTime) > PEAK_HOLD_MSEC
    ensures PeakRun(d, samples).dutyPeak == Max0(d.dutyPeak - 3 * |samples|)
    ensures PeakRun(d, samples).dutyPeakTime == d.dutyPeakTime
    decreases |samples|
  {
    if samples != [] {
      var d' := PeakStep(d.(dutyCycle := samples[0].dutyCycle), samples[0].now);
      assert samples[0].dutyCycle <= Max0(d.dutyPeak - 3 * 0);
      assert d'.dutyPeak == Max0(d.dutyPeak - 3);
      var rest := samples[1..];
      forall k | 0 <= k < |rest|
        ensures rest[k].dutyCycle <= Max0(d'.dutyPeak - 3 * k)
        ensures Elapsed(rest[k].now, d'.dutyPeakTime) > PEAK_HOLD_MSEC
      {
        assert rest[k] == samples[k + 1];
      }
      PeakRunDecays(d', rest);
    }
  }

  /** Peak 50 at t0, sample 60 at t0 + 100 ms: the peak becomes 60 stamped t0 + 100. */
  lemma PeakRaiseExample(d: WheelData)
    requires d.dutyPeak == 50 && d.dutyPeakTime == 5000
    ensures var r := PeakStep(d.(dutyCycle := 60), 5100);
      r.dutyPeak == 60 && r.dutyPeakTime == 5100
  {
  }

  /** Peak 60 at t0, sample 10 at t0 + 1500 and again at t0 + 1501: 57, then 54, time kept. */
  lemma PeakDecayExample(d: WheelData)
    requires d.dutyPeak == 60 && d.dutyPeakTime == 5000
    ensures var r1 := PeakStep(d.(dutyCycle := 10), 6500);
      var r2 := PeakStep(r1.(dutyCycle := 10), 6501);
      && r1.dutyPeak == 57 && r1.dutyPeakTime == 5000
      && r2.dutyPeak == 54 && r2.dutyPeakTime == 5000
  {
  }

  /** Every notification keeps the duty-cycle invariant. */
  lemma NotifyKeepsDutyInRange(d: WheelData, raw: seq<byte>, now: uint32, msgRate: real)
    requires DutyInRange(d)
    ensures DutyInRange(Notify(d, raw, now, msgRate))
  {
    if |raw| == EXTENDED_MSG_SIZE {
      var s := StoreExtended(d, raw);
      assert s.dutyCycle <= MAX_DUTY_CYCLE;
      PeakStepBounds(s, now);
    }
  }

  /** The cleared record satisfies the invariant. */
  lemma ZeroCleared()
    ensures IsCleared(Zero()) && DutyInRange(Zero())
  {
  }
}
