/**
 * The two notification layouts the wheel sends (`WheelDataMsg`, 20 bytes,
 * and `WheelDataExtendedMsg`, 16 bytes), their field offsets and the
 * scale factors the decoder applies. Every multi-byte field is big-endian.
 *
 * The source overlays the packed struct on the buffer and then applies
 * `be16dec`/`be32dec` to each member; here the overlay is an explicit
 * decoding function, and an encoder is its inverse.
 */
module WheelFrames {
  import opened Bytes

  /** Every primary message starts with this 32-bit value. */
  const WHEEL_MAGIC: uint32 := 0xDC5A5C20

  /** `sizeof(WheelDataMsg)` and `sizeof(WheelDataExtendedMsg)`. */
  const PRIMARY_MSG_SIZE: nat := 20
  const EXTENDED_MSG_SIZE: nat := 16

  /** Byte offsets of the primary message's fields. */
  const OFF_HEADER: nat := 0
  const OFF_VOLTAGE: nat := 4
  const OFF_SPEED: nat := 6
  const OFF_TRIP: nat := 8
  const OFF_ODOMETER: nat := 12
  const OFF_CURRENT: nat := 16
  const OFF_TEMP: nat := 18

  /**
   * What the decoder divides each raw field by. The record keeps the raw
   * integer; the engineering value is raw / divisor. The phase current is
   * divided by 100 in the code (its struct comment says 10).
   */
  const VOLTAGE_DIVISOR: nat := 100
  const SPEED_DIVISOR: nat := 10
  const TRIP_DIVISOR: nat := 1000
  const ODOMETER_DIVISOR: nat := 1000
  const CURRENT_DIVISOR: nat := 100
  const TEMP_DIVISOR: nat := 100
  /** Integer divisors of the extended message. */
  const ALARM_SPEED_DIVISOR: nat := 10
  const DUTY_CYCLE_DIVISOR: nat := 100

  /** The primary message with its fields already in host order. */
  datatype WheelDataMsg = WheelDataMsg(
    header: uint32,
    voltage: uint16,
    speed: uint16,
    trip: uint32,
    odometer: uint32,
    phaseCurrent: uint16,
    temp: uint16)

  /** The extended message with its fields already in host order. */
  datatype WheelDataExtendedMsg = WheelDataExtendedMsg(
    powerOffTime: uint16,
    chargeMode: uint16,
    alarmSpeed: uint16,
    tiltbackSpeed: uint16,
    version: uint16,
    pedalMode: uint16,
    roll: uint16,
    dutyCycle: uint16)

  function DecodeMsg(raw: seq<byte>): WheelDataMsg
    requires |raw| == PRIMARY_MSG_SIZE
  {
    WheelDataMsg(
      Be32(raw, OFF_HEADER),
      Be16(raw, OFF_VOLTAGE),
      Be16(raw, OFF_SPEED),
      Be32(raw, OFF_TRIP),
      Be32(raw, OFF_ODOMETER),
      Be16(raw, OFF_CURRENT),
      Be16(raw, OFF_TEMP))
  }

  /** The wire form of a primary message; decoding it gives the message back. */
  function EncodeMsg(m: WheelDataMsg): (r: seq<byte>)
    ensures |r| == PRIMARY_MSG_SIZE && DecodeMsg(r) == m
  {
    var r := Be32Bytes(m.header) + Be16Bytes(m.voltage) + Be16Bytes(m.speed)
      + Be32Bytes(m.trip) + Be32Bytes(m.odometer)
      + Be16Bytes(m.phaseCurrent) + Be16Bytes(m.temp);
    Be32Slice(r, OFF_HEADER);
    assert r[0..4] == Be32Bytes(m.header);
    Be16Slice(r, OFF_VOLTAGE);
    assert r[4..6] == Be16Bytes(m.voltage);
    Be16Slice(r, OFF_SPEED);
    assert r[6..8] == Be16Bytes(m.speed);
    Be32Slice(r, OFF_TRIP);
    assert r[8..12] == Be32Bytes(m.trip);
    Be32Slice(r, OFF_ODOMETER);
    assert r[12..16] == Be32Bytes(m.odometer);
    Be16Slice(r, OFF_CURRENT);
    assert r[16..18] == Be16Bytes(m.phaseCurrent);
    Be16Slice(r, OFF_TEMP);
    assert r[18..20] == Be16Bytes(m.temp);
    r
  }

  /**
   * The primary layout covers the buffer exactly: re-encoding the decoded
   * fields gives back every byte, so no byte is skipped or read twice.
   */
  lemma EncodeDecodeMsg(raw: seq<byte>)
    requires |raw| == PRIMARY_MSG_SIZE
    ensures EncodeMsg(DecodeMsg(raw)) == raw
  {
    Be32BytesOfRead(raw, OFF_HEADER);
    Be16BytesOfRead(raw, OFF_VOLTAGE);
    Be16BytesOfRead(raw, OFF_SPEED);
    Be32BytesOfRead(raw, OFF_TRIP);
    Be32BytesOfRead(raw, OFF_ODOMETER);
    Be16BytesOfRead(raw, OFF_CURRENT);
    Be16BytesOfRead(raw, OFF_TEMP);
    assert raw == raw[0..4] + raw[4..6] + raw[6..8] + raw[8..12] + raw[12..16]
      + raw[16..18] + raw[18..20];
  }

  function DecodeExtendedMsg(raw: seq<byte>): WheelDataExtendedMsg
    requires |raw| == EXTENDED_MSG_SIZE
  {
    WheelDataExtendedMsg(
      Be16(raw, 0), Be16(raw, 2), Be16(raw, 4), Be16(raw, 6),
      Be16(raw, 8), Be16(raw, 10), Be16(raw, 12), Be16(raw, 14))
  }

  /** The extended message's fields in wire order. */
  function ExtendedFields(m: WheelDataExtendedMsg): (fs: seq<uint16>)
    ensures |fs| == 8
  {
    [m.powerOffTime, m.chargeMode, m.alarmSpeed, m.tiltbackSpeed,
     m.version, m.pedalMode, m.roll, m.dutyCycle]
  }

  /** Field number i of the extended message is the big-endian value of bytes 2i and 2i+1. */
  lemma ExtendedFieldAt(raw: seq<byte>, i: nat)
    requires |raw| == EXTENDED_MSG_SIZE && i < 8
    ensures ExtendedFields(DecodeExtendedMsg(raw))[i] == raw[2 * i] as nat * 0x100 + raw[2 * i + 1]
  {
  }

  /** The wire form of an extended message; decoding it gives the message back. */
  function EncodeExtendedMsg(m: WheelDataExtendedMsg): (r: seq<byte>)
    ensures |r| == EXTENDED_MSG_SIZE && DecodeExtendedMsg(r) == m
  {
    var r := Be16Bytes(m.powerOffTime) + Be16Bytes(m.chargeMode)
      + Be16Bytes(m.alarmSpeed) + Be16Bytes(m.tiltbackSpeed)
      + Be16Bytes(m.version) + Be16Bytes(m.pedalMode)
      + Be16Bytes(m.roll) + Be16Bytes(m.dutyCycle);
    forall i | 0 <= i < 8
      ensures Be16(r, 2 * i) == ExtendedFields(m)[i]
    {
      Be16Slice(r, 2 * i);
      assert r[2 * i..2 * i + 2] == Be16Bytes(ExtendedFields(m)[i]);
    }
    assert Be16(r, 2 * 0) == ExtendedFields(m)[0];
    assert Be16(r, 2 * 1) == ExtendedFields(m)[1];
    assert Be16(r, 2 * 2) == ExtendedFields(m)[2];
    assert Be16(r, 2 * 3) == ExtendedFields(m)[3];
    assert Be16(r, 2 * 4) == ExtendedFields(m)[4];
    assert Be16(r, 2 * 5) == ExtendedFields(m)[5];
    assert Be16(r, 2 * 6) == ExtendedFields(m)[6];
    assert Be16(r, 2 * 7) == ExtendedFields(m)[7];
    r
  }

  /** The extended layout covers its 16 bytes exactly. */
  lemma EncodeDecodeExtendedMsg(raw: seq<byte>)
    requires |raw| == EXTENDED_MSG_SIZE
    ensures EncodeExtendedMsg(DecodeExtendedMsg(raw)) == raw
  {
    Be16BytesOfRead(raw, 0);
    Be16BytesOfRead(raw, 2);
    Be16BytesOfRead(raw, 4);
    Be16BytesOfRead(raw, 6);
    Be16BytesOfRead(raw, 8);
    Be16BytesOfRead(raw, 10);
    Be16BytesOfRead(raw, 12);
    Be16BytesOfRead(raw, 14);
    assert raw == raw[0..2] + raw[2..4] + raw[4..6] + raw[6..8] + raw[8..10]
      + raw[10..12] + raw[12..14] + raw[14..16];
  }
}
