/**
 * The Temperature Measurement payload of the Health Thermometer Service
 * (section 3.1 of HTS 1.0): a flags byte, a 32-bit IEEE 11073-20601 FLOAT
 * whose exponent byte is 0xFF (value in tenths of a degree), an optional
 * 7-byte time stamp and an optional temperature-type byte.
 */
module Comm {
  import opened Types

  // Flag bits of the Temperature Measurement characteristic.
  const FLAGS_CELCIUS: uint8 := 0x00
  const FLAGS_FARENHEIT: uint8 := 0x01
  const FLAGS_TIMESTAMP: uint8 := 0x02
  const FLAGS_TYPE: uint8 := 0x04

  /** THER_NOTIFY_FLAG = CELCIUS | TYPE (the two masks share no bit). */
  const THER_NOTIFY_FLAG: uint8 := FLAGS_CELCIUS + FLAGS_TYPE

  /** Size of the value buffer of an ATT notification or indication (ATT_MTU_SIZE - 3). */
  const ATT_VALUE_SIZE: nat := 20

  /** Largest payload: flags, temperature, time stamp and type. */
  const MAX_PAYLOAD: nat := 13

  /** The calendar time that osal_ConvertUTCTime produces from the OSAL clock. */
  datatype UtcTime = UtcTime(seconds: uint8, minutes: uint8, hour: uint8,
                             day: uint8, month: uint8, year: uint16)

  /** Placeholder clock for payloads whose flags carry no time stamp (the clock is then not read). */
  const NO_CLOCK: UtcTime := UtcTime(0, 0, 0, 0, 0, 0)

  /** Number of bytes encap_temp_buf writes for the given flags. */
  function PayloadLength(flag: uint8): (n: nat)
    ensures 5 <= n <= MAX_PAYLOAD
    ensures n == 5 || n == 6 || n == 12 || n == 13
  {
    5 + (if HasBit(flag, FLAGS_TIMESTAMP) then 7 else 0)
      + (if HasBit(flag, FLAGS_TYPE) then 1 else 0)
  }

  /**
   * The temperature after the optional Fahrenheit conversion, computed in
   * 32-bit unsigned arithmetic; 320 is 32 degrees in tenths.
   */
  function Converted(flag: uint8, temp: uint32): (r: uint32)
    ensures !HasBit(flag, FLAGS_FARENHEIT) ==> r == temp
    ensures HasBit(flag, FLAGS_FARENHEIT) && temp * 9 < 0x1_0000_0000 ==> r == temp * 9 / 5 + 320
  {
    if HasBit(flag, FLAGS_FARENHEIT) then (temp * 9 % 0x1_0000_0000 / 5 + 320) % 0x1_0000_0000
    else temp
  }

  /**
   * `0xFF000000 | value`: the OR keeps the low 24 bits of the value as the
   * mantissa and forces the exponent byte to 0xFF.
   */
  function FloatWord(value: uint32): (w: uint32)
    ensures w / 0x100_0000 == 0xFF
    ensures w % 0x100_0000 == value % 0x100_0000
    ensures value < 0x100_0000 ==> w - 0xFF00_0000 == value
  {
    0xFF00_0000 + value % 0x100_0000
  }

  /** The four bytes osal_buffer_uint32 writes, low byte first. */
  function LittleEndian32(w: uint32): (b: seq<uint8>)
    ensures |b| == 4
  {
    [w % 0x100, w / 0x100 % 0x100, w / 0x1_0000 % 0x100, w / 0x100_0000]
  }

  /** Reads back a little-endian 32-bit word. */
  function FromLittleEndian32(b: seq<uint8>): uint32
    requires |b| == 4
  {
    b[0] as int + 0x100 * (b[1] as int) + 0x1_0000 * (b[2] as int) + 0x100_0000 * (b[3] as int)
  }

  lemma LittleEndian32RoundTrip(w: uint32)
    ensures FromLittleEndian32(LittleEndian32(w)) == w
  {
    var b := LittleEndian32(w);
    assert w == w % 0x100 + 0x100 * (w / 0x100);
    assert w / 0x100 == w / 0x100 % 0x100 + 0x100 * (w / 0x1_0000);
    assert w / 0x1_0000 == w / 0x1_0000 % 0x100 + 0x100 * (w / 0x100_0000);
  }

  /** Time stamp bytes: year low, year high, month, day, hour, minutes, seconds. */
  function TimeBytes(t: UtcTime): (b: seq<uint8>)
    ensures |b| == 7
  {
    [t.year % 0x100, t.year / 0x100, t.month, t.day, t.hour, t.minutes, t.seconds]
  }

  /**
   * The bytes encap_temp_buf writes. The clock reading and the sensor type
   * (Thermometer_GetParameter(THERMOMETER_TYPE)) are inputs.
   */
  function EncodeTemp(flag: uint8, temp: uint32, clock: UtcTime, sensorType: uint8): (r: seq<uint8>)
    ensures |r| == PayloadLength(flag)
    ensures r[0] == flag
    ensures r[4] == 0xFF
    ensures HasBit(flag, FLAGS_TIMESTAMP) ==> r[5..12] == TimeBytes(clock)
    ensures HasBit(flag, FLAGS_TYPE) ==> r[|r| - 1] == sensorType
  {
    [flag] + LittleEndian32(FloatWord(Converted(flag, temp)))
      + (if HasBit(flag, FLAGS_TIMESTAMP) then TimeBytes(clock) else [])
      + (if HasBit(flag, FLAGS_TYPE) then [sensorType] else [])
  }

  /** A Temperature Measurement as a receiving peer reads it. */
  datatype Measurement = Measurement(flags: uint8, mantissa: nat, exponent: uint8,
                                     time: Option<UtcTime>, sensorType: Option<uint8>)

  /** Parses a payload; its length must be the one its flags call for. */
  function DecodeTemp(s: seq<uint8>): (m: Option<Measurement>)
    ensures m.Some? <==> |s| > 0 && |s| == PayloadLength(s[0])
    ensures m.Some? ==> m.value.flags == s[0] && m.value.mantissa < 0x100_0000
    ensures m.Some? ==> (m.value.time.Some? <==> HasBit(s[0], FLAGS_TIMESTAMP))
    ensures m.Some? ==> (m.value.sensorType.Some? <==> HasBit(s[0], FLAGS_TYPE))
  {
    if |s| == 0 || |s| != PayloadLength(s[0]) then None
    else
      var word := FromLittleEndian32(s[1..5]);
      var time := if HasBit(s[0], FLAGS_TIMESTAMP)
                  then Some(UtcTime(s[11], s[10], s[9], s[8], s[7], s[5] as int + 0x100 * (s[6] as int)))
                  else None;
      var sensorType := if HasBit(s[0], FLAGS_TYPE) then Some(s[|s| - 1]) else None;
      Some(Measurement(s[0], word % 0x100_0000, word / 0x100_0000, time, sensorType))
  }

  /**
   * Decoding an encoded payload gives back the flags, the (converted)
   * temperature masked to 24 bits, exponent 0xFF, and exactly the optional
   * fields the flags select. A Celsius temperature below 2^24 comes back unchanged.
   */
  lemma DecodeEncode(flag: uint8, temp: uint32, clock: UtcTime, sensorType: uint8)
    ensures DecodeTemp(EncodeTemp(flag, temp, clock, sensorType)) ==
      Some(Measurement(flag, Converted(flag, temp) % 0x100_0000, 0xFF,
                       if HasBit(flag, FLAGS_TIMESTAMP) then Some(clock) else None,
                       if HasBit(flag, FLAGS_TYPE) then Some(sensorType) else None))
    ensures !HasBit(flag, FLAGS_FARENHEIT) && temp < 0x100_0000 ==>
      DecodeTemp(EncodeTemp(flag, temp, clock, sensorType)).value.mantissa == temp
  {
    var s := EncodeTemp(flag, temp, clock, sensorType);
    var w := FloatWord(Converted(flag, temp));
    assert s[1..5] == LittleEndian32(w);
    LittleEndian32RoundTrip(w);
    if HasBit(flag, FLAGS_TIMESTAMP) {
      var y := clock.year;
      assert s[5] == y % 0x100 && s[6] == y / 0x100;
      assert s[5] as int + 0x100 * (s[6] as int) == y;
    }
  }

  lemma FromLittleEndian32RoundTrip(b: seq<uint8>)
    requires |b| == 4
    ensures LittleEndian32(FromLittleEndian32(b)) == b
  {
    var w := FromLittleEndian32(b);
    var h2 := b[2] as int + 0x100 * (b[3] as int);
    var h1 := b[1] as int + 0x100 * h2;
    assert w == b[0] as int + 0x100 * h1;
    SplitByte(b[0], h1);
    SplitByte(b[1], h2);
    SplitByte(b[2], b[3]);
    ShiftTwice(w, 0x100, 0x100);
    ShiftTwice(w, 0x1_0000, 0x100);
    ShiftTwice(w / 0x100, 0x100, 0x100);
  }

  /** The low byte and the rest of lo + 256 * hi. */
  lemma SplitByte(lo: uint8, hi: nat)
    ensures (lo + 0x100 * hi) % 0x100 == lo && (lo + 0x100 * hi) / 0x100 == hi
  {
  }

  /** Shifting right by a and then by b is shifting by a * b. */
  lemma ShiftTwice(w: nat, a: nat, b: nat)
    requires a == 0x100 || a == 0x1_0000
    requires b == 0x100
    ensures w / a / b == w / (a * b)
  {
    var q := w / a / b;
    var r := w / a % b;
    assert w / a == b * q + r;
    assert w == a * (w / a) + w % a;
    assert w == (a * b) * q + (a * r + w % a);
    assert 0 <= a * r + w % a < a * b;
  }

  /**
   * Conversely, a well-formed Celsius payload with exponent 0xFF is exactly
   * what encap_temp_buf writes for its decoded fields.
   */
  lemma EncodeDecode(s: seq<uint8>)
    requires DecodeTemp(s).Some?
    requires DecodeTemp(s).value.exponent == 0xFF
    requires !HasBit(s[0], FLAGS_FARENHEIT)
    ensures var m := DecodeTemp(s).value;
      EncodeTemp(m.flags, m.mantissa,
                 if m.time.Some? then m.time.value else NO_CLOCK,
                 if m.sensorType.Some? then m.sensorType.value else 0) == s
  {
    var m := DecodeTemp(s).value;
    var clock := if m.time.Some? then m.time.value else NO_CLOCK;
    var ty := if m.sensorType.Some? then m.sensorType.value else 0;
    var word := FromLittleEndian32(s[1..5]);
    assert word == 0xFF00_0000 + m.mantissa;
    assert FloatWord(Converted(m.flags, m.mantissa)) == word;
    FromLittleEndian32RoundTrip(s[1..5]);
    var head := [m.flags] + LittleEndian32(word);
    assert head == s[..5];
    var stamp := if HasBit(s[0], FLAGS_TIMESTAMP) then TimeBytes(clock) else [];
    if HasBit(s[0], FLAGS_TIMESTAMP) {
      assert clock.year % 0x100 == s[5] && clock.year / 0x100 == s[6];
      assert stamp == s[5..12];
    }
    var tail := if HasBit(s[0], FLAGS_TYPE) then [ty] else [];
    assert tail == s[5 + |stamp|..];
    assert s == s[..5] + s[5..5 + |stamp|] + s[5 + |stamp|..];
  }

  /** osal_buffer_uint32: writes a 32-bit word at buf[i..i+4], low byte first. */
  method BufferUint32(buf: array<uint8>, i: nat, w: uint32)
    requires i + 4 <= buf.Length
    modifies buf
    ensures buf[..i] == old(buf[..i]) && buf[i + 4..] == old(buf[i + 4..])
    ensures buf[i..i + 4] == LittleEndian32(w)
  {
    buf[i] := w % 0x100;
    buf[i + 1] := w / 0x100 % 0x100;
    buf[i + 2] := w / 0x1_0000 % 0x100;
    buf[i + 3] := w / 0x100_0000;
  }

  /** The seven time stamp bytes written one by one at buf[i..i+7]. */
  method PutTime(buf: array<uint8>, i: nat, t: UtcTime)
    requires i + 7 <= buf.Length
    modifies buf
    ensures buf[..i] == old(buf[..i]) && buf[i + 7..] == old(buf[i + 7..])
    ensures buf[i..i + 7] == TimeBytes(t)
  {
    buf[i] := t.year % 0x100;
    buf[i + 1] := t.year / 0x100;
    buf[i + 2] := t.month;
    buf[i + 3] := t.day;
    buf[i + 4] := t.hour;
    buf[i + 5] := t.minutes;
    buf[i + 6] := t.seconds;
  }

  /**
   * encap_temp_buf: writes the payload through an advancing index into the
   * caller's buffer and returns how many bytes it wrote.
   */
  method EncapTempBuf(flag: uint8, temp: uint32, clock: UtcTime, sensorType: uint8, buf: array<uint8>)
    returns (len: uint8)
    requires PayloadLength(flag) <= buf.Length
    modifies buf
    ensures len as int == PayloadLength(flag)
    ensures buf[..len] == EncodeTemp(flag, temp, clock, sensorType)
    ensures buf[len..] == old(buf[len..])
  {
    ghost var stamp := if HasBit(flag, FLAGS_TIMESTAMP) then TimeBytes(clock) else [];
    ghost var tail := if HasBit(flag, FLAGS_TYPE) then [sensorType] else [];
    ghost var rest := buf[..];

    var i := 0;
    buf[i] := flag;
    i := i + 1;
    assert buf[..i] == [flag] && buf[i..] == rest[i..];

    var word := FloatWord(Converted(flag, temp));
    ghost var pre := buf[..];
    BufferUint32(buf, i, word);
    Overwrite(pre, buf[..], rest, i, i + 4);
    i := i + 4;
    assert buf[..i] == [flag] + LittleEndian32(word);

    if HasBit(flag, FLAGS_TIMESTAMP) {
      pre := buf[..];
      PutTime(buf, i, clock);
      Overwrite(pre, buf[..], rest, i, i + 7);
      i := i + 7;
    }
    assert buf[..i] == [flag] + LittleEndian32(word) + stamp;

    if HasBit(flag, FLAGS_TYPE) {
      pre := buf[..];
      buf[i] := sensorType;
      Overwrite(pre, buf[..], rest, i, i + 1);
      i := i + 1;
    }
    assert buf[..i] == [flag] + LittleEndian32(word) + stamp + tail;

    len := i;
  }

  /**
   * Writing a[i..j] over a buffer whose suffix from i is still the original
   * leaves the prefix extended by the written bytes and the suffix from j
   * original.
   */
  lemma Overwrite(a: seq<uint8>, b: seq<uint8>, orig: seq<uint8>, i: nat, j: nat)
    requires i <= j <= |a| == |b| == |orig|
    requires a[i..] == orig[i..]
    requires b[..i] == a[..i] && b[j..] == a[j..]
    ensures b[..j] == a[..i] + b[i..j]
    ensures b[j..] == orig[j..]
  {
    assert a[j..] == a[i..][j - i..];
    assert orig[j..] == orig[i..][j - i..];
    assert b[..j] == b[..i] + b[i..j];
  }

  /** A notification handed to Thermometer_IMeasNotify. */
  datatype Notification = Notification(connHandle: uint16, value: seq<uint8>)

  /** An indication handed to Thermometer_TempIndicate. */
  datatype Indication = Indication(connHandle: uint16, taskId: uint8, value: seq<uint8>)

  /**
   * ther_send_temp_notify: encodes the current temperature (an input: the
   * value get_current_temp returns) with the fixed THER_NOTIFY_FLAG, so the
   * payload is always 6 bytes and carries no time stamp.
   */
  method SendTempNotify(connHandle: uint16, temp: uint16, sensorType: uint8) returns (n: Notification)
    ensures n.connHandle == connHandle
    ensures n.value == EncodeTemp(THER_NOTIFY_FLAG, temp, NO_CLOCK, sensorType)
    ensures n.value == [THER_NOTIFY_FLAG] + LittleEndian32(0xFF00_0000 + temp) + [sensorType]
  {
    var value := new uint8[ATT_VALUE_SIZE];
    var len := EncapTempBuf(THER_NOTIFY_FLAG, temp, NO_CLOCK, sensorType, value);
    n := Notification(connHandle, value[..len]);
  }

  /** ther_send_temp_indicate: the same payload, sent as an indication for the given task. */
  method SendTempIndicate(connHandle: uint16, taskId: uint8, temp: uint16, sensorType: uint8)
    returns (ind: Indication)
    ensures ind.connHandle == connHandle && ind.taskId == taskId
    ensures ind.value == EncodeTemp(THER_NOTIFY_FLAG, temp, NO_CLOCK, sensorType)
    ensures ind.value == [THER_NOTIFY_FLAG] + LittleEndian32(0xFF00_0000 + temp) + [sensorType]
  {
    var value := new uint8[ATT_VALUE_SIZE];
    var len := EncapTempBuf(THER_NOTIFY_FLAG, temp, NO_CLOCK, sensorType, value);
    ind := Indication(connHandle, taskId, value[..len]);
  }

  /**
   * encap_temp_buf as compiled for the 8051 core, where `unsigned int` is
   * 16 bits wide: the conversion wraps at 2^16, and storing
   * `0xFF000000 | temp` back into the 16-bit `temp` drops the exponent byte.
   */
  function EncodeTempAsWritten(flag: uint8, temp: uint16, clock: UtcTime, sensorType: uint8): (r: seq<uint8>)
    ensures |r| == PayloadLength(flag)
  {
    var converted: uint16 := if HasBit(flag, FLAGS_FARENHEIT)
                             then (temp * 9 % 0x1_0000 / 5 + 320) % 0x1_0000 else temp;
    var stored: uint16 := (0xFF00_0000 + converted) % 0x1_0000;
    [flag] + LittleEndian32(stored)
      + (if HasBit(flag, FLAGS_TIMESTAMP) then TimeBytes(clock) else [])
      + (if HasBit(flag, FLAGS_TYPE) then [sensorType] else [])
  }

  /** As written, the exponent byte is always 0x00, never the 0xFF of the corrected encoder. */
  lemma ExponentLostAsWritten(flag: uint8, temp: uint16, clock: UtcTime, sensorType: uint8)
    ensures EncodeTempAsWritten(flag, temp, clock, sensorType)[4] == 0
    ensures EncodeTempAsWritten(flag, temp, clock, sensorType)[4] != EncodeTemp(flag, temp, clock, sensorType)[4]
  {
  }

  /** 36.5 degrees Celsius: a peer decodes exponent 0 (365 degrees) from the as-written bytes. */
  lemma ExponentLostExample()
    ensures EncodeTempAsWritten(THER_NOTIFY_FLAG, 365, NO_CLOCK, 2) == [0x04, 0x6D, 0x01, 0x00, 0x00, 0x02]
    ensures EncodeTemp(THER_NOTIFY_FLAG, 365, NO_CLOCK, 2) == [0x04, 0x6D, 0x01, 0x00, 0xFF, 0x02]
    ensures DecodeTemp(EncodeTempAsWritten(THER_NOTIFY_FLAG, 365, NO_CLOCK, 2)).value.exponent == 0
  {
    assert HasBit(THER_NOTIFY_FLAG, FLAGS_TYPE) && !HasBit(THER_NOTIFY_FLAG, FLAGS_TIMESTAMP);
    assert !HasBit(THER_NOTIFY_FLAG, FLAGS_FARENHEIT);
    assert Converted(THER_NOTIFY_FLAG, 365) == 365;
    assert FloatWord(365) == 0xFF00_016D;
    assert LittleEndian32(0xFF00_016D) == [0x6D, 0x01, 0x00, 0xFF];
    assert LittleEndian32(0x016D) == [0x6D, 0x01, 0x00, 0x00];
    var written := EncodeTempAsWritten(THER_NOTIFY_FLAG, 365, NO_CLOCK, 2);
    assert written == [0x04, 0x6D, 0x01, 0x00, 0x00, 0x02];
    assert PayloadLength(0x04) == 6;
    assert FromLittleEndian32(written[1..5]) == 365;
  }
}
