/**
  The frame decoder (`DeviceMapper`): turns one inbound chunk into one typed
  record by reading single fields at fixed offsets. Every read is
  bounds-checked and yields a zero value plus a diagnostic on a short
  buffer. Enumerated fields go through code tables that the model keeps
  abstract (`EnumTables`); only fan speed and device role fall back to a
  named default.
*/
module DeviceMapper {
  import opened Wrappers
  import opened Text

  /** A received chunk. */
  type Buffer = seq<Byte>

  // ---------------------------------------------------------------------
  // Enumeration tables
  // ---------------------------------------------------------------------

  /**
    The numeric enums the decoder indexes (`FanSpeed[code]` and so on): each
    maps a code to its member name, and a code outside it reads `undefined`.
  */
  datatype EnumTables = EnumTables(
    operatingMode: map<int, string>,
    fanSpeed: map<int, string>,
    humidityLevel: map<int, string>,
    airQuality: map<int, string>,
    filterStatus: map<int, string>,
    deviceRole: map<int, string>,
    lightSensitivity: map<int, string>,
    fanMode: map<int, string>,
    fanStatus: map<int, string>)

  /** `FanSpeed[FanSpeed.MEDIUM]`, the name used for an unknown fan speed. */
  const FanSpeedFallback: string := "MEDIUM"
  /** `DeviceRole[DeviceRole.MASTER]`, the name used for an unknown device role. */
  const DeviceRoleFallback: string := "MASTER"

  /** `name || fallback`: an undefined or empty name is replaced. */
  function OrElse(name: Option<string>, fallback: string): (r: string)
    ensures name.Some? && name.value != "" ==> r == name.value
    ensures name.None? ==> r == fallback
  {
    if name.Some? && name.value != "" then name.value else fallback
  }

  // ---------------------------------------------------------------------
  // Diagnostics
  // ---------------------------------------------------------------------

  datatype SliceKind = HexString | UInt8 | UInt32LE | Int16LE | Boolean

  /** The warning a field reader logs when the buffer ends before `end`. */
  datatype ShortRead = ShortRead(kind: SliceKind, start: nat, end: nat)

  /** The warnings a decoder logs when it replaces an unknown code by its fallback. */
  datatype Fallback =
    | InvalidFanSpeed(code: int, serial: string)
    | UnknownDeviceRole(code: int, device: Option<string>)

  /** What one field reader returns: the value and the short-read warnings it logged. */
  datatype Read<+T> = Read(value: T, shortReads: seq<ShortRead>)

  /**
    What a decoder returns: the record, the short-read warnings of its field
    reads in reading order, and its fallback warnings in order.
  */
  datatype Decoded<+T> = Decoded(value: T, shortReads: seq<ShortRead>, fallbacks: seq<Fallback>)

  // ---------------------------------------------------------------------
  // Field readers (the private slice helpers)
  // ---------------------------------------------------------------------

  /** Node's `readInt8`: the byte as a two's-complement signed value. */
  function Int8(b: Byte): (v: int)
    ensures -128 <= v < 128
    ensures v % 256 == b
  {
    if b < 128 then b else b - 256
  }

  /** Node's `readInt16LE` on two bytes, low byte first. */
  function Int16(lo: Byte, hi: Byte): (v: int)
    ensures -32768 <= v < 32768
    ensures v % 65536 == lo as int + 256 * (hi as int)
    ensures (v < 0) == (hi >= 128)
  {
    var u := lo as int + 256 * (hi as int);
    if u >= 32768 then u - 65536 else u
  }

  /** Node's `readUInt32LE` on four bytes, least significant first. */
  function UInt32(bs: seq<Byte>): (v: nat)
    requires |bs| == 4
    ensures v < 0x1_0000_0000
  {
    bs[0] as int + 256 * (bs[1] as int) + 65536 * (bs[2] as int) + 16777216 * (bs[3] as int)
  }

  /** The four little-endian bytes of a 32-bit value. */
  function LittleEndianBytes(v: nat): (bs: seq<Byte>)
    requires v < 0x1_0000_0000
    ensures |bs| == 4
  {
    [v % 256, v / 256 % 256, v / 65536 % 256, v / 16777216]
  }

  /** `getHexStringFromBufferSlice`: the lowercase hex of `buf[start..end]`, or "" on a short buffer. */
  function HexSlice(buf: Buffer, start: nat, end: nat): (r: Read<string>)
    requires start <= end
    ensures |buf| >= end ==> r.value == Hex(buf[start..end]) && r.shortReads == []
    ensures |buf| >= end ==> |r.value| == 2 * (end - start) && ParseHex(r.value) == Some(buf[start..end])
    ensures |buf| < end ==> r.value == "" && r.shortReads == [ShortRead(HexString, start, end)]
  {
    if |buf| >= end then
      HexRoundTrip(buf[start..end]);
      Read(Hex(buf[start..end]), [])
    else Read("", [ShortRead(HexString, start, end)])
  }

  /** `getIntFromBufferSlice`: `readUInt8` of the slice, i.e. the byte at `start`, or 0 on a short buffer. */
  function UInt8Slice(buf: Buffer, start: nat, end: nat): (r: Read<Byte>)
    requires start < end
    ensures |buf| >= end ==> r.value == buf[start] && r.shortReads == []
    ensures |buf| < end ==> r.value == 0 && r.shortReads == [ShortRead(UInt8, start, end)]
  {
    if |buf| >= end then Read(buf[start], [])
    else Read(0, [ShortRead(UInt8, start, end)])
  }

  /** `getUInt32LEFromBufferSlice`: the little-endian value of the first four bytes of the slice, or 0. */
  function UInt32LESlice(buf: Buffer, start: nat, end: nat): (r: Read<nat>)
    requires start + 4 <= end
    ensures r.value < 0x1_0000_0000
    ensures |buf| >= end ==> r.shortReads == [] && LittleEndianBytes(r.value) == buf[start..start + 4]
    ensures |buf| < end ==> r.value == 0 && r.shortReads == [ShortRead(UInt32LE, start, end)]
  {
    if |buf| >= end then
      LittleEndianRoundTrip(buf[start..start + 4]);
      Read(UInt32(buf[start..start + 4]), [])
    else Read(0, [ShortRead(UInt32LE, start, end)])
  }

  /**
    `getSignedInt16FromBufferSlice` before its floating-point scaling: the raw
    signed little-endian value (hundredths of a degree), or 0.
  */
  function Int16Slice(buf: Buffer, start: nat, end: nat): (r: Read<int>)
    requires start + 2 <= end
    ensures -32768 <= r.value < 32768
    ensures |buf| >= end ==> r.shortReads == [] && r.value % 65536 == buf[start] as int + 256 * (buf[start + 1] as int)
    ensures |buf| < end ==> r.value == 0 && r.shortReads == [ShortRead(Int16LE, start, end)]
  {
    if |buf| >= end then Read(Int16(buf[start], buf[start + 1]), [])
    else Read(0, [ShortRead(Int16LE, start, end)])
  }

  /** `getBooleanFromBufferSlice`: `readInt8() === 1`, or false on a short buffer. */
  function BoolSlice(buf: Buffer, start: nat, end: nat): (r: Read<bool>)
    requires start < end
    ensures r.value <==> |buf| >= end && buf[start] == 1
    ensures |buf| >= end ==> r.shortReads == []
    ensures |buf| < end ==> r.shortReads == [ShortRead(Boolean, start, end)]
  {
    if |buf| >= end then Read(Int8(buf[start]) == 1, [])
    else Read(false, [ShortRead(Boolean, start, end)])
  }

  /** The little-endian reader and writer are inverse on 32-bit values. */
  lemma LittleEndianRoundTrip(bs: seq<Byte>)
    requires |bs| == 4
    ensures LittleEndianBytes(UInt32(bs)) == bs
  {
    var v := UInt32(bs);
    assert v % 256 == bs[0];
    assert v / 256 == bs[1] as int + 256 * (bs[2] as int) + 65536 * (bs[3] as int);
    assert v / 65536 == bs[2] as int + 256 * (bs[3] as int);
    assert v / 16777216 == bs[3];
  }

  lemma LittleEndianValue(v: nat)
    requires v < 0x1_0000_0000
    ensures UInt32(LittleEndianBytes(v)) == v
  {
    var bs := LittleEndianBytes(v);
    assert v == v % 256 + 256 * (v / 256);
    assert v / 256 == v / 256 % 256 + 256 * (v / 65536);
    assert v / 65536 == v / 65536 % 256 + 256 * (v / 16777216);
  }

  // ---------------------------------------------------------------------
  // Records
  // ---------------------------------------------------------------------

  /** The 21-byte periodic status frame; `temperature` is the raw byte, unscaled. */
  datatype Device = Device(
    serialNumber: string,
    operatingMode: Option<string>,
    fanSpeed: string,
    humidityLevel: Option<string>,
    temperature: Byte,
    humidity: Byte,
    airQuality: Option<string>,
    humidityAlarm: bool,
    filterStatus: Option<string>,
    nightAlarm: bool,
    deviceRole: string,
    lastOperatingMode: Option<string>,
    lightSensitivity: Option<string>,
    remoteAddress: string,
    signalStrength: Byte)

  /** The 18-byte frame sent after connecting. */
  datatype DeviceInfo = DeviceInfo(
    serialNumber: string,
    radioFwVersion: string,
    microFwVersion: string,
    radioAtCommandsFwVersion: string)

  /** The 15-byte setup frame from the relay. */
  datatype DeviceSetup = DeviceSetup(serialNumber: string, deviceRole: string, zoneIndex: Byte, houseId: nat)

  /** The 9-byte filter-reset frame from the relay. */
  datatype DeviceFilterReset = DeviceFilterReset(serialNumber: string, filterReset: Byte)

  /** The 13-byte command frame (type byte 0 or 1). */
  datatype DeviceCommand = DeviceCommand(
    serialNumber: string,
    operatingMode: Option<string>,
    fanSpeed: Option<string>,
    humidityLevel: Option<string>,
    lightSensorLevel: Option<string>)

  /** The 13-byte weather frame (type byte 4); `temperature` in hundredths of a degree. */
  datatype DeviceWeatherUpdate = DeviceWeatherUpdate(
    serialNumber: string,
    temperature: int,
    humidity: Byte,
    airQuality: Option<string>)

  /** The broadcast status, decoded from bit fields; the serial comes from the caller. */
  datatype DeviceBroadcastStatus = DeviceBroadcastStatus(
    serialNumber: Option<string>,
    zoneIndex: int,
    fanMode: Option<string>,
    fanStatus: Option<string>)


  // ---------------------------------------------------------------------
  // Decoders
  // ---------------------------------------------------------------------

  /** The byte a field reader sees at offset `i`: the byte itself, or the zero of a short buffer. */
  function ByteAt(data: Buffer, i: nat): Byte {
    if |data| > i then data[i] else 0
  }

  /** The serial number every frame carries at bytes 2..8, as the decoders read it. */
  function SerialOf(buf: Buffer): (r: Read<string>)
    ensures |buf| >= 8 ==> r.value == Hex(buf[2..8]) && |r.value| == 12 && IsLowerHex(r.value)
    ensures |buf| >= 8 ==> ParseHex(r.value) == Some(buf[2..8]) && r.shortReads == []
    ensures |buf| < 8 ==> r.value == "" && r.shortReads == [ShortRead(HexString, 2, 8)]
  {
    HexSlice(buf, 2, 8)
  }

  /** `deviceFromSocketBuffer`. */
  function DeviceFromSocketBuffer(t: EnumTables, data: Buffer, remoteAddress: string): (r: Decoded<Device>)
    ensures r.value.serialNumber == SerialOf(data).value
    ensures r.value.remoteAddress == remoteAddress
    ensures (|data| >= 21) == (r.shortReads == [])
    ensures r.value.temperature == ByteAt(data, 11) && r.value.humidity == ByteAt(data, 12)
    ensures r.value.signalStrength == ByteAt(data, 20)
    ensures r.value.humidityAlarm <==> |data| >= 15 && data[14] == 1
    ensures r.value.nightAlarm <==> |data| >= 17 && data[16] == 1
    ensures r.value.operatingMode == Get(t.operatingMode, ByteAt(data, 8))
    ensures r.value.humidityLevel == Get(t.humidityLevel, ByteAt(data, 10))
    ensures r.value.airQuality == Get(t.airQuality, ByteAt(data, 13))
    ensures r.value.filterStatus == Get(t.filterStatus, ByteAt(data, 15))
    ensures r.value.lastOperatingMode == Get(t.operatingMode, ByteAt(data, 18))
    ensures r.value.lightSensitivity == Get(t.lightSensitivity, ByteAt(data, 19))
  {
    var sn := HexSlice(data, 2, 8);
    var om := UInt8Slice(data, 8, 9);
    var fs := UInt8Slice(data, 9, 10);
    var fanSpeed := Get(t.fanSpeed, fs.value);
    var fsWarn := if fanSpeed.None? then [InvalidFanSpeed(fs.value, sn.value)] else [];
    var hl := UInt8Slice(data, 10, 11);
    var temperature := UInt8Slice(data, 11, 12);
    var humidity := UInt8Slice(data, 12, 13);
    var aq := UInt8Slice(data, 13, 14);
    var humidityAlarm := BoolSlice(data, 14, 15);
    var fst := UInt8Slice(data, 15, 16);
    var nightAlarm := BoolSlice(data, 16, 17);
    var dr := UInt8Slice(data, 17, 18);
    var deviceRole := Get(t.deviceRole, dr.value);
    var drWarn := if deviceRole.None? then [UnknownDeviceRole(dr.value, Some(sn.value))] else [];
    var lom := UInt8Slice(data, 18, 19);
    var ls := UInt8Slice(data, 19, 20);
    var signal := UInt8Slice(data, 20, 21);
    Decoded(
      Device(
        sn.value,
        Get(t.operatingMode, om.value),
        OrElse(fanSpeed, FanSpeedFallback),
        Get(t.humidityLevel, hl.value),
        temperature.value,
        humidity.value,
        Get(t.airQuality, aq.value),
        humidityAlarm.value,
        Get(t.filterStatus, fst.value),
        nightAlarm.value,
        OrElse(deviceRole, DeviceRoleFallback),
        Get(t.operatingMode, lom.value),
        Get(t.lightSensitivity, ls.value),
        remoteAddress,
        signal.value),
      sn.shortReads + om.shortReads + fs.shortReads + hl.shortReads + temperature.shortReads
      + humidity.shortReads + aq.shortReads + humidityAlarm.shortReads + fst.shortReads
      + nightAlarm.shortReads + dr.shortReads + lom.shortReads + ls.shortReads + signal.shortReads,
      fsWarn + drWarn)
  }

  /** `deviceInformationFromSocketBuffer`. */
  function DeviceInformationFromSocketBuffer(data: Buffer): (r: Decoded<DeviceInfo>)
    ensures r.value.serialNumber == SerialOf(data).value
    ensures (|data| >= 18) == (r.shortReads == [])
    ensures r.fallbacks == []
  {
    var sn := HexSlice(data, 2, 8);
    var r0 := UInt8Slice(data, 8, 9);
    var r1 := UInt8Slice(data, 9, 10);
    var r2 := UInt8Slice(data, 10, 11);
    var m0 := UInt8Slice(data, 11, 12);
    var m1 := UInt8Slice(data, 12, 13);
    var m2 := UInt8Slice(data, 13, 14);
    var a0 := UInt8Slice(data, 14, 15);
    var a1 := UInt8Slice(data, 15, 16);
    var a2 := UInt8Slice(data, 16, 17);
    var a3 := UInt8Slice(data, 17, 18);
    Decoded(
      DeviceInfo(
        sn.value,
        Dotted([r0.value, r1.value, r2.value]),
        Dotted([m0.value, m1.value, m2.value]),
        Dotted([a0.value, a1.value, a2.value, a3.value])),
      sn.shortReads + r0.shortReads + r1.shortReads + r2.shortReads
      + m0.shortReads + m1.shortReads + m2.shortReads
      + a0.shortReads + a1.shortReads + a2.shortReads + a3.shortReads,
      [])
  }

  /** `deviceSetupFromSocketBuffer`. */
  function DeviceSetupFromSocketBuffer(t: EnumTables, data: Buffer): (r: Decoded<DeviceSetup>)
    ensures r.value.serialNumber == SerialOf(data).value
    ensures r.value.zoneIndex == ByteAt(data, 10)
    ensures r.value.houseId < 0x1_0000_0000
    ensures (|data| >= 15) == (r.shortReads == [])
  {
    var sn := HexSlice(data, 2, 8);
    var dr := UInt8Slice(data, 9, 10);
    var deviceRole := Get(t.deviceRole, dr.value);
    var drWarn := if deviceRole.None? then [UnknownDeviceRole(dr.value, None)] else [];
    var zone := UInt8Slice(data, 10, 11);
    var house := UInt32LESlice(data, 11, 15);
    Decoded(
      DeviceSetup(sn.value, OrElse(deviceRole, DeviceRoleFallback), zone.value, house.value),
      sn.shortReads + dr.shortReads + zone.shortReads + house.shortReads,
      drWarn)
  }

  /** `deviceFilterResetFromSocketBuffer`. */
  function DeviceFilterResetFromSocketBuffer(data: Buffer): (r: Decoded<DeviceFilterReset>)
    ensures r.value.serialNumber == SerialOf(data).value
    ensures r.value.filterReset == ByteAt(data, 8)
    ensures (|data| >= 9) == (r.shortReads == [])
    ensures r.fallbacks == []
  {
    var sn := HexSlice(data, 2, 8);
    var reset := UInt8Slice(data, 8, 9);
    Decoded(DeviceFilterReset(sn.value, reset.value), sn.shortReads + reset.shortReads, [])
  }

  /** `deviceDeviceCommandFromSocketBuffer`: no fallback for any of its codes. */
  function DeviceCommandFromSocketBuffer(t: EnumTables, data: Buffer): (r: Decoded<DeviceCommand>)
    ensures r.value.serialNumber == SerialOf(data).value
    ensures (|data| >= 13) == (r.shortReads == [])
    ensures r.fallbacks == []
    ensures r.value.operatingMode == Get(t.operatingMode, ByteAt(data, 9))
    ensures r.value.fanSpeed == Get(t.fanSpeed, ByteAt(data, 10))
    ensures r.value.humidityLevel == Get(t.humidityLevel, ByteAt(data, 11))
    ensures r.value.lightSensorLevel == Get(t.lightSensitivity, ByteAt(data, 12))
  {
    var sn := HexSlice(data, 2, 8);
    var om := UInt8Slice(data, 9, 10);
    var fs := UInt8Slice(data, 10, 11);
    var hl := UInt8Slice(data, 11, 12);
    var ls := UInt8Slice(data, 12, 13);
    Decoded(
      DeviceCommand(
        sn.value,
        Get(t.operatingMode, om.value),
        Get(t.fanSpeed, fs.value),
        Get(t.humidityLevel, hl.value),
        Get(t.lightSensitivity, ls.value)),
      sn.shortReads + om.shortReads + fs.shortReads + hl.shortReads + ls.shortReads,
      [])
  }

  /** `deviceWeatherUpdateFromSocketBuffer`; the air-quality code is looked up one below its value. */
  function DeviceWeatherUpdateFromSocketBuffer(t: EnumTables, data: Buffer): (r: Decoded<DeviceWeatherUpdate>)
    ensures r.value.serialNumber == SerialOf(data).value
    ensures -32768 <= r.value.temperature < 32768
    ensures |data| >= 11 ==> r.value.temperature % 65536 == data[9] as int + 256 * (data[10] as int)
    ensures |data| < 11 ==> r.value.temperature == 0
    ensures r.value.humidity == ByteAt(data, 11)
    ensures r.value.airQuality == Get(t.airQuality, ByteAt(data, 12) as int - 1)
    ensures (|data| >= 13) == (r.shortReads == [])
    ensures r.fallbacks == []
  {
    var sn := HexSlice(data, 2, 8);
    var temperature := Int16Slice(data, 9, 11);
    var humidity := UInt8Slice(data, 11, 12);
    var aq := UInt8Slice(data, 12, 13);
    Decoded(
      DeviceWeatherUpdate(sn.value, temperature.value, humidity.value, Get(t.airQuality, aq.value as int - 1)),
      sn.shortReads + temperature.shortReads + humidity.shortReads + aq.shortReads,
      [])
  }

  /** Bitwise AND of two non-negative integers, one bit at a time from the lowest. */
  function BitAnd(a: nat, b: nat): nat
    decreases a
  {
    if a == 0 || b == 0 then 0
    else 2 * BitAnd(a / 2, b / 2) + (if a % 2 == 1 && b % 2 == 1 then 1 else 0)
  }

  /** Right shift of a non-negative integer by `n` bits, one bit at a time. */
  function ShiftRight(a: nat, n: nat): nat {
    if n == 0 then a else ShiftRight(a / 2, n - 1)
  }

  /** JavaScript's `b & 15` on a byte. */
  function LowNibble(b: Byte): nat {
    BitAnd(b, 15)
  }

  /** JavaScript's `b >> 4` on a byte. */
  function HighNibble(b: Byte): nat {
    ShiftRight(b, 4)
  }

  /** One step of `BitAnd` against a mask whose lowest bit is set. */
  lemma BitAndOddMask(a: nat, m: nat)
    requires m % 2 == 1
    ensures BitAnd(a, m) == 2 * BitAnd(a / 2, m / 2) + a % 2
  {
  }

  /** Division by 16 is determined by any split into a quotient and a remainder below 16. */
  lemma DivMod16(b: nat, q: nat, r: nat)
    requires b == 16 * q + r && r < 16
    ensures b / 16 == q && b % 16 == r
  {
  }

  /** The two nibbles of a byte are its remainder and its quotient by 16. */
  lemma NibbleValues(b: Byte)
    ensures LowNibble(b) == b % 16 && LowNibble(b) < 16
    ensures HighNibble(b) == b / 16 && HighNibble(b) < 16
    ensures b == 16 * HighNibble(b) + LowNibble(b)
  {
    var x1 := b / 2;
    var x2 := x1 / 2;
    var x3 := x2 / 2;
    var x4 := x3 / 2;
    BitAndOddMask(b, 15);
    BitAndOddMask(x1, 7);
    BitAndOddMask(x2, 3);
    BitAndOddMask(x3, 1);
    assert BitAnd(x4, 0) == 0;
    var low := 8 * (x3 % 2) + 4 * (x2 % 2) + 2 * (x1 % 2) + b % 2;
    assert LowNibble(b) == low;
    assert ShiftRight(x2, 2) == ShiftRight(x3, 1) == x4;
    assert HighNibble(b) == ShiftRight(x1, 3) == x4;
    DivMod16(b, x4, low);
  }

  /** `deviceStatusBroadCastFromBuffer`: bit fields of bytes 1 and 2; the serial is the caller's. */
  function DeviceStatusBroadcastFromBuffer(t: EnumTables, data: Buffer, serialNumber: Option<string>)
    : (r: Decoded<DeviceBroadcastStatus>)
    ensures r.value.serialNumber == serialNumber
    ensures 0 <= r.value.zoneIndex < 16 && r.value.zoneIndex == ByteAt(data, 1) % 16
    ensures r.value.fanMode == Get(t.fanMode, ByteAt(data, 2) / 16)
    ensures r.value.fanStatus == Get(t.fanStatus, ByteAt(data, 2) % 16)
    ensures (|data| >= 3) == (r.shortReads == [])
    ensures r.fallbacks == []
  {
    var zone := UInt8Slice(data, 1, 2);
    var mode := UInt8Slice(data, 2, 3);
    var status := UInt8Slice(data, 2, 3);
    NibbleValues(zone.value);
    NibbleValues(mode.value);
    Decoded(
      DeviceBroadcastStatus(
        serialNumber,
        LowNibble(zone.value),
        Get(t.fanMode, HighNibble(mode.value)),
        Get(t.fanStatus, LowNibble(status.value))),
      zone.shortReads + mode.shortReads + status.shortReads,
      [])
  }

  // ---------------------------------------------------------------------
  // Properties of the decoders
  // ---------------------------------------------------------------------

  /**
    The status frame's only fallback warnings: one for an unknown fan-speed
    code (naming the code and the serial), then one for an unknown role code.
    An unknown fan speed reads MEDIUM, an unknown role MASTER, and a known
    code reads its own name.
  */
  lemma StatusFallbacks(t: EnumTables, data: Buffer, remoteAddress: string)
    ensures var r := DeviceFromSocketBuffer(t, data, remoteAddress);
            var fan := ByteAt(data, 9);
            var role := ByteAt(data, 17);
            && r.fallbacks == (if fan in t.fanSpeed then [] else [InvalidFanSpeed(fan, r.value.serialNumber)])
                            + (if role in t.deviceRole then [] else [UnknownDeviceRole(role, Some(r.value.serialNumber))])
            && r.value.fanSpeed == (if fan in t.fanSpeed && t.fanSpeed[fan] != "" then t.fanSpeed[fan] else FanSpeedFallback)
            && r.value.deviceRole == (if role in t.deviceRole && t.deviceRole[role] != "" then t.deviceRole[role] else DeviceRoleFallback)
  {
  }

  /** The setup frame applies the same role fallback, with a warning that names no device. */
  lemma SetupFallbacks(t: EnumTables, data: Buffer)
    ensures var r := DeviceSetupFromSocketBuffer(t, data);
            var role := ByteAt(data, 9);
            && r.fallbacks == (if role in t.deviceRole then [] else [UnknownDeviceRole(role, None)])
            && r.value.deviceRole == (if role in t.deviceRole && t.deviceRole[role] != "" then t.deviceRole[role] else DeviceRoleFallback)
  {
  }

  /** The house id is the little-endian value of bytes 11..15, or 0 on a buffer shorter than 15. */
  lemma SetupHouseId(t: EnumTables, data: Buffer)
    ensures var h := DeviceSetupFromSocketBuffer(t, data).value.houseId;
            h == if |data| >= 15
                 then data[11] as int + 256 * (data[12] as int) + 65536 * (data[13] as int) + 16777216 * (data[14] as int)
                 else 0
    ensures |data| >= 15 ==> LittleEndianBytes(DeviceSetupFromSocketBuffer(t, data).value.houseId) == data[11..15]
  {
    if |data| >= 15 {
      LittleEndianRoundTrip(data[11..15]);
    }
  }

  /**
    The three firmware versions are the dotted decimal renderings of bytes
    8..11, 11..14 and 14..18 (a missing byte reads 0), and parse back to them.
  */
  lemma {:induction false} FirmwareVersions(data: Buffer)
    ensures var info := DeviceInformationFromSocketBuffer(data).value;
            && info.radioFwVersion == Dotted([ByteAt(data, 8), ByteAt(data, 9), ByteAt(data, 10)])
            && info.microFwVersion == Dotted([ByteAt(data, 11), ByteAt(data, 12), ByteAt(data, 13)])
            && info.radioAtCommandsFwVersion == Dotted([ByteAt(data, 14), ByteAt(data, 15), ByteAt(data, 16), ByteAt(data, 17)])
            && ParseVersion(info.radioFwVersion) == Some([ByteAt(data, 8), ByteAt(data, 9), ByteAt(data, 10)])
            && ParseVersion(info.microFwVersion) == Some([ByteAt(data, 11), ByteAt(data, 12), ByteAt(data, 13)])
            && ParseVersion(info.radioAtCommandsFwVersion)
               == Some([ByteAt(data, 14), ByteAt(data, 15), ByteAt(data, 16), ByteAt(data, 17)])
  {
    VersionRoundTrip([ByteAt(data, 8), ByteAt(data, 9), ByteAt(data, 10)]);
    VersionRoundTrip([ByteAt(data, 11), ByteAt(data, 12), ByteAt(data, 13)]);
    VersionRoundTrip([ByteAt(data, 14), ByteAt(data, 15), ByteAt(data, 16), ByteAt(data, 17)]);
  }
}
