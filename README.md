# Ambientika local control: frame decoder and socket bridges in Dafny

This project models the core of a gateway between ventilation devices and an
upstream relay ("cloud"). The devices speak a small binary protocol of
fixed-length frames over TCP. The gateway has three parts:

- **The frame decoder** (`DeviceMapper`). It reads one chunk into one typed
  record by fixed offsets. The serial number is the lowercase hex of bytes
  2..8. Codes are looked up in enumeration tables. Every field read is
  bounds-checked and yields a zero value and a warning on a short buffer.
  Only fan speed (to MEDIUM) and device role (to MASTER) fall back to a
  named default.
- **The local bridge** (`LocalSocketService`). It keeps two registries:
  `clients` maps a connection key `"address:port"` to its device socket,
  and `deviceConnections` maps a serial number to a connection key. The
  socket callbacks update both. `write` routes a command by the serial it
  carries, and otherwise falls back to the plain address as a key.
- **The relay bridge** (`RemoteSocketService`). It keeps one relay socket
  per local device address. It opens them when a device connects, but only
  when cloud sync is enabled. On close or error it deletes them by address.
  Relay chunks are republished raw and then decoded by length. `write`
  forwards bytes to the relay socket of an address.

Sockets are opaque identities. The event bus and the socket outputs are
append-only logs (`events`, `writes`), and so are the error and warning logs
that the properties talk about (`errors`, `log`, and the decoder's
`shortReads` and `fallbacks`).

Files:

- `wrappers.dfy`: `Option` and a map lookup.
- `text.dfy`: hex, decimal and dotted-version renderings, each with its parser and a round-trip lemma.
- `device_mapper.dfy`: the field readers, the records and the seven decoders, with lemmas.
- `events.dfy`: the bus notifications and the output log.
- `local_socket_service.dfy`: the routing registry, the purge loop, the routing function and its lemmas, and the service class.
- `remote_socket_service.dfy`: the relay dispatch and the relay service class.
- `scenarios.dfy`: client methods that use only the contracts. They show a binding lasting until close, a command reaching only its own device, an unbound command being dropped, length-agnostic raw relay, a late relay close dropping a newer entry, cloud sync disabled, and a setup frame being published.

Three behaviours of the code that the model keeps:

- The local error handler itself publishes no disconnect notification (local-socket.service.ts:62-84). The notification that follows comes from Node's `close` event, which is not modelled (see Left out).
- The data handler builds its connection key without checking that the address and port exist. A socket without them binds serials to `"undefined:undefined"`.
- The status decoder decodes `temperature` as the raw byte.

## Model

| member | source | states |
|---|---|---|
| `Text.Hex` | ambientika-local-control/src/services/device.mapper.ts:139 | the hex rendering has two lowercase hex digits per byte |
| `Text.HexRoundTrip` | ambientika-local-control/src/services/device.mapper.ts:136-144 | parsing the hex rendering gives back exactly the bytes it came from |
| `Text.HexInjective` | ambientika-local-control/src/services/local-socket.service.ts:130-131 | two byte strings with the same hex rendering are equal, so a serial string identifies one device's serial bytes |
| `Text.Decimal` | ambientika-local-control/src/services/device.mapper.ts:74 | `toString()` of a number gives a non-empty string of decimal digits with no leading zero; the only rendering that starts with `0` is `"0"`, for 0 |
| `Text.DecimalRoundTrip` | ambientika-local-control/src/services/device.mapper.ts:74-83 | parsing the decimal rendering of n gives back n |
| `Text.SplitDigitsPrefix` | ambientika-local-control/src/services/device.mapper.ts:75 | a digit string followed by a dot splits off whole when the string is split at dots |
| `Text.SplitDotted` | ambientika-local-control/src/services/device.mapper.ts:74-83 | splitting a dotted version at its dots gives back the decimal renderings of its parts |
| `Text.VersionRoundTrip` | ambientika-local-control/src/services/device.mapper.ts:74-83 | parsing a dotted version string gives back the numbers it was built from |
| `DeviceMapper.HexSlice` | ambientika-local-control/src/services/device.mapper.ts:136-144 | when the buffer reaches `end`, the result is the lowercase hex of `buf[start..end]`, 2 characters per byte, and parses back to those bytes; otherwise it is "" with one short-read warning |
| `DeviceMapper.UInt8Slice` | ambientika-local-control/src/services/device.mapper.ts:146-154 | the result is `buf[start]` with no warning when the length is at least `end`, and otherwise 0 with one short-read warning |
| `DeviceMapper.UInt32LESlice` | ambientika-local-control/src/services/device.mapper.ts:156-164 | the result is below 2^32 and its little-endian bytes are the slice's first four; on a short buffer it is 0 with a warning |
| `DeviceMapper.Int16Slice` | ambientika-local-control/src/services/device.mapper.ts:176-185 | the result is a signed 16-bit value whose two's-complement bits are the two slice bytes, low byte first; on a short buffer it is 0 with a warning |
| `DeviceMapper.BoolSlice` | ambientika-local-control/src/services/device.mapper.ts:187-195 | the result is true exactly when the buffer reaches `end` and `buf[start]` is 1; a short buffer gives false with a warning |
| `DeviceMapper.Int8` | ambientika-local-control/src/services/device.mapper.ts:190 | `readInt8` gives a value in -128..127 that agrees with the byte modulo 256 |
| `DeviceMapper.Int16` | ambientika-local-control/src/services/device.mapper.ts:179 | `readInt16LE` gives a value in -32768..32767 that agrees with lo + 256·hi modulo 65536, and is negative exactly when the high byte's top bit is set |
| `DeviceMapper.UInt32` | ambientika-local-control/src/services/device.mapper.ts:159 | `readUInt32LE` gives a value below 2^32 |
| `DeviceMapper.LittleEndianRoundTrip` | ambientika-local-control/src/services/device.mapper.ts:156-164 | the little-endian bytes of the value read from four bytes are those four bytes |
| `DeviceMapper.LittleEndianValue` | ambientika-local-control/src/services/device.mapper.ts:156-164 | reading back the little-endian bytes of a 32-bit value gives the value |
| `DeviceMapper.OrElse` | ambientika-local-control/src/services/device.mapper.ts:35 | `name \|\| fallback` keeps a defined non-empty name and replaces an undefined one |
| `DeviceMapper.SerialOf` | ambientika-local-control/src/services/device.mapper.ts:28 | the serial is the 12-character lowercase hex of bytes 2..8 when the buffer has at least 8 bytes, and otherwise "" with a short-read warning |
| `DeviceMapper.DeviceFromSocketBuffer` | ambientika-local-control/src/services/device.mapper.ts:26-69 | the status record carries the serial, the caller's address, and the raw temperature, humidity and signal bytes; its two alarms are true exactly when bytes 14 and 16 are 1; operating mode, humidity level, air quality, filter status, last operating mode and light sensitivity are the table lookups of bytes 8, 10, 13, 15, 18 and 19, with no fallback, so an unknown code stays undefined; a frame of 21 bytes or more reads without short-read warnings |
| `DeviceMapper.StatusFallbacks` | ambientika-local-control/src/services/device.mapper.ts:30-48 | an unknown fan-speed code gives MEDIUM and a warning naming the code and the serial; an unknown role code gives MASTER and a warning; a known code gives its own name; these are the only fallback warnings, in this order |
| `DeviceMapper.DeviceInformationFromSocketBuffer` | ambientika-local-control/src/services/device.mapper.ts:71-85 | the information record carries the serial; an 18-byte frame reads without short-read warnings and never falls back |
| `DeviceMapper.FirmwareVersions` | ambientika-local-control/src/services/device.mapper.ts:74-83 | the radio, micro and AT-command versions are the dotted decimals of bytes 8..10, 11..13 and 14..17 (a missing byte reads 0), and each parses back to those bytes |
| `DeviceMapper.DeviceSetupFromSocketBuffer` | ambientika-local-control/src/services/device.mapper.ts:87-99 | the setup record carries the serial, zone index byte 10, and a house id below 2^32; a 15-byte frame reads without short-read warnings |
| `DeviceMapper.SetupFallbacks` | ambientika-local-control/src/services/device.mapper.ts:90-95 | an unknown role code in a setup frame gives MASTER and a warning that names no device; a known code gives its name and no warning |
| `DeviceMapper.SetupHouseId` | ambientika-local-control/src/services/device.mapper.ts:97 | house id = b11 + 256·b12 + 65536·b13 + 16777216·b14 on a buffer of at least 15 bytes, and 0 otherwise |
| `DeviceMapper.DeviceFilterResetFromSocketBuffer` | ambientika-local-control/src/services/device.mapper.ts:101-106 | the filter-reset code is byte 8, or 0 with warnings on a buffer shorter than 9 |
| `DeviceMapper.DeviceCommandFromSocketBuffer` | ambientika-local-control/src/services/device.mapper.ts:108-116 | the four codes at bytes 9..12 are looked up with no fallback, so an unknown code stays undefined |
| `DeviceMapper.DeviceWeatherUpdateFromSocketBuffer` | ambientika-local-control/src/services/device.mapper.ts:118-125 | the temperature is the signed little-endian value of bytes 9..10 in hundredths; the air-quality code is looked up at byte 12 minus 1 |
| `DeviceMapper.BitAndOddMask` | ambientika-local-control/src/services/device.mapper.ts:129 | one bit of `a & m`, for a mask whose lowest bit is set: the lowest bit of `a` is kept and the rest is the AND of the shifted operands |
| `DeviceMapper.NibbleValues` | ambientika-local-control/src/services/device.mapper.ts:129-130 | `b & 15` is b mod 16 and `b >> 4` is b div 16; both are below 16, and together they rebuild the byte |
| `DeviceMapper.DeviceStatusBroadcastFromBuffer` | ambientika-local-control/src/services/device.mapper.ts:127-134 | zone index = byte 1 & 15, in 0..15; fan mode is looked up at byte 2 >> 4 and fan status at byte 2 & 15; the serial is the caller's |
| `LocalSocket.PeerKeyShape` | ambientika-local-control/src/services/local-socket.service.ts:37-38 | the key of a socket with an address and a port is the address, a colon and the decimal port |
| `LocalSocket.PlainAddressIsNoKey` | ambientika-local-control/src/services/local-socket.service.ts:148 | an address without a colon never has the connection-key shape |
| `LocalSocket.Unbind` | ambientika-local-control/src/services/local-socket.service.ts:50-55 | after the purge, a serial stays bound exactly when it was bound to another key, and to the same key as before |
| `LocalSocket.PurgeBindings` | ambientika-local-control/src/services/local-socket.service.ts:50-55 | the loop deletes exactly the bindings whose key is the closing one and leaves all others unchanged; the removed and kept serials partition the old ones |
| `LocalSocket.CommandSerial` | ambientika-local-control/src/services/local-socket.service.ts:129-130 | a command of at least 8 bytes carries a 12-digit serial that parses back to its bytes 2..8; a shorter one carries none |
| `LocalSocket.RouteBySerial` | ambientika-local-control/src/services/local-socket.service.ts:129-138 | a command whose serial is bound to a live connection goes to that connection's socket only, whatever address comes with it, and logs nothing |
| `LocalSocket.RouteFallback` | ambientika-local-control/src/services/local-socket.service.ts:147-154 | otherwise the command goes to `clients[remoteAddress]` when that key exists; on a miss it is dropped, and the last error logged is "local socket not found" |
| `LocalSocket.RouteSeparatesDevices` | ambientika-local-control/src/services/local-socket.service.ts:129-138 | with two devices bound to distinct live sockets, a command carrying the first serial reaches the first socket and not the second |
| `LocalSocket.FallbackNeedsConnectionKey` | ambientika-local-control/src/services/local-socket.service.ts:147-149 | when only connection keys index `clients`, the fallback can hit only for an address of the `address:port` shape, which contains a colon |
| `LocalSocket.RouteTargetsLiveClient` | ambientika-local-control/src/services/local-socket.service.ts:127-155 | every destination of `write` is a socket held in `clients` |
| `LocalSocket.LocalSocketService.constructor` | ambientika-local-control/src/services/local-socket.service.ts:13-14 | both registries start empty |
| `LocalSocket.LocalSocketService.OnConnect` | ambientika-local-control/src/services/local-socket.service.ts:37-42 | when the address and port are present, `clients["address:port"]` becomes the socket and a local-connected event carries the address alone; nothing else changes |
| `LocalSocket.LocalSocketService.OnClose` | ambientika-local-control/src/services/local-socket.service.ts:44-60 | every serial bound to the closing key is unbound, other bindings are unchanged, the disconnect is published, and the key leaves `clients` |
| `LocalSocket.LocalSocketService.OnError` | ambientika-local-control/src/services/local-socket.service.ts:62-84 | the same purge of bindings and of the `clients` entry, with no event |
| `LocalSocket.LocalSocketService.OnData` | ambientika-local-control/src/services/local-socket.service.ts:86-112 | each chunk from a socket with an address publishes one raw event with the bytes unchanged; only 18- and 21-byte chunks bind serial to key, overwriting; a 21-byte chunk also publishes its decoded status |
| `LocalSocket.LocalSocketService.Write` | ambientika-local-control/src/services/local-socket.service.ts:127-155 | the output log grows by the routed write and by nothing else, so at most one socket receives the buffer; the routing errors are logged; the registries are unchanged |
| `RemoteSocket.DecodeRelayFrame` | ambientika-local-control/src/services/remote-socket.service.ts:62-82 | a 9-byte chunk is a filter reset; a 13-byte chunk is a weather update with type byte 4, a command with type byte 0 or 1, and unknown otherwise; a 15-byte chunk is a setup; all other lengths are not decoded; each decoded variant holds the output of its decoder on the same chunk, and an unknown one holds its type byte |
| `RemoteSocket.RelayFramesAreWhole` | ambientika-local-control/src/services/remote-socket.service.ts:62-82 | every frame the dispatch decodes is read with no short-read warning |
| `RemoteSocket.RemoteSocketService.constructor` | ambientika-local-control/src/services/remote-socket.service.ts:16-23 | the listeners are registered only when the cloud-sync flag is exactly `'true'`; the table starts empty |
| `RemoteSocket.RemoteSocketService.InitRemoteSocketServer` | ambientika-local-control/src/services/remote-socket.service.ts:25-32 | a fresh relay socket is stored under the local address, replacing any earlier one |
| `RemoteSocket.RemoteSocketService.OnLocalConnected` | ambientika-local-control/src/services/remote-socket.service.ts:92-95 | with cloud sync enabled, a local-connected event sets `clients[localAddress]` to a new relay socket; without it nothing changes, so the table stays empty |
| `RemoteSocket.RemoteSocketService.OnLocalRawReceived` | ambientika-local-control/src/services/remote-socket.service.ts:87-90 | with cloud sync enabled, local raw data goes through `write`: on a hit, remote-connected is published and the relay socket receives the bytes; on a miss, remote-disconnected is published, a warning is logged, and nothing is written; without cloud sync nothing changes |
| `RemoteSocket.RemoteSocketService.OnRelayConnect` | ambientika-local-control/src/services/remote-socket.service.ts:39-42 | a relay connect publishes remote-connected for the socket's local address |
| `RemoteSocket.RemoteSocketService.OnRelayClose` | ambientika-local-control/src/services/remote-socket.service.ts:43-47 | a close publishes remote-disconnected and deletes `clients[localAddress]` by key, even when it now holds a newer socket |
| `RemoteSocket.RemoteSocketService.OnRelayError` | ambientika-local-control/src/services/remote-socket.service.ts:48-57 | an error does the same as a close |
| `RemoteSocket.RemoteSocketService.OnRelayData` | ambientika-local-control/src/services/remote-socket.service.ts:59-83 | every relay chunk first publishes one raw event tagged with the local address; the decoded frame is logged; only a 15-byte chunk also publishes a device-setup event |
| `RemoteSocket.RemoteSocketService.Write` | ambientika-local-control/src/services/remote-socket.service.ts:98-107 | on a hit, remote-connected is published and the relay socket receives the bytes once; on a miss, remote-disconnected is published, a warning is logged, and nothing is written |

## Left out

- Node's `net` I/O is not modelled: `listen`, `connect`, the sockets themselves and `destroy()`. Sockets are identities, and writes are appended to an output log. Each device-socket callback receives the address and port the socket reports at that moment.
- The forced `destroy()` on both error paths is not modelled, and neither is the `close` callback that Node raises after it.
- The event bus is not modelled: events are appended to `events`. So the two `LocalSocketService` listeners (local-socket.service.ts:115-125) are not modelled as members. They only call `write`, which is modelled as `Write`.
- Logging is modelled only where a property talks about it: the decoder's warnings, the routing errors of the local `write`, and the relay service's frame and "not found" log lines. Debug, info and silly lines are left out, with one exception: the relay data handler's debug lines for decoded frames (remote-socket.service.ts:64,70,73,75,80) are kept as `FrameLogged`. The services also drop the decoder's warnings.
- `DeviceMapper.Int16Slice`: returns the raw `readInt16LE` value in hundredths. The floating-point scaling and rounding `Math.round((int16 * 0.01 + EPSILON) * 100) / 100` is not modelled, because the model has no IEEE floating point.
- `DeviceMapper.DeviceWeatherUpdateFromSocketBuffer`: its temperature is that raw value in hundredths, for the same reason.
- The concrete enumeration tables' files are not part of this model. Each table is an abstract map from code to member name (`EnumTables`). The names MEDIUM and MASTER are the fallback constants.
- A `Decoded` record keeps short-read warnings and fallback warnings in two lists. Each list is in reading order, but the order between the two lists is not kept.
- `deviceFromDto` (a field copy), `getUInt32BEFromBufferSlice` (never called) and the mapper's scratch field `this.buffer` are left out. Each decoder takes its buffer as a parameter.
- Configuration is not modelled: ports, the relay host and `dotenv`. The cloud-sync flag is the constructor's string parameter.
- TCP chunks are not reassembled into frames. As in the code, one chunk is treated as one frame.
- The relay socket's `connecting` listener only writes a debug line and is not modelled.
