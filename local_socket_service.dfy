/**
  The device-facing bridge (`LocalSocketService`): the registry of device
  connections (`clients`: connection key "address:port" to socket) and of
  device identities (`deviceConnections`: serial number to connection key),
  the handlers Node calls on each device socket, and `write`, which routes a
  command to a device by the serial number inside it.
*/
module LocalSocket {
  import opened Wrappers
  import opened Text
  import opened DeviceMapper
  import opened Events

  /**
    A device socket as a handler sees it: its identity and the peer address
    and port Node reports on it at that moment (either may be undefined).
  */
  datatype Socket = Socket(id: SocketId, remoteAddress: Option<string>, remotePort: Option<nat>)

  /** JavaScript truthiness of an optional string: defined and not empty. */
  predicate Truthy(s: Option<string>) {
    s.Some? && s.value != ""
  }

  /** `serverSocket.remoteAddress && serverSocket.remotePort`: both defined, the address not empty, the port not 0. */
  predicate HasPeer(s: Socket) {
    Truthy(s.remoteAddress) && s.remotePort.Some? && s.remotePort.value != 0
  }

  /** A template-literal interpolation `${x}`: an undefined value renders as "undefined". */
  function Interpolate(s: Option<string>): string {
    if s.Some? then s.value else "undefined"
  }

  function InterpolatePort(p: Option<nat>): string {
    if p.Some? then Decimal(p.value) else "undefined"
  }

  /** `${remoteAddress}:${remotePort}`. */
  function ConnectionKey(s: Socket): string {
    Interpolate(s.remoteAddress) + ":" + InterpolatePort(s.remotePort)
  }

  /** The shape of a connection key: something, a colon, then one or more decimal digits to the end. */
  ghost predicate IsConnectionKey(k: string) {
    exists i :: 0 <= i < |k| - 1 && k[i] == ':' && IsDigits(k[i + 1..])
  }

  /** A serial number as the decoders render it: twelve lowercase hex digits. */
  predicate IsSerial(s: string) {
    |s| == 12 && IsLowerHex(s)
  }

  /** The key of a socket with a peer has the connection-key shape. */
  lemma PeerKeyShape(s: Socket)
    requires HasPeer(s)
    ensures IsConnectionKey(ConnectionKey(s))
  {
    var k := ConnectionKey(s);
    var i := |s.remoteAddress.value|;
    assert k[i] == ':' && k[i + 1..] == Decimal(s.remotePort.value);
  }

  /** A plain address without a colon, such as an IPv4 address, never has the connection-key shape. */
  lemma PlainAddressIsNoKey(a: string)
    requires forall i :: 0 <= i < |a| ==> a[i] != ':'
    ensures !IsConnectionKey(a)
  {
  }

  // ---------------------------------------------------------------------
  // Purge of serial bindings
  // ---------------------------------------------------------------------

  /** The bindings left after every serial bound to `key` is removed. */
  function Unbind(bindings: map<string, string>, key: string): (r: map<string, string>)
    ensures forall s :: s in r <==> s in bindings && bindings[s] != key
    ensures forall s :: s in r ==> r[s] == bindings[s]
  {
    map s | s in bindings && bindings[s] != key :: bindings[s]
  }

  /**
    The loop of the close and error handlers: walks the bindings, deleting
    each one whose connection key is `key`. Returns the bindings kept and the
    serials removed.
  */
  method PurgeBindings(bindings: map<string, string>, key: string)
    returns (kept: map<string, string>, removed: set<string>)
    ensures kept == Unbind(bindings, key)
    ensures removed == set s | s in bindings && bindings[s] == key
    ensures kept.Keys + removed == bindings.Keys && kept.Keys !! removed
  {
    kept, removed := bindings, {};
    var todo := bindings.Keys;
    while todo != {}
      invariant todo <= bindings.Keys
      invariant kept.Keys == set s | s in bindings && (s in todo || bindings[s] != key)
      invariant forall s :: s in kept ==> kept[s] == bindings[s]
      invariant removed == set s | s in bindings && s !in todo && bindings[s] == key
      decreases todo
    {
      var s :| s in todo;
      if kept[s] == key {
        kept := kept - {s};
        removed := removed + {s};
      }
      todo := todo - {s};
    }
  }

  // ---------------------------------------------------------------------
  // Routing of outbound writes
  // ---------------------------------------------------------------------

  /** The errors `write` logs. */
  datatype RoutingError =
    | SocketNotFound(serial: string, key: string)
    | NoConnectionMapping(serial: string)
    | LocalSocketNotFound(address: string)

  /** Where one call of `write` sends its buffer, and the errors it logs on the way. */
  datatype Routing = Routing(dest: Option<SocketId>, errors: seq<RoutingError>)

  /** The serial a command carries at bytes 2..8, when it is long enough to carry one. */
  function CommandSerial(data: Buffer): (r: Option<string>)
    ensures r.Some? <==> |data| >= 8
    ensures r.Some? ==> IsSerial(r.value) && ParseHex(r.value) == Some(data[2..8])
  {
    if |data| >= 8 then
      HexRoundTrip(data[2..8]);
      Some(Hex(data[2..8]))
    else None
  }

  /** The connection a command's serial is bound to, when the binding leads to a live client. */
  function SerialRoute(clients: map<string, SocketId>, bindings: map<string, string>, data: Buffer): Option<string>
  {
    match CommandSerial(data)
    case None => None
    case Some(serial) =>
      if serial in bindings && bindings[serial] != "" && bindings[serial] in clients then Some(bindings[serial])
      else None
  }

  /** `write`: first by serial, then by the plain `remoteAddress` as a key. */
  function Route(clients: map<string, SocketId>, bindings: map<string, string>, data: Buffer, remoteAddress: string)
    : Routing
  {
    var serialErrors :=
      match CommandSerial(data)
      case None => []
      case Some(serial) =>
        if serial in bindings && bindings[serial] != "" then
          if bindings[serial] in clients then [] else [SocketNotFound(serial, bindings[serial])]
        else [NoConnectionMapping(serial)];
    match SerialRoute(clients, bindings, data)
    case Some(key) => Routing(Some(clients[key]), [])
    case None =>
      if remoteAddress in clients then Routing(Some(clients[remoteAddress]), serialErrors)
      else Routing(None, serialErrors + [LocalSocketNotFound(remoteAddress)])
  }

  /**
    A command whose serial is bound to a live connection goes to that
    connection's socket alone, whatever address accompanies it, and logs no error.
  */
  lemma RouteBySerial(clients: map<string, SocketId>, bindings: map<string, string>, data: Buffer,
                      remoteAddress: string, serialBytes: seq<Byte>)
    requires |data| >= 8 && data[2..8] == serialBytes
    requires Hex(serialBytes) in bindings && bindings[Hex(serialBytes)] in clients && bindings[Hex(serialBytes)] != ""
    ensures Route(clients, bindings, data, remoteAddress) == Routing(Some(clients[bindings[Hex(serialBytes)]]), [])
  {
  }

  /**
    Otherwise the plain address is looked up as a key; a miss drops the
    buffer and logs `LocalSocketNotFound` last.
  */
  lemma RouteFallback(clients: map<string, SocketId>, bindings: map<string, string>, data: Buffer, remoteAddress: string)
    requires SerialRoute(clients, bindings, data).None?
    ensures var r := Route(clients, bindings, data, remoteAddress);
            && (r.dest.Some? <==> remoteAddress in clients)
            && (r.dest.Some? ==> r.dest.value == clients[remoteAddress])
            && (r.dest.None? ==> |r.errors| > 0 && r.errors[|r.errors| - 1] == LocalSocketNotFound(remoteAddress))
  {
  }

  /**
    Two devices bound to distinct live sockets: a command carrying the first
    device's serial reaches the first device's socket and not the second's.
  */
  lemma RouteSeparatesDevices(clients: map<string, SocketId>, bindings: map<string, string>,
                              s1: seq<Byte>, s2: seq<Byte>, data: Buffer, remoteAddress: string)
    requires |s1| == 6 && |s2| == 6 && s1 != s2
    requires Hex(s1) in bindings && Hex(s2) in bindings
    requires bindings[Hex(s1)] in clients && bindings[Hex(s2)] in clients && bindings[Hex(s1)] != ""
    requires clients[bindings[Hex(s1)]] != clients[bindings[Hex(s2)]]
    requires |data| >= 8 && data[2..8] == s1
    ensures Route(clients, bindings, data, remoteAddress).dest == Some(clients[bindings[Hex(s1)]])
    ensures Route(clients, bindings, data, remoteAddress).dest != Some(clients[bindings[Hex(s2)]])
  {
    HexInjective(s1, s2);
  }

  /**
    The fallback can only succeed for an address that has the connection-key
    shape: with only connection keys in `clients`, a plain address without a
    colon is dropped whenever the serial does not route.
  */
  lemma FallbackNeedsConnectionKey(clients: map<string, SocketId>, bindings: map<string, string>,
                                   data: Buffer, remoteAddress: string)
    requires forall k :: k in clients ==> IsConnectionKey(k)
    requires SerialRoute(clients, bindings, data).None?
    requires Route(clients, bindings, data, remoteAddress).dest.Some?
    ensures IsConnectionKey(remoteAddress)
    ensures exists i :: 0 <= i < |remoteAddress| && remoteAddress[i] == ':'
  {
  }

  /** Every destination is a socket the registry holds. */
  lemma RouteTargetsLiveClient(clients: map<string, SocketId>, bindings: map<string, string>,
                               data: Buffer, remoteAddress: string)
    ensures var r := Route(clients, bindings, data, remoteAddress);
            r.dest.Some? ==> r.dest.value in clients.Values
  {
  }

  // ---------------------------------------------------------------------
  // The service
  // ---------------------------------------------------------------------

  class LocalSocketService {
    /** The enumeration tables the decoder uses. */
    const tables: EnumTables
    /** connection key "address:port" -> socket */
    var clients: map<string, SocketId>
    /** serial number -> connection key */
    var deviceConnections: map<string, string>
    /** What has been published on the event bus, oldest first. */
    var events: seq<Event>
    /** What has been written to device sockets, oldest first. */
    var writes: seq<Output>
    /** The routing errors logged by `write`, oldest first. */
    var errors: seq<RoutingError>

    /** Only connection keys index sockets, and only decoded serials are bound. */
    ghost predicate Valid()
      reads this
    {
      && (forall k :: k in clients ==> IsConnectionKey(k))
      && (forall s :: s in deviceConnections ==> IsSerial(s))
    }

    constructor(tables: EnumTables)
      ensures Valid()
      ensures this.tables == tables
      ensures clients == map[] && deviceConnections == map[]
      ensures events == [] && writes == [] && errors == []
    {
      this.tables := tables;
      clients, deviceConnections := map[], map[];
      events, writes, errors := [], [], [];
    }

    /** The `connection` listener: registers the socket under its key and announces its address. */
    method OnConnect(sock: Socket)
      requires Valid()
      modifies this
      ensures Valid()
      ensures HasPeer(sock) ==> clients == old(clients)[ConnectionKey(sock) := sock.id]
      ensures HasPeer(sock) ==> events == old(events) + [LocalConnected(sock.remoteAddress.value)]
      ensures !HasPeer(sock) ==> clients == old(clients) && events == old(events)
      ensures deviceConnections == old(deviceConnections)
      ensures writes == old(writes) && errors == old(errors)
    {
      if HasPeer(sock) {
        var key := ConnectionKey(sock);
        PeerKeyShape(sock);
        clients := clients[key := sock.id];
        events := events + [LocalConnected(sock.remoteAddress.value)];
      }
    }

    /**
      The `close` listener: unbinds every serial bound to the socket's key,
      announces the disconnect, and removes the key from `clients`.
    */
    method OnClose(sock: Socket)
      requires Valid()
      modifies this
      ensures Valid()
      ensures HasPeer(sock) ==> deviceConnections == Unbind(old(deviceConnections), ConnectionKey(sock))
      ensures HasPeer(sock) ==> clients == old(clients) - {ConnectionKey(sock)}
      ensures HasPeer(sock) ==> events == old(events) + [LocalDisconnected(sock.remoteAddress.value)]
      ensures !HasPeer(sock) ==>
        clients == old(clients) && deviceConnections == old(deviceConnections) && events == old(events)
      ensures writes == old(writes) && errors == old(errors)
    {
      if HasPeer(sock) {
        var key := ConnectionKey(sock);
        var kept, _ := PurgeBindings(deviceConnections, key);
        deviceConnections := kept;
        events := events + [LocalDisconnected(sock.remoteAddress.value)];
        clients := clients - {key};
      }
    }

    /**
      The `error` listener: the same purge of bindings and of the client
      entry, but no notification (the forced `destroy()` is not modelled).
    */
    method OnError(sock: Socket)
      requires Valid()
      modifies this
      ensures Valid()
      ensures HasPeer(sock) ==> deviceConnections == Unbind(old(deviceConnections), ConnectionKey(sock))
      ensures HasPeer(sock) ==> clients == old(clients) - {ConnectionKey(sock)}
      ensures !HasPeer(sock) ==> clients == old(clients) && deviceConnections == old(deviceConnections)
      ensures events == old(events) && writes == old(writes) && errors == old(errors)
    {
      if HasPeer(sock) {
        var key := ConnectionKey(sock);
        var kept, _ := PurgeBindings(deviceConnections, key);
        deviceConnections := kept;
        clients := clients - {key};
      }
    }

    /**
      The `data` listener: every chunk from a socket with an address is
      republished unchanged; an 18-byte information frame or a 21-byte status
      frame also binds its serial to the socket's key, and a status frame is
      published decoded.
    */
    method OnData(sock: Socket, data: Buffer)
      requires Valid()
      modifies this
      ensures Valid()
      ensures deviceConnections ==
        if |data| == 18 || |data| == 21 then old(deviceConnections)[Hex(data[2..8]) := ConnectionKey(sock)]
        else old(deviceConnections)
      ensures events == old(events)
        + (if Truthy(sock.remoteAddress) then [LocalRawReceived(data, sock.remoteAddress.value)] else [])
        + (if |data| == 21
           then [DeviceStatusUpdated(DeviceFromSocketBuffer(tables, data, sock.remoteAddress.GetOr("")).value)]
           else [])
      ensures clients == old(clients) && writes == old(writes) && errors == old(errors)
    {
      if Truthy(sock.remoteAddress) {
        events := events + [LocalRawReceived(data, sock.remoteAddress.value)];
      }
      if |data| == 18 {
        var key := ConnectionKey(sock);
        var info := DeviceInformationFromSocketBuffer(data);
        deviceConnections := deviceConnections[info.value.serialNumber := key];
      }
      if |data| == 21 {
        var remoteAddress := if Truthy(sock.remoteAddress) then sock.remoteAddress.value else "";
        var key := ConnectionKey(sock);
        var device := DeviceFromSocketBuffer(tables, data, remoteAddress);
        deviceConnections := deviceConnections[device.value.serialNumber := key];
        events := events + [DeviceStatusUpdated(device.value)];
      }
    }

    /**
      `write`: sends `data` to the socket bound to its serial and stops there;
      otherwise looks `remoteAddress` up as a key. At most one socket receives
      the buffer, and a miss drops it with an error.
    */
    method Write(data: Buffer, remoteAddress: string)
      requires Valid()
      modifies this
      ensures Valid()
      ensures writes == old(writes) + WriteTo(Route(old(clients), old(deviceConnections), data, remoteAddress).dest, data)
      ensures errors == old(errors) + Route(old(clients), old(deviceConnections), data, remoteAddress).errors
      ensures clients == old(clients) && deviceConnections == old(deviceConnections) && events == old(events)
    {
      if |data| >= 8 {
        var serialHex := Hex(data[2..8]);
        var connectionKey := Get(deviceConnections, serialHex);
        if connectionKey.Some? && connectionKey.value != "" {
          var client := Get(clients, connectionKey.value);
          if client.Some? {
            writes := writes + [Output(client.value, data)];
            return;
          } else {
            errors := errors + [SocketNotFound(serialHex, connectionKey.value)];
          }
        } else {
          errors := errors + [NoConnectionMapping(serialHex)];
        }
      }
      var client := Get(clients, remoteAddress);
      if client.Some? {
        writes := writes + [Output(client.value, data)];
      } else {
        errors := errors + [LocalSocketNotFound(remoteAddress)];
      }
    }
  }
}
