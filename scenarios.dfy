/**
  Clients of the two services that use nothing but their contracts: each
  method walks one sequence of socket callbacks and asserts what a caller
  then knows about the registries, the published events and the writes.
*/
module Scenarios {
  import opened Wrappers
  import opened Text
  import opened DeviceMapper
  import opened Events
  import opened LocalSocket
  import opened RemoteSocket

  /** A frame of `length` bytes carrying `serial` at bytes 2..8 and zeros elsewhere. */
  function Frame(serial: seq<Byte>, length: nat): (f: Buffer)
    requires |serial| == 6 && length >= 8
    ensures |f| == length && f[2..8] == serial
  {
    [0, 0] + serial + seq(length - 8, _ => 0)
  }

  /** An information frame binds its serial to the connection; closing the connection unbinds it. */
  method InfoFrameBindsUntilClose(t: EnumTables, serial: seq<Byte>)
    requires |serial| == 6
  {
    var service := new LocalSocketService(t);
    var device := Socket(7, Some("192.168.1.20"), Some(50123));
    service.OnConnect(device);
    var key := ConnectionKey(device);
    assert service.clients == map[key := 7];

    service.OnData(device, Frame(serial, 18));
    assert service.deviceConnections == map[Hex(serial) := key];
    assert service.events == [LocalConnected("192.168.1.20"), LocalRawReceived(Frame(serial, 18), "192.168.1.20")];

    service.OnClose(device);
    assert Hex(serial) !in service.deviceConnections;
    assert service.clients == map[];
    assert service.events[2] == LocalDisconnected("192.168.1.20");
  }

  /** Two devices on two connections: a command reaches exactly the socket of the serial it carries. */
  method CommandReachesItsDeviceOnly(t: EnumTables, d1: Socket, d2: Socket, s1: seq<Byte>, s2: seq<Byte>)
    requires HasPeer(d1) && HasPeer(d2) && ConnectionKey(d1) != ConnectionKey(d2) && d1.id != d2.id
    requires |s1| == 6 && |s2| == 6 && s1 != s2
  {
    var service := new LocalSocketService(t);
    service.OnConnect(d1);
    service.OnConnect(d2);
    service.OnData(d1, Frame(s1, 18));
    service.OnData(d2, Frame(s2, 18));
    HexInjective(s1, s2);
    var k1, k2 := ConnectionKey(d1), ConnectionKey(d2);
    assert service.clients == map[k1 := d1.id, k2 := d2.id];
    assert service.deviceConnections == map[Hex(s1) := k1, Hex(s2) := k2];

    var command := Frame(s1, 13);
    RouteBySerial(service.clients, service.deviceConnections, command, d2.remoteAddress.value, s1);
    service.Write(command, d2.remoteAddress.value);
    assert service.writes == [Output(d1.id, command)];
    assert service.errors == [];
  }

  /** A command whose serial is bound nowhere, with a plain address, reaches no socket and logs errors. */
  method UnboundCommandIsDropped(t: EnumTables, bound: seq<Byte>, other: seq<Byte>)
    requires |bound| == 6 && |other| == 6 && bound != other
  {
    var service := new LocalSocketService(t);
    var device := Socket(1, Some("192.168.1.20"), Some(50001));
    service.OnConnect(device);
    service.OnData(device, Frame(bound, 18));
    HexInjective(bound, other);

    var command := Frame(other, 13);
    service.Write(command, "192.168.1.20");
    assert ConnectionKey(device) != "192.168.1.20" by {
      assert |ConnectionKey(device)| > |"192.168.1.20"|;
    }
    assert service.writes == [];
    assert service.errors == [NoConnectionMapping(Hex(other)), LocalSocketNotFound("192.168.1.20")];
  }

  /** Any chunk, of any length, is republished unchanged; only an 18- or 21-byte chunk binds. */
  method RawRelayIsLengthAgnostic(t: EnumTables, chunk: Buffer)
    requires |chunk| != 18 && |chunk| != 21
  {
    var service := new LocalSocketService(t);
    var device := Socket(1, Some("192.168.1.20"), Some(50001));
    service.OnData(device, chunk);
    assert service.events == [LocalRawReceived(chunk, "192.168.1.20")];
    assert service.deviceConnections == map[];
  }

  /**
    A device reconnects through the same address before its first relay
    socket closed: the late close of the old socket deletes the new entry.
  */
  method LateRelayCloseDropsNewerSocket(t: EnumTables)
  {
    var service := new RemoteSocketService(t, "true");
    service.OnLocalConnected("192.168.1.20");
    var first := 0;
    service.OnLocalConnected("192.168.1.20");
    assert service.clients == map["192.168.1.20" := 1];

    service.OnRelayClose(first);
    assert service.clients == map[];
    service.Write([1, 2, 3], "192.168.1.20");
    assert service.writes == [];
    assert service.events == [RemoteDisconnected("192.168.1.20"), RemoteDisconnected("192.168.1.20")];
  }

  /** Without cloud sync the relay table stays empty and nothing is forwarded. */
  method CloudSyncDisabled(t: EnumTables, chunk: Buffer)
  {
    var service := new RemoteSocketService(t, "false");
    service.OnLocalConnected("192.168.1.20");
    service.OnLocalRawReceived(chunk, "192.168.1.20");
    assert service.clients == map[];
    assert service.writes == [] && service.events == [];
  }

  /** A 15-byte setup frame from the relay is republished raw, then published decoded. */
  method SetupFrameIsPublished(t: EnumTables, serial: seq<Byte>)
    requires |serial| == 6
  {
    var service := new RemoteSocketService(t, "true");
    service.OnLocalConnected("192.168.1.20");
    var frame := Frame(serial, 15);
    service.OnRelayData(0, frame);
    var setup := DeviceSetupFromSocketBuffer(t, frame).value;
    assert service.events == [RemoteRawReceived(frame, "192.168.1.20"), DeviceSetupUpdated(setup)];
    assert setup.serialNumber == Hex(serial) && setup.houseId == 0;
  }

  /** Local data for an address with no relay socket announces the relay as disconnected and writes nothing. */
  method RawDataWithoutRelay(t: EnumTables, chunk: Buffer)
  {
    var service := new RemoteSocketService(t, "true");
    service.OnLocalRawReceived(chunk, "192.168.1.20");
    assert service.events == [RemoteDisconnected("192.168.1.20")];
    assert service.log == [CloudSocketNotFound("192.168.1.20")];
    assert service.writes == [];
  }
}
