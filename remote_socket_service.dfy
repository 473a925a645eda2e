/**
  The relay-facing bridge (`RemoteSocketService`): one relay socket per
  local device address, opened when a device connects (only with cloud sync
  enabled), removed by key when it closes or fails; relay chunks are
  republished raw and decoded for the log by length; `write` forwards a
  device's bytes to the relay socket of its address.
*/
module RemoteSocket {
  import opened Wrappers
  import opened Text
  import opened DeviceMapper
  import opened Events

  /** What a relay chunk is decoded as, chosen by its length and, at 13 bytes, by its type byte. */
  datatype RelayFrame =
    | FilterReset(reset: DeviceFilterReset)
    | WeatherUpdate(update: DeviceWeatherUpdate)
    | Command(command: DeviceCommand)
    | UnknownCommandType(commandType: Byte)
    | Setup(setup: DeviceSetup)
    | NotDecoded

  /** The dispatch of the relay socket's `data` listener. */
  function DecodeRelayFrame(t: EnumTables, data: Buffer): (f: RelayFrame)
    ensures f.FilterReset? <==> |data| == 9
    ensures f.WeatherUpdate? <==> |data| == 13 && data[8] == 4
    ensures f.Command? <==> |data| == 13 && (data[8] == 0 || data[8] == 1)
    ensures f.UnknownCommandType? <==> |data| == 13 && data[8] != 0 && data[8] != 1 && data[8] != 4
    ensures f.Setup? <==> |data| == 15
    ensures f.NotDecoded? <==> |data| != 9 && |data| != 13 && |data| != 15
    ensures f.FilterReset? ==> f.reset == DeviceFilterResetFromSocketBuffer(data).value
    ensures f.WeatherUpdate? ==> f.update == DeviceWeatherUpdateFromSocketBuffer(t, data).value
    ensures f.Command? ==> f.command == DeviceCommandFromSocketBuffer(t, data).value
    ensures f.UnknownCommandType? ==> f.commandType == data[8]
    ensures f.Setup? ==> f.setup == DeviceSetupFromSocketBuffer(t, data).value
  {
    if |data| == 9 then FilterReset(DeviceFilterResetFromSocketBuffer(data).value)
    else if |data| == 13 then
      var commandType := data[8];
      if commandType == 4 then WeatherUpdate(DeviceWeatherUpdateFromSocketBuffer(t, data).value)
      else if commandType == 0 || commandType == 1 then Command(DeviceCommandFromSocketBuffer(t, data).value)
      else UnknownCommandType(commandType)
    else if |data| == 15 then Setup(DeviceSetupFromSocketBuffer(t, data).value)
    else NotDecoded
  }

  /**
    The frames the dispatch decodes are whole: none of their field reads
    runs past the end, so every field is the byte at its offset.
  */
  lemma RelayFramesAreWhole(t: EnumTables, data: Buffer)
    ensures DecodeRelayFrame(t, data).FilterReset? ==> DeviceFilterResetFromSocketBuffer(data).shortReads == []
    ensures DecodeRelayFrame(t, data).WeatherUpdate? ==> DeviceWeatherUpdateFromSocketBuffer(t, data).shortReads == []
    ensures DecodeRelayFrame(t, data).Command? ==> DeviceCommandFromSocketBuffer(t, data).shortReads == []
    ensures DecodeRelayFrame(t, data).Setup? ==> DeviceSetupFromSocketBuffer(t, data).shortReads == []
  {
  }

  /** What the service logs: the decoded relay frames, and writes that found no relay socket. */
  datatype LogEntry =
    | FrameLogged(frame: RelayFrame)
    | CloudSocketNotFound(address: string)

  class RemoteSocketService {
    const tables: EnumTables
    /** `CLOUD_SYNC_ENABLED === 'true'`: whether the event listeners were registered. */
    const cloudSyncEnabled: bool
    /** local address -> relay socket */
    var clients: map<string, SocketId>
    /** The local address each relay socket's listeners were set up for. */
    var relays: map<SocketId, string>
    /** The identity the next relay socket gets. */
    var nextSocket: SocketId
    /** What has been published on the event bus, oldest first. */
    var events: seq<Event>
    /** What has been written to relay sockets, oldest first. */
    var writes: seq<Output>
    var log: seq<LogEntry>

    /**
      Each address maps to a relay socket opened for that address; socket
      identities are never reused; without cloud sync there are no sockets.
    */
    ghost predicate Valid()
      reads this
    {
      && (forall a :: a in clients ==> clients[a] in relays && relays[clients[a]] == a)
      && (forall s :: s in relays ==> s < nextSocket)
      && (!cloudSyncEnabled ==> clients == map[] && relays == map[])
    }

    constructor(tables: EnumTables, cloudSync: string)
      ensures Valid()
      ensures this.tables == tables && cloudSyncEnabled == (cloudSync == "true")
      ensures clients == map[] && relays == map[] && nextSocket == 0
      ensures events == [] && writes == [] && log == []
    {
      this.tables := tables;
      cloudSyncEnabled := cloudSync == "true";
      clients, relays, nextSocket := map[], map[], 0;
      events, writes, log := [], [], [];
    }

    /**
      `initRemoteSocketServer`: opens a new relay socket and stores it under
      `localAddress`, replacing any earlier one.
    */
    method InitRemoteSocketServer(localAddress: string) returns (sock: SocketId)
      requires Valid() && cloudSyncEnabled
      modifies this
      ensures Valid()
      ensures sock == old(nextSocket) && sock !in old(relays) && nextSocket == sock + 1
      ensures clients == old(clients)[localAddress := sock]
      ensures relays == old(relays)[sock := localAddress]
      ensures events == old(events) && writes == old(writes) && log == old(log)
    {
      sock := nextSocket;
      nextSocket := nextSocket + 1;
      clients := clients[localAddress := sock];
      relays := relays[sock := localAddress];
    }

    /** The `LOCAL_SOCKET_CONNECTED` listener; it exists only with cloud sync enabled. */
    method OnLocalConnected(localAddress: string)
      requires Valid()
      modifies this
      ensures Valid()
      ensures cloudSyncEnabled ==> clients == old(clients)[localAddress := old(nextSocket)]
      ensures cloudSyncEnabled ==> relays == old(relays)[old(nextSocket) := localAddress]
      ensures cloudSyncEnabled ==> old(nextSocket) !in old(relays) && nextSocket == old(nextSocket) + 1
      ensures !cloudSyncEnabled ==> clients == old(clients) && relays == old(relays) && nextSocket == old(nextSocket)
      ensures events == old(events) && writes == old(writes) && log == old(log)
    {
      if cloudSyncEnabled {
        var _ := InitRemoteSocketServer(localAddress);
      }
    }

    /** The `LOCAL_SOCKET_DATA_UPDATE_RECEIVED` listener: forwards to `write` when cloud sync is enabled. */
    method OnLocalRawReceived(data: Buffer, localAddress: string)
      requires Valid()
      modifies this
      ensures Valid()
      ensures cloudSyncEnabled ==> writes == old(writes) + WriteTo(Get(old(clients), localAddress), data)
      ensures cloudSyncEnabled ==>
        events == old(events) + [if localAddress in old(clients) then RemoteConnected(localAddress) else RemoteDisconnected(localAddress)]
      ensures cloudSyncEnabled ==>
        log == old(log) + (if localAddress in old(clients) then [] else [CloudSocketNotFound(localAddress)])
      ensures !cloudSyncEnabled ==> writes == old(writes) && events == old(events) && log == old(log)
      ensures clients == old(clients) && relays == old(relays) && nextSocket == old(nextSocket)
    {
      if cloudSyncEnabled {
        Write(data, localAddress);
      }
    }

    /** A relay socket's `connect` listener. */
    method OnRelayConnect(sock: SocketId)
      requires Valid() && sock in relays
      modifies this
      ensures Valid()
      ensures events == old(events) + [RemoteConnected(old(relays)[sock])]
      ensures clients == old(clients) && relays == old(relays) && writes == old(writes) && log == old(log)
      ensures nextSocket == old(nextSocket)
    {
      events := events + [RemoteConnected(relays[sock])];
    }

    /**
      A relay socket's `close` listener: announces the disconnect and deletes
      the entry of its address, even when that entry is a newer socket.
    */
    method OnRelayClose(sock: SocketId)
      requires Valid() && sock in relays
      modifies this
      ensures Valid()
      ensures events == old(events) + [RemoteDisconnected(old(relays)[sock])]
      ensures clients == old(clients) - {old(relays)[sock]}
      ensures relays == old(relays) && nextSocket == old(nextSocket) && writes == old(writes) && log == old(log)
    {
      var localAddress := relays[sock];
      events := events + [RemoteDisconnected(localAddress)];
      clients := clients - {localAddress};
    }

    /** A relay socket's `error` listener: the same as `close` (the forced `destroy()` is not modelled). */
    method OnRelayError(sock: SocketId)
      requires Valid() && sock in relays
      modifies this
      ensures Valid()
      ensures events == old(events) + [RemoteDisconnected(old(relays)[sock])]
      ensures clients == old(clients) - {old(relays)[sock]}
      ensures relays == old(relays) && nextSocket == old(nextSocket) && writes == old(writes) && log == old(log)
    {
      var localAddress := relays[sock];
      events := events + [RemoteDisconnected(localAddress)];
      clients := clients - {localAddress};
    }

    /**
      A relay socket's `data` listener: republishes the chunk unchanged,
      tagged with the socket's local address, before any decoding; logs the
      decoded frame; and publishes a 15-byte setup frame decoded as well.
    */
    method OnRelayData(sock: SocketId, data: Buffer)
      requires Valid() && sock in relays
      modifies this
      ensures Valid()
      ensures events == old(events) + [RemoteRawReceived(data, old(relays)[sock])]
        + (if |data| == 15 then [DeviceSetupUpdated(DeviceSetupFromSocketBuffer(tables, data).value)] else [])
      ensures log == old(log)
        + (if DecodeRelayFrame(tables, data).NotDecoded? then [] else [FrameLogged(DecodeRelayFrame(tables, data))])
      ensures clients == old(clients) && relays == old(relays) && nextSocket == old(nextSocket) && writes == old(writes)
    {
      events := events + [RemoteRawReceived(data, relays[sock])];
      if |data| == 9 {
        var reset := DeviceFilterResetFromSocketBuffer(data);
        log := log + [FrameLogged(FilterReset(reset.value))];
      }
      if |data| == 13 {
        var commandType := data[8];
        if commandType == 4 {
          var update := DeviceWeatherUpdateFromSocketBuffer(tables, data);
          log := log + [FrameLogged(WeatherUpdate(update.value))];
        } else if commandType == 0 || commandType == 1 {
          var command := DeviceCommandFromSocketBuffer(tables, data);
          log := log + [FrameLogged(Command(command.value))];
        } else {
          log := log + [FrameLogged(UnknownCommandType(commandType))];
        }
      }
      if |data| == 15 {
        var setup := DeviceSetupFromSocketBuffer(tables, data);
        log := log + [FrameLogged(Setup(setup.value))];
        events := events + [DeviceSetupUpdated(setup.value)];
      }
    }

    /**
      `write`: on a hit, announces the relay as connected and writes to it
      once; on a miss, announces it as disconnected, logs, and drops the bytes.
    */
    method Write(data: Buffer, localAddress: string)
      requires Valid()
      modifies this
      ensures Valid()
      ensures localAddress in old(clients) ==>
        events == old(events) + [RemoteConnected(localAddress)]
        && writes == old(writes) + [Output(old(clients)[localAddress], data)]
        && log == old(log)
      ensures localAddress !in old(clients) ==>
        events == old(events) + [RemoteDisconnected(localAddress)]
        && writes == old(writes)
        && log == old(log) + [CloudSocketNotFound(localAddress)]
      ensures writes == old(writes) + WriteTo(Get(old(clients), localAddress), data)
      ensures clients == old(clients) && relays == old(relays) && nextSocket == old(nextSocket)
    {
      var client := Get(clients, localAddress);
      if client.Some? {
        events := events + [RemoteConnected(localAddress)];
        writes := writes + [Output(client.value, data)];
      } else {
        events := events + [RemoteDisconnected(localAddress)];
        log := log + [CloudSocketNotFound(localAddress)];
      }
    }
  }
}
