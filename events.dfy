/**
  What the two bridges hand to their collaborators: the notifications they
  publish on the event bus, and the bytes they write to sockets. Both are
  kept as append-only logs; the bus itself and the transport are not
  modelled.
*/
module Events {
  import opened Wrappers
  import opened DeviceMapper

  /** A socket, reduced to an opaque identity. */
  type SocketId = nat

  /** The notifications the bridges publish, named after the event service's methods. */
  datatype Event =
    | LocalConnected(address: string)
    | LocalDisconnected(address: string)
    | LocalRawReceived(data: Buffer, address: string)
    | DeviceStatusUpdated(device: Device)
    | RemoteConnected(address: string)
    | RemoteDisconnected(address: string)
    | RemoteRawReceived(data: Buffer, address: string)
    | DeviceSetupUpdated(setup: DeviceSetup)

  /** One `socket.write(data)`. */
  datatype Output = Output(socket: SocketId, data: Buffer)

  /** The outputs of a call that writes `data` to `dest` when there is one, and nothing otherwise. */
  function WriteTo(dest: Option<SocketId>, data: Buffer): (r: seq<Output>)
    ensures |r| <= 1
    ensures dest.Some? ==> r == [Output(dest.value, data)]
    ensures dest.None? <==> r == []
  {
    if dest.Some? then [Output(dest.value, data)] else []
  }
}
