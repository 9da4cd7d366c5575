/**
 * The transport primitives the listener and the service exchange: bytes,
 * addresses, end points, the per-datagram channel and its receive buffer.
 * The classes that implement them in the repository are not part of this
 * model; only the values they carry are.
 */
module Net {
  import opened Wrappers

  newtype byte = x: int | 0 <= x < 256

  /** The bounds of an IP port number. */
  const MinPort := 0
  const MaxPort := 65535

  /** A local or remote IP address; `Any` is the wildcard address 0.0.0.0. */
  datatype IPAddress = Any | Host(octets: seq<byte>)

  datatype EndPoint = EndPoint(address: IPAddress, port: int)

  /** The channel of one received datagram: its identifier, the sender and a liveness flag. */
  datatype SocketChannel = SocketChannel(channelId: nat, remoteEndpoint: EndPoint, isConnected: bool)

  /** A receive buffer and the number of bytes the receive call reported. */
  datatype SocketBuffer = SocketBuffer(buffer: seq<byte>, bytesTransferred: int)

  /** What the listener hands to its ClientConnected subscribers; a null buffer is `None`. */
  datatype ClientConnectedEventArgs = ClientConnectedEventArgs(channel: SocketChannel, channelBuffer: Option<SocketBuffer>)

  /** One datagram handed to the socket for sending, with its destination. */
  datatype Datagram = Datagram(payload: seq<byte>, destination: EndPoint)
}
