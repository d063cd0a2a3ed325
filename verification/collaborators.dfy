/**
 * The values that ClientOptions receives from collaborators whose code is not
 * part of this model: the SSL configuration's mode, the protocol configuration's
 * layer and autologin flag, the remote list, and the pass-through handles
 * (frame, stats, events, socket protection, tun builder).
 */
module Collaborators {
  import opened Wrappers

  /** C++ `unsigned int` (32 bits on every platform the client targets). */
  newtype uint32 = x: int | 0 <= x < 0x1_0000_0000

  /** C++ `int`. */
  newtype int32 = x: int | -0x8000_0000 <= x < 0x8000_0000

  /**
   * A transport protocol. NoProtocol is what a default-constructed Protocol
   * holds, e.g. the proto_override of a Config the application left unset.
   */
  datatype Protocol = NoProtocol | UDPv4 | TCPv4 | UDPv6 | TCPv6 {
    predicate IsUdp() { UDPv4? || UDPv6? }
    predicate IsTcp() { TCPv4? || TCPv6? }
  }

  /** Tunnel layer of the protocol configuration. */
  datatype Layer = LayerNone | OsiLayer2 | OsiLayer3

  /** Mode of the loaded SSL configuration. */
  datatype SslMode = ClientMode | ServerMode {
    predicate IsClient() { ClientMode? }
  }

  /** One resolved remote: what RemoteList::get hands back. */
  datatype RemoteItem = RemoteItem(server_host: string, server_port: string, transport_protocol: Protocol)

  /**
   * The remote list as ClientOptions uses it: its size and its selection
   * function get(iteration, server_override, proto_override). How get picks
   * an item is the list's own policy and is deliberately left uninterpreted.
   */
  datatype RemoteList = RemoteList(size: nat, get: (uint32, string, Protocol) -> RemoteItem)

  /** Shared handles that ClientOptions only passes along. */
  type FrameRef
  type StatsRef
  type EventsRef
  type SocketProtectRef
  type BuilderRef

  /** An `option_error` exception and the messages this core raises. */
  datatype OptionError = OptionError(message: string)

  const OnlyClientError := OptionError("only client configuration supported")
  const NoRemoteError := OptionError("no remote option specified")
  const OnlyLayer3Error := OptionError("only layer 3 currently supported")
  const UnknownTransportError := OptionError("unknown transport protocol")
}
