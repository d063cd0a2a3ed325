/** Transport factory selection (the branch in load_transport_config). */
module Transport {
  import opened Wrappers
  import opened Collaborators

  /** A UDP or TCP transport client configuration. */
  datatype TransportFactory =
    | UdpConfig(server_host: string, server_port: string, frame: FrameRef,
                stats: StatsRef, socket_protect: Option<SocketProtectRef>)
    | TcpConfig(server_host: string, server_port: string, frame: FrameRef,
                stats: StatsRef, socket_protect: Option<SocketProtectRef>)

  /**
   * The transport factory for a resolved remote: UDP for a UDP protocol, TCP
   * for a TCP protocol, an "unknown transport protocol" error otherwise. Both
   * factories carry the remote's host and port and the shared handles.
   */
  function TransportFor(rli: RemoteItem, frame: FrameRef, stats: StatsRef,
                        socket_protect: Option<SocketProtectRef>): (r: Result<TransportFactory, OptionError>)
    ensures r.Success? <==> rli.transport_protocol.IsUdp() || rli.transport_protocol.IsTcp()
    ensures r.Failure? ==> r.error == UnknownTransportError
    ensures r.Success? ==> (r.value.UdpConfig? <==> rli.transport_protocol.IsUdp())
    ensures r.Success? ==> (r.value.TcpConfig? <==> rli.transport_protocol.IsTcp())
    ensures r.Success? ==> r.value.server_host == rli.server_host && r.value.server_port == rli.server_port
    ensures r.Success? ==> r.value.frame == frame && r.value.stats == stats && r.value.socket_protect == socket_protect
  {
    if rli.transport_protocol.IsUdp() then
      Success(UdpConfig(rli.server_host, rli.server_port, frame, stats, socket_protect))
    else if rli.transport_protocol.IsTcp() then
      Success(TcpConfig(rli.server_host, rli.server_port, frame, stats, socket_protect))
    else
      Failure(UnknownTransportError)
  }
}
