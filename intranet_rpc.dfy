/**
 * The configuration surface of the RPC layer (examples/intranet_rpc.rs):
 * the default server and client configurations, the multiaddr texts the
 * server listens on and the client listens on and dials, and the settings
 * each passes to the transport. Building the swarm, `listen_on` and `dial`
 * are libp2p's; whether libp2p takes an address to listen on or to dial is
 * an input (`accepts`, `listens`, `dials`).
 */
module IntranetRpc {
  import opened Wrappers
  import Decimal
  import Multiaddr

  /** A `u16` port number. */
  type Port = p: nat | p < 0x1_0000

  datatype ServerConfig = ServerConfig(
    host: string,
    tcpPort: Port,
    quicPort: Port,
    name: string,
    idleTimeoutSecs: nat,
    requestTimeoutSecs: nat,
    maxConcurrentStreams: nat)

  datatype ClientConfig = ClientConfig(
    serverHost: string,
    serverTcpPort: Port,
    serverPeerId: Option<string>,
    name: string,
    requestTimeoutSecs: nat,
    maxConcurrentStreams: nat)

  /** `ServerConfig::default`. */
  function DefaultServerConfig(): (c: ServerConfig)
    ensures c.host == "0.0.0.0" && c.tcpPort == 8020 && c.quicPort == 8021 && c.name == "server"
    ensures c.idleTimeoutSecs == 300 && c.requestTimeoutSecs == 60 && c.maxConcurrentStreams == 500
  {
    ServerConfig("0.0.0.0", 8020, 8021, "server", 300, 60, 500)
  }

  /** `ClientConfig::default`. */
  function DefaultClientConfig(): (c: ClientConfig)
    ensures c.serverHost == "127.0.0.1" && c.serverTcpPort == 8020 && c.serverPeerId == None
    ensures c.name == "client" && c.requestTimeoutSecs == 60 && c.maxConcurrentStreams == 500
  {
    ClientConfig("127.0.0.1", 8020, None, "client", 60, 500)
  }

  // ---------------------------------------------------------------------------
  // Addresses
  // ---------------------------------------------------------------------------

  /** `format!("/ip4/{}/tcp/{}", config.host, config.tcp_port)`. */
  function ServerTcpAddress(c: ServerConfig): string {
    "/ip4/" + c.host + "/tcp/" + Decimal.DecimalDigits(c.tcpPort)
  }

  /** `format!("/ip4/{}/udp/{}/quic-v1", config.host, config.quic_port)`. */
  function ServerQuicAddress(c: ServerConfig): string {
    "/ip4/" + c.host + "/udp/" + Decimal.DecimalDigits(c.quicPort) + "/quic-v1"
  }

  /** The client listens on every interface, on a port the system picks. */
  function ClientListenAddress(): string {
    "/ip4/0.0.0.0/tcp/0"
  }

  /** The address `RpcClient::new` dials: with `/p2p/<id>` only when a server peer id is configured. */
  function ClientDialAddress(c: ClientConfig): string {
    match c.serverPeerId
    case Some(peerId) =>
      "/ip4/" + c.serverHost + "/tcp/" + Decimal.DecimalDigits(c.serverTcpPort) + "/p2p/" + peerId
    case None =>
      "/ip4/" + c.serverHost + "/tcp/" + Decimal.DecimalDigits(c.serverTcpPort)
  }

  /** What a multiaddr of these shapes names. */
  datatype Transport = Tcp | QuicV1

  datatype Endpoint = Endpoint(transport: Transport, host: string, port: nat, peerId: Option<string>)

  /**
   * Reference reader for the three address shapes the RPC layer writes:
   * `/ip4/H/tcp/P`, `/ip4/H/tcp/P/p2p/ID` and `/ip4/H/udp/P/quic-v1`.
   */
  function ParseEndpoint(s: string): Option<Endpoint> {
    var segs := Multiaddr.SplitSegments(s);
    if |segs| < 4 || segs[0] != "ip4" || Decimal.ParseDecimal(segs[3]).None? then None
    else
      var port := Decimal.ParseDecimal(segs[3]).value;
      if |segs| == 4 && segs[2] == "tcp" then Some(Endpoint(Tcp, segs[1], port, None))
      else if |segs| == 6 && segs[2] == "tcp" && segs[4] == "p2p" then Some(Endpoint(Tcp, segs[1], port, Some(segs[5])))
      else if |segs| == 5 && segs[2] == "udp" && segs[4] == "quic-v1" then Some(Endpoint(QuicV1, segs[1], port, None))
      else None
  }

  lemma DigitsHaveNoSlash(n: nat)
    ensures Multiaddr.NoSlash(Decimal.DecimalDigits(n))
  {
    var d := Decimal.DecimalDigits(n);
    assert forall i :: 0 <= i < |d| ==> Decimal.IsDigit(d[i]);
  }

  /** `Segments` of the four and six components an `/ip4/.../tcp/...` address has. */
  lemma TcpSegments(host: string, digits: string, peerId: string)
    ensures Multiaddr.Segments(["ip4", host, "tcp", digits]) == "/ip4/" + host + "/tcp/" + digits
    ensures Multiaddr.Segments(["ip4", host, "tcp", digits, "p2p", peerId])
         == "/ip4/" + host + "/tcp/" + digits + "/p2p/" + peerId
  {
    Multiaddr.SegmentsCons(peerId, []);
    Multiaddr.SegmentsCons("p2p", [peerId]);
    Multiaddr.SegmentsCons(digits, []);
    Multiaddr.SegmentsCons(digits, ["p2p", peerId]);
    Multiaddr.SegmentsCons("tcp", [digits]);
    Multiaddr.SegmentsCons("tcp", [digits, "p2p", peerId]);
    Multiaddr.SegmentsCons(host, ["tcp", digits]);
    Multiaddr.SegmentsCons(host, ["tcp", digits, "p2p", peerId]);
    Multiaddr.SegmentsCons("ip4", [host, "tcp", digits]);
    Multiaddr.SegmentsCons("ip4", [host, "tcp", digits, "p2p", peerId]);
    assert ["ip4"] + [host, "tcp", digits] == ["ip4", host, "tcp", digits];
    assert ["ip4"] + [host, "tcp", digits, "p2p", peerId] == ["ip4", host, "tcp", digits, "p2p", peerId];
    assert [host] + ["tcp", digits] == [host, "tcp", digits];
    assert [host] + ["tcp", digits, "p2p", peerId] == [host, "tcp", digits, "p2p", peerId];
    assert ["tcp"] + [digits] == ["tcp", digits];
    assert ["tcp"] + [digits, "p2p", peerId] == ["tcp", digits, "p2p", peerId];
    assert [digits] + ["p2p", peerId] == [digits, "p2p", peerId];
    assert ["p2p"] + [peerId] == ["p2p", peerId];
    assert [digits] + [] == [digits];
    assert [peerId] + [] == [peerId];
  }

  /** Reads back a TCP address built from `host` and `port`, with an optional peer id. */
  lemma TcpAddressParses(host: string, port: nat, peerId: Option<string>)
    requires Multiaddr.NoSlash(host)
    requires peerId.Some? ==> Multiaddr.NoSlash(peerId.value)
    ensures var base := "/ip4/" + host + "/tcp/" + Decimal.DecimalDigits(port);
      ParseEndpoint(if peerId.Some? then base + "/p2p/" + peerId.value else base) == Some(Endpoint(Tcp, host, port, peerId))
  {
    if peerId.Some? {
      TcpPeerAddressParses(host, port, peerId.value);
    } else {
      TcpBareAddressParses(host, port);
    }
  }

  lemma TcpBareAddressParses(host: string, port: nat)
    requires Multiaddr.NoSlash(host)
    ensures ParseEndpoint("/ip4/" + host + "/tcp/" + Decimal.DecimalDigits(port)) == Some(Endpoint(Tcp, host, port, None))
  {
    var d := Decimal.DecimalDigits(port);
    DigitsHaveNoSlash(port);
    Decimal.DecimalRoundTrip(port);
    TcpSegments(host, d, "");
    var segs := ["ip4", host, "tcp", d];
    assert Multiaddr.AllNoSlash(segs);
    Multiaddr.SplitSegmentsRoundTrip(segs);
  }

  lemma TcpPeerAddressParses(host: string, port: nat, peerId: string)
    requires Multiaddr.NoSlash(host) && Multiaddr.NoSlash(peerId)
    ensures ParseEndpoint("/ip4/" + host + "/tcp/" + Decimal.DecimalDigits(port) + "/p2p/" + peerId)
         == Some(Endpoint(Tcp, host, port, Some(peerId)))
  {
    DigitsHaveNoSlash(port);
    Decimal.DecimalRoundTrip(port);
    TcpPeerSegmentsSplit(host, Decimal.DecimalDigits(port), peerId);
  }

  /** The six segments of an `/ip4/H/tcp/P/p2p/ID` address come back from splitting it. */
  lemma TcpPeerSegmentsSplit(host: string, digits: string, peerId: string)
    requires Multiaddr.NoSlash(host) && Multiaddr.NoSlash(digits) && Multiaddr.NoSlash(peerId)
    ensures Multiaddr.SplitSegments("/ip4/" + host + "/tcp/" + digits + "/p2p/" + peerId)
         == ["ip4", host, "tcp", digits, "p2p", peerId]
  {
    var segs := ["ip4", host, "tcp", digits, "p2p", peerId];
    TcpSegments(host, digits, peerId);
    assert Multiaddr.AllNoSlash(segs);
    Multiaddr.SplitSegmentsRoundTrip(segs);
  }


  /**
   * The server's TCP listen address names TCP, the configured host and the
   * configured TCP port, and no peer id (a host holds no '/').
   */
  lemma ServerTcpAddressParses(c: ServerConfig)
    requires Multiaddr.NoSlash(c.host)
    ensures ParseEndpoint(ServerTcpAddress(c)) == Some(Endpoint(Tcp, c.host, c.tcpPort, None))
  {
    TcpAddressParses(c.host, c.tcpPort, None);
  }

  /** `Segments` of the five components of an `/ip4/.../udp/.../quic-v1` address. */
  lemma QuicSegments(host: string, digits: string)
    ensures Multiaddr.Segments(["ip4", host, "udp", digits, "quic-v1"])
         == "/ip4/" + host + "/udp/" + digits + "/quic-v1"
  {
    Multiaddr.SegmentsCons("quic-v1", []);
    Multiaddr.SegmentsCons(digits, ["quic-v1"]);
    Multiaddr.SegmentsCons("udp", [digits, "quic-v1"]);
    Multiaddr.SegmentsCons(host, ["udp", digits, "quic-v1"]);
    Multiaddr.SegmentsCons("ip4", [host, "udp", digits, "quic-v1"]);
    assert ["ip4"] + [host, "udp", digits, "quic-v1"] == ["ip4", host, "udp", digits, "quic-v1"];
    assert [host] + ["udp", digits, "quic-v1"] == [host, "udp", digits, "quic-v1"];
    assert ["udp"] + [digits, "quic-v1"] == ["udp", digits, "quic-v1"];
    assert [digits] + ["quic-v1"] == [digits, "quic-v1"];
    assert ["quic-v1"] + [] == ["quic-v1"];
  }

  /** The server's QUIC listen address names QUIC v1, the host and the QUIC port. */
  lemma ServerQuicAddressParses(c: ServerConfig)
    requires Multiaddr.NoSlash(c.host)
    ensures ParseEndpoint(ServerQuicAddress(c)) == Some(Endpoint(QuicV1, c.host, c.quicPort, None))
  {
    var d := Decimal.DecimalDigits(c.quicPort);
    DigitsHaveNoSlash(c.quicPort);
    Decimal.DecimalRoundTrip(c.quicPort);
    var segs := ["ip4", c.host, "udp", d, "quic-v1"];
    assert Multiaddr.AllNoSlash(segs);
    Multiaddr.SplitSegmentsRoundTrip(segs);
    QuicSegments(c.host, d);
  }

  /**
   * The dial address names the server's host and TCP port, and it carries
   * a peer id exactly when one is configured, and then that one (a host and
   * a base58 peer id hold no '/').
   */
  lemma ClientDialAddressParses(c: ClientConfig)
    requires Multiaddr.NoSlash(c.serverHost)
    requires c.serverPeerId.Some? ==> Multiaddr.NoSlash(c.serverPeerId.value)
    ensures ParseEndpoint(ClientDialAddress(c)) == Some(Endpoint(Tcp, c.serverHost, c.serverTcpPort, c.serverPeerId))
  {
    TcpAddressParses(c.serverHost, c.serverTcpPort, c.serverPeerId);
  }

  /** The client's fixed listen address is TCP on 0.0.0.0, port 0. */
  lemma ClientListenAddressParses()
    ensures ParseEndpoint(ClientListenAddress()) == Some(Endpoint(Tcp, "0.0.0.0", 0, None))
  {
    assert Decimal.DecimalDigits(0) == "0";
    assert Multiaddr.NoSlash("0.0.0.0");
    TcpAddressParses("0.0.0.0", 0, None);
    assert "/ip4/" + "0.0.0.0" == "/ip4/0.0.0.0";
    assert "/ip4/0.0.0.0" + "/tcp/" == "/ip4/0.0.0.0/tcp/";
    assert "/ip4/0.0.0.0/tcp/" + "0" == ClientListenAddress();
  }

  /** With the defaults, the server listens on TCP 8020 and QUIC 8021 of every interface. */
  lemma DefaultServerAddresses()
    ensures ServerTcpAddress(DefaultServerConfig()) == "/ip4/0.0.0.0/tcp/8020"
    ensures ServerQuicAddress(DefaultServerConfig()) == "/ip4/0.0.0.0/udp/8021/quic-v1"
  {
    DefaultPortDigits();
    assert "/ip4/" + "0.0.0.0" + "/tcp/" == "/ip4/0.0.0.0/tcp/";
    assert "/ip4/0.0.0.0/tcp/" + "8020" == "/ip4/0.0.0.0/tcp/8020";
    assert "/ip4/" + "0.0.0.0" + "/udp/" == "/ip4/0.0.0.0/udp/";
    assert "/ip4/0.0.0.0/udp/" + "8021" + "/quic-v1" == "/ip4/0.0.0.0/udp/8021/quic-v1";
  }

  /** The decimal texts of the two default ports. */
  lemma DefaultPortDigits()
    ensures Decimal.DecimalDigits(8020) == "8020" && Decimal.DecimalDigits(8021) == "8021"
  {
    assert Decimal.DecimalDigits(8) == "8";
    assert Decimal.DecimalDigits(80) == "80";
    assert Decimal.DecimalDigits(802) == "802";
  }

  /** With the defaults, the client dials TCP 8020 on the loopback address, without a peer id. */
  lemma DefaultClientDialAddress()
    ensures ClientDialAddress(DefaultClientConfig()) == "/ip4/127.0.0.1/tcp/8020"
  {
    DefaultPortDigits();
    assert "/ip4/" + "127.0.0.1" + "/tcp/" == "/ip4/127.0.0.1/tcp/";
    assert "/ip4/127.0.0.1/tcp/" + "8020" == "/ip4/127.0.0.1/tcp/8020";
  }

  // ---------------------------------------------------------------------------
  // Transport settings and setup
  // ---------------------------------------------------------------------------

  /** The limit both builders give `with_max_negotiating_inbound_streams`. */
  const MaxNegotiatingInboundStreams: nat := 1024

  /** The idle-connection timeout the client uses, whatever its configuration. */
  const ClientIdleTimeoutSecs: nat := 300

  /** What a builder hands the messaging layer and the swarm. */
  datatype TransportSettings = TransportSettings(
    requestTimeoutSecs: nat,
    maxConcurrentStreams: nat,
    idleTimeoutSecs: nat,
    maxNegotiatingInboundStreams: nat)

  /** The server takes all three figures from its configuration. */
  function ServerSettings(c: ServerConfig): (s: TransportSettings)
    ensures s.requestTimeoutSecs == c.requestTimeoutSecs && s.maxConcurrentStreams == c.maxConcurrentStreams
    ensures s.idleTimeoutSecs == c.idleTimeoutSecs
    ensures s.maxNegotiatingInboundStreams == MaxNegotiatingInboundStreams
  {
    TransportSettings(c.requestTimeoutSecs, c.maxConcurrentStreams, c.idleTimeoutSecs, MaxNegotiatingInboundStreams)
  }

  /** The client passes its request timeout and stream limit through, but its idle timeout is fixed. */
  function ClientSettings(c: ClientConfig): (s: TransportSettings)
    ensures s.requestTimeoutSecs == c.requestTimeoutSecs && s.maxConcurrentStreams == c.maxConcurrentStreams
    ensures s.idleTimeoutSecs == ClientIdleTimeoutSecs
    ensures s.maxNegotiatingInboundStreams == MaxNegotiatingInboundStreams
  {
    TransportSettings(c.requestTimeoutSecs, c.maxConcurrentStreams, ClientIdleTimeoutSecs, MaxNegotiatingInboundStreams)
  }

  /** Two client configurations with the same request timeout and stream limit get the same settings. */
  lemma ClientIdleTimeoutIgnoresConfig(c1: ClientConfig, c2: ClientConfig)
    requires c1.requestTimeoutSecs == c2.requestTimeoutSecs && c1.maxConcurrentStreams == c2.maxConcurrentStreams
    ensures ClientSettings(c1) == ClientSettings(c2)
  {
  }

  /** An address libp2p refused to parse, listen on or dial. */
  datatype SetupError = AddressRejected(address: string)

  datatype ServerSetup = ServerSetup(listenAddresses: seq<string>, settings: TransportSettings)

  datatype ClientSetup = ClientSetup(listenAddress: string, dialAddress: string, settings: TransportSettings)

  /** `RpcServer::new`: listen on the TCP address, then on the QUIC address; the first refusal is the error. */
  function NewServer(c: ServerConfig, accepts: string -> bool): (r: Result<ServerSetup, SetupError>)
    ensures r.Ok? <==> accepts(ServerTcpAddress(c)) && accepts(ServerQuicAddress(c))
    ensures r.Ok? ==> r.value == ServerSetup([ServerTcpAddress(c), ServerQuicAddress(c)], ServerSettings(c))
    ensures !accepts(ServerTcpAddress(c)) ==> r == Err(AddressRejected(ServerTcpAddress(c)))
    ensures accepts(ServerTcpAddress(c)) && !accepts(ServerQuicAddress(c)) ==>
      r == Err(AddressRejected(ServerQuicAddress(c)))
  {
    var tcpAddress := ServerTcpAddress(c);
    var quicAddress := ServerQuicAddress(c);
    if !accepts(tcpAddress) then Err(AddressRejected(tcpAddress))
    else if !accepts(quicAddress) then Err(AddressRejected(quicAddress))
    else Ok(ServerSetup([tcpAddress, quicAddress], ServerSettings(c)))
  }

  /** `RpcClient::new`: listen on the fixed address, then dial the server; the first refusal is the error. */
  function NewClient(c: ClientConfig, listens: string -> bool, dials: string -> bool): (r: Result<ClientSetup, SetupError>)
    ensures r.Ok? <==> listens(ClientListenAddress()) && dials(ClientDialAddress(c))
    ensures r.Ok? ==> r.value == ClientSetup(ClientListenAddress(), ClientDialAddress(c), ClientSettings(c))
    ensures !listens(ClientListenAddress()) ==> r == Err(AddressRejected(ClientListenAddress()))
    ensures listens(ClientListenAddress()) && !dials(ClientDialAddress(c)) ==>
      r == Err(AddressRejected(ClientDialAddress(c)))
  {
    var dialAddress := ClientDialAddress(c);
    if !listens(ClientListenAddress()) then Err(AddressRejected(ClientListenAddress()))
    else if !dials(dialAddress) then Err(AddressRejected(dialAddress))
    else Ok(ClientSetup(ClientListenAddress(), dialAddress, ClientSettings(c)))
  }

}
