/** What happens when the server reads what the client sends. The client
    writes a 10-byte header (label, the SERVER's address, 2 port bytes) and
    the server reads an 8-byte one, so the server sees its own address as the
    sender's and the port bytes as the start of the body. */
module Interop {
  import opened Wire
  import opened Records
  import ClientSide
  import ServerSide

  /** The server's split of a client frame with a 4-character label: the label,
      the address the client wrote (the server's own), and a body that begins
      with the two port bytes, then the client's body, then zeros. */
  lemma ClientFrameAtServer(tag: string, serverIP: IPv4Address, port: Int32, data: Option<seq<Byte>>)
    requires IsAscii(tag) && |tag| == 4 && ClientSide.Fits(data)
    ensures var info := serverIP + ClientSide.PortBytes(port);
      var sent := ClientSide.Outgoing(tag, info, serverIP, port, data);
      var b := ClientSide.BodyBytes(data);
      var (h, body) := ServerSide.Split(sent[0].payload);
      h == HeaderData(tag, serverIP, UNSET)
      && body[..2] == ClientSide.PortBytes(port)
      && body[2..2 + |b|] == b
      && body[2 + |b|..] == Zeros(1014 - |b|)
  {
    var info := serverIP + ClientSide.PortBytes(port);
    var b := ClientSide.BodyBytes(data);
    var f := AsciiBytes(tag) + info + b;
    assert ClientSide.Outgoing(tag, info, serverIP, port, data)[0].payload == f;
    var buf := ServerSide.ReceiveBuffer(f);
    assert buf[..4] == AsciiBytes(tag);
    AsciiRoundTrip(tag);
    assert buf[..8][..4] == buf[..4];
    assert buf[..8][4..8] == serverIP;
    var body := buf[8..];
    assert body[..2] == ClientSide.PortBytes(port);
    assert body[2..2 + |b|] == b;
    assert body[2 + |b|..] == Zeros(1014 - |b|);
  }

  /** The CONN datagram of a client that connects to `serverIP`, received by a
      server with its handlers loaded, registers a client at `serverIP` (the
      server's own address) and sends the "ACK " reply there. */
  lemma ConnectFromClient(serverIP: IPv4Address, v: ServerSide.ServerView)
    ensures var conn := AsciiBytes("CONN") + serverIP + ClientSide.PortBytes(SERVER_PORT);
      var w := ServerSide.Receive(ServerSide.LoadedHandlers(), v, conn);
      w.clients == v.clients + [Client(serverIP, UNSET, 0)]
      && w.outbox == v.outbox + [Datagram(AsciiBytes("ACK ") + serverIP, serverIP, CLIENT_PORT)]
  {
    var info := serverIP + ClientSide.PortBytes(SERVER_PORT);
    var conn := AsciiBytes("CONN") + serverIP + ClientSide.PortBytes(SERVER_PORT);
    assert conn == ClientSide.Outgoing("CONN", info, serverIP, SERVER_PORT, None)[0].payload;
    ClientFrameAtServer("CONN", serverIP, SERVER_PORT, None);
    var (h, body) := ServerSide.Split(conn);
    ServerSide.ConnEffect(v, h, body);
  }

  /** A client connects to a freshly started server: the server registers one
      client and answers it with one "ACK " packet. */
  method Handshake(serverIP: IPv4Address) returns (registered: seq<Client>, replies: seq<Datagram>)
    ensures registered == [Client(serverIP, UNSET, 0)]
    ensures replies == [Datagram(AsciiBytes("ACK ") + serverIP, serverIP, CLIENT_PORT)]
  {
    var client := new ClientSide.CarbonClient(serverIP);
    var server := new ServerSide.CarbonServer();
    ConnectFromClient(serverIP, server.View());
    server.ReceivePacket(client.outbox[0].payload);
    registered, replies := server.clients, server.outbox;
  }

  /** Two CONN packets from one address register it twice; one DSCN from that
      address then removes only the first entry, because the loop passes over
      the entry that moves into the freed slot. */
  method ReconnectThenDisconnect(ip: IPv4Address) returns (remaining: seq<Client>)
    ensures remaining == [Client(ip, UNSET, 0)]
  {
    var server := new ServerSide.CarbonServer();
    server.HandleConnectionRequest(NewHeader("CONN", ip));
    server.HandleConnectionRequest(NewHeader("CONN", ip));
    assert server.clients == [NewClient(ip), NewClient(ip)];
    ServerSide.DscnSkipsNext([], NewClient(ip), NewClient(ip), [], ip);
    server.HandleDisconnect(NewHeader("DSCN", ip));
    remaining := server.clients;
  }
}
