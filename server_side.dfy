/** The server half of the protocol: framing of outgoing packets, splitting of
    received datagrams into header and body, the label-keyed handler table,
    the client list kept by CONN and DSCN, and one tick of the heartbeat.
    Sends are appended to `outbox`; a received datagram is given as bytes. */
module ServerSide {
  import opened Wire
  import opened Records
  import ClientSide

  /** Body of every heartbeat packet: "Update" in ASCII. */
  const UPDATE_BODY: seq<Byte> := [0x55, 0x70, 0x64, 0x61, 0x74, 0x65]

  /** Whether the server's `sendPacket` lets a body through: `data.length + 8`
      must not exceed 1024; a null body always passes. */
  predicate Fits(data: Option<seq<Byte>>)
    // a body of 1016 bytes is sent, one of 1017 bytes is not, a null body always is
    ensures Fits(data) <==> data.None? || |data.value| <= 1016
  {
    data.None? || |data.value| + PACKET_HEADER_SIZE <= SERVER_PACKET_MAX_SIZE
  }

  /** The label as it goes out: spaces are appended while it is shorter than
      four characters; a longer label is kept whole. */
  function Padded(tag: string): (r: string)
    ensures |r| == if |tag| < 4 then 4 else |tag|
    ensures r[..|tag|] == tag
    ensures forall i :: |tag| <= i < |r| ==> r[i] == ' '
    ensures IsAscii(tag) ==> IsAscii(r)
  {
    if |tag| < 4 then tag + Spaces(4 - |tag|) else tag
  }

  /** The padding loop of `sendPacket`. */
  method PadLabel(tag: string) returns (padded: string)
    ensures padded == Padded(tag)
  {
    padded := tag;
    while |padded| < 4
      invariant |tag| <= |padded|
      invariant |tag| < 4 ==> |padded| <= 4
      invariant |tag| >= 4 ==> padded == tag
      invariant padded == tag + Spaces(|padded| - |tag|)
      decreases 4 - |padded|
    {
      padded := padded + " ";
    }
  }

  /** The bytes of a server packet: padded label, the client's 4 address
      bytes, then the body (nothing for a null body). */
  function Frame(tag: string, ip: IPv4Address, data: Option<seq<Byte>>): (r: seq<Byte>)
    requires IsAscii(tag)
    ensures var n := |Padded(tag)|;
      |r| == n + 4 + |ClientSide.BodyBytes(data)|
      && r[..n] == AsciiBytes(Padded(tag))
      && r[n..n + 4] == ip
      && r[n + 4..] == ClientSide.BodyBytes(data)
  {
    AsciiBytes(Padded(tag)) + ip + ClientSide.BodyBytes(data)
  }

  /** For a label of at most four characters the frame is the 8-byte header
      followed by the body. */
  lemma FrameLayout(tag: string, ip: IPv4Address, data: Option<seq<Byte>>)
    requires IsAscii(tag) && |tag| <= 4
    ensures var f := Frame(tag, ip, data);
      |f| == PACKET_HEADER_SIZE + |ClientSide.BodyBytes(data)|
      && ByteChars(f[..4]) == Padded(tag)
      && f[4..8] == ip
      && f[8..] == ClientSide.BodyBytes(data)
  {
    var f := Frame(tag, ip, data);
    var p := AsciiBytes(Padded(tag));
    assert f[..4] == p;
    AsciiRoundTrip(Padded(tag));
  }

  /** What `sendPacket(c, tag, data)` hands to the socket: nothing when the
      body is too large, otherwise one frame addressed to the client's IP on
      CLIENT_PORT. */
  function Outgoing(c: Client, tag: string, data: Option<seq<Byte>>): (r: seq<Datagram>)
    requires IsAscii(tag)
    ensures |r| == if Fits(data) then 1 else 0
    ensures forall d :: d in r ==> d.address == c.ip && d.port == CLIENT_PORT
  {
    if Fits(data) then [Datagram(Frame(tag, c.ip, data), c.ip, CLIENT_PORT)] else []
  }

  /** The 1024-byte receive buffer after a datagram arrives: the datagram
      (cut at 1024 bytes) over a zero-initialised array. */
  function ReceiveBuffer(datagram: seq<Byte>): (buf: seq<Byte>)
    ensures |buf| == SERVER_PACKET_MAX_SIZE
    ensures forall i :: 0 <= i < |buf| ==> buf[i] == if i < |datagram| then datagram[i] else 0
  {
    if |datagram| >= SERVER_PACKET_MAX_SIZE then datagram[..SERVER_PACKET_MAX_SIZE]
    else datagram + Zeros(SERVER_PACKET_MAX_SIZE - |datagram|)
  }

  /** `readHeader`: the first four bytes are the label, the next four the
      sender's address; the port is left unset. */
  function ReadHeader(data: seq<Byte>): (h: HeaderData)
    requires |data| == PACKET_HEADER_SIZE
    ensures |h.tag| == 4 && h.ip == data[4..8] && h.port == UNSET
    ensures forall i :: 0 <= i < 4 ==> h.tag[i] as int == data[i]
  {
    NewHeader(ByteChars(data[..4]), data[4..8])
  }

  /** The header and body `receivePacket` extracts: the body is everything
      after the header in the whole buffer, not just the received bytes. */
  function Split(datagram: seq<Byte>): (r: (HeaderData, seq<Byte>))
    ensures |r.1| == SERVER_PACKET_MAX_SIZE - PACKET_HEADER_SIZE
  {
    var data := ReceiveBuffer(datagram);
    (ReadHeader(data[..PACKET_HEADER_SIZE]), data[PACKET_HEADER_SIZE..])
  }

  /** Receiving a frame the server itself would send gives back the padded
      label and the address, and a 1016-byte body: the sent body followed by
      zeros. */
  lemma FrameRoundTrip(tag: string, ip: IPv4Address, data: Option<seq<Byte>>)
    requires IsAscii(tag) && |tag| <= 4 && Fits(data)
    ensures var (h, body) := Split(Frame(tag, ip, data));
      var b := ClientSide.BodyBytes(data);
      h == HeaderData(Padded(tag), ip, UNSET)
      && |body| == 1016
      && body[..|b|] == b
      && body[|b|..] == Zeros(1016 - |b|)
  {
    var f := Frame(tag, ip, data);
    var b := ClientSide.BodyBytes(data);
    FrameLayout(tag, ip, data);
    var buf := ReceiveBuffer(f);
    assert buf[..8] == f[..8];
    var h := ReadHeader(buf[..8]);
    assert h.tag == ByteChars(f[..4]);
    assert buf[8..][..|b|] == b;
    assert buf[8..][|b|..] == Zeros(1016 - |b|);
  }

  /** The three packet handlers `loadHandlers` registers. */
  datatype Handler = ConnHandler | PrntHandler | DscnHandler

  /** The table after `loadHandlers` has run on an empty map. */
  function LoadedHandlers(): (m: map<string, Handler>)
    ensures m.Keys == {"CONN", "PRNT", "DSCN"}
    ensures m["CONN"] == ConnHandler && m["PRNT"] == PrntHandler && m["DSCN"] == DscnHandler
  {
    map["CONN" := ConnHandler, "PRNT" := PrntHandler, "DSCN" := DscnHandler]
  }

  /** The server's client list and what it has sent so far. */
  datatype ServerView = ServerView(clients: seq<Client>, outbox: seq<Datagram>)

  /** `handleConnectionRequest`: answer "ACK" with no body, then register. */
  function Connect(v: ServerView, h: HeaderData): (w: ServerView)
    ensures |w.clients| == |v.clients| + 1 && w.clients[..|v.clients|] == v.clients
    ensures w.clients[|v.clients|].ip == h.ip
    ensures |w.outbox| == |v.outbox| + 1 && w.outbox[..|v.outbox|] == v.outbox
    ensures w.outbox[|v.outbox|].address == h.ip && w.outbox[|v.outbox|].port == CLIENT_PORT
  {
    var c := NewClient(h.ip);
    ServerView(v.clients + [c], v.outbox + Outgoing(c, "ACK", None))
  }

  /** The clients whose address is not `ip`, in order. */
  function Others(cs: seq<Client>, ip: IPv4Address): seq<Client>
  {
    if cs == [] then []
    else (if cs[0].ip != ip then [cs[0]] else []) + Others(cs[1..], ip)
  }

  /** What the DSCN loop leaves: a matching client is removed, but because the
      index still advances, the client that moves into its place is not
      examined and stays. */
  function DscnRemaining(cs: seq<Client>, ip: IPv4Address): (r: seq<Client>)
    ensures |r| <= |cs|
    ensures cs != [] && cs[0].ip == ip ==> |r| < |cs|
  {
    if cs == [] then []
    else if cs[0].ip != ip then [cs[0]] + DscnRemaining(cs[1..], ip)
    else if |cs| == 1 then []
    else [cs[1]] + DscnRemaining(cs[2..], ip)
  }

  /** DSCN only drops entries, so the list never grows. */
  lemma {:induction false} DscnOnlyDrops(cs: seq<Client>, ip: IPv4Address)
    ensures multiset(DscnRemaining(cs, ip)) <= multiset(cs)
    ensures |DscnRemaining(cs, ip)| <= |cs|
  {
    if cs == [] {
    } else if cs[0].ip != ip {
      DscnOnlyDrops(cs[1..], ip);
      assert cs == [cs[0]] + cs[1..];
    } else if |cs| > 1 {
      DscnOnlyDrops(cs[2..], ip);
      assert cs == [cs[0], cs[1]] + cs[2..];
    }
  }

  /** Every client with another address survives DSCN, in its original order. */
  lemma {:induction false} DscnKeepsOthers(cs: seq<Client>, ip: IPv4Address)
    ensures Others(DscnRemaining(cs, ip), ip) == Others(cs, ip)
  {
    if cs == [] {
    } else if cs[0].ip != ip {
      var rest := DscnRemaining(cs[1..], ip);
      DscnKeepsOthers(cs[1..], ip);
      assert ([cs[0]] + rest)[1..] == rest;
    } else if |cs| > 1 {
      var rest := DscnRemaining(cs[2..], ip);
      DscnKeepsOthers(cs[2..], ip);
      assert ([cs[1]] + rest)[1..] == rest;
      assert cs[1..][1..] == cs[2..];
    }
  }

  /** When no client has the address, DSCN leaves the list as it was. */
  lemma {:induction false} DscnNoMatchUnchanged(cs: seq<Client>, ip: IPv4Address)
    requires forall i :: 0 <= i < |cs| ==> cs[i].ip != ip
    ensures DscnRemaining(cs, ip) == cs
  {
    if cs != [] {
      DscnNoMatchUnchanged(cs[1..], ip);
      assert cs == [cs[0]] + cs[1..];
    }
  }

  /** The quirk: right after the first match is removed, the next client
      survives even when it has the same address. */
  lemma {:induction false} DscnSkipsNext(prefix: seq<Client>, a: Client, b: Client, rest: seq<Client>, ip: IPv4Address)
    requires forall i :: 0 <= i < |prefix| ==> prefix[i].ip != ip
    requires a.ip == ip
    ensures DscnRemaining(prefix + [a, b] + rest, ip) == prefix + [b] + DscnRemaining(rest, ip)
  {
    var cs := prefix + [a, b] + rest;
    if prefix == [] {
      assert cs[0] == a && cs[1] == b && cs[2..] == rest;
    } else {
      assert cs[0] == prefix[0] && cs[0].ip != ip;
      assert cs[1..] == prefix[1..] + [a, b] + rest;
      DscnSkipsNext(prefix[1..], a, b, rest, ip);
      assert DscnRemaining(cs, ip) == [cs[0]] + DscnRemaining(cs[1..], ip);
      assert prefix + [b] + DscnRemaining(rest, ip) == [prefix[0]] + (prefix[1..] + [b] + DscnRemaining(rest, ip));
    }
  }

  /** In a list where every client has the address, DSCN keeps exactly the
      clients at odd positions (2nd, 4th, ...) and removes the 1st, 3rd, 5th, ... */
  lemma {:induction false} DscnAllMatchKeepsOddPositions(cs: seq<Client>, ip: IPv4Address)
    requires forall i :: 0 <= i < |cs| ==> cs[i].ip == ip
    ensures var r := DscnRemaining(cs, ip);
      |r| == |cs| / 2 && forall i :: 0 <= i < |r| ==> r[i] == cs[2 * i + 1]
  {
    if |cs| >= 2 {
      var tail := cs[2..];
      assert forall i :: 0 <= i < |tail| ==> tail[i] == cs[i + 2];
      DscnAllMatchKeepsOddPositions(tail, ip);
      var r := DscnRemaining(cs, ip);
      assert r == [cs[1]] + DscnRemaining(tail, ip);
      forall i | 1 <= i < |r|
        ensures r[i] == cs[2 * i + 1]
      {
        assert r[i] == DscnRemaining(tail, ip)[i - 1] == tail[2 * (i - 1) + 1];
      }
    }
  }

  /** Three adjacent clients with the address after a prefix without it: the
      first and third are removed, the middle one stays. */
  lemma DscnRunOfThree(prefix: seq<Client>, a: Client, b: Client, c: Client, rest: seq<Client>, ip: IPv4Address)
    requires forall i :: 0 <= i < |prefix| ==> prefix[i].ip != ip
    requires a.ip == ip && b.ip == ip && c.ip == ip
    ensures DscnRemaining(prefix + [a, b, c] + rest, ip) == prefix + [b] + DscnRemaining([c] + rest, ip)
    ensures rest == [] ==> DscnRemaining(prefix + [a, b, c], ip) == prefix + [b]
  {
    DscnSkipsNext(prefix, a, b, [c] + rest, ip);
    assert prefix + [a, b, c] + rest == prefix + [a, b] + ([c] + rest);
    if rest == [] {
      assert prefix + [a, b, c] + rest == prefix + [a, b, c];
    }
  }

  /** When no two adjacent clients share the address, DSCN removes every
      client with that address. */
  lemma {:induction false} DscnRemovesAllWithoutAdjacentMatches(cs: seq<Client>, ip: IPv4Address)
    requires forall i :: 0 <= i < |cs| - 1 ==> !(cs[i].ip == ip && cs[i + 1].ip == ip)
    ensures DscnRemaining(cs, ip) == Others(cs, ip)
  {
    if cs == [] {
    } else if cs[0].ip != ip {
      var tail := cs[1..];
      forall i | 0 <= i < |tail| - 1
        ensures !(tail[i].ip == ip && tail[i + 1].ip == ip)
      {
        assert tail[i] == cs[i + 1] && tail[i + 1] == cs[i + 2];
      }
      DscnRemovesAllWithoutAdjacentMatches(tail, ip);
    } else if |cs| == 1 {
    } else {
      assert cs[1].ip != ip;
      var tail := cs[2..];
      forall i | 0 <= i < |tail| - 1
        ensures !(tail[i].ip == ip && tail[i + 1].ip == ip)
      {
        assert tail[i] == cs[i + 2] && tail[i + 1] == cs[i + 3];
      }
      DscnRemovesAllWithoutAdjacentMatches(tail, ip);
      assert cs[1..][1..] == tail;
    }
  }

  /** Runs the handler registered for the header's label, if any. */
  function Dispatch(handlers: map<string, Handler>, v: ServerView, h: HeaderData, body: seq<Byte>): (w: ServerView)
    ensures h.tag !in handlers ==> w == v
    ensures w.outbox != v.outbox ==> h.tag in handlers && handlers[h.tag] == ConnHandler
    ensures |w.clients| > |v.clients| ==> h.tag in handlers && handlers[h.tag] == ConnHandler
  {
    if h.tag !in handlers then v
    else match handlers[h.tag]
      case ConnHandler => Connect(v, h)
      case PrntHandler => v
      case DscnHandler => ServerView(DscnRemaining(v.clients, h.ip), v.outbox)
  }

  /** `receivePacket` on one datagram: split, then dispatch. */
  function Receive(handlers: map<string, Handler>, v: ServerView, datagram: seq<Byte>): (w: ServerView)
    ensures |w.clients| <= |v.clients| + 1
    ensures |v.outbox| <= |w.outbox| <= |v.outbox| + 1
    ensures w.outbox[..|v.outbox|] == v.outbox
  {
    var (h, body) := Split(datagram);
    Dispatch(handlers, v, h, body)
  }

  /** With the loaded table, only CONN changes anything besides DSCN's
      removals; an unknown label and PRNT change nothing. */
  lemma DispatchLoaded(v: ServerView, h: HeaderData, body: seq<Byte>)
    ensures var w := Dispatch(LoadedHandlers(), v, h, body);
      (h.tag !in {"CONN", "PRNT", "DSCN"} ==> w == v)
      && (h.tag == "PRNT" ==> w == v)
      && (h.tag == "DSCN" ==> w.outbox == v.outbox && w.clients == DscnRemaining(v.clients, h.ip))
      && (h.tag != "CONN" ==> w.outbox == v.outbox && |w.clients| <= |v.clients|)
  {
    DscnOnlyDrops(v.clients, h.ip);
  }

  /** CONN sends exactly one "ACK " packet without body to the new client and
      then appends it: earlier entries stay, nothing checks for duplicates. */
  lemma ConnEffect(v: ServerView, h: HeaderData, body: seq<Byte>)
    requires h.tag == "CONN"
    ensures var w := Dispatch(LoadedHandlers(), v, h, body);
      |w.clients| == |v.clients| + 1
      && w.clients[..|v.clients|] == v.clients
      && w.clients[|v.clients|] == Client(h.ip, UNSET, 0)
      && w.outbox == v.outbox + [Datagram(AsciiBytes("ACK ") + h.ip, h.ip, CLIENT_PORT)]
  {
    var w := Dispatch(LoadedHandlers(), v, h, body);
    var c := NewClient(h.ip);
    assert Padded("ACK") == "ACK ";
    assert Frame("ACK", h.ip, None) == AsciiBytes("ACK ") + h.ip;
    assert w.clients[..|v.clients|] == v.clients;
  }

  /** A datagram shorter than the header is still dispatched, with the missing
      header bytes read as zeros: "CONN" alone registers the address 0.0.0.0. */
  lemma ShortConnDatagram(v: ServerView)
    ensures Receive(LoadedHandlers(), v, AsciiBytes("CONN")).clients == v.clients + [Client([0, 0, 0, 0], UNSET, 0)]
  {
    var buf := ReceiveBuffer(AsciiBytes("CONN"));
    var h := ReadHeader(buf[..PACKET_HEADER_SIZE]);
    assert buf[..4] == AsciiBytes("CONN");
    AsciiRoundTrip("CONN");
    assert buf[..PACKET_HEADER_SIZE][..4] == buf[..4];
    assert h.tag == "CONN";
    assert h.ip == [0, 0, 0, 0];
  }

  /** The packets one heartbeat tick sends to clients `cs`, in list order. */
  function TickSends(cs: seq<Client>): (r: seq<Datagram>)
    ensures |r| == |cs|
    ensures forall i :: 0 <= i < |cs| ==> r[i].address == cs[i].ip && r[i].port == CLIENT_PORT
  {
    if cs == [] then []
    else TickSends(cs[..|cs| - 1]) + Outgoing(cs[|cs| - 1], "UPDT", Some(UPDATE_BODY))
  }

  /** The heartbeat packet for one client: it always fits. */
  lemma UpdatePacket(c: Client)
    ensures Outgoing(c, "UPDT", Some(UPDATE_BODY))
      == [Datagram(AsciiBytes("UPDT") + c.ip + UPDATE_BODY, c.ip, CLIENT_PORT)]
  {
    assert Padded("UPDT") == "UPDT";
    assert Fits(Some(UPDATE_BODY));
  }

  /** A tick sends one "UPDT" packet with body "Update" to every client, in
      index order: the size check never stops one. */
  lemma {:induction false} TickSendsAll(cs: seq<Client>)
    ensures |TickSends(cs)| == |cs|
    ensures forall i :: 0 <= i < |cs| ==>
      TickSends(cs)[i] == Datagram(AsciiBytes("UPDT") + cs[i].ip + UPDATE_BODY, cs[i].ip, CLIENT_PORT)
  {
    if cs != [] {
      var init := cs[..|cs| - 1];
      TickSendsAll(init);
      UpdatePacket(cs[|cs| - 1]);
      forall i | 0 <= i < |cs|
        ensures TickSends(cs)[i] == Datagram(AsciiBytes("UPDT") + cs[i].ip + UPDATE_BODY, cs[i].ip, CLIENT_PORT)
      {
        if i < |cs| - 1 {
          assert init[i] == cs[i];
        }
      }
    }
  }

  /** One step of the DSCN loop past a client with another address. */
  lemma DscnStepKeep(cs: seq<Client>, i: nat, ip: IPv4Address)
    requires i < |cs| && cs[i].ip != ip
    ensures cs[..i + 1] + DscnRemaining(cs[i + 1..], ip) == cs[..i] + DscnRemaining(cs[i..], ip)
  {
    assert cs[i..][0] == cs[i] && cs[i..][1..] == cs[i + 1..];
    assert cs[..i + 1] == cs[..i] + [cs[i]];
  }

  /** One step of the DSCN loop that removes client `i`: the client that
      moves into slot `i` is passed over. */
  lemma DscnStepRemove(cs: seq<Client>, i: nat, ip: IPv4Address)
    requires i < |cs| && cs[i].ip == ip
    ensures var next := cs[..i] + cs[i + 1..];
      (i + 1 <= |next| ==> next[..i + 1] + DscnRemaining(next[i + 1..], ip) == cs[..i] + DscnRemaining(cs[i..], ip))
      && (i + 1 > |next| ==> next == cs[..i] + DscnRemaining(cs[i..], ip))
  {
    var next := cs[..i] + cs[i + 1..];
    if i + 1 < |cs| {
      assert cs[i..][0] == cs[i] && cs[i..][1] == cs[i + 1] && cs[i..][2..] == cs[i + 2..];
      assert next[i + 1..] == cs[i + 2..];
      assert next[..i + 1] == cs[..i] + [cs[i + 1]];
    } else {
      assert next == cs[..i];
    }
  }

  /** The server's static state: the client list, the handler table and the
      datagrams it has sent. */
  class CarbonServer {
    var clients: seq<Client>
    var handler: map<string, Handler>
    var outbox: seq<Datagram>

    function View(): ServerView
      reads this
    {
      ServerView(clients, outbox)
    }

    /** Starting the server: an empty client list and a fresh table filled by
        `loadHandlers`. */
    constructor ()
      ensures clients == [] && outbox == []
      ensures handler == LoadedHandlers()
    {
      clients := [];
      outbox := [];
      handler := map[];
      new;
      LoadHandlers();
    }

    /** Registers the CONN, PRNT and DSCN handlers with `put`. */
    method LoadHandlers()
      modifies this`handler
      ensures handler == old(handler)["CONN" := ConnHandler]["PRNT" := PrntHandler]["DSCN" := DscnHandler]
    {
      handler := handler["CONN" := ConnHandler];
      handler := handler["PRNT" := PrntHandler];
      handler := handler["DSCN" := DscnHandler];
    }

    /** Sends `tag` and an optional body to client `c`, unless the body is too
        large. */
    method SendPacket(c: Client, tag: string, data: Option<seq<Byte>>)
      requires IsAscii(tag)
      modifies this`outbox
      ensures outbox == old(outbox) + Outgoing(c, tag, data)
    {
      if data.Some? && |data.value| + PACKET_HEADER_SIZE > SERVER_PACKET_MAX_SIZE {
        return;
      }
      var padded := PadLabel(tag);
      var labelArray := ClientSide.FromSeq(AsciiBytes(padded));
      var ipArray := ClientSide.FromSeq(c.ip);
      var header := ClientSide.AddArrays(labelArray, ipArray);
      var packet: seq<Byte>;
      if data.None? {
        packet := header[..];
      } else {
        var dataArray := ClientSide.FromSeq(data.value);
        var completeData := ClientSide.AddArrays(header, dataArray);
        packet := completeData[..];
      }
      assert packet == Frame(tag, c.ip, data);
      outbox := outbox + [Datagram(packet, c.ip, CLIENT_PORT)];
    }

    /** Replies "ACK" to the sender of a CONN packet, then registers it. */
    method HandleConnectionRequest(header: HeaderData)
      modifies this`clients, this`outbox
      ensures View() == Connect(old(View()), header)
    {
      var c := NewClient(header.ip);
      SendPacket(c, "ACK", None);
      clients := clients + [c];
    }

    /** The DSCN handler: walks the list by index and removes matching
      clients, but, since the index advances after a removal as well, never
      examines the client that moves into a freed slot. */
    method HandleDisconnect(header: HeaderData)
      modifies this`clients
      ensures clients == DscnRemaining(old(clients), header.ip)
    {
      ghost var target := DscnRemaining(clients, header.ip);
      var i := 0;
      while i < |clients|
        invariant i <= |clients| + 1
        invariant i <= |clients| ==> clients[..i] + DscnRemaining(clients[i..], header.ip) == target
        invariant i > |clients| ==> clients == target
        decreases |clients| + 1 - i
      {
        if clients[i].ip == header.ip {
          DscnStepRemove(clients, i, header.ip);
          clients := clients[..i] + clients[i + 1..];
        } else {
          DscnStepKeep(clients, i, header.ip);
        }
        i := i + 1;
      }
    }

    /** Handles one received datagram with the registered handlers; an
      unknown label is reported and otherwise ignored. */
    method ReceivePacket(datagram: seq<Byte>)
      modifies this`clients, this`outbox
      ensures handler == old(handler)
      ensures View() == Receive(handler, old(View()), datagram)
    {
      var data := ReceiveBuffer(datagram);
      var body := data[PACKET_HEADER_SIZE..];
      var header := ReadHeader(data[..PACKET_HEADER_SIZE]);
      if header.tag in handler {
        match handler[header.tag]
        case ConnHandler =>
          HandleConnectionRequest(header);
        case PrntHandler =>
        case DscnHandler =>
          HandleDisconnect(header);
      }
    }

    /** One pass of the heartbeat loop: an "UPDT" packet to each client in
      index order. */
    method HeartbeatTick()
      modifies this`outbox
      ensures outbox == old(outbox) + TickSends(clients)
    {
      for i := 0 to |clients|
        invariant outbox == old(outbox) + TickSends(clients[..i])
      {
        assert clients[..i + 1][..i] == clients[..i];
        SendPacket(clients[i], "UPDT", Some(UPDATE_BODY));
      }
      assert clients[..|clients|] == clients;
    }
  }
}
