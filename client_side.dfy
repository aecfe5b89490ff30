/** The client half of the protocol: array concatenation, the 6-byte connection
    info (server address and big-endian port) and the framing of outgoing
    packets. Sends are appended to `outbox` instead of reaching a socket. */
module ClientSide {
  import opened Wire

  /** A fresh array holding `arr0` followed by `arr1`; both inputs are untouched. */
  method AddArrays(arr0: array<Byte>, arr1: array<Byte>) returns (r: array<Byte>)
    ensures fresh(r)
    ensures r.Length == arr0.Length + arr1.Length
    ensures r[..arr0.Length] == arr0[..] && r[arr0.Length..] == arr1[..]
    ensures r[..] == arr0[..] + arr1[..]
  {
    r := new Byte[arr0.Length + arr1.Length];
    forall i | 0 <= i < arr0.Length {
      r[i] := arr0[i];
    }
    forall i | 0 <= i < arr1.Length {
      r[arr0.Length + i] := arr1[i];
    }
  }

  /** A fresh array with the given contents. */
  method FromSeq(s: seq<Byte>) returns (a: array<Byte>)
    ensures fresh(a) && a[..] == s
  {
    a := new Byte[|s|](i requires 0 <= i < |s| => s[i]);
  }

  /** The two bytes `(byte) ((port & 0xFF00) >> 8)` and `(byte) (port & 0xFF)`.
      On a two's-complement `int`, masking with 0xFF00 and shifting right by 8
      is `(port mod 65536) div 256`, and masking with 0xFF is `port mod 256`. */
  function PortBytes(port: Int32): (r: seq<Byte>)
    ensures |r| == 2
    // (b0 << 8) | b1 == port & 0xFFFF: the low 16 bits, most significant byte first
    ensures r[0] as int * 256 + r[1] as int == port % 0x1_0000
  {
    [((port % 0x1_0000) / 256), (port % 256)]
  }

  /** Whether `sendPacket` lets a body through: `data.length + 10` must not
      exceed the server's packet size; a null body always passes. */
  predicate Fits(data: Option<seq<Byte>>)
    // a body of 1014 bytes is sent, one of 1015 bytes is not, a null body always is
    ensures Fits(data) <==> data.None? || |data.value| <= 1014
  {
    data.None? || |data.value| + CLIENT_HEADER_SIZE <= SERVER_PACKET_MAX_SIZE
  }

  /** The body bytes a packet carries; none for a null body. */
  function BodyBytes(data: Option<seq<Byte>>): seq<Byte>
  {
    if data.Some? then data.value else []
  }

  /** What the client's `sendPacket` hands to the socket: nothing when the body
      is too large, otherwise one datagram for the server's address and port
      holding the tag's bytes (not padded), the connection info and the body. */
  function Outgoing(tag: string, info: seq<Byte>, ip: IPv4Address, port: Int32,
                    data: Option<seq<Byte>>): (r: seq<Datagram>)
    requires IsAscii(tag)
    ensures |r| == if Fits(data) then 1 else 0
    ensures forall d :: d in r ==> d.address == ip && d.port == port
  {
    if Fits(data) then [Datagram(AsciiBytes(tag) + info + BodyBytes(data), ip, port)] else []
  }

  /** The client's connection state and what it has sent so far. */
  class CarbonClient {
    var connectedIP: IPv4Address
    var connectedPort: Int32
    /** The server address followed by the two port bytes. */
    var headerConnInfo: seq<Byte>
    /** Datagrams handed to the socket, oldest first. */
    var outbox: seq<Datagram>

    /** Connects to the server at `serverIP`: the port is always SERVER_PORT,
        and exactly one 10-byte CONN frame without body is sent to it. */
    constructor (serverIP: IPv4Address)
      ensures connectedIP == serverIP && connectedPort == SERVER_PORT
      ensures headerConnInfo == serverIP + PortBytes(SERVER_PORT)
      ensures outbox == [Datagram(AsciiBytes("CONN") + serverIP + PortBytes(SERVER_PORT), serverIP, SERVER_PORT)]
      ensures |outbox[0].payload| == 10
    {
      connectedIP := serverIP;
      connectedPort := SERVER_PORT;
      headerConnInfo := [];
      outbox := [];
      new;
      ConnectToServer(serverIP, SERVER_PORT);
      assert AsciiBytes("CONN") + headerConnInfo + BodyBytes(None) == AsciiBytes("CONN") + serverIP + PortBytes(SERVER_PORT);
    }

    /** Builds `headerConnInfo` from the fields (the parameters only appear in
        a log line) and sends CONN with no body. */
    method ConnectToServer(ip: IPv4Address, port: Int32)
      modifies this`headerConnInfo, this`outbox
      ensures headerConnInfo == connectedIP + PortBytes(connectedPort)
      ensures |headerConnInfo| == 6
      ensures outbox == old(outbox) + Outgoing("CONN", headerConnInfo, connectedIP, connectedPort, None)
    {
      var portArray := new Byte[2];
      portArray[0] := ((connectedPort % 0x1_0000) / 256);
      portArray[1] := (connectedPort % 256);
      var ipArray := FromSeq(connectedIP);
      var info := AddArrays(ipArray, portArray);
      headerConnInfo := info[..];
      SendPacket("CONN", None);
    }

    /** Sends `tag` with the connection info and an optional body to the
        connected server, unless the body is too large. */
    method SendPacket(tag: string, data: Option<seq<Byte>>)
      requires IsAscii(tag)
      modifies this`outbox
      ensures outbox == old(outbox) + Outgoing(tag, headerConnInfo, connectedIP, connectedPort, data)
    {
      if data.Some? && |data.value| + CLIENT_HEADER_SIZE > SERVER_PACKET_MAX_SIZE {
        assert Outgoing(tag, headerConnInfo, connectedIP, connectedPort, data) == [];
        return;
      }
      var labelArray := FromSeq(AsciiBytes(tag));
      var infoArray := FromSeq(headerConnInfo);
      var header := AddArrays(labelArray, infoArray);
      var packet: seq<Byte>;
      if data.None? {
        packet := header[..];
        assert packet == AsciiBytes(tag) + headerConnInfo + BodyBytes(data);
      } else {
        var dataArray := FromSeq(data.value);
        var completeData := AddArrays(header, dataArray);
        packet := completeData[..];
        assert packet == AsciiBytes(tag) + headerConnInfo + data.value;
      }
      outbox := outbox + [Datagram(packet, connectedIP, connectedPort)];
    }
  }
}
