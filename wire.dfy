/** Byte-level vocabulary shared by the Carbon server and client: the protocol
    constants, IPv4 addresses, datagrams and the one-byte-per-char ASCII text
    that labels and bodies are made of. */
module Wire {

  /** Optional value; `None` stands for a Java `null` byte array. */
  datatype Option<T> = None | Some(value: T)

  /** One octet of a datagram, as its unsigned value. */
  type Byte = b: int | 0 <= b < 256

  /** A Java `int`. */
  type Int32 = x: int | -0x8000_0000 <= x < 0x8000_0000

  /** The four bytes of `InetAddress.getAddress()` for an IPv4 address. */
  type IPv4Address = s: seq<Byte> | |s| == 4 witness [0, 0, 0, 0]

  /** Port the server listens on (CarbonServer.SERVER_PORT). */
  const SERVER_PORT: Int32 := 16512
  /** Size of the server's receive buffer and its limit on outgoing packets. */
  const SERVER_PACKET_MAX_SIZE: nat := 1024
  /** Server header: 4 label bytes followed by 4 IP bytes. */
  const PACKET_HEADER_SIZE: nat := 8
  /** Port the client listens on and the server sends to (CarbonClient.CLIENT_PORT). */
  const CLIENT_PORT: Int32 := 16513
  /** Header size the client assumes in its size check: label, IP and 2 port bytes. */
  const CLIENT_HEADER_SIZE: nat := 10

  /** One UDP datagram handed to the socket: its bytes and its destination. */
  datatype Datagram = Datagram(payload: seq<Byte>, address: IPv4Address, port: Int32)

  predicate IsAscii(s: string)
  {
    forall i :: 0 <= i < |s| ==> s[i] < 128 as char
  }

  /** `s.getBytes(UTF-8)` for ASCII text: one byte per character, same code. */
  function AsciiBytes(s: string): (r: seq<Byte>)
    requires IsAscii(s)
    ensures |r| == |s|
    ensures forall i :: 0 <= i < |s| ==> r[i] == s[i] as int
  {
    seq(|s|, i requires 0 <= i < |s| => (s[i] as int))
  }

  /** Reads each byte as the character with the same code. */
  function ByteChars(b: seq<Byte>): (r: string)
    ensures |r| == |b|
    ensures forall i :: 0 <= i < |b| ==> r[i] as int == b[i]
  {
    seq(|b|, i requires 0 <= i < |b| => b[i] as char)
  }

  /** Decoding the bytes of ASCII text gives the text back. */
  lemma AsciiRoundTrip(s: string)
    requires IsAscii(s)
    ensures ByteChars(AsciiBytes(s)) == s
  {
    var b := AsciiBytes(s);
    assert forall i :: 0 <= i < |s| ==> ByteChars(b)[i] == s[i];
  }

  function Zeros(n: nat): (r: seq<Byte>)
    ensures |r| == n && forall i :: 0 <= i < n ==> r[i] == 0
  {
    seq(n, _ => 0)
  }

  function Spaces(n: nat): (r: string)
    ensures |r| == n && forall i :: 0 <= i < n ==> r[i] == ' '
  {
    seq(n, _ => ' ')
  }
}
