/** The server's two plain records: a registered client and a decoded header. */
module Records {
  import opened Wire

  /** The value of `Client.CONNECTED`; no code path ever stores it in `state`. */
  const CONNECTED: int := 0x01

  /** Value a Java `int` field holds when no constructor assigns it. */
  const UNSET: Int32 := 0

  /** A registered peer: its address, a port and a state code. */
  datatype Client = Client(ip: IPv4Address, port: Int32, state: int)

  /** The tag and sender address read from a packet header. */
  datatype HeaderData = HeaderData(tag: string, ip: IPv4Address, port: Int32)

  /** `new Client(ip)`: only the address is given, so port and state keep
      their default value and the client is never marked CONNECTED. */
  function NewClient(ip: IPv4Address): (c: Client)
    ensures c.ip == ip && c.port == UNSET
    ensures c.state != CONNECTED
  {
    Client(ip, UNSET, 0)
  }

  /** `new HeaderData(tag, ip)`: the port is left at its default. */
  function NewHeader(tag: string, ip: IPv4Address): (h: HeaderData)
    ensures h.tag == tag && h.ip == ip && h.port == UNSET
  {
    HeaderData(tag, ip, UNSET)
  }
}
