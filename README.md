# Carbon: packet framing and client bookkeeping

A Dafny model of the sequential core of Carbon, a small UDP chat and session
server written in Java, and proofs about that model.

Server side (`CarbonServer`):
- Framing of outgoing packets. The label is padded with spaces to at least 4
  characters and followed by the destination client's 4 address bytes and the
  body. A body longer than 1016 bytes is refused.
- Splitting of a received datagram. The datagram lands in a zero-filled
  1024-byte buffer. That buffer is cut into an 8-byte header (label, sender
  address) and a 1016-byte body.
- The label-keyed handler table with CONN, PRNT and DSCN.
- The client list. CONN answers "ACK " and appends a client. DSCN removes
  clients by address.
- One tick of the heartbeat. It sends "UPDT" with body "Update" to every
  client in list order.

Client side (`CarbonClient`):
- `addArrays`.
- The 6-byte connection info: the server address, then the port's low
  16 bits big-endian.
- Framing of outgoing packets: the label (not padded), the connection info,
  the body.

Sends are modelled as appends to an `outbox` sequence of datagrams. A received
datagram is given as a byte sequence. Bytes are the integers 0 to 255. Labels
are ASCII, one byte per character.

Files:
- `wire.dfy`: module `Wire`. Bytes, Java `int`, IPv4 addresses, the protocol
  constants, datagrams and ASCII text.
- `records.dfy`: module `Records`. The `Client` and `HeaderData` records.
- `client_side.dfy`: module `ClientSide`. `addArrays`, the port bytes, the
  client's framing and the `CarbonClient` class.
- `server_side.dfy`: module `ServerSide`. The server's framing, receive split,
  handler table, the DSCN loop and its specification, the heartbeat and the
  `CarbonServer` class.
- `interop.dfy`: module `Interop`. What the server makes of the client's
  packets.

Each stateful Java method is a class method. Its `ensures` ties the new state
to a specification function of the old state, such as `DscnRemaining`,
`Outgoing`, `Receive` or `TickSends`. Lemmas about those functions state what
the code promises.

Worth knowing about the code as written:
- The DSCN loop still increments its index after `remove(i)`. So the client
  that moves into slot `i` is never examined. In a run of adjacent entries
  with the same address, the 1st, 3rd, 5th, ... are removed and the others
  stay (`DscnSkipsNext`, `DscnRunOfThree`, `DscnAllMatchKeepsOddPositions`,
  `Interop.ReconnectThenDisconnect`). When no two adjacent entries share the
  address, every match is removed (`DscnRemovesAllWithoutAdjacentMatches`).
- The client writes the server's address into its header, not its own. The
  server therefore registers a client at its own address and sends the ACK
  there (`Interop.ConnectFromClient`, `Interop.Handshake`).
- The client's header is 10 bytes and the server reads 8. So the two port
  bytes arrive as the first two bytes of the body (`Interop.ClientFrameAtServer`).

Behaviour of the code that differs from what a reader might expect of such a protocol:
- The header is 8 bytes on the server and 10 on the client. There is no
  12-byte variant with a 4-byte port.
- Labels are padded but never truncated.
- The received body is not clipped to the datagram's length. It is always
  1016 bytes, with zeros after the received data.
- The handler table is filled with `put`, so a later registration would
  replace an earlier one. Only three labels are ever registered.
- The acknowledgment label is "ACK " (padded). There is no MSSG handler and
  no broadcast of chat text.
- DSCN removes every match except those skipped as above, not only the first.
- A client is never given the CONNECTED state. The 1-argument `Client` and
  2-argument `HeaderData` constructors used by the server do not exist in the
  record files. The model gives port and state the value 0, which a Java
  `int` field holds when no constructor assigns it.
- A datagram shorter than the 8-byte header is still dispatched, with the
  missing header bytes read as zeros. "CONN" alone registers the address
  0.0.0.0 (`ShortConnDatagram`).
- The client's size check compares against `SERVER_PACKET_SIZE`, which is not
  defined in the server. The model uses the server's 1024.

## Model

| member | source | states |
|---|---|---|
| `Wire.AsciiRoundTrip` | src/carbonserver/CarbonServer.java:148-152 | decoding the bytes of an ASCII label gives the label back, so a label read by `readHeader` is the one that was encoded |
| `Records.NewClient` | src/carbonserver/CarbonServer.java:193 | the client made for a CONN has the header's address, an unset port, and a state that is not CONNECTED |
| `Records.NewHeader` | src/carbonserver/CarbonServer.java:154 | the header `readHeader` builds has the given label and address and an unset port, the default for the missing 2-argument constructor |
| `ClientSide.AddArrays` | src/carbon/CarbonClient.java:84-89 | a fresh array of length `arr0.Length + arr1.Length`; its first part is `arr0` and the rest is `arr1`; neither input is modified |
| `ClientSide.PortBytes` | src/carbon/CarbonClient.java:52-54 | two bytes with `b0 * 256 + b1 == port mod 65536`: the low 16 bits of the port, big-endian |
| `ClientSide.Outgoing` | src/carbon/CarbonClient.java:61-75 | exactly one datagram when the body is null or `length + 10 <= 1024`, none otherwise; every datagram goes to the connected address and port |
| `ClientSide.Fits` | src/carbon/CarbonClient.java:62-65 | the size check `data.length + 10 > 1024`: a body is accepted iff it is null or at most 1014 bytes long |
| `ClientSide.CarbonClient.constructor` | src/carbon/CarbonClient.java:32-42 | the connected port is SERVER_PORT; the connection info is the server address plus the port bytes; exactly one CONN frame is sent, 10 bytes long, to the server |
| `ClientSide.CarbonClient.ConnectToServer` | src/carbon/CarbonClient.java:49-59 | `headerConnInfo` is the 4 bytes of `connectedIP` then the port bytes of the field `connectedPort` (not the parameter), 6 bytes; then CONN is sent without body |
| `ClientSide.CarbonClient.SendPacket` | src/carbon/CarbonClient.java:61-82 | appends the frame `label ++ headerConnInfo ++ body` addressed to `connectedIP`/`connectedPort` when the size check passes, nothing otherwise |
| `ServerSide.Fits` | src/carbonserver/CarbonServer.java:226-229 | the size check `data.length + 8 > 1024`: a body is accepted iff it is null or at most 1016 bytes long |
| `ServerSide.Padded` | src/carbonserver/CarbonServer.java:231-232 | the padded label has length max(4, n), begins with the label, and has only spaces after it; a label of 4 or more characters is unchanged |
| `ServerSide.PadLabel` | src/carbonserver/CarbonServer.java:231-232 | the while loop produces exactly `Padded(label)` |
| `ServerSide.Outgoing` | src/carbonserver/CarbonServer.java:225-242 | exactly one datagram when the body fits, none otherwise; it is addressed to the client's IP on CLIENT_PORT |
| `ServerSide.Frame` | src/carbonserver/CarbonServer.java:234-242 | the frame is the padded label's ASCII bytes, then the 4 address bytes, then the body (nothing for null); its length is the padded label's length plus 4 plus the body's |
| `ServerSide.FrameLayout` | src/carbonserver/CarbonServer.java:234-242 | for a label of at most 4 characters the frame has length 8 plus the body length: padded label, client address, body (nothing for null) |
| `ServerSide.ReceiveBuffer` | src/carbonserver/CarbonServer.java:204-206 | the buffer has 1024 bytes: the datagram's bytes, then zeros |
| `ServerSide.ReadHeader` | src/carbonserver/CarbonServer.java:147-155 | the label is the 4 characters of bytes 0-3, the address is bytes 4-7, the port is unset |
| `ServerSide.Split` | src/carbonserver/CarbonServer.java:203-209 | the body is always 1016 bytes, whatever the datagram's length |
| `ServerSide.FrameRoundTrip` | src/carbonserver/CarbonServer.java:203-209 | splitting a server frame gives back the padded label and the address, and a body that is the sent body followed by zeros up to 1016 bytes |
| `ServerSide.LoadedHandlers` | src/carbonserver/CarbonServer.java:164-183 | the table holds exactly CONN, PRNT and DSCN, each bound to its handler |
| `ServerSide.DispatchLoaded` | src/carbonserver/CarbonServer.java:211-215 | an unregistered label and PRNT leave list and outbox unchanged; DSCN sends nothing and applies the DSCN loop; only CONN sends or grows the list |
| `ServerSide.Connect` | src/carbonserver/CarbonServer.java:190-196 | CONN's effect: exactly one datagram is appended, addressed to the header's address on CLIENT_PORT, and exactly one client with that address is appended; earlier entries of both are kept |
| `ServerSide.DscnRemaining` | src/carbonserver/CarbonServer.java:175-182 | the list the DSCN loop leaves: a match is dropped and the client after it is passed over; never longer than the input, and strictly shorter when the first client matches |
| `ServerSide.Dispatch` | src/carbonserver/CarbonServer.java:211-215 | runs the handler registered for the label; an unregistered label changes nothing, and only the CONN handler can send or grow the list |
| `ServerSide.Receive` | src/carbonserver/CarbonServer.java:203-216 | split then dispatch: one received datagram adds at most one client and at most one sent datagram, and never changes what was already sent |
| `ServerSide.ShortConnDatagram` | src/carbonserver/CarbonServer.java:204-209 | a datagram of just "CONN" is dispatched with a zero-filled address and registers 0.0.0.0 |
| `ServerSide.TickSends` | src/carbonserver/CarbonServer.java:107-111 | the packets of one tick: exactly one per client, the i-th addressed to client i's address on CLIENT_PORT |
| `ServerSide.ConnEffect` | src/carbonserver/CarbonServer.java:190-196 | CONN sends one "ACK " packet without body to the sender's address on CLIENT_PORT, then appends the client: the list grows by one, earlier entries unchanged, no duplicate check |
| `ServerSide.DscnOnlyDrops` | src/carbonserver/CarbonServer.java:175-182 | the DSCN result is a sub-multiset of the list, so the list never grows |
| `ServerSide.DscnKeepsOthers` | src/carbonserver/CarbonServer.java:175-182 | every client with another address is kept, in original order |
| `ServerSide.DscnNoMatchUnchanged` | src/carbonserver/CarbonServer.java:175-182 | when no client has the address the list is unchanged |
| `ServerSide.DscnSkipsNext` | src/carbonserver/CarbonServer.java:176-181 | right after the first match is removed, the next client is kept even when it has the same address |
| `ServerSide.DscnRunOfThree` | src/carbonserver/CarbonServer.java:176-181 | of three adjacent clients with the address after a prefix without it, the first is removed, the middle one stays and the scan goes on from the third; with nothing after them the third is removed too |
| `ServerSide.DscnAllMatchKeepsOddPositions` | src/carbonserver/CarbonServer.java:176-181 | when every client has the address, the result is the clients at the 2nd, 4th, ... positions: half the list, rounded down |
| `ServerSide.DscnRemovesAllWithoutAdjacentMatches` | src/carbonserver/CarbonServer.java:176-181 | when no two adjacent clients share the address, every client with that address is removed |
| `ServerSide.TickSendsAll` | src/carbonserver/CarbonServer.java:107-111 | one tick sends exactly one packet per client, in index order: "UPDT", the client's address, body "Update", to CLIENT_PORT |
| `ServerSide.CarbonServer.constructor` | src/carbonserver/CarbonServer.java:55-68 | an empty client list and outbox; the handler table is the one `loadHandlers` fills |
| `ServerSide.CarbonServer.LoadHandlers` | src/carbonserver/CarbonServer.java:164-183 | the table gains CONN, PRNT and DSCN by `put`, other entries unchanged |
| `ServerSide.CarbonServer.SendPacket` | src/carbonserver/CarbonServer.java:225-249 | appends `Outgoing(c, label, data)` to the outbox, and nothing else changes |
| `ServerSide.CarbonServer.HandleConnectionRequest` | src/carbonserver/CarbonServer.java:190-196 | the ACK goes to the outbox first, then the client is appended to the list |
| `ServerSide.CarbonServer.HandleDisconnect` | src/carbonserver/CarbonServer.java:175-182 | the index loop leaves exactly `DscnRemaining(old list, address)` |
| `ServerSide.CarbonServer.ReceivePacket` | src/carbonserver/CarbonServer.java:203-216 | the new list and outbox are `Receive(handlers, old state, datagram)`; the handler table is unchanged |
| `ServerSide.CarbonServer.HeartbeatTick` | src/carbonserver/CarbonServer.java:107-111 | appends `TickSends(clients)` to the outbox and leaves the list alone |
| `Interop.ClientFrameAtServer` | src/carbon/CarbonClient.java:56-67 | the server splits a client frame with a 4-character label into that label and the server's own address, and a body that starts with the 2 port bytes, then the client body, then zeros |
| `Interop.ConnectFromClient` | src/carbon/CarbonClient.java:49-58 | the client's CONN frame makes the server register a client at the server's own address and send "ACK " there |
| `Interop.Handshake` | src/carbonserver/CarbonServer.java:190-196 | a fresh client and server: after one CONN the server holds exactly one client and has sent exactly one ACK |
| `Interop.ReconnectThenDisconnect` | src/carbonserver/CarbonServer.java:175-196 | two CONNs from one address followed by one DSCN leave one client registered |

## Left out

- Console thread, `exit`/`reboot` commands and the reboot loop in `main`: interactive I/O and process control. The model therefore does not capture that `clients` survives a reboot.
- Heartbeat timing (`System.nanoTime`, the floating-point interval, `Thread.sleep`, "Cycle missed"): wall clock and floating point. Only one pass of the per-client loop is modelled.
- The threads, and the unsynchronised sharing of `clients` between the receive loop and the heartbeat thread: concurrency. Operations are modelled one at a time.
- `DatagramSocket` open, send, receive and close, `openSocket`, `shutdownServer`, and the caught `IOException`s: transport I/O. Sends append to `outbox`; a received datagram is given as bytes, cut at 1024 bytes.
- `InetAddress.getByName`, `getLocalHost` and `getByAddress`: name resolution. An address is its 4 bytes.
- UTF-8 encoding and decoding of non-ASCII text: labels sent are ASCII, one byte per character. Received label bytes are read one byte per character. When the first four header bytes are ASCII this is what UTF-8 decoding gives. Otherwise the label matches no handler in Java either, because a non-ASCII byte among the first four makes one of the first four characters non-ASCII. One case differs: 8 header bytes that decode to fewer than 4 characters (for example `E2 82 AC E2 82 AC C3 A9`, "€€é") make `substring(0, 4)` throw. Nothing catches that exception, so the receive loop stops for good. The model instead treats such a datagram as an unknown label and leaves the state unchanged.
- The PRNT handler's `trim` and print: an external effect with no state change, so PRNT is a no-op in the model.
- All `System.out`/`System.err` logging, and the client's `main` with its usage message.
- ServerSide.Fits: lengths are unbounded, so Java's `data.length + 8` overflowing for arrays within 8 of 2^31 elements is not reproduced. ClientSide.Fits has the same gap for `data.length + 10`.
- A `NullPointerException` thrown inside a handler would also be caught by the dispatch's catch. None of the three handlers can throw one here, so this is not modelled.
