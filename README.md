# Chitty-Chat: a Lamport-clock chat server and its clients

Chitty-Chat is a gRPC chat service. One server, named "Chitty-Chat", keeps
a Lamport logical clock and the list of callback ports of the clients that
joined. Each client keeps its own Lamport clock. A client ticks and asks to
join. The server merges the joiner's stamp into its clock and appends the
joiner's port to its list. It then calls back every registered port, the
joiner's included, ticking once before each call. Each called client merges
the stamp it receives. After its join call, a client sends every line typed
into it. The server answers each well-formed line with its name; a line
that is not well-formed UTF-8 fails on the client.

The model is sequential Dafny, one module per component:

- `utf8.dfy` (module `Utf8`): well-formed UTF-8 per the byte-sequence syntax
  of section 4 of RFC 3629, which is what Go's `utf8.ValidString` accepts.
  It also has the section 3 encoding as a reference encoding: every
  encoded text is well-formed.
- `clock.dfy` (`LamportClock`): the receive rule `Merge`, and histories of
  ticks and receipts with their monotonicity and causality lemmas.
- `proto.dfy` (`Proto`): the RPC messages `ClientInfo` and `ServerInfo`. A
  field the sender leaves unset is its zero value, as in proto3.
- `client.dfy` (`ChatClient`): class `Client` with its clock field. It has
  the join-request tick, the `ClientJoinReturn` callback and the shutdown
  tick, plus the message validity check.
- `server.dfy` (`ChatServer`): class `Server` with `lamportTime` and the
  `participants` sequence, and its two handlers. `Join` is the value-level
  specification of the join handler and `Broadcast` is that of its loop.
- `session.dfy` (`ClientSession`): a client's session (`waitForJoinRequest`):
  join, then publish each input line. It also holds a two-client trace.

Outbound callbacks are real calls. `ParticipantJoins` takes `network`, the
clients listening on callback ports. For each registered port it runs the
`ClientJoinReturn` of the client bound to that port. If no client is bound
there, the callback fails. In both cases the reply or error is dropped and
the loop goes on. The method also returns the calls it made, as a
sequence of `(port, request)` pairs. The clock of each client in `network`
is proved equal to its old clock run through the stamps addressed to its
port (`ReceivedBy`). The clients in `network` are those that listen on
their own `portNumber` (`Listening`): a TCP port from 1 to 65535, no two
alike. This matches the code. A client whose `net.Listen` fails (a port in
use, or one out of range) exits through `log.Fatalf` (client/client.go:64-67).
A client started without `-cPort` gets port 0 (client/client.go:27), and
`net.Listen` on port 0 binds an ephemeral port, so the server's callback to
port 0 fails. Such a client is not in `network`: its join still registers
port 0, its notification fails, and its clock is only its own tick
(`WaitForJoinRequest`, `DefaultPortJoin`).

Where the code and the usual description of the protocol differ, the model
follows the code:

- A client ticks before its join request, so a fresh client's first join
  arrives stamped 2, not 1. The two-client trace (`TwoJoinsTrace`,
  `TwoClientsJoin`) therefore ends at server 7 and clients 8 and 9.
- The client ignores the clock in the join reply (client/client.go:85). It
  does not merge it.
- Every input line is sent, valid or not. The validity check only chooses
  which line is logged (client/client.go:103-113). `message` is a proto3
  `string` field, and the Go protobuf encoder refuses to marshal one that
  is not well-formed UTF-8 (`Proto.Encodable`). So a malformed line fails
  on the client and never reaches the server. The `.proto` file is not
  part of this model. That the messages are proto3 is inferred from the
  generated Go fields: `Message` is a `string` and the numbers are plain
  `int64` values, not pointers (client/client.go:86-88, 111-112). An
  over-long line that is well-formed does reach it and is answered.
- A publish carries no clock, and neither side's clock changes on publish.
- The joiner receives its own join notification.
- The length bound counts bytes, as Go's `len` does, although the log
  message speaks of characters. So a text of 32 characters always passes,
  and one of more than 128 never does (`ValidMessageOfText`).

## Model

| member | source | states |
|---|---|---|
| `LamportClock.Merge` | server/server.go:88-91 | the receive rule: the result exceeds both the local clock and the received stamp, and is one more than one of them, so it is the least such value |
| `LamportClock.Step` | client/client.go:137-140 | each clock event (tick or receipt) strictly advances the clock, and a receipt leaves it above the received stamp |
| `LamportClock.Run` | client/client.go:82 | after a history of events the clock is at least its start plus the number of events |
| `LamportClock.RunAdvances` | client/client.go:82 | along any history of ticks and receipts the clock rises by at least one per event: never decreasing, strictly increasing on each event |
| `LamportClock.RunAboveReceived` | client/client.go:137-140 | causality: after a stamp has been received, the clock stays strictly above it for the rest of the history |
| `Utf8.ValidUtf8` | client/client.go:103 | a well-formed sequence never starts with a continuation byte, and every all-ASCII sequence is well-formed |
| `Utf8.FirstCharLength` | client/client.go:103 | the length of the well-formed first character (0 if none) is at most 4 and at most the input's length, and it is 1 exactly for an ASCII byte |
| `Utf8.FirstCharLengthPrefix` | client/client.go:103 | a well-formed first character is recognised the same whatever follows it |
| `Utf8.ConcatValid` | client/client.go:103 | two well-formed UTF-8 byte sequences concatenate to a well-formed one |
| `Utf8.EncodeScalar` | client/client.go:103 | every Unicode scalar value encodes to 1 to 4 bytes forming exactly one well-formed character |
| `Utf8.Encode` | client/client.go:103 | an encoded text has between 1 and 4 bytes per character |
| `Utf8.EncodeValid` | client/client.go:103 | every encoded text is well-formed UTF-8, so the validity check accepts it when it fits the length bound |
| `ChatClient.ValidMessage` | client/client.go:103 | no line of more than 128 bytes passes, and an all-ASCII line passes exactly when it has at most 128 bytes |
| `ChatClient.ValidMessageOfText` | client/client.go:103 | an encoded text passes the check iff its byte length is at most 128; any text of at most 32 characters passes, and none of more than 128 does |
| `ChatClient.Client.constructor` | client/client.go:37-41 | a new client has the given id and port and a clock of 1 |
| `ChatClient.Client.RequestJoin` | client/client.go:82-88 | the clock takes exactly one `Tick` step, and the join request carries the client's id, the new clock and the client's port |
| `ChatClient.Client.ClientJoinReturn` | client/client.go:135-147 | the clock takes one `Receive` step on the received stamp (the merge of the old clock and the stamp), and the reply carries exactly that post-merge clock |
| `ChatClient.Client.Disconnect` | client/client.go:54 | shutdown takes exactly one `Tick` step |
| `ChatServer.Broadcast` | server/server.go:98-114 | the broadcast loop as a step-by-step fold; closed form: one notification per port in list order, the k-th stamped `clock + 1 + k`, and the clock ends higher by the number of ports |
| `ChatServer.Join` | server/server.go:86-118 | the participant list becomes the old one with the joiner's port appended; there are as many notifications as registered ports; the final clock and the reply both equal `merge + |new participants|` |
| `ChatServer.JoinNotifications` | server/server.go:98-109 | the k-th notification goes to the k-th registered port (the joiner's last), names the joiner, and carries `merge + 1 + k` |
| `ChatServer.JoinStampsIncrease` | server/server.go:102-108 | the stamps of one join are consecutive, hence strictly increasing |
| `ChatServer.JoinStampsBounded` | server/server.go:88-108 | every stamp of a join, the first and the last included and also when the joiner is alone, exceeds the joiner's stamp and the old server clock and is at most the new server clock; the last equals the new server clock |
| `ChatServer.JoinAdvancesClock` | server/server.go:88-102 | a join raises the server clock by at least two and leaves it above the joiner's stamp plus the number of notifications |
| `ChatServer.JoinAll` | server/server.go:94-95 | a series of joins registers exactly one port per request |
| `ChatServer.Ports` | server/server.go:95 | the joiners' ports, in arrival order |
| `ChatServer.JoinAllAppends` | server/server.go:94-95 | over any series of joins the participant list is the initial list followed by the joiners' ports in arrival order, repeats included |
| `ChatServer.JoinAllAdvances` | server/server.go:88-102 | over any series of joins the server clock rises by at least two per join |
| `ChatServer.JoinTwiceSamePort` | server/server.go:94-95 | no deduplication: two joins from one port add that port twice |
| `ChatServer.ReceivedBy` | server/server.go:98-109 | what one port receives is at most as long as the broadcast and consists of receipts only |
| `ChatServer.ReceivedByFrom` | server/server.go:98-109 | each receipt of a port is the stamp of a notification addressed to that port |
| `ChatServer.ReceivedByComplete` | server/server.go:98-109 | each notification addressed to a port is among that port's receipts |
| `ChatServer.Origin` | server/server.go:98-109 | the i-th receipt of a port comes from a notification addressed to that port and carries its stamp |
| `ChatServer.ReceivedInOrder` | server/server.go:98-109 | receipts keep send order: a later receipt comes from a strictly later notification, so none is received twice |
| `ChatServer.OriginOnto` | server/server.go:98-109 | every notification addressed to a port is the origin of one of its receipts, so a port registered twice receives both stamps |
| `ChatServer.ReceivedByEmpty` | server/server.go:98-109 | a port receives nothing exactly when no notification is addressed to it |
| `ChatServer.DeliveryStep` | server/server.go:106-109 | one notification changes the addressed client's clock by the receive rule and leaves every other client's clock alone |
| `ChatServer.ReceivedAbove` | server/server.go:102-108 | causality across the network: a client that was notified ends with a clock strictly above every stamp it was sent |
| `ChatServer.Lookup` | server/server.go:121-128 | the client listening on a port is found if there is one; otherwise no client listens on it and the callback fails |
| `ChatServer.Server.constructor` | server/server.go:34-39 | a new server is named "Chitty-Chat", has clock 1 and no participants |
| `ChatServer.Server.ParticipantMessages` | server/server.go:78-83 | the publish reply carries the server's name and no clock; the handler changes nothing |
| `ChatServer.Server.NotifyParticipant` | server/server.go:100-112 | one loop pass: the server clock ticks once; the notification carries the joiner's id and the new clock; only the client on that port merges it, and a failed call changes nothing |
| `ChatServer.Server.ParticipantJoins` | server/server.go:86-118 | the new server state, the calls made and the reply are those of `Join`; each listening client's clock is its old clock run through the stamps addressed to its port, whatever the other callbacks did |
| `ClientSession.PublishLines` | client/client.go:99-120 | every input line is sent, valid or not, carrying the client id and the text but no clock; the check's verdict is recorded; a line that is well-formed UTF-8 is answered with the server's name, and any other line's call fails |
| `ClientSession.WaitForJoinRequest` | client/client.go:78-121 | the join request is stamped with the client clock plus one; the server state and calls are those of `Join`; the client's clock is that tick followed only by the notifications it receives, since the join reply's clock is ignored; then every line is sent as in `PublishLines` |
| `ClientSession.TwoJoinsTrace` | server/server.go:86-118 | two fresh clients joining a fresh server: the first join ends the server at 4 with one notification stamped 4; the second at 7 with notifications stamped 6 and 7 |
| `ClientSession.TwoJoinsDeliveries` | client/client.go:135-147 | in that trace the first client goes from 2 to 5 and then to 7; the second goes from 2 to 8 |
| `ClientSession.TwoClientsJoin` | client/client.go:32-56 | running that trace on objects, ending with both shutdown ticks, leaves the server at 7 and the clients at 8 and 9 |
| `ClientSession.DefaultPortJoin` | client/client.go:27 | a client left on the default port 0 joins a fresh server: the server registers port 0 and ends at 4 with one notification stamped 4, which fails, so the client ends at 2 |

## Left out

- gRPC transport: server registration, `grpc.Dial`, `net.Listen`, `Serve`
  and the `log.Fatalf` exits (server/server.go:54-75, 121-128;
  client/client.go:58-76, 123-132). These are plumbing. A callback to a
  port where no client listens is modelled as a failed call.
- Command-line flags, waiting for the interrupt signal and reading standard
  input (client/client.go:26-56, 99-101; server/server.go:27-52). These are
  I/O. The input lines become a parameter, and the shutdown becomes
  `Disconnect`.
- Goroutines and concurrent handling of calls. All handlers run
  sequentially. The gRPC server would run a client's `ClientJoinReturn`
  while that client's own join call is still pending. The model runs it
  inside the join call instead, which gives the same clocks.
- All `log.Printf` output. `PublishLines` records which log line the
  validity check selects, not its text.
- Go's `int`/`int64` widths and overflow. Clocks, ids and ports are
  unbounded integers.
- Transport errors of the join and publish calls on the client side. The
  server's handlers always return a nil error, so in the model the join
  call always succeeds. A publish call fails only when its line cannot be
  encoded (`PublishLines`). A broken connection is not modelled.
- Deadlines. Every call uses `context.Background()`, which has none
  (server/server.go:106; client/client.go:85, 110). A client that accepts
  a callback but never answers would stall the broadcast loop, and with
  it the joiner's reply. In the model every call returns.
- The `bufio.Scanner` token-size limit on input lines.
