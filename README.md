# SocketExample client manager, modelled in Dafny

This project models the hub of a small WebSocket chat server written in Go.
The hub is the `ClientManager`. It keeps the set of connected clients. It
serves three kinds of request, one at a time, in its `start` loop:

- register a client and tell the others it arrived;
- unregister a client, close its `send` channel and tell the others it left;
- broadcast a message to every client, dropping any client whose write loop
  cannot take it at that moment.

Each client also runs two loops. Its read loop turns every inbound payload
into an envelope tagged with the client's id and hands it to the hub. Its
write loop writes what arrives on the client's `send` channel to the socket,
and writes a close frame once the channel is closed.

Files:

- `envelope.dfy`: the `Message` envelope and the two announcement texts.
- `channel.dfy`: a client's `send` channel, as the list of values sent on it
  and a `closed` flag. Go's two run-time panics on closed channels (send on a
  closed channel, close of a closed channel) are explicit `Fail` outcomes.
- `hub.dfy`: the hub's state as a value and its handlers as functions
  (`SendAll`, `Registered`, `Unregistered`, `Broadcasted`, `Step`, `Run`),
  with lemmas about them.
- `manager.dfy`: the `ClientManager` class. Its methods change the member
  set and the channels in place, and loop over the members in an
  unspecified order, as Go's map `range` does. Each method is proved to
  leave the object exactly in the state the matching function of `hub.dfy`
  gives. So the final state of a pass does not depend on the order, and no
  method can panic.
- `peer.dfy`: the read and write loops.

A client is identified by its id. Ids are distinct uuids, so the id stands
for the `*Client` pointer that the Go map is keyed by. The manager's `sends`
map holds the `send` channel of every client it has been handed. The manager
is the only party that sends on these channels or closes them.

The readiness of a client's write loop decides whether the non-blocking send
of the broadcast case succeeds. The model takes it as an input: the set
`ready` of clients whose write loop is waiting at that moment.

Behaviour of the code worth noting:

- Announcements go out through the blocking `send` (websocket.go:88-94). A
  client is only dropped for a failed send in the broadcast case.
- The broadcast case excludes nobody. A sender receives its own message back.
- A client dropped by a broadcast is not announced to the others
  (websocket.go:79-81).
- The `send` channels are unbuffered (main.go:25).

Two datatypes carry the data:

- `Envelope.Message` is the `Message` struct (websocket.go:28-32), with its
  `sender`, `recipient` and `content` fields.
- `Peer.Frame` is what the write loop puts on the socket: a text frame for a
  message (websocket.go:132) or the close frame (websocket.go:128).

## Model

| member | source | states |
|---|---|---|
| Channel.Send | websocket.go:91 | `ch <- m` panics with `SendOnClosed` exactly when the channel is closed. Otherwise `m` is appended to what was sent and the channel stays open. |
| Channel.Close | websocket.go:70 | `close(ch)` panics with `CloseOfClosed` exactly when the channel is already closed. Otherwise the channel is closed and keeps what was sent on it. |
| Hub.SendAll | websocket.go:88-94 | Panics, with a send on a closed channel, exactly when some member other than `ignore` has a closed channel. Otherwise the member set and the known channels are unchanged. Every member but `ignore` gets `m` appended, and every other channel is untouched. |
| Hub.Registered | websocket.go:64-67 | Panics exactly when some member other than `c` has a closed channel. Otherwise the members become the old members plus `c`. `c`'s channel is its existing one, or a fresh one if `c` is new. Every other member gets exactly one connect notice, and non-members are untouched. |
| Hub.Unregistered | websocket.go:68-74 | A non-member leaves the state unchanged. For a member, it panics exactly when some member's channel is closed: a close of a closed channel if it is `c`'s own, a send on a closed channel otherwise. Without a panic, `c` is removed and its channel is closed with its contents kept. Every remaining member gets exactly one disconnect notice, and non-members are untouched. |
| Hub.Broadcasted | websocket.go:75-83 | Panics exactly when some member's channel is closed. Otherwise the members become the members that are also in `ready`. Each ready member gets `m` appended. Each other member's channel is closed with nothing appended. Non-members are untouched. |
| Hub.Step | websocket.go:62-85 | Without a panic, a register adds its client to the members, an unregister removes it, and a broadcast keeps only the ready members. Only a register can add a known channel, namely its client's. |
| Hub.Run | websocket.go:61-86 | Without a panic, serving a trace never loses a known channel. |
| Hub.RegisterAdmits | websocket.go:64-67 | Registering a new client or a member never panics and keeps every member's channel open. The members become the old members plus `c`. Every other member's channel gets exactly one `"/A new socket has connected."` announcement. `c`'s own channel is untouched: still fresh if `c` is new. Non-members' channels are untouched. |
| Hub.RegisterMemberKeepsSet | websocket.go:65 | Registering a client that is already a member leaves the member set unchanged, because the map is keyed by client. |
| Hub.UnregisterRemoves | websocket.go:68-74 | Unregistering a member closes its channel and keeps what was sent on it. It removes the member. Every remaining member's channel gets exactly one `"/A socket has disconnected."` announcement. Non-members are untouched, and the invariant holds afterwards. |
| Hub.UnregisterIdempotent | websocket.go:68-69 | Unregistering a non-member changes nothing: nothing is closed and nothing is announced. So unregistering twice equals unregistering once, which is what the read loop's two unregister requests rely on. |
| Hub.BroadcastOutcome | websocket.go:75-83 | After a broadcast pass, the members are exactly the old members that were ready. Each ready member's channel gets `m` exactly once. Each other member's channel is closed with nothing appended, and that member is removed. Nobody is told of the removals. Non-members are untouched, and no panic occurs. |
| Hub.StepKeepsInvariant | websocket.go:61-94 | Each request keeps every member's channel open and cannot panic. The only new channel it can add is a newly registered client's. |
| Hub.StepExtendsChannels | websocket.go:61-94 | A closed channel is never sent on or closed again. An open channel only grows at its end, by at most one message per request. |
| Hub.StepMembers | websocket.go:63-83 | The member set after a request: a register adds the client, an unregister removes it, a broadcast keeps only the ready members. |
| Hub.NextRequest | websocket.go:61-63 | Proof helper for `Start`: when the `start` loop serves its next request, that request is allowed from the state reached so far. The run extends by that one step, and the known channels grow by at most the registered client. |
| Hub.RegistrationIsNew | main.go:25-27 | Proof helper that unfolds the fresh-registration condition: in a trace of fresh registrations, a registered client is known neither to the initial state nor to any earlier request. |
| Hub.RunKeepsInvariant | websocket.go:61-86 | No sequence of requests the connection handler can produce makes the hub panic: no send on a closed channel and no double close. Every member's channel stays open. The known channels are the initial ones plus the registered clients. |
| Hub.StepKeepsClosed | websocket.go:61-94 | In any state, a request that does not panic leaves every closed channel exactly as it was. |
| Hub.RunKeepsClosed | websocket.go:61-86 | Suppose a run does not panic and a channel is closed at some point of it. Then the rest of the run neither sends on that channel nor closes it again: a removed client receives nothing more. |
| Hub.RunMembership | websocket.go:61-86 | Without broadcasts, the members after any interleaving of register and unregister requests are the initial members, plus those registered, minus those unregistered. This holds provided nobody is registered after being unregistered. |
| Hub.TwoClientSession | websocket.go:61-94 | In the session "a joins, b joins, a says hi, b leaves", a receives the connect notice, its own "hi" and the disconnect notice, in that order. b receives "hi" and then its channel is closed. Only a remains. |
| Manager.ClientManager.constructor | websocket.go:34-39 | A new manager has no clients and no channels, and satisfies the invariant. |
| Manager.ClientManager.Send | websocket.go:88-94 | Ranging over the members in any order and sending to each member except `ignore` leaves exactly the state `SendAll` gives. No send is on a closed channel. |
| Manager.ClientManager.Register | websocket.go:64-67 | Inserting the client and then announcing it leaves exactly the state `Registered` gives, and keeps the invariant. |
| Manager.ClientManager.Unregister | websocket.go:68-74 | Closing, deleting and announcing leaves exactly the state `Unregistered` gives. The channel is closed only if it was open. |
| Manager.ClientManager.Broadcast | websocket.go:75-83 | The in-place pass, deleting members as it goes, in any order, leaves exactly the state `Broadcasted` gives. The result is therefore independent of the order of the map. |
| Manager.ClientManager.Start | websocket.go:61-86 | Serving a trace of requests one at a time leaves exactly the state `Run` gives, and keeps the invariant throughout. |
| Peer.Read | websocket.go:98-117 | The read loop sends one broadcast per inbound payload, in order. Each broadcast carries the client's id as sender, the payload as content and no recipient, and excludes nobody. After the read error it sends two unregister requests for the client: one from the error branch, one from the deferred function. |
| Peer.Write | websocket.go:119-135 | The write loop writes every message sent on the channel as a text frame, in the order sent. When the channel is closed, exactly one close frame follows them and ends the output. There is no close frame while the channel is open. |

## Left out

- HTTP serving and the WebSocket upgrade (main.go:11-31): network I/O in a foreign library.
- Socket calls (`ReadMessage`, `WriteMessage`, `Close`): the read loop takes the payloads read before the first error as a sequence, and the write loop returns the frames it would write. Closing the socket, which the read loop does twice and the write loop once, is not modelled.
- uuid generation: client ids are inputs, assumed distinct.
- JSON encoding with `omitempty`: envelopes stay values, and an empty string stands for an omitted field.
- Goroutines, `select` and channel blocking: the order in which the hub receives requests is the input trace of `Start`/`Run`. Readiness of write loops is the `ready` input. A blocking send that stalls the hub is taken to complete.
- The `start` loop never ends and a socket may never fail: `Start`, `Run` and `Read` work on finite prefixes.
- The package-level `manager` variable: the model builds the manager explicitly.
- Manager.ClientManager.Register: requires `c` to be a member or a client the manager has never seen. Re-registering a removed client is outside this contract. In Go that would put a closed channel back among the members, and the next send would panic. The connection handler always registers a freshly made client, so this never arises.
- Aliasing of `Client` objects: each client's channel lives in the manager's `sends` map rather than in a `Client` object shared with its two loops. The write loop is given the channel's value.
- A panic part-way through a loop is modelled as the whole request failing. The partial state of a crashed process is not kept.
