# mzq in Dafny: bounded queue, transport and peer broker

This project models the sequential core of mzq, a small message broker for Go.
A node runs a broker. The broker keeps a store of peer nodes, exchanges a
connect / connect-ack handshake with them, routes payloads to named local
queues, and notifies peers with a leave message when it closes. The broker
sits on a TCP transport that frames messages with a zero byte and feeds one
bounded inbound buffer. A node's queues are fixed-size circular buffers.

Files:

- `wrappers.dfy` (module `Wrappers`): `Option` and `Result`.
- `queue.dfy` (module `Queue`): the circular buffer from `queue/queue.go`.
  - `Ring` is a value snapshot of the queue's fields.
  - `PutStep` and `GetStep` are the field updates that `Put` and `Get` make.
  - `Contents` is the abstract FIFO sequence.
  - The class `Queue` keeps the Go code's `items` array and its `head`, `tail`,
    `state` and `size` fields, and is proved against `PutStep` and `GetStep`.
- `msg.dfy` (module `Msg`): the transport from `msg/msg.go`.
  - Zero-byte framing and its round trip.
  - The connection registry keyed by remote address.
  - `OpenConnection`'s choice between reusing a connection and dialing.
  - The 10-slot inbound buffer that drops messages when full.
  - A connection's receive loop, as a method of `MessageServer`.
- `bro.dfy` (module `Bro`): the broker from `bro/bro.go`.
  - The peer store as pure transition functions, plus the `PeerStore` class
    whose looping methods are proved equal to them.
  - The receive loop's dispatch on one message (`OnMessage`), proved through
    the store's own methods in `Broker.HandleMessage`.
  - `SendMsg` routing, `Close`, the manager's queue registry and delivery
    (`Manager`), the option checks and the dial loop of broker creation.

Modelling conventions:

- Connections are natural-number handles. `Bro.Conn` adds `NilConn` for the
  nil `*msg.Connection` left behind when a dial fails.
- JSON envelopes become the `Envelope` datatype. A malformed envelope or an
  unknown message name is `Other`.
- Network outcomes are inputs: whether a dial succeeds, a bind succeeds or a
  write succeeds, and the bytes a connection delivers.
- What a step does outside the broker is returned as a list of `Effect`
  values: a frame written on a connection, a connection closed, or a
  delivery request handed to the manager.
- Where the Go code dereferences a nil connection or indexes out of range, the
  modelled outcome is `Panicked(...)`. A delivery to a nil queue is the
  `NilQueuePanic` outcome of `Bro.Manager.Deliver`. In Go such a panic
  crashes the process. One panic is a precondition instead: a negative size
  in `Queue.Queue.NewQueue`, listed under "Left out".
- Go's `int` is taken to be 64 bits wide, as it is on 64-bit platforms (`Bro.MaxInt`). `Bro.AddInt` is its wrapping
  addition.
- Blocking waits become preconditions: `Get` requires a non-empty queue, `Put`
  a non-full one, and `Receive` a non-empty buffer.

Where the specification and the code disagree, the model follows the code:

- A connection's receive loop deregisters its address on every exit,
  including an unexpected read error (the `defer` at `msg/msg.go:51`).
- `OpenConnection` does not register a dialed connection itself. Its receive
  loop does, when it starts (`msg/msg.go:49`, `msg/msg.go:132`).
- Runtime protocol errors can panic rather than be dropped:
  - a leave for an unknown peer (`bro/bro.go:402-406`);
  - a send to an unknown or not-Up peer (`bro/bro.go:296-308`);
  - a connect-ack whose id is negative or the largest int. For the largest
    int, `conID+1` wraps around and passes the bounds check
    (`bro/bro.go:138-141`);
  - a connect whose dial back fails (`bro/bro.go:344-371`);
  - a delivery to a registered nil queue (`bro/bro.go:259`, `bro/bro.go:279`).
- Broker creation skips a peer address whose dial fails, and still returns the
  broker (`bro/bro.go:464-469`).
- The "upsert failed" drop on connect cannot happen, because `updConn` always
  reports success (`bro/bro.go:171`). `PeerStore.UpdConn`'s contract states
  this.

## Model

| member | source | states |
|---|---|---|
| Queue.Count | queue/queue.go:7-23 | the number of queued items is at most the size, is 0 exactly when the state is empty, and equals the size exactly when the state is full |
| Queue.PutStep | queue/queue.go:70-76 | Put's field update keeps the representation invariant and the size, and stores v at the old tail (contents: Queue.PutStepSpec) |
| Queue.GetStep | queue/queue.go:49-55 | Get's field update keeps the invariant and writes no slot (contents: Queue.GetStepSpec) |
| Queue.PutStepSpec | queue/queue.go:70-76 | a put on a non-full queue keeps the invariant (indices in range; head == tail exactly when empty or full) and appends v to the contents; the state becomes full exactly when the count reaches the size |
| Queue.GetStepSpec | queue/queue.go:49-55 | a get on a non-empty queue keeps the invariant, returns the oldest item and removes it from the contents; the state becomes empty exactly when the count reaches 0 |
| Queue.PutAll | queue/queue.go:61-78 | puts that do not overfill the queue append exactly their items to the contents, in order |
| Queue.GetAll | queue/queue.go:40-58 | n gets return the first n items of the contents, and the rest remain |
| Queue.Fifo | queue/queue_test.go:42 | on an empty queue, N <= size puts followed by N gets return the items in put order and leave the queue empty |
| Queue.Queue.constructor | queue/queue.go:30-36 | a new queue of size slots is valid and empty, with head = tail = 0 |
| Queue.Queue.NewQueue | queue/queue.go:26-37 | size 0 gives nil; a positive size gives a fresh, valid, empty queue with head = tail = 0 and that many slots |
| Queue.Queue.Get | queue/queue.go:40-58 | when not empty: returns items[head], advances head modulo size, writes no slot, returns the first queued item and drops it from the contents; empty exactly when nothing is left |
| Queue.Queue.Put | queue/queue.go:61-78 | when not full: writes only slot tail, advances tail modulo size, appends v to the contents; full exactly when the count equals the size |
| Queue.Queue.PutNoWait | queue/queue.go:97-110 | reports full exactly when the queue was full, and then changes nothing; otherwise it behaves as Put (polarity as at bro/bro.go:279) |
| Queue.Queue.GetNoWait | queue/queue.go:81-95 | returns nothing exactly when the queue was empty, and then changes nothing; otherwise it returns the oldest item as Get does |
| Msg.FirstZero | msg/msg.go:54 | finds the index of the first zero byte, or reports that there is none |
| Msg.ReadBytes | msg/msg.go:54-64 | a read ends at the first zero (data ends with it, contains no earlier zero, data + rest is the input); with no zero, it returns everything with the error that ended the stream |
| Msg.Frame | msg/msg.go:147-151 | the bytes Send writes for a zero-free payload have their first zero at the end, right after the payload |
| Msg.Frames | msg/msg.go:53-68 | the payloads the receive loop cuts from a stream contain no zero byte (round trip: Msg.FramingRoundTrip) |
| Msg.ReadBytesOfFrame | msg/msg.go:147-151 | the bytes Send writes for a zero-free payload are payload + [0], and one read of them returns exactly that frame |
| Msg.FramingRoundTrip | msg/msg.go:65-68 | splitting the concatenated frames of zero-free payloads on zero and dropping each terminator gives back the payloads in order, whatever unterminated bytes follow |
| Msg.Tagged | msg/msg.go:65-68 | each message carries the connection's remote address and one payload, in order |
| Msg.Offer | msg/msg.go:70-74 | one non-blocking send keeps the buffer's contents as a prefix and never takes it past 10 |
| Msg.OfferAll | msg/msg.go:53-75 | successive non-blocking sends never take the buffer past 10 (exact result: Msg.OfferAllSpec) |
| Msg.OfferAllSpec | msg/msg.go:70-74 | the buffer never holds more than 10 messages, keeps its contents, and takes arrivals in order until full; later ones are dropped |
| Msg.GetConn | msg/msg.go:40-46 | the registry lookup returns the connection registered for the address exactly when there is one |
| Msg.OpenConnection | msg/msg.go:118-138 | a registered address is reused without dialing; otherwise a failed dial is a connect error and a successful one returns the new connection; the registry is not changed |
| Msg.MessageServer.CreateServer | msg/msg.go:89-103 | a bind failure is a BindError; otherwise a fresh server with an empty registry and buffer |
| Msg.MessageServer.constructor | msg/msg.go:90-94 | the server literal: the given address, an empty registry and an empty buffer, which is within its capacity of 10 |
| Msg.MessageServer.AddConn | msg/msg.go:26-31 | maps the remote address to the connection, replacing any earlier entry |
| Msg.MessageServer.RemoveConn | msg/msg.go:33-38 | deletes that address and no other entry |
| Msg.MessageServer.Push | msg/msg.go:70-74 | queues the message exactly when the buffer holds fewer than 10; otherwise drops it without blocking |
| Msg.MessageServer.Receive | msg/msg.go:140-144 | returns the oldest buffered message and removes it |
| Msg.MessageServer.Receiver | msg/msg.go:48-76 | the buffer ends as the connection's frames, tagged with its address, offered in order; the address is deregistered on every exit |
| Bro.FirstNamed | bro/bro.go:82-83 | finds the first slot carrying the name, or reports that no slot does |
| Bro.PeerByName | bro/bro.go:81-91 | not-found exactly when no slot has the name; otherwise the first such slot decides: its connection if Up, a state error if not |
| Bro.PeerStore.constructor | bro/bro.go:66-68 | a new peer store holds no slots |
| Bro.PeerStore.GetPeerByName | bro/bro.go:81-91 | the read-only search gives the by-name lookup's answer |
| Bro.Added | bro/bro.go:109-119 | addPeer appends one slot (Down, the given address and connection, no name) and keeps every existing slot |
| Bro.PeerStore.AddPeer | bro/bro.go:109-119 | the store after addPeer, and the returned id is the old length, naming the new slot |
| Bro.Upserted | bro/bro.go:150-172 | updConn's store: one slot longer exactly when no slot has the name, and slots with other names are untouched (its lookup properties are Bro.UpsertedSpec) |
| Bro.UpsertedSpec | bro/bro.go:150-172 | after updConn the name is reachable through the new connection; no slot loses its address or name; every other name looks up the same |
| Bro.PeerStore.UpdConn | bro/bro.go:150-172 | updates the first slot with the name (connection, receive address, Up) or appends a new Up slot, and always returns (conn, true) |
| Bro.Acked | bro/bro.go:141-147 | updConn2's store: same length, only slot id can change, and that slot keeps its address and connection (its lookup properties are Bro.AckedSpec) |
| Bro.AckedSpec | bro/bro.go:134-148 | a rejected ack changes nothing; when no earlier slot carries the name, an accepted ack makes it reachable through the slot's own connection; slots keep their identity; lookups of names other than the acked name and the slot's previous name are unchanged |
| Bro.PeerStore.UpdConn2 | bro/bro.go:134-148 | panics exactly when the wrapping check conID+1 > len lets an id through that is not a slot; fails and changes nothing when the check rejects the id or the slot has another name; otherwise sets the name, receive address and Up, keeps the address and connection, and returns the connection |
| Bro.AddInt | bro/bro.go:138 | Go's int addition gives an int, and the exact sum whenever that fits |
| Bro.AckIndexPanicsIff | bro/bro.go:138-141 | for a store whose length fits in an int, updConn2 indexes out of range exactly for a negative id and for the largest int |
| Bro.AckWithLargestIdPanics | bro/bro.go:378-386 | a connect-ack carrying the largest int id panics with index out of range and changes nothing |
| Bro.Leaving | bro/bro.go:125-130 | updLeaving's store: only states change, and only in a slot carrying the name (its lookup properties are Bro.LeavingSpec) |
| Bro.LeavingSpec | bro/bro.go:121-132 | after updLeaving the name can no longer be sent to; slots are kept; other names look up the same |
| Bro.PeerStore.UpdLeaving | bro/bro.go:121-132 | closes the first slot with the name and returns its connection; without one, reports not-found and leaves the store unchanged |
| Bro.ClosedAll | bro/bro.go:98-105 | updClosing's store: only states change, and no slot is Up (lookups: Bro.ClosedAllSpec) |
| Bro.UpConns | bro/bro.go:94-106 | updClosing's result has at most one connection per slot (exactly one per Up slot: Bro.UpConnsCount, Bro.UpConnsFromUpSlots) |
| Bro.ClosedAllSpec | bro/bro.go:93-107 | after updClosing no slot is Up and no name can be sent to; slots are kept |
| Bro.CloseIdempotent | bro/bro.go:93-107 | closing twice is closing once, and the second close returns no connection |
| Bro.UpConnsCount | bro/bro.go:98-104 | updClosing returns as many connections as there are Up slots |
| Bro.UpConnsFromUpSlots | bro/bro.go:101-103 | every connection updClosing returns is the connection of an Up slot |
| Bro.PeerStore.UpdClosing | bro/bro.go:93-107 | marks every Up slot Closed, leaves Down and Closed slots alone, and returns the Up slots' connections in store order |
| Bro.IdsStayValid | bro/bro.go:109-172 | after any sequence of store operations the store has not shrunk, and each index keeps its dial address and any name once set |
| Bro.ApplyIsLocal | bro/bro.go:93-172 | each store operation changes at most the one slot it touches (updClosing changes only states), moves no slot, keeps every dial address, and changes a slot's connection only when updConn is applied to its name |
| Bro.OnMessage | bro/bro.go:332-411 | one receive step writes at most one frame and none unless it completes; only connect, connect-ack and leave change the store; a panic is a nil connection or an index out of range (handshake: Bro.Handshake; slot identity: Bro.OnMessageKeepsSlots) |
| Bro.OnMessageKeepsSlots | bro/bro.go:332-411 | no receive step removes a slot or changes a slot's address or set name |
| Bro.LeaveOfUnknownPeerPanics | bro/bro.go:402-406 | a leave for a name no slot carries closes a nil connection |
| Bro.Handshake | bro/bro.go:335-391 | A's connect{a, id} makes a reachable at B through B's connection back and is acknowledged with connect-ack{b, id}; when A has no slot named b yet, that ack makes b reachable at A through the connection A dialed, in the slot numbered id |
| Bro.Broker.HandleMessage | bro/bro.go:332-411 | one receive step through the store's methods equals OnMessage, with the connection OpenConnection gives back to the sender |
| Bro.Broker.ReceiverStep | bro/bro.go:318-411 | takes the oldest inbound message and handles its decoded envelope as HandleMessage does |
| Bro.SendMsg | bro/bro.go:288-315 | a send produces one effect unless it panics on a nil connection, and reports failure only when the write fails; a remote send panics exactly when the lookup fails or finds a nil connection, because the lookup's error is overwritten (routing: Bro.LocalSendStaysLocal, Bro.SendToUpPeer, Bro.SendAfterClosePanics) |
| Bro.LocalSendStaysLocal | bro/bro.go:289-293 | a send to the node's own name hands (queue, data) to the manager and succeeds, whatever the store holds |
| Bro.SendToUpPeer | bro/bro.go:296-314 | a send to a peer whose first slot with that name is Up and holds a real connection writes one payload frame on that connection and fails only when the write fails |
| Bro.SendAfterClosePanics | bro/bro.go:296-308 | after Close, a send to any other node reaches Send on a nil connection |
| Bro.Leaves | bro/bro.go:223-246 | Close's loop ends done or in a nil-connection panic, and what it writes is leave{own name} on the leading connections in order (all of them when none is nil: Bro.LeavesSpec) |
| Bro.LeavesSpec | bro/bro.go:223-246 | with real connections, Close writes exactly one leave{own name} per connection, in order; no write outcome stops the loop |
| Bro.Broker.Close | bro/bro.go:220-247 | the store becomes updClosing's result, and the leaves sent are those of the Up slots' connections |
| Bro.DialLoop | bro/bro.go:464-496 | the dial loop over n addresses appends as many slots as it sends connects, at most n (id correlation: Bro.DialLoopIds) |
| Bro.DialLoopIds | bro/bro.go:464-496 | the k-th connect goes out on the k-th added slot's connection and carries that slot's index in the store |
| Bro.Broker.ConnectPeers | bro/bro.go:464-496 | a failed dial skips its address; each successful one appends a Down slot and sends connect{own name, id}, as DialLoop describes |
| Bro.CheckOptions | bro/bro.go:422-443 | accepted exactly when own-name and own-addr are strings and addrs is a string list; a missing own-name is rejected; a non-string own-name panics |
| Bro.Broker.CreateBrokerV2 | bro/bro.go:421-499 | the option errors and bind errors give no broker; otherwise the broker has an empty registry, buffer and queue map, and its store is what the dial loop appended |
| Bro.Broker.constructor | bro/bro.go:451-459 | the broker literal: own name and address from the options, the given server, a fresh empty peer store and a fresh manager with no queues and the given decoder |
| Bro.Manager.constructor | bro/bro.go:249-250 | the manager starts with no queues |
| Bro.Manager.Register | bro/bro.go:255-261 | inserts or replaces name -> queue and replies nil |
| Bro.Manager.Unregister | bro/bro.go:256-261 | deletes the name and replies nil |
| Bro.Manager.Deliver | bro/bro.go:264-282 | an empty or unregistered name changes nothing; a nil queue panics; otherwise only that queue changes, by PutNoWait of the decoder's value (or the raw bytes), dropped when full |

## Left out

- Goroutines, channels and locks. Each locked operation is one atomic step.
  The receive loop, the manager loop and the acceptor run as separate calls,
  so interleavings between them are not modelled. The concurrent stress test
  in `queue/queue_test.go` is not modelled.
- `encoding/json` marshalling. Protocol messages are the `Envelope` datatype,
  and the decoding is a function parameter of `Bro.Broker.ReceiverStep`.
  Marshal failures on the sending side cannot happen for these records and
  are not modelled.
- Real TCP: listening, accepting, dialing, writing and closing sockets, and the
  acceptor's panic on an accept error. Their outcomes are inputs or returned
  effects.
- The `Decoder` transform is an uninterpreted function value.
- `debugPrint` and `getPrint`, which only print diagnostics.
- The funl glue files `bro/brofunl.go`, `msg/msgfunl.go` and
  `queue/queuefunl.go`, which only convert interpreter values.
- `bufio.NewReader` is created anew on every read and can discard read-ahead
  bytes. The framing model assumes ideal splitting on zero.
- Peer records are `*peerInfo` pointers in Go and values in a sequence here.
  The pointers never leave the store, so no aliasing is lost.
- Queue.Queue.NewQueue: a negative size panics in Go's slice allocation. The
  model makes that a precondition instead of a panic outcome.
- Queue.Queue.Get: the spin-wait for an item is a precondition.
- Queue.Queue.Put: the spin-wait for a free slot is a precondition.
- Msg.MessageServer.Receive: the wait for a buffered message is a
  precondition.
- Msg.MessageServer.Receiver: the whole byte stream of a connection is one
  input, with no receives interleaved between the loop's pushes.
- Bro.PeerStore.UpdConn2: the id must fit in a 64-bit int, as a Go `int`
  does. The index panic is reported through the `panicked` out-parameter
  rather than by stopping.
- Bro.Manager.Register: requires that distinct registered queues do not share
  a slot array. Go queues never share one, because each `NewQueue` allocates
  its own.
- Bro.Broker.CreateBrokerV2: the receiver and manager goroutines it starts are
  not started here. Messages they could process while the dial loop runs are
  not modelled. The dial loop reads the registry as created, which is empty.
- Bro.Broker.Close: a failed leave write is only logged in Go. The model
  records every write as an effect and leaves write outcomes to the transport.
