/**
 * The broker: the peer store with its handshake-driven state machine, the
 * receive loop's dispatch of protocol messages, SendMsg's routing, Close, the
 * manager's queue registry and delivery, and broker creation.
 *
 * JSON envelopes are replaced by the Envelope datatype. What a step does
 * outside the broker's own state (a frame written on a connection, a
 * connection closed, a delivery request handed to the manager) is returned as
 * a list of effects. Where the Go code dereferences a nil connection or indexes
 * out of range, the step's status is Panicked.
 */
module Bro {
  import opened Wrappers
  import Queue
  import opened Msg

  datatype PeerState = Down | Up | Closed

  /** A peer's connection; NilConn is the nil pointer left when a dial failed. */
  datatype Conn = NilConn | Conn(handle: nat)

  /** One peer record: logical name, dial address, announced receive address,
      connection and state. */
  datatype Peer = Peer(name: string, addr: string, recAddr: string, conn: Conn, state: PeerState)

  /** A protocol message after decoding. Other stands for an undecodable
      envelope or inner record and for an unknown message name. */
  datatype Envelope =
    | Connect(name: string, id: int)
    | ConnectAck(name: string, id: int)
    | Leave(name: string)
    | Payload(qname: string, data: Bytes)
    | Other

  /** A delivery request for the manager. */
  datatype PayloadMsg = PayloadMsg(queueName: string, data: Bytes)

  datatype Effect =
    | Write(conn: nat, env: Envelope)
    | CloseConn(conn: nat)
    | ToManager(msg: PayloadMsg)

  datatype PeerError = PeerNotFound(name: string) | InvalidState(state: PeerState)

  datatype ConfigError = OwnNameMissing | OwnAddrMissing | OwnAddrNotString | AddrsMissing | AddrsNotList

  datatype BrokerError = SendFailed | BadConfig(reason: ConfigError) | ServerFailed(cause: TransportError)

  datatype PanicKind = NilConnection | IndexOutOfRange | OwnNameNotString

  /** How a step ended: done, dropped (logged and ignored), an error returned
      to the caller, or a runtime panic. */
  datatype Status = Done | Dropped | Failed(err: BrokerError) | Panicked(kind: PanicKind)

  /** Go's `int` is 64 bits wide: its largest value, and whether a number fits. */
  const MaxInt: int := 0x7fff_ffff_ffff_ffff

  predicate InInt(x: int)
  {
    -MaxInt - 1 <= x <= MaxInt
  }

  /** Go's `+` on `int`, which wraps around in two's complement. */
  function AddInt(a: int, b: int): (r: int)
    requires InInt(a) && InInt(b)
    ensures InInt(r)
    ensures InInt(a + b) ==> r == a + b
  {
    if a + b > MaxInt then a + b - 2 * (MaxInt + 1)
    else if a + b < -MaxInt - 1 then a + b + 2 * (MaxInt + 1)
    else a + b
  }

  // ---------------------------------------------------------------------------
  // The peer store as values

  /** The first slot with a given name: the slot every by-name operation acts on. */
  function FirstNamed(peers: seq<Peer>, name: string): (r: Option<nat>)
    ensures r.Some? ==> r.value < |peers| && peers[r.value].name == name
    ensures r.Some? ==> forall j :: 0 <= j < r.value ==> peers[j].name != name
    ensures r.None? <==> forall j :: 0 <= j < |peers| ==> peers[j].name != name
  {
    if peers == [] then None
    else if peers[0].name == name then Some(0)
    else
      match FirstNamed(peers[1..], name)
      case None => None
      case Some(k) => Some(k + 1)
  }

  /** The by-name lookup: decided by the first slot with the name; its
      connection when that slot is Up, a state error when it is not, and
      not-found when no slot has the name. */
  function PeerByName(peers: seq<Peer>, name: string): (r: Result<Conn, PeerError>)
    ensures r == Failure(PeerNotFound(name)) <==> forall j :: 0 <= j < |peers| ==> peers[j].name != name
    ensures forall i :: 0 <= i < |peers| && peers[i].name == name && (forall j :: 0 <= j < i ==> peers[j].name != name) ==>
              r == if peers[i].state == Up then Success(peers[i].conn) else Failure(InvalidState(peers[i].state))
  {
    match FirstNamed(peers, name)
    case None => Failure(PeerNotFound(name))
    case Some(i) => if peers[i].state == Up then Success(peers[i].conn) else Failure(InvalidState(peers[i].state))
  }

  /** Index by index, the slots of `before` survive in `after`: the store does
      not shrink, each index keeps its dial address, and a name, once set,
      stays. (Which slots an operation may change at all is ApplyIsLocal.) */
  ghost predicate SlotsKept(before: seq<Peer>, after: seq<Peer>)
  {
    && |before| <= |after|
    && forall i :: 0 <= i < |before| ==>
         after[i].addr == before[i].addr && (before[i].name == "" || after[i].name == before[i].name)
  }

  /** Two stores give the same answer to every lookup of name. */
  ghost predicate SameLookup(before: seq<Peer>, after: seq<Peer>, name: string)
  {
    PeerByName(after, name) == PeerByName(before, name)
  }

  /** Lookups are local: if two stores agree on the first |before| slots
      except slot k, and neither slot k nor any added slot carries the name,
      the name looks up the same in both. */
  lemma LookupFrame(before: seq<Peer>, after: seq<Peer>, k: nat, other: string)
    requires |before| <= |after|
    requires forall i :: 0 <= i < |before| && i != k ==> after[i] == before[i]
    requires k < |before| ==> before[k].name != other && after[k].name != other
    requires forall i :: |before| <= i < |after| ==> after[i].name != other
    ensures SameLookup(before, after, other)
  {
  }

  /** addPeer's new store: one more slot, Down, with the dial address and
      connection and no name or receive address. */
  function Added(peers: seq<Peer>, addr: string, conn: Conn): (r: seq<Peer>)
    ensures SlotsKept(peers, r) && r[..|peers|] == peers
    ensures |r| == |peers| + 1 && r[|peers|] == Peer("", addr, "", conn, Down)
  {
    peers + [Peer("", addr, "", conn, Down)]
  }

  /** updConn's new store: the first slot with the name takes the connection
      and receive address and becomes Up; without such a slot, a new Up slot
      with no dial address is appended. */
  function Upserted(peers: seq<Peer>, conn: Conn, name: string, addr: string): (r: seq<Peer>)
    ensures |r| == (if FirstNamed(peers, name).Some? then |peers| else |peers| + 1)
    ensures forall i :: 0 <= i < |peers| && peers[i].name != name ==> r[i] == peers[i]
  {
    match FirstNamed(peers, name)
    case Some(i) => peers[i := peers[i].(conn := conn, recAddr := addr, state := Up)]
    case None => peers + [Peer(name, "", addr, conn, Up)]
  }

  /** After updConn the peer is reachable by name through the given connection,
      the slots are kept, and lookups of every other name are unchanged. */
  lemma UpsertedSpec(peers: seq<Peer>, conn: Conn, name: string, addr: string)
    ensures SlotsKept(peers, Upserted(peers, conn, name, addr))
    ensures PeerByName(Upserted(peers, conn, name, addr), name) == Success(conn)
    ensures forall other :: other != name ==> SameLookup(peers, Upserted(peers, conn, name, addr), other)
  {
    var r := Upserted(peers, conn, name, addr);
    var k := match FirstNamed(peers, name) case Some(i) => i case None => |peers|;
    assert k < |r| && r[k].name == name && r[k].state == Up && r[k].conn == conn;
    assert forall j :: 0 <= j < k ==> r[j].name != name;
    forall other | other != name
      ensures SameLookup(peers, r, other)
    {
      LookupFrame(peers, r, k, other);
    }
  }

  /** Whether updConn2 accepts a connect-ack with a valid slot id: the slot
      exists and its name is empty or already the acknowledging peer's. */
  predicate AckAccepted(peers: seq<Peer>, id: nat, name: string)
  {
    id < |peers| && (peers[id].name == "" || peers[id].name == name)
  }

  /** Whether updConn2 indexes out of range: its only bounds check, `conID+1 >
      len(peers)` computed with Go's wrapping addition, lets the id through,
      yet the id is not a slot. */
  predicate AckIndexPanics(peers: seq<Peer>, id: int)
    requires InInt(id)
  {
    AddInt(id, 1) <= |peers| && !(0 <= id < |peers|)
  }

  /** For a store whose length fits in an int, updConn2 panics exactly on a
      negative id and on the largest int, whose successor wraps around to the
      smallest one. */
  lemma AckIndexPanicsIff(peers: seq<Peer>, id: int)
    requires InInt(id) && |peers| <= MaxInt
    ensures AckIndexPanics(peers, id) <==> id < 0 || id == MaxInt
  {
  }

  /** updConn2's new store: the acknowledged slot takes the name and receive
      address and becomes Up; a rejected ack changes nothing. */
  function Acked(peers: seq<Peer>, id: nat, name: string, addr: string): (r: seq<Peer>)
    ensures |r| == |peers|
    ensures forall i :: 0 <= i < |peers| && i != id ==> r[i] == peers[i]
    ensures id < |peers| ==> r[id].addr == peers[id].addr && r[id].conn == peers[id].conn
  {
    if AckAccepted(peers, id, name) then peers[id := peers[id].(name := name, recAddr := addr, state := Up)]
    else peers
  }

  /** An accepted ack makes the peer reachable by its name through the slot's
      own connection, unless an earlier slot already carries that name; slots
      are kept and lookups of every other name are unchanged. */
  lemma AckedSpec(peers: seq<Peer>, id: nat, name: string, addr: string)
    ensures SlotsKept(peers, Acked(peers, id, name, addr))
    ensures !AckAccepted(peers, id, name) ==> Acked(peers, id, name, addr) == peers
    ensures AckAccepted(peers, id, name) && (forall j :: 0 <= j < id ==> peers[j].name != name) ==>
              PeerByName(Acked(peers, id, name, addr), name) == Success(peers[id].conn)
    ensures forall other :: other != name && (id < |peers| ==> peers[id].name != other) ==>
              SameLookup(peers, Acked(peers, id, name, addr), other)
  {
    var r := Acked(peers, id, name, addr);
    if AckAccepted(peers, id, name) {
      forall other | other != name && peers[id].name != other
        ensures SameLookup(peers, r, other)
      {
        LookupFrame(peers, r, id, other);
      }
    }
  }

  /** updLeaving's new store: the first slot with the name becomes Closed. */
  function Leaving(peers: seq<Peer>, name: string): (r: seq<Peer>)
    ensures |r| == |peers|
    ensures forall i :: 0 <= i < |peers| ==> r[i].(state := peers[i].state) == peers[i]
    ensures forall i :: 0 <= i < |peers| && peers[i].name != name ==> r[i] == peers[i]
  {
    match FirstNamed(peers, name)
    case Some(i) => peers[i := peers[i].(state := Closed)]
    case None => peers
  }

  /** After a leave the peer can no longer be sent to by name; slots are kept
      and lookups of every other name are unchanged. */
  lemma LeavingSpec(peers: seq<Peer>, name: string)
    ensures SlotsKept(peers, Leaving(peers, name)) && |Leaving(peers, name)| == |peers|
    ensures PeerByName(Leaving(peers, name), name).Failure?
    ensures forall other :: other != name ==> SameLookup(peers, Leaving(peers, name), other)
  {
    var r := Leaving(peers, name);
    var k := match FirstNamed(peers, name) case Some(i) => i case None => |peers|;
    forall other | other != name
      ensures SameLookup(peers, r, other)
    {
      LookupFrame(peers, r, k, other);
    }
  }

  /** One slot under updClosing: Up becomes Closed, Down and Closed stay. */
  function Closing(p: Peer): Peer
  {
    if p.state == Up then p.(state := Closed) else p
  }

  /** updClosing's new store. */
  function ClosedAll(peers: seq<Peer>): (r: seq<Peer>)
    ensures |r| == |peers|
    ensures forall i :: 0 <= i < |peers| ==> r[i].(state := peers[i].state) == peers[i] && r[i].state != Up
  {
    seq(|peers|, i requires 0 <= i < |peers| => Closing(peers[i]))
  }

  /** The connections updClosing returns: those of the Up slots, in store order. */
  function UpConns(peers: seq<Peer>): (r: seq<Conn>)
    ensures |r| <= |peers|
  {
    if peers == [] then []
    else UpConns(peers[..|peers| - 1]) + (if peers[|peers| - 1].state == Up then [peers[|peers| - 1].conn] else [])
  }

  /** After updClosing no slot is Up, so no name can be sent to; slots are kept. */
  lemma ClosedAllSpec(peers: seq<Peer>)
    ensures SlotsKept(peers, ClosedAll(peers)) && |ClosedAll(peers)| == |peers|
    ensures forall i :: 0 <= i < |peers| ==> ClosedAll(peers)[i].state != Up
    ensures forall name :: PeerByName(ClosedAll(peers), name).Failure?
  {
  }

  /** Closing twice is closing once, and the second time returns no connection. */
  lemma {:induction false} CloseIdempotent(peers: seq<Peer>)
    ensures ClosedAll(ClosedAll(peers)) == ClosedAll(peers)
    ensures UpConns(ClosedAll(peers)) == []
    decreases |peers|
  {
    if peers != [] {
      var n := |peers| - 1;
      CloseIdempotent(peers[..n]);
      assert ClosedAll(peers)[..n] == ClosedAll(peers[..n]);
    }
  }

  /** updClosing returns one connection per Up slot. */
  lemma {:induction false} UpConnsCount(peers: seq<Peer>)
    ensures |UpConns(peers)| == |set i | 0 <= i < |peers| && peers[i].state == Up|
    decreases |peers|
  {
    if peers != [] {
      var n := |peers| - 1;
      var init := peers[..n];
      UpConnsCount(init);
      var before := set i | 0 <= i < n && init[i].state == Up;
      var now := set i | 0 <= i < |peers| && peers[i].state == Up;
      assert |UpConns(init)| == |before|;
      if peers[n].state == Up {
        assert now == before + {n} && n !in before;
        assert |UpConns(peers)| == |UpConns(init)| + 1;
      } else {
        assert now == before;
        assert |UpConns(peers)| == |UpConns(init)|;
      }
    }
  }

  /** Every connection updClosing returns belongs to an Up slot. */
  lemma {:induction false} UpConnsFromUpSlots(peers: seq<Peer>)
    ensures forall c :: c in UpConns(peers) ==> exists i :: 0 <= i < |peers| && peers[i].state == Up && peers[i].conn == c
    decreases |peers|
  {
    if peers != [] {
      var n := |peers| - 1;
      UpConnsFromUpSlots(peers[..n]);
      forall c | c in UpConns(peers[..n])
        ensures exists i :: 0 <= i < |peers| && peers[i].state == Up && peers[i].conn == c
      {
        var i :| 0 <= i < n && peers[..n][i].state == Up && peers[..n][i].conn == c;
        assert peers[i] == peers[..n][i];
      }
    }
  }

  /** One mutating operation of the peer store. */
  datatype StoreOp =
    | AddOp(addr: string, conn: Conn)
    | UpsertOp(conn: Conn, name: string, recAddr: string)
    | AckOp(id: nat, name: string, recAddr: string)
    | LeaveOp(name: string)
    | CloseOp

  function Apply(peers: seq<Peer>, op: StoreOp): seq<Peer>
  {
    match op
    case AddOp(addr, conn) => Added(peers, addr, conn)
    case UpsertOp(conn, name, recAddr) => Upserted(peers, conn, name, recAddr)
    case AckOp(id, name, recAddr) => Acked(peers, id, name, recAddr)
    case LeaveOp(name) => Leaving(peers, name)
    case CloseOp => ClosedAll(peers)
  }

  function ApplyAll(peers: seq<Peer>, ops: seq<StoreOp>): seq<Peer>
    decreases |ops|
  {
    if ops == [] then peers else ApplyAll(Apply(peers, ops[0]), ops[1..])
  }

  /** The index an operation may change, or |peers| when it changes none:
      the first slot with the name for updConn and updLeaving, the id for
      updConn2. updClosing is the one operation that may change many. */
  function Touched(peers: seq<Peer>, op: StoreOp): nat
  {
    match op
    case AddOp(_, _) => |peers|
    case UpsertOp(_, name, _) => (match FirstNamed(peers, name) case Some(i) => i case None => |peers|)
    case AckOp(id, _, _) => id
    case LeaveOp(name) => (match FirstNamed(peers, name) case Some(i) => i case None => |peers|)
    case CloseOp => |peers|
  }

  /** Every store operation is local: no slot moves, slots other than the
      touched one are left as they were (updClosing changes only states), and a
      slot's connection changes only when updConn is applied to its name. */
  lemma ApplyIsLocal(peers: seq<Peer>, op: StoreOp)
    ensures |peers| <= |Apply(peers, op)|
    ensures forall i :: 0 <= i < |peers| && i != Touched(peers, op) ==>
              Apply(peers, op)[i] == (if op.CloseOp? then Closing(peers[i]) else peers[i])
    ensures forall i :: 0 <= i < |peers| ==>
              Apply(peers, op)[i].addr == peers[i].addr
              && (Apply(peers, op)[i].conn == peers[i].conn || (op.UpsertOp? && peers[i].name == op.name))
  {
    match op {
      case AddOp(addr, conn) =>
      case UpsertOp(conn, name, recAddr) =>
      case AckOp(id, name, recAddr) =>
      case LeaveOp(name) =>
      case CloseOp =>
    }
  }

  /** No sequence of store operations removes a slot, so the id
      addPeer returned keeps naming a slot with the dial address it was given. */
  lemma {:induction false} IdsStayValid(peers: seq<Peer>, ops: seq<StoreOp>)
    ensures SlotsKept(peers, ApplyAll(peers, ops))
    decreases |ops|
  {
    if ops != [] {
      var next := Apply(peers, ops[0]);
      match ops[0] {
        case AddOp(addr, conn) =>
        case UpsertOp(conn, name, recAddr) => UpsertedSpec(peers, conn, name, recAddr);
        case AckOp(id, name, recAddr) => AckedSpec(peers, id, name, recAddr);
        case LeaveOp(name) => LeavingSpec(peers, name);
        case CloseOp => ClosedAllSpec(peers);
      }
      IdsStayValid(next, ops[1..]);
    }
  }

  // ---------------------------------------------------------------------------
  // The peer store object

  /** The peer store: a list of peer records that only grows. */
  class PeerStore {
    var peers: seq<Peer>

    constructor ()
      ensures peers == []
    {
      peers := [];
    }

    /** getPeerByName: a read-only search for the first slot with the name. */
    method GetPeerByName(name: string) returns (r: Result<Conn, PeerError>)
      ensures r == PeerByName(peers, name)
    {
      var i := 0;
      while i < |peers|
        invariant 0 <= i <= |peers|
        invariant forall j :: 0 <= j < i ==> peers[j].name != name
      {
        if peers[i].name == name {
          if peers[i].state == Up {
            return Success(peers[i].conn);
          }
          return Failure(InvalidState(peers[i].state));
        }
        i := i + 1;
      }
      return Failure(PeerNotFound(name));
    }

    /** addPeer: append a Down slot and return its index, the connection id. */
    method AddPeer(addr: string, conn: Conn) returns (id: nat)
      modifies this
      ensures peers == Added(old(peers), addr, conn)
      ensures id == |old(peers)| && peers[id].addr == addr && peers[id].conn == conn
    {
      peers := peers + [Peer("", addr, "", conn, Down)];
      id := |peers| - 1;
    }

    /** updLeaving: close the first slot with the name and return its connection;
        without one, return not-found and change nothing. */
    method UpdLeaving(name: string) returns (conn: Conn, found: bool)
      modifies this
      ensures found <==> FirstNamed(old(peers), name).Some?
      ensures found ==> conn == old(peers)[FirstNamed(old(peers), name).value].conn
      ensures !found ==> conn == NilConn
      ensures peers == Leaving(old(peers), name)
    {
      var i := 0;
      while i < |peers|
        invariant 0 <= i <= |peers|
        invariant peers == old(peers)
        invariant forall j :: 0 <= j < i ==> peers[j].name != name
      {
        if peers[i].name == name {
          conn := peers[i].conn;
          peers := peers[i := peers[i].(state := Closed)];
          return conn, true;
        }
        i := i + 1;
      }
      return NilConn, false;
    }

    /** updConn2: acknowledge slot conID by name. Fails and changes nothing when
        the bounds check rejects the id or the slot carries another name;
        otherwise sets the name, receive address and state Up and returns the
        slot's connection. The bounds check is `conID+1 > len(peers)` in Go's
        wrapping arithmetic: a negative id, or the largest int, passes it and
        the indexing panics, which `panicked` reports. */
    method UpdConn2(conID: int, name: string, addr: string) returns (conn: Conn, ok: bool, panicked: bool)
      requires InInt(conID)
      modifies this
      ensures panicked <==> AckIndexPanics(old(peers), conID)
      ensures ok <==> !panicked && conID >= 0 && AckAccepted(old(peers), conID, name)
      ensures ok ==> conn == old(peers)[conID].conn
      ensures !ok ==> conn == NilConn
      ensures peers == if ok then Acked(old(peers), conID, name, addr) else old(peers)
    {
      if AddInt(conID, 1) > |peers| {
        return NilConn, false, false;
      }
      if conID < 0 || conID >= |peers| {
        // the index expression panics in Go
        return NilConn, false, true;
      }
      if peers[conID].name != "" && peers[conID].name != name {
        return NilConn, false, false;
      }
      peers := peers[conID := peers[conID].(name := name, recAddr := addr, state := Up)];
      return peers[conID].conn, true, false;
    }

    /** updConn: give the first slot with the name this connection and receive
        address and mark it Up, or append a new Up slot. It always succeeds. */
    method UpdConn(conn: Conn, name: string, addr: string) returns (c: Conn, ok: bool)
      modifies this
      ensures ok && c == conn
      ensures peers == Upserted(old(peers), conn, name, addr)
    {
      var i := 0;
      while i < |peers|
        invariant 0 <= i <= |peers|
        invariant peers == old(peers)
        invariant forall j :: 0 <= j < i ==> peers[j].name != name
      {
        if peers[i].name == name {
          peers := peers[i := peers[i].(name := name, conn := conn, recAddr := addr, state := Up)];
          return peers[i].conn, true;
        }
        i := i + 1;
      }
      peers := peers + [Peer(name, "", addr, conn, Up)];
      return conn, true;
    }

    /** updClosing: mark every Up slot Closed and return their connections in
        store order; Down and Closed slots are untouched. */
    method UpdClosing() returns (conns: seq<Conn>)
      modifies this
      ensures conns == UpConns(old(peers))
      ensures peers == ClosedAll(old(peers))
    {
      conns := [];
      var i := 0;
      while i < |peers|
        invariant 0 <= i <= |peers| == |old(peers)|
        invariant forall j :: 0 <= j < i ==> peers[j] == Closing(old(peers)[j])
        invariant forall j :: i <= j < |peers| ==> peers[j] == old(peers)[j]
        invariant conns == UpConns(old(peers)[..i])
      {
        assert old(peers)[..i + 1][..i] == old(peers)[..i];
        if peers[i].state == Up {
          peers := peers[i := peers[i].(state := Closed)];
          conns := conns + [peers[i].conn];
        }
        i := i + 1;
      }
      assert old(peers)[..i] == old(peers);
    }
  }

  // ---------------------------------------------------------------------------
  // Receive loop, SendMsg and Close as functions of the store

  /** The result of one broker step: the new store, its status and its effects. */
  datatype StepResult = StepResult(peers: seq<Peer>, status: Status, effects: seq<Effect>)

  /** The receive loop's handling of one decoded message from fromAddr.
      `back` is what OpenConnection(fromAddr) gave back (NilConn when the
      dial failed: the Go code ignores that error); only connect uses it. An
      id that does not fit in a Go int fails to decode, and the message is
      dropped. */
  function OnMessage(ownName: string, peers: seq<Peer>, fromAddr: string, env: Envelope, back: Conn): (r: StepResult)
    ensures |r.effects| <= 1
    ensures r.status != Done ==> r.effects == []
    ensures !(env.Connect? || env.ConnectAck? || env.Leave?) ==> r.peers == peers
    ensures r.status.Panicked? ==> r.status.kind == NilConnection || r.status.kind == IndexOutOfRange
  {
    match env
    case Connect(name, id) =>
      var peers' := Upserted(peers, back, name, fromAddr);
      if !InInt(id) then StepResult(peers, Dropped, [])
      else if back.NilConn? then StepResult(peers', Panicked(NilConnection), [])
      else StepResult(peers', Done, [Write(back.handle, ConnectAck(ownName, id))])
    case ConnectAck(name, id) =>
      if !InInt(id) then StepResult(peers, Dropped, [])
      else if AckIndexPanics(peers, id) then StepResult(peers, Panicked(IndexOutOfRange), [])
      else if id >= 0 && AckAccepted(peers, id, name) then StepResult(Acked(peers, id, name, fromAddr), Done, [])
      else StepResult(peers, Dropped, [])
    case Leave(name) =>
      var peers' := Leaving(peers, name);
      (match FirstNamed(peers, name)
       case None => StepResult(peers', Panicked(NilConnection), [])
       case Some(i) =>
         if peers[i].conn.NilConn? then StepResult(peers', Panicked(NilConnection), [])
         else StepResult(peers', Done, [CloseConn(peers[i].conn.handle)]))
    case Payload(qname, data) => StepResult(peers, Done, [ToManager(PayloadMsg(qname, data))])
    case Other => StepResult(peers, Dropped, [])
  }

  /** Every receive step keeps slot identity. */
  lemma OnMessageKeepsSlots(ownName: string, peers: seq<Peer>, fromAddr: string, env: Envelope, back: Conn)
    ensures SlotsKept(peers, OnMessage(ownName, peers, fromAddr, env, back).peers)
  {
    match env
    case Connect(name, id) => UpsertedSpec(peers, back, name, fromAddr);
    case ConnectAck(name, id) => if InInt(id) && id >= 0 { AckedSpec(peers, id, name, fromAddr); }
    case Leave(name) => LeavingSpec(peers, name);
    case Payload(_, _) =>
    case Other =>
  }

  /** A connect-ack carrying the largest int passes updConn2's bounds check,
      because the id's successor wraps around, and then indexes out of range. */
  lemma AckWithLargestIdPanics(ownName: string, peers: seq<Peer>, fromAddr: string, name: string, back: Conn)
    requires |peers| <= MaxInt
    ensures OnMessage(ownName, peers, fromAddr, ConnectAck(name, MaxInt), back) == StepResult(peers, Panicked(IndexOutOfRange), [])
  {
    AckIndexPanicsIff(peers, MaxInt);
  }

  /** A leave for a name no slot carries: the Go code closes a nil connection. */
  lemma LeaveOfUnknownPeerPanics(ownName: string, peers: seq<Peer>, fromAddr: string, name: string, back: Conn)
    requires forall j :: 0 <= j < |peers| ==> peers[j].name != name
    ensures OnMessage(ownName, peers, fromAddr, Leave(name), back) == StepResult(peers, Panicked(NilConnection), [])
  {
  }

  /** The connection handshake between node A (name a) and node B (name b):
      A dials B and appends slot id; B's receive step on connect{a, id} makes a
      reachable through the connection back to A and replies connect-ack{b, id}
      on it; A's receive step on that reply makes b reachable through the
      connection A dialed. */
  lemma {:induction false} Handshake(a: string, peersA: seq<Peer>, addrB: string, connAB: nat,
                                     b: string, peersB: seq<Peer>, addrA: string, connBA: nat, ackFrom: string)
    requires forall j :: 0 <= j < |peersA| ==> peersA[j].name != b
    requires |peersA| <= MaxInt
    ensures var id := |peersA|;
            var dialed := Added(peersA, addrB, Conn(connAB));
            var atB := OnMessage(b, peersB, addrA, Connect(a, id), Conn(connBA));
            && atB.status == Done
            && atB.effects == [Write(connBA, ConnectAck(b, id))]
            && PeerByName(atB.peers, a) == Success(Conn(connBA))
            && var atA := OnMessage(a, dialed, ackFrom, atB.effects[0].env, NilConn);
               && atA.status == Done
               && PeerByName(atA.peers, b) == Success(Conn(connAB))
               && atA.peers[id] == Peer(b, addrB, ackFrom, Conn(connAB), Up)
  {
    var id := |peersA|;
    var dialed := Added(peersA, addrB, Conn(connAB));
    UpsertedSpec(peersB, Conn(connBA), a, addrA);
    assert AckAccepted(dialed, id, b);
    assert forall j :: 0 <= j < id ==> dialed[j].name != b;
    AckedSpec(dialed, id, b, ackFrom);
  }

  /** SendMsg. To its own name: hand (queue, data) to the manager and succeed,
      consulting no peer. Otherwise look the node up; the lookup's error is
      overwritten before it is checked, so an unknown or not-Up peer leads to a
      send on a nil connection. */
  function SendMsg(ownName: string, peers: seq<Peer>, nodeName: string, queueName: string, data: Bytes, writeOk: bool): (r: (Status, seq<Effect>))
    ensures |r.1| <= 1
    ensures r.1 == [] <==> r.0 == Panicked(NilConnection)
    ensures r.0.Failed? ==> !writeOk
    ensures nodeName != ownName && PeerByName(peers, nodeName).Failure? ==> r == (Panicked(NilConnection), [])
    ensures r.0 == Panicked(NilConnection) <==>
              nodeName != ownName && !(PeerByName(peers, nodeName).Success? && PeerByName(peers, nodeName).value.Conn?)
  {
    if nodeName == ownName then (Done, [ToManager(PayloadMsg(queueName, data))])
    else
      match PeerByName(peers, nodeName)
      case Success(Conn(h)) => (if writeOk then Done else Failed(SendFailed), [Write(h, Payload(queueName, data))])
      case _ => (Panicked(NilConnection), [])
  }

  /** Local delivery: a send to the node's own name causes no network traffic,
      whatever the store holds. */
  lemma {:induction false} LocalSendStaysLocal(ownName: string, peers: seq<Peer>, queueName: string, data: Bytes, writeOk: bool)
    ensures SendMsg(ownName, peers, ownName, queueName, data, writeOk) == (Done, [ToManager(PayloadMsg(queueName, data))])
  {
  }

  /** A send to an Up peer writes one payload frame on that peer's connection
      and fails only when the write fails. */
  lemma SendToUpPeer(ownName: string, peers: seq<Peer>, i: nat, queueName: string, data: Bytes, writeOk: bool)
    requires i < |peers| && peers[i].name != ownName && peers[i].state == Up && peers[i].conn.Conn?
    requires forall j :: 0 <= j < i ==> peers[j].name != peers[i].name
    ensures SendMsg(ownName, peers, peers[i].name, queueName, data, writeOk)
         == (if writeOk then Done else Failed(SendFailed), [Write(peers[i].conn.handle, Payload(queueName, data))])
  {
  }

  /** After Close, a send to any other node panics instead of reporting that
      the peer is not Up. */
  lemma SendAfterClosePanics(ownName: string, peers: seq<Peer>, nodeName: string, queueName: string, data: Bytes, writeOk: bool)
    requires nodeName != ownName
    ensures SendMsg(ownName, ClosedAll(peers), nodeName, queueName, data, writeOk) == (Panicked(NilConnection), [])
  {
    ClosedAllSpec(peers);
  }

  /** Close's loop over the returned connections: one leave{ownName} per
      connection in order; a failed write is only logged, but a nil connection
      panics and ends the loop. */
  function Leaves(ownName: string, conns: seq<Conn>): (r: (Status, seq<Effect>))
    ensures r.0 == Done || r.0 == Panicked(NilConnection)
    ensures |r.1| <= |conns|
    ensures forall k :: 0 <= k < |r.1| ==> conns[k].Conn? && r.1[k] == Write(conns[k].handle, Leave(ownName))
    decreases |conns|
  {
    if conns == [] then (Done, [])
    else if conns[0].NilConn? then (Panicked(NilConnection), [])
    else
      var (status, effects) := Leaves(ownName, conns[1..]);
      (status, [Write(conns[0].handle, Leave(ownName))] + effects)
  }

  /** With real connections, Close sends exactly one leave per connection, in order. */
  lemma {:induction false} LeavesSpec(ownName: string, conns: seq<Conn>)
    requires forall k :: 0 <= k < |conns| ==> conns[k].Conn?
    ensures Leaves(ownName, conns).0 == Done
    ensures |Leaves(ownName, conns).1| == |conns|
    ensures forall k :: 0 <= k < |conns| ==> Leaves(ownName, conns).1[k] == Write(conns[k].handle, Leave(ownName))
    decreases |conns|
  {
    if conns != [] {
      LeavesSpec(ownName, conns[1..]);
    }
  }

  /** The dial loop of broker creation over addrs[..n]: the slots it appends
      and the connect messages it sends, when the store held `base` slots
      before it. A failed dial skips its address. */
  function DialLoop(ownName: string, conns: map<string, nat>, addrs: seq<string>, dial: nat -> DialOutcome, base: nat, n: nat): (r: (seq<Peer>, seq<Effect>))
    requires n <= |addrs|
    ensures |r.0| == |r.1| <= n
    decreases n
  {
    if n == 0 then ([], [])
    else
      var (slots, effects) := DialLoop(ownName, conns, addrs, dial, base, n - 1);
      match OpenConnection(conns, addrs[n - 1], dial(n - 1))
      case Failure(_) => (slots, effects)
      case Success(h) =>
        (slots + [Peer("", addrs[n - 1], "", Conn(h), Down)], effects + [Write(h, Connect(ownName, base + |slots|))])
  }

  /** Connection-id correlation: the k-th connect message of the dial loop goes
      out on the connection of the k-th appended slot and carries that slot's
      index in the store, and the slot is Down with no name. */
  lemma {:induction false} DialLoopIds(ownName: string, conns: map<string, nat>, addrs: seq<string>, dial: nat -> DialOutcome, base: nat, n: nat)
    requires n <= |addrs|
    ensures var (slots, effects) := DialLoop(ownName, conns, addrs, dial, base, n);
            && |slots| == |effects| <= n
            && forall k :: 0 <= k < |slots| ==>
                 && slots[k].conn.Conn? && slots[k].state == Down && slots[k].name == ""
                 && effects[k] == Write(slots[k].conn.handle, Connect(ownName, base + k))
    decreases n
  {
    if n > 0 {
      DialLoopIds(ownName, conns, addrs, dial, base, n - 1);
    }
  }

  // ---------------------------------------------------------------------------
  // Broker creation options

  /** A value in the options map, as far as broker creation looks at it. */
  datatype OptionValue = StrValue(s: string) | StrListValue(items: seq<string>) | OtherValue

  datatype Config = Config(ownName: string, ownAddr: string, addrs: seq<string>)

  datatype Checked = Accepted(config: Config) | Rejected(reason: ConfigError) | BadOwnName

  /** The option checks of CreateBrokerV2, in the Go code's order. The type of
      own-name is asserted without a check, so a non-string panics. */
  function CheckOptions(options: map<string, OptionValue>): (r: Checked)
    ensures r.Accepted? <==>
      && "own-name" in options && options["own-name"].StrValue?
      && "own-addr" in options && options["own-addr"].StrValue?
      && "addrs" in options && options["addrs"].StrListValue?
    ensures r.Accepted? ==>
      r.config == Config(options["own-name"].s, options["own-addr"].s, options["addrs"].items)
    ensures r == BadOwnName <==> "own-name" in options && !options["own-name"].StrValue?
    ensures r == Rejected(OwnNameMissing) <==> "own-name" !in options
  {
    if "own-name" !in options then Rejected(OwnNameMissing)
    else if !options["own-name"].StrValue? then BadOwnName
    else if "own-addr" !in options then Rejected(OwnAddrMissing)
    else if !options["own-addr"].StrValue? then Rejected(OwnAddrNotString)
    else if "addrs" !in options then Rejected(AddrsMissing)
    else if !options["addrs"].StrListValue? then Rejected(AddrsNotList)
    else Accepted(Config(options["own-name"].s, options["own-addr"].s, options["addrs"].items))
  }

  // ---------------------------------------------------------------------------
  // The manager: queue registry and delivery

  /** What a queue receives: the decoder's value, or the raw bytes without a decoder. */
  datatype Item<V> = Raw(data: Bytes) | Decoded(value: V)

  /** How the manager dealt with one delivery request. */
  datatype Delivery = EmptyQueueName | NoSuchQueue | Enqueued | QueueFull | NilQueuePanic

  /** The manager loop's state: the registry of named queues. A registered
      queue may be nil (a queue of size 0). */
  class Manager<V> {
    var queues: map<string, Queue.Queue?<Item<V>>>
    const decoder: Option<Bytes -> V>

    /** The registered queue objects. */
    ghost function QueueSet(): set<Queue.Queue<Item<V>>>
      reads this
    {
      set n | n in queues && queues[n] != null :: queues[n]
    }

    /** Every registered queue is valid, and distinct queues have distinct slot arrays. */
    ghost predicate Valid()
      reads this, QueueSet(), set q | q in QueueSet() :: q.items
    {
      && (forall n :: n in queues && queues[n] != null ==> queues[n].Valid())
      && (forall a, b :: a in queues && b in queues && queues[a] != null && queues[b] != null && queues[a] != queues[b] ==>
            queues[a].items != queues[b].items)
    }

    /** The objects a delivery to `name` may change: that queue and its slots. */
    ghost function Target(name: string): set<object>
      reads this, QueueSet()
    {
      if name != "" && name in queues && queues[name] != null then
        var q: Queue.Queue<Item<V>> := queues[name];
        {q, q.items}
      else {}
    }

    constructor (decoder: Option<Bytes -> V>)
      ensures Valid() && queues == map[] && this.decoder == decoder
    {
      queues := map[];
      this.decoder := decoder;
    }

    /** The item a payload becomes. */
    function ItemOf(data: Bytes): Item<V>
    {
      match decoder
      case None => Raw(data)
      case Some(decode) => Decoded(decode(data))
    }

    /** A register request: insert or replace name -> q; the reply is always nil. */
    method Register(name: string, q: Queue.Queue?<Item<V>>) returns (reply: Option<BrokerError>)
      requires Valid()
      requires q != null ==> q.Valid()
      requires q != null ==> forall n :: n in queues && queues[n] != null && queues[n] != q ==> queues[n].items != q.items
      modifies this
      ensures Valid()
      ensures queues == old(queues)[name := q] && reply == None
    {
      queues := queues[name := q];
      reply := None;
    }

    /** An unregister request: delete name; the reply is always nil. */
    method Unregister(name: string) returns (reply: Option<BrokerError>)
      requires Valid()
      modifies this
      ensures Valid()
      ensures queues == old(queues) - {name} && reply == None
    {
      queues := queues - {name};
      reply := None;
    }

    /** A delivery request: dropped for an empty or unregistered queue name;
        otherwise the item is offered to that queue without waiting and
        dropped when the queue is full. Only the target queue can change. */
    method Deliver(m: PayloadMsg) returns (d: Delivery)
      requires Valid()
      modifies Target(m.queueName)
      ensures Valid()
      ensures m.queueName == "" ==> d == EmptyQueueName
      ensures m.queueName != "" && m.queueName !in queues ==> d == NoSuchQueue
      ensures m.queueName != "" && m.queueName in queues && queues[m.queueName] == null ==> d == NilQueuePanic
      ensures m.queueName != "" && m.queueName in queues && queues[m.queueName] != null ==>
        var q := queues[m.queueName];
        && (d == QueueFull <==> old(q.state) == Queue.Full)
        && (d == QueueFull || d == Enqueued)
        && q.Model() == (if d == QueueFull then old(q.Model()) else Queue.PutStep(old(q.Model()), ItemOf(m.data)))
        && q.Elements() == (if d == QueueFull then old(q.Elements()) else old(q.Elements()) + [ItemOf(m.data)])
    {
      if m.queueName == "" {
        return EmptyQueueName;
      }
      if m.queueName !in queues {
        return NoSuchQueue;
      }
      var q := queues[m.queueName];
      if q == null {
        return NilQueuePanic;
      }
      var isFull := q.PutNoWait(ItemOf(m.data));
      d := if isFull then QueueFull else Enqueued;
    }
  }

  // ---------------------------------------------------------------------------
  // The broker

  class Broker<V> {
    const ownName: string
    const ownAddr: string
    const server: MessageServer
    const store: PeerStore
    const manager: Manager<V>

    constructor (config: Config, server: MessageServer, decoder: Option<Bytes -> V>)
      ensures ownName == config.ownName && ownAddr == config.ownAddr && this.server == server
      ensures fresh(store) && store.peers == []
      ensures fresh(manager) && manager.Valid() && manager.queues == map[] && manager.decoder == decoder
    {
      ownName := config.ownName;
      ownAddr := config.ownAddr;
      this.server := server;
      store := new PeerStore();
      manager := new Manager(decoder);
    }

    /** The receive loop's handling of one decoded message, through the store's
        own operations. */
    method HandleMessage(fromAddr: string, env: Envelope, dial: DialOutcome) returns (status: Status, effects: seq<Effect>)
      modifies store
      ensures var back := match OpenConnection(server.conns, fromAddr, dial) case Success(h) => Conn(h) case Failure(_) => NilConn;
              StepResult(store.peers, status, effects) == OnMessage(ownName, old(store.peers), fromAddr, env, back)
    {
      match env
      case Connect(name, id) =>
        if !InInt(id) {
          return Dropped, [];
        }
        var back := match OpenConnection(server.conns, fromAddr, dial) case Success(h) => Conn(h) case Failure(_) => NilConn;
        var con, _ := store.UpdConn(back, name, fromAddr);
        if con.NilConn? {
          status, effects := Panicked(NilConnection), [];
        } else {
          status, effects := Done, [Write(con.handle, ConnectAck(ownName, id))];
        }
      case ConnectAck(name, id) =>
        if !InInt(id) {
          return Dropped, [];
        }
        var _, found, panicked := store.UpdConn2(id, name, fromAddr);
        if panicked {
          status, effects := Panicked(IndexOutOfRange), [];
        } else {
          status, effects := if found then Done else Dropped, [];
        }
      case Leave(name) =>
        var con, _ := store.UpdLeaving(name);
        if con.NilConn? {
          status, effects := Panicked(NilConnection), [];
        } else {
          status, effects := Done, [CloseConn(con.handle)];
        }
      case Payload(qname, data) =>
        status, effects := Done, [ToManager(PayloadMsg(qname, data))];
      case Other =>
        status, effects := Dropped, [];
    }

    /** One turn of the receive loop: take the oldest inbound message, decode
        its envelope with `decode` (the JSON layer), and handle it. */
    method ReceiverStep(decode: Bytes -> Envelope, dial: DialOutcome) returns (status: Status, effects: seq<Effect>)
      requires server.Valid() && server.recChan != []
      modifies server`recChan, store
      ensures server.Valid() && server.recChan == old(server.recChan)[1..]
      ensures var m := old(server.recChan)[0];
              var back := match OpenConnection(server.conns, m.fromAddr, dial) case Success(h) => Conn(h) case Failure(_) => NilConn;
              StepResult(store.peers, status, effects) == OnMessage(ownName, old(store.peers), m.fromAddr, decode(m.data), back)
    {
      var m := server.Receive();
      status, effects := HandleMessage(m.fromAddr, decode(m.data), dial);
    }

    /** Close: mark every Up peer Closed and send each of them leave{ownName}. */
    method Close() returns (status: Status, effects: seq<Effect>)
      modifies store
      ensures store.peers == ClosedAll(old(store.peers))
      ensures (status, effects) == Leaves(ownName, UpConns(old(store.peers)))
    {
      var conns := store.UpdClosing();
      status, effects := Done, [];
      var i := 0;
      assert conns[i..] == conns;
      assert Leaves(ownName, conns).1 == [] + Leaves(ownName, conns).1;
      while i < |conns|
        invariant 0 <= i <= |conns|
        invariant Leaves(ownName, conns).0 == Leaves(ownName, conns[i..]).0
        invariant Leaves(ownName, conns).1 == effects + Leaves(ownName, conns[i..]).1
      {
        assert conns[i..][1..] == conns[i + 1..];
        assert conns[i].Conn? ==>
          (Leaves(ownName, conns[i..]) ==
           (Leaves(ownName, conns[i + 1..]).0, [Write(conns[i].handle, Leave(ownName))] + Leaves(ownName, conns[i + 1..]).1));
        if conns[i].NilConn? {
          assert effects + [] == effects;
          return Panicked(NilConnection), effects;
        }
        effects := effects + [Write(conns[i].handle, Leave(ownName))];
        i := i + 1;
      }
      assert effects + [] == effects;
    }

    /** The dial loop of broker creation: for each address, open a connection
        (reusing a registered one), skip the address if that fails, otherwise
        append a Down slot and send connect{ownName, id} with the slot's id. */
    method ConnectPeers(addrs: seq<string>, dial: nat -> DialOutcome) returns (effects: seq<Effect>)
      modifies store
      ensures var (slots, sent) := DialLoop(ownName, server.conns, addrs, dial, |old(store.peers)|, |addrs|);
              store.peers == old(store.peers) + slots && effects == sent
    {
      effects := [];
      var i := 0;
      while i < |addrs|
        invariant 0 <= i <= |addrs|
        invariant var (slots, sent) := DialLoop(ownName, server.conns, addrs, dial, |old(store.peers)|, i);
                  store.peers == old(store.peers) + slots && effects == sent
      {
        var back := OpenConnection(server.conns, addrs[i], dial(i));
        if back.Success? {
          var id := store.AddPeer(addrs[i], Conn(back.value));
          effects := effects + [Write(back.value, Connect(ownName, id))];
        }
        i := i + 1;
      }
    }

    /** CreateBrokerV2: check the options, create the message server, then dial
        every configured peer. Option and bind failures return no broker; a
        non-string own-name panics. */
    static method CreateBrokerV2(options: map<string, OptionValue>, decoder: Option<Bytes -> V>, bindOk: bool, dial: nat -> DialOutcome)
      returns (broker: Broker?<V>, status: Status, effects: seq<Effect>)
      ensures CheckOptions(options) == BadOwnName ==> broker == null && status == Panicked(OwnNameNotString) && effects == []
      ensures CheckOptions(options).Rejected? ==> broker == null && status == Failed(BadConfig(CheckOptions(options).reason)) && effects == []
      ensures CheckOptions(options).Accepted? && !bindOk ==>
        broker == null && status == Failed(ServerFailed(BindError(CheckOptions(options).config.ownAddr))) && effects == []
      ensures CheckOptions(options).Accepted? && bindOk ==>
        var config := CheckOptions(options).config;
        var (slots, sent) := DialLoop(config.ownName, map[], config.addrs, dial, 0, |config.addrs|);
        && broker != null && fresh(broker) && status == Done
        && broker.ownName == config.ownName && broker.ownAddr == config.ownAddr
        && broker.server.conns == map[] && broker.server.recChan == []
        && broker.store.peers == slots && effects == sent
        && broker.manager.Valid() && broker.manager.queues == map[] && broker.manager.decoder == decoder
    {
      broker, effects := null, [];
      match CheckOptions(options)
      case BadOwnName =>
        status := Panicked(OwnNameNotString);
      case Rejected(reason) =>
        status := Failed(BadConfig(reason));
      case Accepted(config) =>
        var created := MessageServer.CreateServer(config.ownAddr, bindOk);
        if created.Failure? {
          return null, Failed(ServerFailed(created.error)), [];
        }
        var b := new Broker(config, created.value, decoder);
        effects := b.ConnectPeers(config.addrs, dial);
        broker, status := b, Done;
    }
  }
}
