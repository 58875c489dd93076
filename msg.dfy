/**
 * The message transport: zero-terminated framing, the registry of open
 * connections keyed by remote address, and the bounded inbound buffer that
 * every connection's receive loop feeds without blocking.
 *
 * Sockets are not modelled: a connection is a natural-number handle, the bytes
 * a connection delivers are an input sequence, and the outcome of a dial or a
 * bind is an input.
 */
module Msg {
  import opened Wrappers

  type Byte = b: int | 0 <= b < 256
  type Bytes = seq<Byte>

  /** Capacity of the inbound buffer (the server's recChan). */
  const RecChanCapacity: nat := 10

  /** A received message: the remote address of its connection and the frame's payload. */
  datatype Message = Message(fromAddr: string, data: Bytes)

  /** How a read that met no zero byte ended: the connection was closed locally,
      the peer ended the stream, or any other read error. */
  datatype ReadError = ErrClosed | ErrEOF | ErrOther

  /** The result of one read up to the next zero byte: the bytes read (ending
      with the zero when no error), the error if the stream ended first, and
      the bytes still unread. */
  datatype ReadResult = ReadResult(data: Bytes, err: Option<ReadError>, rest: Bytes)

  /** Outcome of dialing an address; the network decides, so it is an input. */
  datatype DialOutcome = Dialed(conn: nat) | DialFailed

  datatype TransportError = BindError(addr: string) | ConnectError(addr: string)

  function Min(a: int, b: int): int { if a <= b then a else b }

  /** The bytes Send writes for a payload: the payload and one zero byte. */
  function Frame(data: Bytes): (f: Bytes)
    ensures 0 !in data ==> FirstZero(f) == Some(|data|)
  {
    var f := data + [0];
    assert f[..|data|] == data;
    f
  }

  /** The index of the first zero byte of s, if it has one. */
  function FirstZero(s: Bytes): (r: Option<nat>)
    ensures r.None? <==> 0 !in s
    ensures r.Some? ==> r.value < |s| && s[r.value] == 0 && 0 !in s[..r.value]
  {
    if s == [] then None
    else if s[0] == 0 then Some(0)
    else
      match FirstZero(s[1..])
      case None => None
      case Some(k) =>
        assert s[..k + 1] == [s[0]] + s[1..][..k];
        Some(k + 1)
  }

  /** One read of bytes up to and including the first zero. When s holds no
      zero, the read returns everything with the error that ended the stream. */
  function ReadBytes(s: Bytes, end: ReadError): (r: ReadResult)
    ensures r.err.None? <==> 0 in s
    ensures r.err.None? ==>
      && |r.data| >= 1 && r.data[|r.data| - 1] == 0
      && 0 !in r.data[..|r.data| - 1]
      && r.data + r.rest == s
    ensures r.err.Some? ==> r.err == Some(end) && r.data == s && r.rest == []
  {
    match FirstZero(s)
    case None => ReadResult(s, Some(end), [])
    case Some(k) =>
      assert s[..k + 1][..k] == s[..k];
      assert s[..k + 1] + s[k + 1..] == s;
      ReadResult(s[..k + 1], None, s[k + 1..])
  }

  /** The payloads of the complete frames in a byte stream, in order; bytes
      after the last zero never make a frame. */
  function Frames(s: Bytes): (ps: seq<Bytes>)
    ensures forall i :: 0 <= i < |ps| ==> 0 !in ps[i]
    decreases |s|
  {
    match FirstZero(s)
    case None => []
    case Some(k) => [s[..k]] + Frames(s[k + 1..])
  }

  /** The bytes on a connection after Send was called with each payload of ps in turn. */
  function Stream(ps: seq<Bytes>): Bytes
  {
    if ps == [] then [] else Frame(ps[0]) + Stream(ps[1..])
  }

  /** Reading a stream that starts with a frame yields exactly that frame. */
  lemma ReadBytesOfFrame(p: Bytes, rest: Bytes, end: ReadError)
    requires 0 !in p
    ensures ReadBytes(Frame(p) + rest, end) == ReadResult(Frame(p), None, rest)
    ensures FirstZero(Frame(p) + rest) == Some(|p|)
  {
    var s := Frame(p) + rest;
    assert s[|p|] == 0;
    assert s[..|p|] == p;
    assert s[..|p| + 1] == Frame(p) && s[|p| + 1..] == rest;
  }

  /** One successful read takes the first frame off the stream: its payload is
      the read's bytes without the terminator, and the rest holds the others. */
  lemma FramesStep(s: Bytes, end: ReadError)
    requires 0 in s
    ensures |ReadBytes(s, end).data| >= 1
    ensures Frames(s) == [ReadBytes(s, end).data[..|ReadBytes(s, end).data| - 1]] + Frames(ReadBytes(s, end).rest)
  {
    var k := FirstZero(s).value;
    assert ReadBytes(s, end).data == s[..k + 1];
    assert s[..k + 1][..k] == s[..k];
  }

  /** Splitting a stream that starts with a frame yields that frame's payload first. */
  lemma FramesOfFrame(p: Bytes, rest: Bytes)
    requires 0 !in p
    ensures Frames(Frame(p) + rest) == [p] + Frames(rest)
  {
    var s := Frame(p) + rest;
    ReadBytesOfFrame(p, rest, ErrEOF);
    assert s[..|p|] == p;
    assert s[|p| + 1..] == rest;
    assert Frames(s) == [s[..|p|]] + Frames(s[|p| + 1..]);
  }

  /** A stream of one or more frames, followed by other bytes, starts with its first frame. */
  lemma StreamCons(ps: seq<Bytes>, trailing: Bytes)
    requires ps != []
    ensures Stream(ps) + trailing == Frame(ps[0]) + (Stream(ps[1..]) + trailing)
  {
    assert Stream(ps) == Frame(ps[0]) + Stream(ps[1..]);
  }

  /** Framing round trip: splitting the concatenated frames of zero-free
      payloads gives back the payloads, whatever unterminated bytes follow. */
  lemma {:induction false} FramingRoundTrip(ps: seq<Bytes>, trailing: Bytes)
    requires forall i :: 0 <= i < |ps| ==> 0 !in ps[i]
    requires 0 !in trailing
    ensures Frames(Stream(ps) + trailing) == ps
  {
    if ps == [] {
      assert Stream(ps) + trailing == trailing;
    } else {
      var tail := ps[1..];
      var rest := Stream(tail) + trailing;
      StreamCons(ps, trailing);
      FramesOfFrame(ps[0], rest);
      FramingRoundTrip(tail, trailing);
      calc {
        Frames(Stream(ps) + trailing);
        Frames(Frame(ps[0]) + rest);
        [ps[0]] + Frames(rest);
        [ps[0]] + tail;
        ps;
      }
    }
  }

  /** The messages a receive loop makes of the payloads of one connection. */
  function Tagged(addr: string, ps: seq<Bytes>): (ms: seq<Message>)
    ensures |ms| == |ps|
    ensures forall i :: 0 <= i < |ps| ==> ms[i] == Message(addr, ps[i])
  {
    if ps == [] then [] else [Message(addr, ps[0])] + Tagged(addr, ps[1..])
  }

  /** The non-blocking send into the inbound buffer: appended when there is
      room, dropped when the buffer is full. */
  function Offer(buf: seq<Message>, m: Message): (r: seq<Message>)
    ensures |buf| <= RecChanCapacity ==> |r| <= RecChanCapacity
    ensures |r| >= |buf| && r[..|buf|] == buf
  {
    if |buf| < RecChanCapacity then buf + [m] else buf
  }

  /** The buffer after offering each of ms in turn, with no receive in between. */
  function OfferAll(buf: seq<Message>, ms: seq<Message>): (r: seq<Message>)
    ensures |buf| <= RecChanCapacity ==> |r| <= RecChanCapacity
    decreases |ms|
  {
    if ms == [] then buf else OfferAll(Offer(buf, ms[0]), ms[1..])
  }

  /** The buffer never exceeds its capacity, keeps what it held in order, and
      takes arrivals in arrival order until it is full; later ones are dropped. */
  lemma {:induction false} OfferAllSpec(buf: seq<Message>, ms: seq<Message>)
    requires |buf| <= RecChanCapacity
    ensures OfferAll(buf, ms) == buf + ms[..Min(|ms|, RecChanCapacity - |buf|)]
    ensures |OfferAll(buf, ms)| <= RecChanCapacity
    decreases |ms|
  {
    if ms != [] {
      OfferAllSpec(Offer(buf, ms[0]), ms[1..]);
      if |buf| < RecChanCapacity {
        var k := Min(|ms|, RecChanCapacity - |buf|);
        assert buf + [ms[0]] + ms[1..][..k - 1] == buf + ms[..k];
      }
    }
  }

  /** The registry lookup: the connection registered for addr, if any. */
  function GetConn(conns: map<string, nat>, addr: string): (r: Option<nat>)
    ensures r.Some? <==> addr in conns
    ensures r.Some? ==> r.value == conns[addr]
  {
    if addr in conns then Some(conns[addr]) else None
  }

  /** OpenConnection: reuse the connection registered for addr without
      dialing; otherwise dial, failing when the dial fails. It reads the
      registry only: a dialed connection is registered later, by its receive
      loop (Receiver). */
  function OpenConnection(conns: map<string, nat>, addr: string, dial: DialOutcome): (r: Result<nat, TransportError>)
    ensures addr in conns ==> r == Success(conns[addr])
    ensures addr !in conns && dial.DialFailed? ==> r == Failure(ConnectError(addr))
    ensures addr !in conns && dial.Dialed? ==> r == Success(dial.conn)
  {
    match GetConn(conns, addr)
    case Some(c) => Success(c)
    case None =>
      match dial
      case DialFailed => Failure(ConnectError(addr))
      case Dialed(c) => Success(c)
  }

  /** A message server: the registry of connections by remote address and the
      inbound buffer shared by all their receive loops. */
  class MessageServer {
    const addr: string
    var conns: map<string, nat>
    var recChan: seq<Message>

    ghost predicate Valid()
      reads this
    {
      |recChan| <= RecChanCapacity
    }

    constructor (addr: string)
      ensures Valid() && this.addr == addr && conns == map[] && recChan == []
    {
      this.addr := addr;
      conns := map[];
      recChan := [];
    }

    /** CreateServer: a server with an empty registry and buffer, or a bind
        error when the address cannot be listened on. */
    static method CreateServer(addr: string, bindOk: bool) returns (r: Result<MessageServer, TransportError>)
      ensures r.Success? <==> bindOk
      ensures r.Failure? ==> r.error == BindError(addr)
      ensures r.Success? ==> fresh(r.value) && r.value.Valid() && r.value.addr == addr
      ensures r.Success? ==> r.value.conns == map[] && r.value.recChan == []
    {
      if !bindOk {
        return Failure(BindError(addr));
      }
      var server := new MessageServer(addr);
      r := Success(server);
    }

    /** Register conn under its remote address, replacing any earlier entry. */
    method AddConn(remoteAddr: string, conn: nat)
      modifies this`conns
      ensures conns == old(conns)[remoteAddr := conn]
    {
      conns := conns[remoteAddr := conn];
    }

    /** Remove the entry for addr and no other. */
    method RemoveConn(addr: string)
      modifies this`conns
      ensures conns == old(conns) - {addr}
    {
      conns := conns - {addr};
    }

    /** The select with a default branch: queue m if the buffer has room,
        otherwise drop it without blocking. */
    method Push(m: Message) returns (queued: bool)
      requires Valid()
      modifies this`recChan
      ensures Valid()
      ensures queued <==> |old(recChan)| < RecChanCapacity
      ensures recChan == Offer(old(recChan), m)
    {
      queued := |recChan| < RecChanCapacity;
      if queued {
        recChan := recChan + [m];
      }
    }

    /** Receive: the oldest buffered message. The Go code blocks while the
        buffer is empty; in a sequential model that wait is the precondition. */
    method Receive() returns (m: Message)
      requires Valid() && recChan != []
      modifies this`recChan
      ensures Valid()
      ensures m == old(recChan)[0] && recChan == old(recChan)[1..]
    {
      m := recChan[0];
      recChan := recChan[1..];
    }

    /** A connection's receive loop, run over everything the connection
        delivers before its read fails with `end`. It registers the
        connection, turns each zero-terminated run of bytes into a message
        without its terminator, offers it to the buffer, and deregisters the
        remote address however the loop ends. */
    method Receiver(conn: nat, remoteAddr: string, stream: Bytes, end: ReadError)
      requires Valid()
      modifies this`conns, this`recChan
      ensures Valid()
      ensures conns == old(conns) - {remoteAddr}
      ensures recChan == OfferAll(old(recChan), Tagged(remoteAddr, Frames(stream)))
    {
      AddConn(remoteAddr, conn);
      var rest := stream;
      var done := false;
      while !done
        invariant Valid()
        invariant conns == old(conns)[remoteAddr := conn]
        invariant done ==> Frames(rest) == []
        invariant OfferAll(recChan, Tagged(remoteAddr, Frames(rest)))
               == OfferAll(old(recChan), Tagged(remoteAddr, Frames(stream)))
        decreases |rest|, !done
      {
        var r := ReadBytes(rest, end);
        if r.err == Some(ErrClosed) {
          done := true;
        } else if r.err == Some(ErrEOF) {
          done := true;
        } else if r.err.Some? {
          // any other read error: the Go code logs it and returns
          done := true;
        } else {
          var payload := r.data[..|r.data| - 1];
          FramesStep(rest, end);
          var m := Message(remoteAddr, payload);
          assert Tagged(remoteAddr, Frames(rest)) == [m] + Tagged(remoteAddr, Frames(r.rest));
          var _ := Push(m);
          rest := r.rest;
        }
      }
      RemoveConn(remoteAddr);
      assert old(conns)[remoteAddr := conn] - {remoteAddr} == old(conns) - {remoteAddr};
    }
  }
}
