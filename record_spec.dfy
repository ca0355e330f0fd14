/**
 * Value-level specification of the TLS record driver `process_state`
 * (stm32f429/src/bin/tcp_client_alloc.rs).
 *
 * The driver owns an incoming buffer of 16384 bytes with a count of the
 * bytes in use, and a growable outgoing buffer with a count of the bytes
 * waiting to be sent. On each turn it asks the TLS engine for a status
 * (a discard count and a state), acts on the state, and then drops the
 * discarded prefix of the incoming buffer.
 *
 * The TLS engine and the TCP socket are oracles: each holds the list of
 * replies it will give, and logs what the driver shows or sends it.
 */
module RecordSpec {

  newtype byte = b: int | 0 <= b < 256

  /** Size of the fixed incoming array, `[u8; 16384]`. */
  const IncomingCapacity: nat := 16384

  datatype Option<T> = None | Some(value: T)

  /** The engine's two ways of refusing to encode. */
  datatype EncodeError =
    | InsufficientSize(requiredSize: nat)
    | AlreadyEncoded

  /** What one `encode` call answers: the record it writes, or an error. */
  datatype EncodeReply =
    | Ok(record: seq<byte>)
    | Err(error: EncodeError)

  /**
   * The state half of the engine's status. `MustEncodeTlsData` carries the
   * engine's answers to the first `encode` call and to the retry after the
   * buffer has grown. `OtherState` stands for every state the driver does
   * not handle (application data available, traffic in transit, closed).
   */
  datatype LlState =
    | MustEncodeTlsData(first: EncodeReply, retry: EncodeReply)
    | MustTransmitTlsData
    | NeedsMoreTlsData(numBytes: Option<nat>)
    | OtherState

  datatype LlStatus = LlStatus(discard: nat, state: LlState)

  /** One answer of `process_tls_records`: a status, or an engine error. */
  datatype EngineReply = Status(status: LlStatus) | ProcessFailed

  /**
   * The engine as the driver sees it: the replies still to come, every
   * incoming slice it has been shown, and how many transmissions it has
   * been told are done.
   */
  datatype Engine = Engine(replies: seq<EngineReply>, shown: seq<seq<byte>>, acks: nat)

  /** One answer of the socket to `read`: bytes that have arrived, or an I/O error. */
  datatype ReadReply = Arrived(data: seq<byte>) | ReadFailed

  /** One answer of the socket to `write_all`: everything went out, or an error after `accepted` bytes. */
  datatype WriteReply = WroteAll | WriteFailed(accepted: nat)

  /**
   * The TCP socket: replies still to come for reads and writes, the bytes
   * it has delivered to the driver and the bytes it has sent to the peer.
   */
  datatype Socket = Socket(inbox: seq<ReadReply>, outbox: seq<WriteReply>, received: seq<byte>, sent: seq<byte>)

  /** Why a run aborts: an `unwrap` on an error, or the failed `assert!`. */
  datatype Panic =
    | ProcessTlsRecordsFailed
    | EncodeFailed(error: EncodeError)
    | SocketReadFailed
    | DiscardExceedsUsed

  /**
   * How `process_state` ends: `Ok(())`, a panic, or (in the model only)
   * the engine has no replies left.
   */
  datatype Outcome = Finished | Panicked(reason: Panic) | OutOfReplies

  /**
   * Everything `process_state` works on. `consumed` logs the bytes dropped
   * from the front of the incoming buffer; `produced` logs the bytes the
   * engine encoded into the outgoing buffer.
   */
  datatype Conn = Conn(
    incoming: seq<byte>,
    incomingUsed: nat,
    outgoing: seq<byte>,
    outgoingUsed: nat,
    engine: Engine,
    socket: Socket,
    consumed: seq<byte>,
    produced: seq<byte>)

  /** The result of one step: carry on from `next`, or stop there with `outcome`. */
  datatype StepResult = Continue(next: Conn) | Stop(outcome: Outcome, next: Conn)

  /** Buffer invariants: the incoming array keeps its size and both counts stay in range. */
  predicate Valid(c: Conn)
  {
    |c.incoming| == IncomingCapacity && c.incomingUsed <= |c.incoming| && c.outgoingUsed <= |c.outgoing|
  }

  /** Nothing on the incoming side differs between `a` and `b`. */
  predicate SameIncoming(a: Conn, b: Conn)
  {
    a.incoming == b.incoming && a.incomingUsed == b.incomingUsed && a.consumed == b.consumed
  }

  function Min(a: nat, b: nat): nat
  {
    if a <= b then a else b
  }

  // ---------------------------------------------------------------------
  // Buffer operations
  // ---------------------------------------------------------------------

  /** `Vec::resize(n, 0)`: the first `n` bytes of `v`, padded with zero bytes up to `n`. */
  function Resize(v: seq<byte>, n: nat): (r: seq<byte>)
    ensures |r| == n
    ensures forall i :: 0 <= i < n && i < |v| ==> r[i] == v[i]
    ensures forall i :: |v| <= i < n ==> r[i] == 0
  {
    if n <= |v| then v[..n] else v + seq(n - |v|, _ => 0)
  }

  /** `v` with the slice starting at `off` overwritten by `s`. */
  function Overwrite(v: seq<byte>, off: nat, s: seq<byte>): (r: seq<byte>)
    requires off + |s| <= |v|
    ensures |r| == |v|
    ensures forall i :: 0 <= i < |v| ==> r[i] == (if off <= i < off + |s| then s[i - off] else v[i])
  {
    v[..off] + s + v[off + |s|..]
  }

  /** `copy_within(d..used, 0)`: bytes `[d, used)` moved to offset 0, the rest left in place. */
  function Compact(buf: seq<byte>, used: nat, d: nat): (r: seq<byte>)
    requires d <= used <= |buf|
    ensures |r| == |buf|
    ensures forall i :: 0 <= i < used - d ==> r[i] == buf[d + i]
    ensures forall i :: used - d <= i < |buf| ==> r[i] == buf[i]
  {
    buf[d..used] + buf[used - d..]
  }

  // ---------------------------------------------------------------------
  // The oracles
  // ---------------------------------------------------------------------

  /** The engine answers `process_tls_records`: its next reply is used up and the slice is logged. */
  function Show(e: Engine, input: seq<byte>): (r: Engine)
    requires e.replies != []
    ensures r.replies == e.replies[1..] && r.acks == e.acks
    ensures |r.shown| == |e.shown| + 1 && r.shown[..|e.shown|] == e.shown && r.shown[|e.shown|] == input
  {
    e.(replies := e.replies[1..], shown := e.shown + [input])
  }

  /**
   * The engine's answer to `encode` into a slice of `room` bytes. The
   * engine never writes past the slice: a record that does not fit is
   * refused with its size as the required size.
   */
  function Answer(reply: EncodeReply, room: nat): (r: EncodeReply)
    ensures r.Ok? ==> r == reply && |r.record| <= room
    ensures reply.Ok? && |reply.record| > room ==> r == Err(InsufficientSize(|reply.record|))
    ensures reply.Ok? && |reply.record| <= room ==> r == reply
    ensures reply.Err? ==> r == reply
  {
    match reply
    case Ok(record) => if |record| <= room then reply else Err(InsufficientSize(|record|))
    case Err(_) => reply
  }

  datatype Delivery = Delivery(data: seq<byte>, rest: Socket)

  /**
   * The socket's answer to `read` into a slice of `room` bytes. It delivers
   * at most `room` bytes of the next arrival and keeps the remainder for
   * the next read; with nothing more to come it reads 0 bytes.
   */
  function SocketRead(s: Socket, room: nat): (r: Option<Delivery>)
    ensures r.None? <==> (s.inbox != [] && s.inbox[0].ReadFailed?)
    ensures r.Some? ==> |r.value.data| <= room
    ensures r.Some? ==> r.value.rest == s.(inbox := r.value.rest.inbox, received := s.received + r.value.data)
    ensures r.Some? && s.inbox != [] ==> r.value.data <= s.inbox[0].data
    ensures r.Some? && s.inbox != [] && |r.value.data| < |s.inbox[0].data| ==>
      r.value.rest.inbox == [Arrived(s.inbox[0].data[|r.value.data|..])] + s.inbox[1..]
    ensures r.Some? && s.inbox != [] && |r.value.data| == |s.inbox[0].data| ==> r.value.rest.inbox == s.inbox[1..]
    ensures r.Some? && s.inbox != [] ==> |r.value.data| == Min(|s.inbox[0].data|, room)
    ensures s.inbox == [] ==> r == Some(Delivery([], s))
  {
    if s.inbox == [] then Some(Delivery([], s))
    else
      match s.inbox[0]
      case ReadFailed => None
      case Arrived(data) =>
        var n := Min(|data|, room);
        var rest := if n == |data| then s.inbox[1..] else [Arrived(data[n..])] + s.inbox[1..];
        Some(Delivery(data[..n], s.(inbox := rest, received := s.received + data[..n])))
  }

  /**
   * The socket's answer to `write_all(data)`: all of `data` goes out, or
   * only a prefix of it before an error. With no scripted reply left the
   * write succeeds.
   */
  function SocketWriteAll(s: Socket, data: seq<byte>): (r: Socket)
    ensures r.inbox == s.inbox && r.received == s.received
    ensures r.outbox == if s.outbox == [] then [] else s.outbox[1..]
    ensures s.sent <= r.sent && r.sent[|s.sent|..] <= data
    ensures (s.outbox == [] || s.outbox[0] == WroteAll) ==> r.sent == s.sent + data
  {
    if s.outbox == [] then s.(sent := s.sent + data)
    else
      match s.outbox[0]
      case WroteAll => s.(outbox := s.outbox[1..], sent := s.sent + data)
      case WriteFailed(accepted) => s.(outbox := s.outbox[1..], sent := s.sent + data[..Min(accepted, |data|)])
  }

  // ---------------------------------------------------------------------
  // The directives
  // ---------------------------------------------------------------------

  /** The engine has written `record` at the end of the pending outgoing bytes. */
  function Emit(c: Conn, record: seq<byte>): (r: Conn)
    requires c.outgoingUsed + |record| <= |c.outgoing|
    ensures |r.outgoing| == |c.outgoing| && r.outgoingUsed == c.outgoingUsed + |record|
    ensures r.outgoing[..c.outgoingUsed] == c.outgoing[..c.outgoingUsed]
    ensures r.outgoing[c.outgoingUsed..r.outgoingUsed] == record
    ensures r.outgoing[r.outgoingUsed..] == c.outgoing[r.outgoingUsed..]
    ensures r.produced == c.produced + record
    ensures SameIncoming(r, c) && r.engine == c.engine && r.socket == c.socket
  {
    c.(outgoing := Overwrite(c.outgoing, c.outgoingUsed, record),
       outgoingUsed := c.outgoingUsed + |record|,
       produced := c.produced + record)
  }

  /**
   * `MustEncodeTlsData`: encode into the free tail of the outgoing buffer;
   * on `InsufficientSize` grow the buffer to `outgoing_used + required_size`
   * and retry exactly once; any error left over is unwrapped, so it panics.
   */
  function Encode(c: Conn, first: EncodeReply, retry: EncodeReply): (r: StepResult)
    requires Valid(c)
    ensures Valid(r.next)
    ensures SameIncoming(r.next, c) && r.next.engine == c.engine && r.next.socket == c.socket
    ensures c.outgoingUsed <= |r.next.outgoing| && r.next.outgoing[..c.outgoingUsed] == c.outgoing[..c.outgoingUsed]
    ensures r.Continue? ==>
      c.outgoingUsed <= r.next.outgoingUsed &&
      r.next.produced == c.produced + r.next.outgoing[c.outgoingUsed..r.next.outgoingUsed]
    ensures r.Stop? ==>
      r.outcome.Panicked? && r.outcome.reason.EncodeFailed? &&
      r.next.outgoingUsed == c.outgoingUsed && r.next.produced == c.produced
    ensures Answer(first, |c.outgoing| - c.outgoingUsed).Ok? ==>
      r.Continue? && |r.next.outgoing| == |c.outgoing| &&
      r.next.outgoing[c.outgoingUsed..r.next.outgoingUsed] == first.record &&
      r.next.outgoing[r.next.outgoingUsed..] == c.outgoing[r.next.outgoingUsed..]
    ensures var a := Answer(first, |c.outgoing| - c.outgoingUsed);
      a.Err? && a.error.InsufficientSize? ==>
        var k := a.error.requiredSize;
        |r.next.outgoing| == c.outgoingUsed + k &&
        (r.Continue? <==> Answer(retry, k).Ok?) &&
        (r.Continue? ==> r.next.outgoing[c.outgoingUsed..r.next.outgoingUsed] == retry.record) &&
        (r.Stop? ==> r.outcome == Panicked(EncodeFailed(Answer(retry, k).error))) &&
        (forall i :: r.next.outgoingUsed <= i < |r.next.outgoing| ==>
          r.next.outgoing[i] == (if i < |c.outgoing| then c.outgoing[i] else 0))
    ensures first == Err(AlreadyEncoded) ==> r == Stop(Panicked(EncodeFailed(AlreadyEncoded)), c)
  {
    match Answer(first, |c.outgoing| - c.outgoingUsed)
    case Ok(record) => Continue(Emit(c, record))
    case Err(InsufficientSize(k)) =>
      var grown := c.(outgoing := Resize(c.outgoing, c.outgoingUsed + k));
      (match Answer(retry, k)
       case Ok(record) => Continue(Emit(grown, record))
       case Err(e) => Stop(Panicked(EncodeFailed(e)), grown))
    case Err(AlreadyEncoded) => Stop(Panicked(EncodeFailed(AlreadyEncoded)), c)
  }

  /**
   * `MustTransmitTlsData`: write the pending bytes, ignore the write's
   * result, reset the pending count and acknowledge with `done()`.
   */
  function Transmit(c: Conn): (r: Conn)
    requires Valid(c)
    ensures Valid(r)
    ensures SameIncoming(r, c) && r.outgoing == c.outgoing && r.produced == c.produced
    ensures r.outgoingUsed == 0
    ensures r.engine == c.engine.(acks := c.engine.acks + 1)
    ensures r.socket == SocketWriteAll(c.socket, c.outgoing[..c.outgoingUsed])
    ensures (c.socket.outbox == [] || c.socket.outbox[0] == WroteAll) ==>
      r.socket.sent == c.socket.sent + c.outgoing[..c.outgoingUsed]
  {
    c.(socket := SocketWriteAll(c.socket, c.outgoing[..c.outgoingUsed]),
       outgoingUsed := 0,
       engine := c.engine.(acks := c.engine.acks + 1))
  }

  /**
   * `NeedsMoreTlsData`: read into the free tail of the incoming buffer and
   * advance the count by the bytes read; a read error is unwrapped.
   */
  function ReadMore(c: Conn): (r: StepResult)
    requires Valid(c)
    ensures Valid(r.next)
    ensures r.Stop? <==> (c.socket.inbox != [] && c.socket.inbox[0].ReadFailed?)
    ensures r.Stop? ==> r == Stop(Panicked(SocketReadFailed), c)
    ensures r.next.engine == c.engine && r.next.consumed == c.consumed
    ensures r.next.outgoing == c.outgoing && r.next.outgoingUsed == c.outgoingUsed && r.next.produced == c.produced
    ensures r.next.socket.sent == c.socket.sent && r.next.socket.outbox == c.socket.outbox
    ensures |r.next.incoming| == |c.incoming| && c.incomingUsed <= r.next.incomingUsed
    ensures c.socket.received <= r.next.socket.received
    ensures r.next.incoming[..r.next.incomingUsed] ==
      c.incoming[..c.incomingUsed] + r.next.socket.received[|c.socket.received|..]
    ensures r.next.incoming[r.next.incomingUsed..] == c.incoming[r.next.incomingUsed..]
    ensures r.Continue? ==>
      var delivery := SocketRead(c.socket, |c.incoming| - c.incomingUsed).value;
      r.next.socket == delivery.rest && r.next.incomingUsed == c.incomingUsed + |delivery.data|
  {
    match SocketRead(c.socket, |c.incoming| - c.incomingUsed)
    case None => Stop(Panicked(SocketReadFailed), c)
    case Some(Delivery(data, rest)) =>
      Continue(c.(incoming := Overwrite(c.incoming, c.incomingUsed, data),
                  incomingUsed := c.incomingUsed + |data|,
                  socket := rest))
  }

  /**
   * Dropping the `d` bytes the engine has consumed: nothing when `d` is 0,
   * a failed assertion when `d` exceeds the bytes in use, and otherwise the
   * bytes in use after the first `d` moved to the front.
   */
  function Discard(c: Conn, d: nat): (r: StepResult)
    requires Valid(c)
    ensures Valid(r.next)
    ensures d == 0 ==> r == Continue(c)
    ensures d > c.incomingUsed ==> r == Stop(Panicked(DiscardExceedsUsed), c)
    ensures 0 < d <= c.incomingUsed ==>
      r.Continue? && |r.next.incoming| == |c.incoming| &&
      r.next.incomingUsed == c.incomingUsed - d &&
      r.next.incoming[..r.next.incomingUsed] == c.incoming[d..c.incomingUsed] &&
      r.next.consumed == c.consumed + c.incoming[..d]
    ensures r.next.outgoing == c.outgoing && r.next.outgoingUsed == c.outgoingUsed && r.next.produced == c.produced
    ensures r.next.engine == c.engine && r.next.socket == c.socket
  {
    if d == 0 then Continue(c)
    else if d > c.incomingUsed then Stop(Panicked(DiscardExceedsUsed), c)
    else
      Continue(c.(incoming := Compact(c.incoming, c.incomingUsed, d),
                  incomingUsed := c.incomingUsed - d,
                  consumed := c.consumed + c.incoming[..d]))
  }

  /** The arm of the `match state` that handles `state`; any other state returns `Ok(())`. */
  function Act(c: Conn, state: LlState): (r: StepResult)
    requires Valid(c)
    ensures Valid(r.next)
    ensures r.next.engine.replies == c.engine.replies && r.next.engine.shown == c.engine.shown
    ensures (r.Stop? && r.outcome == Finished) <==> state.OtherState?
    ensures state.OtherState? ==> r.next == c
  {
    match state
    case MustEncodeTlsData(first, retry) => Encode(c, first, retry)
    case MustTransmitTlsData => Continue(Transmit(c))
    case NeedsMoreTlsData(_) => ReadMore(c)
    case OtherState => Stop(Finished, c)
  }

  /**
   * One turn of the loop: show the engine the bytes in use, act on the
   * state it reports, then apply its discard count.
   */
  function Step(c: Conn): (r: StepResult)
    requires Valid(c)
    ensures Valid(r.next)
    ensures c.engine.replies == [] ==> r == Stop(OutOfReplies, c)
    ensures c.engine.replies != [] ==>
      r.next.engine.replies == c.engine.replies[1..] &&
      r.next.engine.shown == c.engine.shown + [c.incoming[..c.incomingUsed]]
    ensures (r.Stop? && r.outcome == Finished) <==>
      (c.engine.replies != [] && c.engine.replies[0].Status? && c.engine.replies[0].status.state.OtherState?)
  {
    if c.engine.replies == [] then Stop(OutOfReplies, c)
    else
      var shown := c.(engine := Show(c.engine, c.incoming[..c.incomingUsed]));
      match c.engine.replies[0]
      case ProcessFailed => Stop(Panicked(ProcessTlsRecordsFailed), shown)
      case Status(status) =>
        var acted := Act(shown, status.state);
        if acted.Stop? then acted else Discard(acted.next, status.discard)
  }

  /** The whole loop: steps until one of them stops. */
  function Run(c: Conn): (r: (Outcome, Conn))
    requires Valid(c)
    ensures Valid(r.1)
    decreases |c.engine.replies|
  {
    var s := Step(c);
    if s.Stop? then (s.outcome, s.next) else Run(s.next)
  }
}
