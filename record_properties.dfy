/**
 * Properties of the record driver specification: what one step does to the
 * two buffers, and what the whole loop keeps true.
 */
module RecordProperties {
  import opened RecordSpec

  /**
   * No incoming byte is lost or duplicated: the bytes the engine has
   * consumed, followed by the bytes in use, are exactly the bytes the
   * socket has delivered.
   */
  predicate IncomingConserved(c: Conn)
    requires Valid(c)
  {
    c.consumed + c.incoming[..c.incomingUsed] == c.socket.received
  }

  /** Every remaining scripted write goes out in full. */
  predicate AllWritesComplete(outbox: seq<WriteReply>)
  {
    forall i :: 0 <= i < |outbox| ==> outbox[i] == WroteAll
  }

  /**
   * No outgoing byte is lost or duplicated: the bytes sent, followed by the
   * bytes pending, are exactly the bytes the engine has encoded.
   */
  predicate OutgoingAccounted(c: Conn)
    requires Valid(c)
  {
    c.socket.sent + c.outgoing[..c.outgoingUsed] == c.produced
  }

  /** Compaction moves the consumed bytes from the buffer to the consumed log, losing none. */
  lemma DiscardConserves(c: Conn, d: nat)
    requires Valid(c) && IncomingConserved(c)
    ensures IncomingConserved(Discard(c, d).next)
  {
  }

  /** A read appends to the buffer exactly the bytes the socket delivers. */
  lemma ReadMoreConserves(c: Conn)
    requires Valid(c) && IncomingConserved(c)
    ensures IncomingConserved(ReadMore(c).next)
  {
  }

  /** One turn of the loop keeps the incoming bytes conserved. */
  lemma StepConserves(c: Conn)
    requires Valid(c) && IncomingConserved(c)
    ensures IncomingConserved(Step(c).next)
  {
    if c.engine.replies != [] && c.engine.replies[0].Status? {
      var shown := c.(engine := Show(c.engine, c.incoming[..c.incomingUsed]));
      var status := c.engine.replies[0].status;
      var acted := Act(shown, status.state);
      match status.state
      case NeedsMoreTlsData(_) => ReadMoreConserves(shown);
      case _ =>
      if acted.Continue? {
        DiscardConserves(acted.next, status.discard);
      }
    }
  }

  /**
   * After a handled state the engine's `discard` count is applied: it is
   * taken from the bytes in use, which are the old ones followed by any
   * bytes just read. The turn goes on exactly when the count fits; the
   * bytes after it move to the front, and the first `discard` bytes join
   * the consumed stream. A count that does not fit fails the assertion.
   */
  lemma StepDiscards(c: Conn)
    requires Valid(c) && c.engine.replies != [] && c.engine.replies[0].Status?
    ensures var r := Step(c);
      var d := c.engine.replies[0].status.discard;
      c.socket.received <= r.next.socket.received &&
      var available := c.incoming[..c.incomingUsed] + r.next.socket.received[|c.socket.received|..];
      (r.Continue? ==>
        d <= |available| && r.next.incomingUsed == |available| - d &&
        r.next.incoming[..r.next.incomingUsed] == available[d..] &&
        r.next.consumed == c.consumed + available[..d]) &&
      (r.Stop? && r.outcome == Panicked(DiscardExceedsUsed) ==> d > |available|) &&
      (d > |available| && !c.engine.replies[0].status.state.OtherState? ==> r.Stop?)
  {
  }

  /**
   * Over the whole run, every byte the socket delivers is either still in
   * the incoming buffer or was consumed by the engine, in order.
   */
  lemma {:induction false} RunConserves(c: Conn)
    requires Valid(c) && IncomingConserved(c)
    ensures IncomingConserved(Run(c).1)
    decreases |c.engine.replies|
  {
    StepConserves(c);
    var s := Step(c);
    if s.Continue? {
      RunConserves(s.next);
    }
  }

  /**
   * Each call to `process_tls_records` is shown exactly the part of the
   * socket's byte stream that the engine has not consumed yet.
   */
  lemma StepShowsUnconsumedStream(c: Conn)
    requires Valid(c) && IncomingConserved(c) && c.engine.replies != []
    ensures Step(c).next.engine.shown == c.engine.shown + [c.socket.received[|c.consumed|..]]
  {
  }

  /** An encode that succeeds appends its record to both the pending bytes and the encoded stream. */
  lemma EncodeAccounts(c: Conn, first: EncodeReply, retry: EncodeReply)
    requires Valid(c) && OutgoingAccounted(c)
    ensures OutgoingAccounted(Encode(c, first, retry).next)
  {
    var r := Encode(c, first, retry).next;
    assert r.outgoing[..r.outgoingUsed] == r.outgoing[..c.outgoingUsed] + r.outgoing[c.outgoingUsed..r.outgoingUsed];
  }

  /** A write that goes out in full moves exactly the pending bytes to the sent log. */
  lemma TransmitAccounts(c: Conn)
    requires Valid(c) && OutgoingAccounted(c) && AllWritesComplete(c.socket.outbox)
    ensures OutgoingAccounted(Transmit(c)) && AllWritesComplete(Transmit(c).socket.outbox)
  {
    assert Transmit(c).socket.sent == c.socket.sent + c.outgoing[..c.outgoingUsed];
  }

  /** One turn of the loop keeps the outgoing bytes accounted for while writes succeed. */
  lemma StepAccounts(c: Conn)
    requires Valid(c) && OutgoingAccounted(c) && AllWritesComplete(c.socket.outbox)
    ensures OutgoingAccounted(Step(c).next) && AllWritesComplete(Step(c).next.socket.outbox)
  {
    if c.engine.replies != [] && c.engine.replies[0].Status? {
      var shown := c.(engine := Show(c.engine, c.incoming[..c.incomingUsed]));
      var status := c.engine.replies[0].status;
      match status.state
      case MustEncodeTlsData(first, retry) => EncodeAccounts(shown, first, retry);
      case MustTransmitTlsData => TransmitAccounts(shown);
      case _ =>
    }
  }

  /**
   * While every write succeeds, the bytes sent followed by the bytes still
   * pending are exactly the bytes the engine encoded, over the whole run.
   */
  lemma {:induction false} RunAccounts(c: Conn)
    requires Valid(c) && OutgoingAccounted(c) && AllWritesComplete(c.socket.outbox)
    ensures OutgoingAccounted(Run(c).1)
    decreases |c.engine.replies|
  {
    StepAccounts(c);
    var s := Step(c);
    if s.Continue? {
      RunAccounts(s.next);
    }
  }

  /**
   * The write's result is ignored: when `write_all` fails part-way, the
   * pending count is still reset and `done()` still called, so the bytes
   * that did not go out are neither sent nor pending any more.
   */
  lemma FailedWriteLosesBytes(c: Conn, accepted: nat)
    requires Valid(c) && OutgoingAccounted(c)
    requires c.socket.outbox != [] && c.socket.outbox[0] == WriteFailed(accepted) && accepted < c.outgoingUsed
    ensures Transmit(c).outgoingUsed == 0 && Transmit(c).engine.acks == c.engine.acks + 1
    ensures !OutgoingAccounted(Transmit(c))
  {
  }

  /**
   * Grow and retry: after `InsufficientSize(k)` the buffer is the pending
   * bytes, then the retried record, then the rest of the resized vector, so
   * exactly `outgoing_used + k` bytes (also when a hint smaller than the free
   * space truncates it); the pending count grows by the record's length,
   * not by `k`.
   */
  lemma GrowThenRetry(c: Conn, k: nat, record: seq<byte>)
    requires Valid(c)
    requires |record| <= k
    ensures var r := Encode(c, Err(InsufficientSize(k)), Ok(record));
      r.Continue? &&
      r.next.outgoing == c.outgoing[..c.outgoingUsed] + record + Resize(c.outgoing, c.outgoingUsed + k)[c.outgoingUsed + |record|..] &&
      |r.next.outgoing| == c.outgoingUsed + k &&
      r.next.outgoingUsed == c.outgoingUsed + |record|
  {
  }

  /**
   * The grown tail is zero: after growing for a record that needs the whole
   * new space, nothing of the old tail is left past the pending bytes.
   */
  lemma GrowFillsZeros(c: Conn, k: nat, record: seq<byte>)
    requires Valid(c) && c.outgoingUsed == |c.outgoing|
    requires |record| <= k
    ensures var r := Encode(c, Err(InsufficientSize(k)), Ok(record));
      r.next.outgoing == c.outgoing + record + seq(k - |record|, _ => 0)
  {
  }

  /**
   * With the incoming buffer full, `NeedsMoreTlsData` reads into an empty
   * slice: nothing is appended, and the buffer never overflows.
   */
  lemma FullBufferReadsNothing(c: Conn)
    requires Valid(c) && c.incomingUsed == IncomingCapacity
    ensures ReadMore(c).next.incoming == c.incoming && ReadMore(c).next.incomingUsed == IncomingCapacity
  {
  }

  /**
   * The first half of the happy path: encode a client hello into an empty
   * outgoing buffer (grow and retry), then transmit it in full.
   */
  lemma HelloSent(c: Conn, hello: seq<byte>)
    requires Valid(c) && c.incomingUsed == 0 && c.outgoing == [] && c.outgoingUsed == 0 && 0 < |hello|
    requires |c.engine.replies| >= 2
    requires c.engine.replies[0] == Status(LlStatus(0, MustEncodeTlsData(Ok(hello), Ok(hello))))
    requires c.engine.replies[1] == Status(LlStatus(0, MustTransmitTlsData))
    requires c.socket.outbox == []
    ensures var s1 := Step(c);
      s1.Continue? &&
      var s2 := Step(s1.next);
      s2.Continue? &&
      s2.next.incomingUsed == 0 && s2.next.outgoingUsed == 0 &&
      s2.next.engine == Engine(c.engine.replies[2..], c.engine.shown + [[], []], c.engine.acks + 1) &&
      s2.next.socket == c.socket.(sent := c.socket.sent + hello)
  {
    var s1 := Step(c);
    assert s1.Continue? && s1.next.outgoingUsed == |hello|;
    assert s1.next.outgoing[..|hello|] == hello;
  }

  /** The second half: read the server's reply, then stop on the next state. */
  lemma ReplyArrives(c: Conn, reply: seq<byte>)
    requires Valid(c) && c.incomingUsed == 0 && 0 < |reply| <= IncomingCapacity
    requires c.engine.replies == [Status(LlStatus(0, NeedsMoreTlsData(None))), Status(LlStatus(|reply|, OtherState))]
    requires c.socket.inbox == [Arrived(reply)]
    ensures var r := Run(c);
      r.0 == Finished &&
      r.1.socket == c.socket.(inbox := [], received := c.socket.received + reply) &&
      r.1.engine == Engine([], c.engine.shown + [[], reply], c.engine.acks)
  {
    var s1 := Step(c);
    assert s1.Continue? && s1.next.incomingUsed == |reply|;
    assert s1.next.incoming[..|reply|] == reply;
    var s2 := Step(s1.next);
    assert s2 == Stop(Finished, s2.next);
    assert Run(c) == Run(s1.next) == (Finished, s2.next);
  }

  /**
   * A happy path: encode a client hello into an empty outgoing buffer (grow
   * and retry), transmit it, read the server's reply, and stop on the next
   * state. The socket sends exactly the hello and the engine is shown the
   * empty buffer three times and then exactly the reply.
   */
  lemma HappyPath(c: Conn, hello: seq<byte>, reply: seq<byte>)
    requires Valid(c) && c.incomingUsed == 0 && c.outgoing == [] && c.outgoingUsed == 0
    requires 0 < |hello| && 0 < |reply| <= IncomingCapacity
    requires c.engine.replies == [
      Status(LlStatus(0, MustEncodeTlsData(Ok(hello), Ok(hello)))),
      Status(LlStatus(0, MustTransmitTlsData)),
      Status(LlStatus(0, NeedsMoreTlsData(None))),
      Status(LlStatus(|reply|, OtherState))]
    requires c.socket.inbox == [Arrived(reply)] && c.socket.outbox == []
    ensures var r := Run(c);
      r.0 == Finished &&
      r.1.socket.sent == c.socket.sent + hello &&
      r.1.socket.received == c.socket.received + reply &&
      r.1.engine.shown == c.engine.shown + [[], [], [], reply] &&
      r.1.engine.acks == c.engine.acks + 1
  {
    HelloSent(c, hello);
    var s1 := Step(c);
    var s2 := Step(s1.next);
    assert c.engine.replies[2..] == [Status(LlStatus(0, NeedsMoreTlsData(None))), Status(LlStatus(|reply|, OtherState))];
    ReplyArrives(s2.next, reply);
    assert Run(c) == Run(s1.next) == Run(s2.next);
  }

  /**
   * The engine consumes what it read: after the server's reply arrives the
   * engine reports it consumed in full together with a transmit, so the
   * discard empties the incoming buffer and the next call is shown nothing.
   */
  lemma ReadThenConsume(c: Conn, reply: seq<byte>)
    requires Valid(c) && c.incomingUsed == 0 && c.outgoingUsed == 0
    requires 0 < |reply| <= IncomingCapacity
    requires c.engine.replies == [
      Status(LlStatus(0, NeedsMoreTlsData(None))),
      Status(LlStatus(|reply|, MustTransmitTlsData)),
      Status(LlStatus(0, OtherState))]
    requires c.socket.inbox == [Arrived(reply)] && c.socket.outbox == []
    ensures var r := Run(c);
      r.0 == Finished &&
      r.1.engine.shown == c.engine.shown + [[], reply, []] &&
      r.1.consumed == c.consumed + reply && r.1.incomingUsed == 0 &&
      r.1.engine.acks == c.engine.acks + 1
  {
    var s1 := Step(c);
    assert s1.Continue? && s1.next.incomingUsed == |reply|;
    assert s1.next.incoming[..|reply|] == reply;
    var s2 := Step(s1.next);
    StepDiscards(s1.next);
    assert s2.Continue? && s2.next.incomingUsed == 0 && s2.next.consumed == c.consumed + reply;
    var s3 := Step(s2.next);
    assert s3 == Stop(Finished, s3.next);
    assert Run(c) == Run(s1.next) == Run(s2.next) == (Finished, s3.next);
  }

  /**
   * A double encode aborts the run at once: the driver panics without any
   * further socket I/O.
   */
  lemma DoubleEncodeStops(c: Conn, retry: EncodeReply, d: nat)
    requires Valid(c) && c.engine.replies != []
    requires c.engine.replies[0] == Status(LlStatus(d, MustEncodeTlsData(Err(AlreadyEncoded), retry)))
    ensures Run(c).0 == Panicked(EncodeFailed(AlreadyEncoded))
    ensures Run(c).1.socket == c.socket && Run(c).1.outgoing == c.outgoing
  {
  }
}
