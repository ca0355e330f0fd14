/**
 * The record driver loop `process_state`
 * (stm32f429/src/bin/tcp_client_alloc.rs:153-247) as imperative code: the
 * incoming buffer is a fixed array shifted and filled in place, the
 * outgoing buffer a growable sequence, and each method is proved to do
 * what the matching function of `RecordSpec` says.
 */
module RecordDriver {
  import opened RecordSpec

  /**
   * `Encode` in the order the driver computes it: the first answer, the
   * buffer grown or not, the answer that is kept, then the panic or the
   * written record.
   */
  lemma EncodeAsDriven(c: Conn, first: EncodeReply, retry: EncodeReply)
    requires Valid(c)
    ensures var a := Answer(first, |c.outgoing| - c.outgoingUsed);
      var grow := a.Err? && a.error.InsufficientSize?;
      var grown := if grow then c.(outgoing := Resize(c.outgoing, c.outgoingUsed + a.error.requiredSize)) else c;
      var kept := if grow then Answer(retry, |grown.outgoing| - c.outgoingUsed) else a;
      Encode(c, first, retry) ==
        if kept.Err? then Stop(Panicked(EncodeFailed(kept.error)), grown)
        else Continue(Emit(grown, kept.record))
  {
  }

  class Driver {
    /** `incoming_tls: [u8; 16384]` */
    const incoming: array<byte>
    /** `incoming_used` */
    var incomingUsed: nat
    /** `outgoing_tls: Vec<u8>` */
    var outgoing: seq<byte>
    /** `outgoing_used` */
    var outgoingUsed: nat
    /** `conn`, the TLS engine */
    var engine: Engine
    /** `socket`, the TCP socket */
    var socket: Socket
    /** Bytes dropped from the front of the incoming buffer so far. */
    ghost var consumed: seq<byte>
    /** Bytes the engine has encoded into the outgoing buffer so far. */
    ghost var produced: seq<byte>

    ghost predicate Valid()
      reads this
    {
      incoming.Length == IncomingCapacity && incomingUsed <= incoming.Length && outgoingUsed <= |outgoing|
    }

    /** The state as a value of the specification. */
    ghost function Value(): (c: Conn)
      reads this, incoming
      ensures Valid() ==> RecordSpec.Valid(c)
    {
      Conn(incoming[..], incomingUsed, outgoing, outgoingUsed, engine, socket, consumed, produced)
    }

    /** The buffers as they are set up before the call: zeroed incoming array, empty outgoing vector. */
    constructor (engine: Engine, socket: Socket)
      ensures Valid() && fresh(incoming)
      ensures Value() == Conn(seq(IncomingCapacity, _ => 0), 0, [], 0, engine, socket, [], [])
    {
      this.incoming := new byte[IncomingCapacity](_ => 0);
      this.incomingUsed := 0;
      this.outgoing := [];
      this.outgoingUsed := 0;
      this.engine := engine;
      this.socket := socket;
      this.consumed := [];
      this.produced := [];
    }

    /** `MustEncodeTlsData`: encode, grow and retry once on `InsufficientSize`. */
    method EncodeTlsData(first: EncodeReply, retry: EncodeReply) returns (failure: Option<EncodeError>)
      requires Valid()
      modifies this
      ensures Valid()
      ensures var s := Encode(old(Value()), first, retry);
        Value() == s.next && (failure.None? <==> s.Continue?) &&
        (failure.Some? ==> s.outcome == Panicked(EncodeFailed(failure.value)))
    {
      ghost var c := Value();
      EncodeAsDriven(c, first, retry);
      var written := Answer(first, |outgoing| - outgoingUsed);
      if written.Err? && written.error.InsufficientSize? {
        outgoing := Resize(outgoing, outgoingUsed + written.error.requiredSize);
        written := Answer(retry, |outgoing| - outgoingUsed);
      }
      if written.Err? {
        return Some(written.error);
      }
      outgoing := Overwrite(outgoing, outgoingUsed, written.record);
      outgoingUsed := outgoingUsed + |written.record|;
      produced := produced + written.record;
      return None;
    }

    /** `MustTransmitTlsData`: write the pending bytes, reset the count, acknowledge. */
    method TransmitTlsData()
      requires Valid()
      modifies this
      ensures Valid()
      ensures Value() == Transmit(old(Value()))
    {
      socket := SocketWriteAll(socket, outgoing[..outgoingUsed]);
      outgoingUsed := 0;
      engine := engine.(acks := engine.acks + 1);
    }

    /** `NeedsMoreTlsData`: read into `incoming[incomingUsed..]` and advance the count. */
    method ReadTlsData() returns (ok: bool)
      requires Valid()
      modifies this, incoming
      ensures Valid()
      ensures var s := ReadMore(old(Value()));
        Value() == s.next && ok == s.Continue?
    {
      var delivery := SocketRead(socket, incoming.Length - incomingUsed);
      if delivery.None? {
        return false;
      }
      var data := delivery.value.data;
      var i := 0;
      while i < |data|
        modifies incoming
        invariant 0 <= i <= |data|
        invariant forall k :: 0 <= k < incoming.Length ==>
          incoming[k] == (if incomingUsed <= k < incomingUsed + i then data[k - incomingUsed] else old(incoming[k]))
      {
        incoming[incomingUsed + i] := data[i];
        i := i + 1;
      }
      assert incoming[..] == Overwrite(old(incoming[..]), incomingUsed, data);
      incomingUsed := incomingUsed + |data|;
      socket := delivery.value.rest;
      return true;
    }

    /**
     * Drop the `d` bytes the engine consumed: `copy_within(d..used, 0)`,
     * then `used -= d`; `d` above the count fails the assertion.
     */
    method DiscardRecords(d: nat) returns (ok: bool)
      requires Valid()
      modifies this, incoming
      ensures Valid()
      ensures var s := Discard(old(Value()), d);
        Value() == s.next && ok == s.Continue?
    {
      if d == 0 {
        return true;
      }
      if d > incomingUsed {
        return false;
      }
      ghost var before := incoming[..];
      var i := 0;
      while i < incomingUsed - d
        modifies incoming
        invariant 0 <= i <= incomingUsed - d
        invariant forall k :: 0 <= k < i ==> incoming[k] == before[d + k]
        invariant forall k :: i <= k < incoming.Length ==> incoming[k] == before[k]
      {
        incoming[i] := incoming[d + i];
        i := i + 1;
      }
      assert incoming[..] == Compact(before, incomingUsed, d);
      consumed := consumed + before[..d];
      incomingUsed := incomingUsed - d;
      return true;
    }

    /**
     * The drive loop: ask the engine for a status, act on its state, apply
     * the discard; return `Finished` on any other state. The result and the
     * final state are those of `Run`.
     */
    method ProcessState() returns (outcome: Outcome)
      requires Valid()
      modifies this, incoming
      ensures Valid()
      ensures (outcome, Value()) == Run(old(Value()))
    {
      ghost var goal := Run(Value());
      while engine.replies != []
        invariant Valid() && Run(Value()) == goal
        decreases |engine.replies|
      {
        ghost var start := Value();
        var reply := engine.replies[0];
        engine := Show(engine, incoming[..incomingUsed]);
        if reply.ProcessFailed? {
          return Panicked(ProcessTlsRecordsFailed);
        }
        ghost var shown := Value();
        assert shown == start.(engine := Show(start.engine, start.incoming[..start.incomingUsed]));
        var status := reply.status;
        match status.state {
          case MustEncodeTlsData(first, retry) =>
            var failure := EncodeTlsData(first, retry);
            if failure.Some? {
              return Panicked(EncodeFailed(failure.value));
            }
          case MustTransmitTlsData =>
            TransmitTlsData();
          case NeedsMoreTlsData(_) =>
            var ok := ReadTlsData();
            if !ok {
              return Panicked(SocketReadFailed);
            }
          case OtherState =>
            return Finished;
        }
        assert Act(shown, status.state) == Continue(Value());
        var ok := DiscardRecords(status.discard);
        if !ok {
          return Panicked(DiscardExceedsUsed);
        }
        assert Step(start) == Continue(Value());
      }
      return OutOfReplies;
    }
  }
}
